/** The add-on settings as the modelled code reads and writes them through
    `xbmcaddon.Addon`: string settings (a missing one reads as `''`) and
    integer settings (a missing one reads as 0), and the write-once rule
    for the ESN setting that three modules of the add-on repeat. */
module Settings {
  const EsnKey: string := "esn"

  /** A string setting: a missing one reads as `''` */
  function Lookup(values: map<string, string>, key: string): (v: string)
    ensures key !in values ==> v == ""
    ensures key in values ==> v == values[key]
  {
    if key in values then values[key] else ""
  }

  class Addon {
    var values: map<string, string>
    var ints: map<string, int>

    constructor(values: map<string, string>, ints: map<string, int>)
      ensures this.values == values && this.ints == ints
    {
      this.values := values;
      this.ints := ints;
    }

    /** `getSetting(key)` */
    function Setting(key: string): string
      reads this
    {
      Lookup(values, key)
    }

    /** `getSettingInt(key)` */
    function SettingInt(key: string): int
      reads this
    {
      if key in ints then ints[key] else 0
    }

    /** `setSetting(key, value)` */
    method SetSetting(key: string, value: string)
      modifies this`values
      ensures values == old(values)[key := value]
    {
      values := values[key := value];
    }
  }

  /** `set_esn`'s decision on the stored ESN: whether it writes, and the
      ESN stored afterwards */
  function EsnSpec(stored: string, esn: string): (r: (bool, string))
    ensures r.0 <==> stored == "" && esn != ""
    ensures r.1 == (if r.0 then esn else stored)
    ensures r.1 == "" ==> stored == "" && esn == ""
  {
    if stored == "" && esn != "" then (true, esn) else (false, stored)
  }

  /** Once an ESN is stored, no later `set_esn` changes it. */
  lemma EsnIsWrittenOnce(stored: string, first: string, later: string)
    requires EsnSpec(stored, first).0
    ensures EsnSpec(EsnSpec(stored, first).1, later) == (false, first)
  {
  }

  /** `set_esn(esn)` over an add-on's settings */
  method SetEsn(addon: Addon, esn: string) returns (written: bool)
    modifies addon`values
    ensures (written, addon.Setting(EsnKey)) == old(EsnSpec(addon.Setting(EsnKey), esn))
    ensures addon.values == if written then old(addon.values)[EsnKey := esn] else old(addon.values)
  {
    if addon.Setting(EsnKey) == "" && esn != "" {
      addon.SetSetting(EsnKey, esn);
      return true;
    }
    return false;
  }
}
