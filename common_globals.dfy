/** The module globals of resources/lib/common/globals.py, reassigned by
    each `init_globals(argv)`, and its ESN accessors. */
module CommonGlobals {
  import opened Wrappers
  import Globals
  import Settings

  /** The module's global variables */
  class Module {
    const addon: Settings.Addon
    var cacheTtl: int
    var cacheMetadataTtl: int
    var invocation: Globals.Invocation

    constructor(addon: Settings.Addon)
      ensures this.addon == addon
    {
      this.addon := addon;
      cacheTtl := 0;
      cacheMetadataTtl := 0;
      invocation := Globals.Invocation(0, "", "", "");
    }

    /** `init_globals(argv)`: the TTL settings in seconds, then the
        argument rules; a bad `argv` leaves the previous invocation */
    method InitGlobals(argv: seq<string>, urlparse: string -> Globals.UrlParts) returns (r: Result<()>)
      modifies this
      ensures cacheTtl == Globals.TtlSeconds(addon.SettingInt("cache_ttl"))
      ensures cacheMetadataTtl == Globals.TtlSeconds(addon.SettingInt("cache_metadata_ttl"))
      ensures r.Ok? <==> Globals.ParseArgv(argv, urlparse).Ok?
      ensures r.Ok? ==> invocation == Globals.ParseArgv(argv, urlparse).value
      ensures r.Err? ==> r.exc == Globals.ParseArgv(argv, urlparse).exc && invocation == old(invocation)
    {
      cacheTtl := Globals.TtlSeconds(addon.SettingInt("cache_ttl"));
      cacheMetadataTtl := Globals.TtlSeconds(addon.SettingInt("cache_metadata_ttl"));
      var parsed := Globals.ParseArgv(argv, urlparse);
      if parsed.Err? {
        return Err(parsed.exc);
      }
      invocation := parsed.value;
      r := Ok(());
    }

    /** `get_esn()` */
    function Esn(): string
      reads this, addon
    {
      addon.Setting(Settings.EsnKey)
    }

    /** `set_esn(esn)` */
    method SetEsn(esn: string) returns (written: bool)
      modifies addon`values
      ensures (written, Esn()) == old(Settings.EsnSpec(Esn(), esn))
      ensures addon.values == if written then old(addon.values)[Settings.EsnKey := esn] else old(addon.values)
    {
      written := Settings.SetEsn(addon, esn);
    }
  }
}
