/** The MSL video and audio profiles of
    resources/lib/services/msl/profiles.py: the generated profile strings
    and the selection of profile groups by the add-on settings. */
module Profiles {
  const Hevc: string := "hevc-main-"
  const HevcM10: string := "hevc-main10-"
  const CencPrk: string := "dash-cenc-prk"
  const Cenc: string := "dash-cenc"
  const CencTl: string := "dash-cenc-tl"
  const Hdr: string := "hevc-hdr-main10-"
  const Dv: string := "hevc-dv-main10-"
  const Dv5: string := "hevc-dv5-main10-"

  const BaseLevels: seq<string> := ["L30-", "L31-", "L40-", "L41-", "L50-", "L51-"]
  const CencTlLevels: seq<string> := ["L30-L31-", "L31-L40-", "L40-L41-", "L50-L51-"]

  /** A tail: the levels and the suffix that follows each */
  type Tail = (seq<string>, string)

  /** The number of strings a list of tails generates */
  function LevelCount(tails: seq<Tail>): nat {
    if tails == [] then 0 else |tails[0].0| + LevelCount(tails[1..])
  }

  /** `_profile_strings(base, tails)`: tails in the outer loop, levels in
      the inner loop */
  function ProfileStrings(base: string, tails: seq<Tail>): (r: seq<string>)
    ensures |r| == LevelCount(tails)
  {
    if tails == [] then []
    else
      var (levels, suffix) := tails[0];
      seq(|levels|, i requires 0 <= i < |levels| => base + levels[i] + suffix) + ProfileStrings(base, tails[1..])
  }

  /** The level counts of the leading tails add up. */
  lemma LevelCountPrefix(tails: seq<Tail>, t: nat)
    requires t < |tails|
    ensures LevelCount(tails[..t]) + |tails[t].0| <= LevelCount(tails)
    ensures t + 1 == |tails| ==> LevelCount(tails[..t]) + |tails[t].0| == LevelCount(tails)
    decreases t
  {
    if t > 0 {
      assert tails[..t][1..] == tails[1..][..t - 1];
      LevelCountPrefix(tails[1..], t - 1);
    }
  }

  /** The string for level `l` of tail `t` is `base + level + suffix`, and
      it comes after every string of the earlier tails. */
  lemma {:induction false} ProfileStringAt(base: string, tails: seq<Tail>, t: nat, l: nat)
    requires t < |tails| && l < |tails[t].0|
    ensures LevelCount(tails[..t]) + l < |ProfileStrings(base, tails)|
    ensures ProfileStrings(base, tails)[LevelCount(tails[..t]) + l] == base + tails[t].0[l] + tails[t].1
    decreases t
  {
    LevelCountPrefix(tails, t);
    if t > 0 {
      assert tails[..t][1..] == tails[1..][..t - 1];
      ProfileStringAt(base, tails[1..], t - 1, l);
    }
  }

  const BaseProfiles: seq<string> := [
    "playready-h264bpl30-dash", "playready-h264mpl30-dash",
    "playready-h264mpl31-dash", "playready-h264mpl40-dash",
    "heaac-2-dash",
    "dfxp-ls-sdh", "simplesdh", "webvtt-lssdh-ios8",
    "BIF240", "BIF320"]
  const DolbySound: seq<string> := ["ddplus-2.0-dash", "ddplus-5.1-dash"]
  const Atmos: seq<string> := ["ddplus-atmos-dash"]
  const HevcProfiles: seq<string> :=
    ProfileStrings(Hevc, [(BaseLevels, Cenc), (CencTlLevels, CencTl)]) +
    ProfileStrings(HevcM10, [(BaseLevels, Cenc), (BaseLevels[..4], CencPrk), (CencTlLevels, CencTl)])
  const HdrProfiles: seq<string> := ProfileStrings(Hdr, [(BaseLevels, Cenc), (BaseLevels, CencPrk)])
  const DolbyVisionProfiles: seq<string> :=
    ProfileStrings(Dv, [(BaseLevels, Cenc)]) + ProfileStrings(Dv5, [(BaseLevels, CencPrk)])

  /** The sizes of the generated groups */
  lemma GroupSizes()
    ensures |HevcProfiles| == 24 && |HdrProfiles| == 12 && |DolbyVisionProfiles| == 12
  {
    var cenc: Tail, prk: Tail := (BaseLevels, Cenc), (BaseLevels, CencPrk);
    var tl: Tail, prk4: Tail := (CencTlLevels, CencTl), (BaseLevels[..4], CencPrk);
    assert |BaseLevels| == 6 && |BaseLevels[..4]| == 4 && |CencTlLevels| == 4;
    assert LevelCount([tl]) == 4 by { assert [tl][1..] == []; }
    assert LevelCount([cenc]) == 6 by { assert [cenc][1..] == []; }
    assert LevelCount([prk]) == 6 by { assert [prk][1..] == []; }
    assert LevelCount([prk4, tl]) == 8 by { assert [prk4, tl][1..] == [tl]; }
    assert LevelCount([cenc, tl]) == 10 by { assert [cenc, tl][1..] == [tl]; }
    assert LevelCount([cenc, prk4, tl]) == 14 by { assert [cenc, prk4, tl][1..] == [prk4, tl]; }
    assert LevelCount([cenc, prk]) == 12 by { assert [cenc, prk][1..] == [prk]; }
  }

  /** The settings a group depends on: one name or a list of names */
  datatype SettingNames = One(name: string) | Many(names: seq<string>)

  /** `settings if isinstance(settings, list) else [settings]` */
  function AsList(settings: SettingNames): (names: seq<string>)
    ensures settings.One? ==> names == [settings.name]
    ensures settings.Many? ==> names == settings.names
  {
    match settings
    case One(n) => [n]
    case Many(ns) => ns
  }

  /** `_additional_profiles(group, settings)`: the group when every named
      setting is on, nothing otherwise */
  function AdditionalProfiles(group: seq<string>, settings: SettingNames, setting: string -> bool): (r: seq<string>)
    ensures r == group || r == []
    ensures (forall k :: 0 <= k < |AsList(settings)| ==> setting(AsList(settings)[k])) ==> r == group
    ensures (exists k :: 0 <= k < |AsList(settings)| && !setting(AsList(settings)[k])) ==> r == []
  {
    var names := AsList(settings);
    if forall k :: 0 <= k < |names| ==> setting(names[k]) then group else []
  }

  /** A group that names one setting needs it. */
  lemma OneSetting(group: seq<string>, name: string, setting: string -> bool)
    ensures AdditionalProfiles(group, One(name), setting) == (if setting(name) then group else [])
  {
    assert AsList(One(name))[0] == name;
  }

  /** A group that names two settings needs both. */
  lemma BothSettings(group: seq<string>, first: string, second: string, setting: string -> bool)
    ensures AdditionalProfiles(group, Many([first, second]), setting) ==
            (if setting(first) && setting(second) then group else [])
  {
    var names := AsList(Many([first, second]));
    assert names[0] == first && names[1] == second;
    if setting(first) && setting(second) {
      assert forall k :: 0 <= k < |names| ==> setting(names[k]) by {
        forall k | 0 <= k < |names| ensures setting(names[k]) {
          assert k == 0 || k == 1;
        }
      }
    }
  }

  const EnableDolbySound: string := "enable_dolby_sound"
  const EnableAtmosSound: string := "enable_atmos_sound"
  const EnableHevc: string := "enable_hevc_profiles"
  const EnableHdr: string := "enable_hdr_profiles"
  const EnableDolbyVision: string := "enable_dolbyvision_profiles"

  /** `enabled_profiles()`, `setting` standing for `getSettingBool` */
  function EnabledProfiles(setting: string -> bool): (r: seq<string>)
    ensures |r| >= |BaseProfiles| && r[..|BaseProfiles|] == BaseProfiles
    ensures var hevc := setting(EnableHevc);
      r == BaseProfiles + (if setting(EnableDolbySound) then DolbySound else []) +
           (if setting(EnableAtmosSound) then Atmos else []) +
           (if hevc then HevcProfiles else []) +
           (if hevc && setting(EnableHdr) then HdrProfiles else []) +
           (if hevc && setting(EnableDolbyVision) then DolbyVisionProfiles else [])
  {
    OneSetting(DolbySound, EnableDolbySound, setting);
    OneSetting(Atmos, EnableAtmosSound, setting);
    OneSetting(HevcProfiles, EnableHevc, setting);
    BothSettings(HdrProfiles, EnableHevc, EnableHdr, setting);
    BothSettings(DolbyVisionProfiles, EnableHevc, EnableDolbyVision, setting);
    BaseProfiles +
    AdditionalProfiles(DolbySound, One(EnableDolbySound), setting) +
    AdditionalProfiles(Atmos, One(EnableAtmosSound), setting) +
    AdditionalProfiles(HevcProfiles, One(EnableHevc), setting) +
    AdditionalProfiles(HdrProfiles, Many([EnableHevc, EnableHdr]), setting) +
    AdditionalProfiles(DolbyVisionProfiles, Many([EnableHevc, EnableDolbyVision]), setting)
  }

  /** Without HEVC, neither HDR nor Dolby Vision is offered, whatever their
      own settings say: only the base and the sound groups remain. */
  lemma NoHevcNoHdr(setting: string -> bool)
    requires !setting(EnableHevc)
    ensures EnabledProfiles(setting) ==
      BaseProfiles + (if setting(EnableDolbySound) then DolbySound else []) +
      (if setting(EnableAtmosSound) then Atmos else [])
  {
  }

  /** With every setting on, all groups follow the base in the fixed order. */
  lemma AllEnabled(setting: string -> bool)
    requires forall s :: setting(s)
    ensures EnabledProfiles(setting) ==
      BaseProfiles + DolbySound + Atmos + HevcProfiles + HdrProfiles + DolbyVisionProfiles
    ensures |EnabledProfiles(setting)| == 10 + 2 + 1 + 24 + 12 + 12
  {
    GroupSizes();
  }
}
