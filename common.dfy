/** The older helper module resources/lib/common.py: its pickle-backed
    key-value storage, `find_episode` over a metadata value, the
    `check_folder_path` variant that filters unicode paths to ASCII, and the
    credential migration of `get_credentials`/`set_credentials`. The cipher
    is a pair of functions given by the caller. */
module Common {
  import opened Wrappers
  import opened Json
  import KodiOps
  import FileOps
  import Settings
  import opened Storage

  /* ---------------- PersistentStorage (pickle) ---------------- */

  const UnpicklingError: Exc := Foreign("UnpicklingError")

  /** `commit`: the contents are written; the model has no failing write */
  function LegacyCommitSpec(s: State): (t: State)
    ensures t.backing == Stored(s.contents)
    ensures t.contents == s.contents && t.dirty == s.dirty
  {
    State(s.contents, s.dirty, Stored(s.contents))
  }

  /** `_load_from_disk`: without a backing file nothing changes, not even
      the dirty flag, so every later read tries again. */
  function LegacyLoadSpec(s: State): (r: (Result<()>, State))
    ensures s.backing.Missing? ==> r == (Ok(()), s)
    ensures s.backing.Corrupt? ==> r == (Err(UnpicklingError), s)
    ensures s.backing.Stored? ==> r == (Ok(()), State(s.backing.contents, false, s.backing))
  {
    match s.backing
    case Missing => (Ok(()), s)
    case Corrupt => (Err(UnpicklingError), s)
    case Stored(m) => (Ok(()), State(m, false, s.backing))
  }

  /** The `contents` property */
  function LegacyContentsSpec(s: State): (r: (Result<map<string, Json>>, State))
    ensures !s.dirty || s.backing.Missing? ==> r == (Ok(s.contents), s)
    ensures r.0.Ok? ==> r.0.value == r.1.contents
    ensures r.1.backing == s.backing
  {
    if !s.dirty then (Ok(s.contents), s)
    else
      var l := LegacyLoadSpec(s);
      if l.0.Err? then (Err(l.0.exc), l.1) else (Ok(l.1.contents), l.1)
  }

  /** `get(key, default)` */
  function LegacyGetSpec(s: State, key: string, default: Json): (r: (Result<Json>, State)) {
    var c := LegacyContentsSpec(s);
    if c.0.Err? then (Err(c.0.exc), c.1)
    else (Ok(if key in c.0.value then c.0.value[key] else default), c.1)
  }

  /** `s[key]` */
  function LegacyGetItemSpec(s: State, key: string): (r: (Result<Json>, State)) {
    var c := LegacyContentsSpec(s);
    if c.0.Err? then (Err(c.0.exc), c.1)
    else if key in c.0.value then (Ok(c.0.value[key]), c.1)
    else (Err(KeyError), c.1)
  }

  /** `s[key] = value`: store, commit, mark dirty */
  function LegacySetItemSpec(s: State, key: string, value: Json): (t: State)
    ensures t.contents == s.contents[key := value] && t.dirty
    ensures t.backing == Stored(t.contents)
  {
    var c := LegacyCommitSpec(State(s.contents[key := value], s.dirty, s.backing));
    State(c.contents, true, c.backing)
  }

  /** `clear`: empty, then commit */
  function LegacyClearSpec(s: State): (t: State)
    ensures t.contents == map[] && t.dirty == s.dirty && t.backing == Stored(map[])
  {
    LegacyCommitSpec(State(map[], s.dirty, s.backing))
  }

  /** A value just set is what the next read returns: the reload reads
      back the file the commit wrote. */
  lemma LegacySetThenGet(s: State, key: string, value: Json, default: Json)
    ensures LegacyGetSpec(LegacySetItemSpec(s, key, value), key, default) ==
            (Ok(value), State(s.contents[key := value], false, Stored(s.contents[key := value])))
    ensures LegacyGetItemSpec(LegacySetItemSpec(s, key, value), key).0 == Ok(value)
  {
  }

  /** After `clear`, every key reads as its default. */
  lemma LegacyClearThenGet(s: State, key: string, default: Json)
    ensures LegacyGetSpec(LegacyClearSpec(s), key, default).0 == Ok(default)
    ensures LegacyGetItemSpec(LegacyClearSpec(s), key).0 == Err(KeyError)
  {
  }

  /** Without a backing file, reads keep answering from memory and the
      storage stays dirty however often it is read. */
  lemma MissingFileStaysDirty(s: State, key: string, default: Json)
    requires s.backing.Missing? && s.dirty
    ensures LegacyGetSpec(s, key, default).1 == s
    ensures LegacyGetSpec(s, key, default).0 == Ok(if key in s.contents then s.contents[key] else default)
  {
  }

  class LegacyStorage {
    const storageId: string
    var contents: map<string, Json>
    var dirty: bool
    var backing: Backing

    function StateOf(): State
      reads this
    {
      State(contents, dirty, backing)
    }

    constructor(storageId: string, backing: Backing)
      ensures this.storageId == storageId
      ensures StateOf() == State(map[], true, backing)
    {
      this.storageId := storageId;
      contents := map[];
      dirty := true;
      this.backing := backing;
    }

    method Commit()
      modifies this`backing
      ensures StateOf() == old(LegacyCommitSpec(StateOf()))
    {
      backing := Stored(contents);
    }

    method LoadFromDisk() returns (r: Result<()>)
      modifies this`contents, this`dirty
      ensures (r, StateOf()) == old(LegacyLoadSpec(StateOf()))
    {
      match backing {
        case Missing =>
        case Corrupt =>
          return Err(UnpicklingError);
        case Stored(m) =>
          contents := m;
          dirty := false;
      }
      r := Ok(());
    }

    method Contents() returns (r: Result<map<string, Json>>)
      modifies this`contents, this`dirty
      ensures (r, StateOf()) == old(LegacyContentsSpec(StateOf()))
    {
      if dirty {
        var loaded := LoadFromDisk();
        if loaded.Err? {
          return Err(loaded.exc);
        }
      }
      r := Ok(contents);
    }

    method Get(key: string, default: Json) returns (r: Result<Json>)
      modifies this`contents, this`dirty
      ensures (r, StateOf()) == old(LegacyGetSpec(StateOf(), key, default))
    {
      var c := Contents();
      if c.Err? {
        return Err(c.exc);
      }
      r := Ok(if key in c.value then c.value[key] else default);
    }

    method GetItem(key: string) returns (r: Result<Json>)
      modifies this`contents, this`dirty
      ensures (r, StateOf()) == old(LegacyGetItemSpec(StateOf(), key))
    {
      var c := Contents();
      if c.Err? {
        return Err(c.exc);
      }
      if key !in c.value {
        return Err(KeyError);
      }
      r := Ok(c.value[key]);
    }

    method SetItem(key: string, value: Json)
      modifies this`contents, this`dirty, this`backing
      ensures StateOf() == old(LegacySetItemSpec(StateOf(), key, value))
    {
      contents := contents[key := value];
      Commit();
      dirty := true;
    }

    method Clear()
      modifies this`contents, this`backing
      ensures StateOf() == old(LegacyClearSpec(StateOf()))
    {
      contents := map[];
      Commit();
    }
  }

  /* ---------------- find_episode ---------------- */

  /** `find_episode(episode_id, seasons)`: the first episode across the
      seasons in order whose id prints as `episodeId`, or `{}`. */
  function FindEpisode(episodeId: string, seasons: Json): (r: Result<Json>)
    ensures seasons.JList? ==> r == KodiOps.FindEpisode(episodeId, seasons.items, false)
    ensures r.Ok? && r.value != JObj(map[]) ==> KodiOps.HasId(r.value, episodeId)
    ensures seasons == JList([]) ==> r == Ok(JObj(map[]))
  {
    var items :- KodiOps.Items(seasons);
    KodiOps.FindEpisode(episodeId, items, false)
  }

  /* ---------------- check_folder_path ---------------- */

  /** `s.encode('ascii', 'ignore')`: the characters outside ASCII dropped */
  function AsciiOnly(s: string): (t: string)
    ensures forall k :: 0 <= k < |t| ==> t[k] < 128 as char
    ensures (forall k :: 0 <= k < |s| ==> s[k] < 128 as char) ==> t == s
    ensures forall c :: c in t ==> c in s
    ensures forall c :: c in s && c < 128 as char ==> c in t
  {
    if s == [] then []
    else if s[0] < 128 as char then [s[0]] + AsciiOnly(s[1..])
    else AsciiOnly(s[1..])
  }

  /** `check_folder_path(path)`: a unicode path decides on its ASCII
      characters only. For a byte string, the module's `unicode_literals`
      make `'/' in path` a unicode test, which decodes the bytes as ASCII
      and raises `UnicodeDecodeError` for any byte from 128 up; an ASCII
      byte string decides on itself. */
  function CheckFolderPath(path: string, isUnicode: bool): (r: Result<string>)
    ensures r.Err? <==> !isUnicode && !AsciiText(path)
    ensures r.Err? ==> r.exc == UnicodeDecodeError
    ensures !isUnicode && r.Ok? ==> r.value == FileOps.CheckFolderPath(path)
    ensures r.Ok? ==> |path| <= |r.value| <= |path| + 1 && r.value[..|path|] == path
    ensures isUnicode ==> r.Ok?
    ensures isUnicode && r.Ok? ==>
              (r.value == path <==> (FileOps.Slash in AsciiOnly(path) ==> FileOps.EndsWith(AsciiOnly(path), FileOps.Slash)) &&
                                    (FileOps.Backslash in AsciiOnly(path) ==> FileOps.EndsWith(AsciiOnly(path), FileOps.Backslash)))
  {
    if isUnicode then Ok(path + FileOps.Ending(AsciiOnly(path)))
    else if AsciiText(path) then Ok(path + FileOps.Ending(path))
    else Err(UnicodeDecodeError)
  }

  /** On ASCII paths both variants agree with the later
      resources/lib/common/fileops.py. */
  lemma AsciiPathsAgree(path: string, isUnicode: bool)
    requires AsciiText(path)
    ensures CheckFolderPath(path, isUnicode) == Ok(FileOps.CheckFolderPath(path))
  {
  }

  /** A byte string holding UTF-8 (here `/home/josé` encoded) is rejected
      before any separator test. */
  lemma NonAsciiBytePathRaises()
    ensures CheckFolderPath("/home/jos\U{00C3}\U{00A9}", false) == Err(UnicodeDecodeError)
  {
    assert !AsciiText("/home/jos\U{00C3}\U{00A9}") by {
      assert "/home/jos\U{00C3}\U{00A9}"[9] == '\U{00C3}';
    }
  }

  /** A unicode path whose last component is all non-ASCII looks to the
      filter as if it ended with the separator, so none is appended. */
  lemma UnicodeTailMissesSeparator()
    ensures CheckFolderPath("a/é", true) == Ok("a/é")
    ensures !FileOps.EndsWith(CheckFolderPath("a/é", true).value, FileOps.Slash)
    ensures FileOps.CheckFolderPath("a/é") == "a/é/"
  {
    assert AsciiOnly("a/é") == "a/";
    assert FileOps.Slash in "a/" && FileOps.Slash in "a/é";
  }

  /* ---------------- credentials ---------------- */

  const EmailKey: string := "email"
  const PasswordKey: string := "password"

  datatype Credentials = Credentials(email: string, password: string)

  /** `set_credentials`: both are stored encrypted, or nothing happens when
      either is empty. */
  function SetCredentialsSpec(values: map<string, string>, email: string, password: string,
                              encrypt: string -> string): (t: map<string, string>)
    ensures email != "" && password != "" ==>
      Settings.Lookup(t, EmailKey) == encrypt(email) && Settings.Lookup(t, PasswordKey) == encrypt(password)
    ensures email == "" || password == "" ==> t == values
    ensures forall k :: k != EmailKey && k != PasswordKey ==> Settings.Lookup(t, k) == Settings.Lookup(values, k)
  {
    if email != "" && password != "" then values[EmailKey := encrypt(email)][PasswordKey := encrypt(password)]
    else values
  }

  /** `get_credentials`: an email with `@` is plaintext, returned as is and
      stored encrypted; otherwise both settings are decrypted, or the
      credentials are empty when either setting is. */
  function GetCredentialsSpec(values: map<string, string>, encrypt: string -> string,
                              decrypt: string -> Result<string>): (r: (Result<Credentials>, map<string, string>))
    ensures var email := Settings.Lookup(values, EmailKey);
            var password := Settings.Lookup(values, PasswordKey);
            ('@' in email ==> r == (Ok(Credentials(email, password)), SetCredentialsSpec(values, email, password, encrypt))) &&
            ('@' !in email ==> r.1 == values) &&
            ('@' !in email && (email == "" || password == "") ==> r.0 == Ok(Credentials("", ""))) &&
            ('@' !in email && email != "" && password != "" ==>
              (r.0.Ok? <==> decrypt(email).Ok? && decrypt(password).Ok?) &&
              (r.0.Ok? ==> r.0.value == Credentials(decrypt(email).value, decrypt(password).value)))
  {
    var email := Settings.Lookup(values, EmailKey);
    var password := Settings.Lookup(values, PasswordKey);
    if '@' in email then (Ok(Credentials(email, password)), SetCredentialsSpec(values, email, password, encrypt))
    else if email != "" && password != "" then
      match decrypt(email)
      case Err(e) => (Err(e), values)
      case Ok(e) =>
        match decrypt(password)
        case Err(e') => (Err(e'), values)
        case Ok(p) => (Ok(Credentials(e, p)), values)
    else (Ok(Credentials("", "")), values)
  }

  /** Credentials stored by `set_credentials` read back as they were given,
      when the cipher's output has no `@`, is never empty, and decrypts to
      its input. */
  lemma StoredCredentialsReadBack(values: map<string, string>, email: string, password: string,
                                  encrypt: string -> string, decrypt: string -> Result<string>)
    requires email != "" && password != ""
    requires forall x :: '@' !in encrypt(x) && encrypt(x) != ""
    requires forall x :: decrypt(encrypt(x)) == Ok(x)
    ensures var stored := SetCredentialsSpec(values, email, password, encrypt);
            GetCredentialsSpec(stored, encrypt, decrypt) == (Ok(Credentials(email, password)), stored)
  {
    var stored := SetCredentialsSpec(values, email, password, encrypt);
    assert Settings.Lookup(stored, EmailKey) == encrypt(email);
    assert Settings.Lookup(stored, PasswordKey) == encrypt(password);
    assert '@' !in encrypt(email);
    assert decrypt(encrypt(email)) == Ok(email) && decrypt(encrypt(password)) == Ok(password);
  }

  /** Plaintext credentials are migrated: the first read returns them and
      encrypts the settings, and every later read returns the same
      credentials without touching the settings. */
  lemma PlaintextCredentialsAreMigrated(values: map<string, string>,
                                        encrypt: string -> string, decrypt: string -> Result<string>)
    requires '@' in Settings.Lookup(values, EmailKey) && Settings.Lookup(values, PasswordKey) != ""
    requires forall x :: '@' !in encrypt(x) && encrypt(x) != ""
    requires forall x :: decrypt(encrypt(x)) == Ok(x)
    ensures var first := GetCredentialsSpec(values, encrypt, decrypt);
            first.0 == Ok(Credentials(Settings.Lookup(values, EmailKey), Settings.Lookup(values, PasswordKey))) &&
            GetCredentialsSpec(first.1, encrypt, decrypt) == (first.0, first.1)
  {
    var email := Settings.Lookup(values, EmailKey);
    var password := Settings.Lookup(values, PasswordKey);
    StoredCredentialsReadBack(values, email, password, encrypt, decrypt);
  }

  /** `set_credentials(email, password)` */
  method SetCredentials(addon: Settings.Addon, email: string, password: string, encrypt: string -> string)
    modifies addon`values
    ensures addon.values == SetCredentialsSpec(old(addon.values), email, password, encrypt)
  {
    if email != "" && password != "" {
      addon.SetSetting(EmailKey, encrypt(email));
      addon.SetSetting(PasswordKey, encrypt(password));
    }
  }

  /** `get_credentials()` */
  method GetCredentials(addon: Settings.Addon, encrypt: string -> string, decrypt: string -> Result<string>)
    returns (r: Result<Credentials>)
    modifies addon`values
    ensures (r, addon.values) == old(GetCredentialsSpec(addon.values, encrypt, decrypt))
  {
    var email := addon.Setting(EmailKey);
    var password := addon.Setting(PasswordKey);
    if '@' in email {
      SetCredentials(addon, email, password, encrypt);
      return Ok(Credentials(email, password));
    }
    if email == "" || password == "" {
      return Ok(Credentials("", ""));
    }
    var e := decrypt(email);
    if e.Err? {
      return Err(e.exc);
    }
    var p := decrypt(password);
    if p.Err? {
      return Err(p.exc);
    }
    r := Ok(Credentials(e.value, p.value));
  }
}
