/** Persistent cookie management of resources/lib/services/cookies.py: the
    in-memory `COOKIES` dict, the cookie files per account hash, and the
    expiry test that guards every load. */
module Cookies {
  import opened Wrappers

  /** The start value of the running minimum in `expired` */
  const Sentinel: int := 99999999999999999999

  /** A cookie as the expiry test sees it: `int(cookie.expires)` or None */
  datatype Cookie = Cookie(name: string, expires: Option<int>)

  type Jar = seq<Cookie>

  /** The earliest expiry over the cookies that have one, capped by the
      sentinel */
  function EarliestExpiration(jar: Jar): (m: int)
    ensures m <= Sentinel
    ensures forall k :: 0 <= k < |jar| && jar[k].expires.Some? ==> m <= jar[k].expires.value
    ensures m == Sentinel || exists k :: 0 <= k < |jar| && jar[k].expires == Some(m)
  {
    if jar == [] then Sentinel
    else
      var rest := EarliestExpiration(jar[..|jar| - 1]);
      var last := jar[|jar| - 1];
      if last.expires.Some? && last.expires.value < rest then last.expires.value else rest
  }

  /** `expired(jar)` at time `now` */
  predicate ExpiredAt(jar: Jar, now: int) {
    now > EarliestExpiration(jar)
  }

  /** A jar is expired exactly when some cookie expired strictly before
      `now`, or `now` is past the sentinel. */
  lemma ExpiredIff(jar: Jar, now: int)
    ensures ExpiredAt(jar, now) <==>
      now > Sentinel || exists k :: 0 <= k < |jar| && jar[k].expires.Some? && now > jar[k].expires.value
  {
  }

  /** A jar without expiring cookies is never expired before the sentinel
      time; a cookie expiring exactly at `now` is not yet expired. */
  lemma NoExpiryNeverExpires(jar: Jar, now: int)
    requires now <= Sentinel
    requires forall k :: 0 <= k < |jar| ==> jar[k].expires.Some? ==> jar[k].expires.value >= now
    ensures !ExpiredAt(jar, now)
  {
  }

  /** `expired(cookie_jar)`: the running minimum over the jar */
  method Expired(jar: Jar, now: int) returns (expired: bool)
    ensures expired == ExpiredAt(jar, now)
  {
    var earliest := Sentinel;
    var i := 0;
    while i < |jar|
      invariant 0 <= i <= |jar|
      invariant earliest == EarliestExpiration(jar[..i])
    {
      assert jar[..i + 1][..i] == jar[..i];
      if jar[i].expires.Some? && jar[i].expires.value < earliest {
        earliest := jar[i].expires.value;
      }
      i := i + 1;
    }
    assert jar[..i] == jar;
    expired := now > earliest;
  }

  /** The cookie state: the in-memory dict, the files on disk, and whether
      the cookie directory can be written */
  datatype Store = Store(memory: map<string, Jar>, files: map<string, Jar>, writable: bool)

  /** `load_from_file`: any failure to open or unpickle becomes
      `MissingCookiesError`. */
  function LoadFromFileSpec(s: Store, accountHash: string): (r: Result<Jar>)
    ensures r.Ok? <==> accountHash in s.files
    ensures r.Ok? ==> r.value == s.files[accountHash]
    ensures r.Err? ==> r.exc == MissingCookies
  {
    if accountHash in s.files then Ok(s.files[accountHash]) else Err(MissingCookies)
  }

  /** `load`: a non-empty jar in memory wins over the file; an expired jar
      raises and is not stored, any other jar is stored in memory. */
  function LoadSpec(s: Store, accountHash: string, now: int): (r: (Result<Jar>, Store))
    ensures r.1.files == s.files && r.1.writable == s.writable
    ensures r.0.Ok? ==> r.1.memory == s.memory[accountHash := r.0.value] && !ExpiredAt(r.0.value, now)
    ensures r.0.Err? ==> r.1 == s && r.0.exc in {MissingCookies, CookiesExpired}
    ensures accountHash in s.memory && s.memory[accountHash] != [] ==>
      r.0 == (if ExpiredAt(s.memory[accountHash], now) then Err(CookiesExpired) else Ok(s.memory[accountHash]))
    ensures !(accountHash in s.memory && s.memory[accountHash] != []) ==>
      r.0 == (if accountHash !in s.files then Err(MissingCookies)
              else if ExpiredAt(s.files[accountHash], now) then Err(CookiesExpired)
              else Ok(s.files[accountHash]))
  {
    var loaded := if accountHash in s.memory && s.memory[accountHash] != [] then Ok(s.memory[accountHash])
                  else LoadFromFileSpec(s, accountHash);
    if loaded.Err? then (Err(loaded.exc), s)
    else if ExpiredAt(loaded.value, now) then (Err(CookiesExpired), s)
    else (Ok(loaded.value), s.(memory := s.memory[accountHash := loaded.value]))
  }

  /** `save`: memory first; a failing file write is only logged. */
  function SaveSpec(s: Store, accountHash: string, jar: Jar): (t: Store)
    ensures t.memory == s.memory[accountHash := jar]
    ensures t.files == if s.writable then s.files[accountHash := jar] else s.files
  {
    Store(s.memory[accountHash := jar], if s.writable then s.files[accountHash := jar] else s.files, s.writable)
  }

  /** `delete`: `KeyError` when the jar is not in memory; a missing file is
      only logged. */
  function DeleteSpec(s: Store, accountHash: string): (r: (Result<()>, Store))
    ensures r.0.Ok? <==> accountHash in s.memory
    ensures r.0.Err? ==> r == (Err(KeyError), s)
    ensures r.0.Ok? ==> accountHash !in r.1.memory && accountHash !in r.1.files
    ensures forall h :: h != accountHash ==> (h in r.1.memory <==> h in s.memory) && (h in r.1.files <==> h in s.files)
  {
    if accountHash !in s.memory then (Err(KeyError), s)
    else (Ok(()), Store(s.memory - {accountHash}, s.files - {accountHash}, s.writable))
  }

  /** A saved jar that has not expired is what the next load returns,
      from memory, whatever the disk did. */
  lemma SaveThenLoad(s: Store, accountHash: string, jar: Jar, now: int)
    requires jar != [] && !ExpiredAt(jar, now)
    ensures LoadSpec(SaveSpec(s, accountHash, jar), accountHash, now) == (Ok(jar), SaveSpec(s, accountHash, jar))
  {
    var t := SaveSpec(s, accountHash, jar);
    assert t.memory[accountHash := jar] == t.memory;
  }

  /** A jar loaded once is loaded again unchanged while it has not expired,
      even when its file is gone by then. */
  lemma LoadIsStable(s: Store, accountHash: string, now: int, later: int)
    requires LoadSpec(s, accountHash, now).0.Ok?
    requires LoadSpec(s, accountHash, now).0.value != []
    requires !ExpiredAt(LoadSpec(s, accountHash, now).0.value, later)
    ensures var first := LoadSpec(s, accountHash, now);
            var t := first.1.(files := first.1.files - {accountHash});
            LoadSpec(t, accountHash, later) == (first.0, t)
  {
    var first := LoadSpec(s, accountHash, now);
    var t := first.1.(files := first.1.files - {accountHash});
    assert t.memory[accountHash] == first.0.value;
    assert t.memory[accountHash := first.0.value] == t.memory;
  }

  /** After `delete`, a load finds nothing. */
  lemma DeleteThenLoad(s: Store, accountHash: string, now: int)
    requires accountHash in s.memory
    ensures LoadSpec(DeleteSpec(s, accountHash).1, accountHash, now).0 == Err(MissingCookies)
  {
  }

  /** The module with its `COOKIES` dict and the cookie files */
  class CookieJars {
    var memory: map<string, Jar>
    var files: map<string, Jar>
    const writable: bool

    function StoreOf(): Store
      reads this
    {
      Store(memory, files, writable)
    }

    constructor(files: map<string, Jar>, writable: bool)
      ensures StoreOf() == Store(map[], files, writable)
    {
      memory := map[];
      this.files := files;
      this.writable := writable;
    }

    method Save(accountHash: string, jar: Jar)
      modifies this`memory, this`files
      ensures StoreOf() == old(SaveSpec(StoreOf(), accountHash, jar))
    {
      memory := memory[accountHash := jar];
      if writable {
        files := files[accountHash := jar];
      }
    }

    method Delete(accountHash: string) returns (r: Result<()>)
      modifies this`memory, this`files
      ensures (r, StoreOf()) == old(DeleteSpec(StoreOf(), accountHash))
    {
      if accountHash !in memory {
        return Err(KeyError);
      }
      memory := memory - {accountHash};
      files := files - {accountHash};
      r := Ok(());
    }

    method LoadFromFile(accountHash: string) returns (r: Result<Jar>)
      ensures r == LoadFromFileSpec(StoreOf(), accountHash)
    {
      if accountHash !in files {
        return Err(MissingCookies);
      }
      r := Ok(files[accountHash]);
    }

    method Load(accountHash: string, now: int) returns (r: Result<Jar>)
      modifies this`memory
      ensures (r, StoreOf()) == old(LoadSpec(StoreOf(), accountHash, now))
    {
      var jar: Jar;
      if accountHash in memory && memory[accountHash] != [] {
        jar := memory[accountHash];
      } else {
        var fromFile := LoadFromFile(accountHash);
        if fromFile.Err? {
          return Err(fromFile.exc);
        }
        jar := fromFile.value;
      }
      var expired := Expired(jar, now);
      if expired {
        return Err(CookiesExpired);
      }
      memory := memory[accountHash := jar];
      r := Ok(jar);
    }
  }
}
