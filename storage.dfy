/** The key-value storage with a JSON backing file of
    resources/lib/common/storage.py: every write goes through to the file
    and marks the contents dirty, and the next read reloads them. The file
    is part of the state, so "write then read" can be stated. */
module Storage {
  import opened Wrappers
  import opened Json

  /** The backing file: absent or unreadable (`IOError`), not JSON, or the
      dict it holds */
  datatype Backing = Missing | Corrupt | Stored(contents: map<string, Json>)

  datatype State = State(contents: map<string, Json>, dirty: bool, backing: Backing)

  /** `commit`: dump the contents; opening the file for writing can fail. */
  function CommitSpec(s: State, writable: bool): (r: (Result<()>, State))
    ensures r.0.Ok? <==> writable
    ensures r.0.Ok? ==> r.1 == State(s.contents, s.dirty, Stored(s.contents))
    ensures r.0.Err? ==> r == (Err(IOError), s)
  {
    if writable then (Ok(()), State(s.contents, s.dirty, Stored(s.contents)))
    else (Err(IOError), s)
  }

  /** `_load_from_disk`: an `IOError` is logged and the contents are kept,
      but the dirty flag is cleared either way; a file that is not JSON
      raises before the flag is cleared. */
  function LoadSpec(s: State): (r: (Result<()>, State))
    ensures s.backing.Missing? ==> r == (Ok(()), State(s.contents, false, s.backing))
    ensures s.backing.Corrupt? ==> r == (Err(ValueError), s)
    ensures s.backing.Stored? ==> r == (Ok(()), State(s.backing.contents, false, s.backing))
  {
    match s.backing
    case Missing => (Ok(()), State(s.contents, false, s.backing))
    case Corrupt => (Err(ValueError), s)
    case Stored(m) => (Ok(()), State(m, false, s.backing))
  }

  /** The `contents` property: reload first when dirty */
  function ContentsSpec(s: State): (r: (Result<map<string, Json>>, State))
    ensures !s.dirty ==> r == (Ok(s.contents), s)
    ensures r.0.Ok? ==> r.0.value == r.1.contents && !r.1.dirty
    ensures r.1.backing == s.backing
  {
    if !s.dirty then (Ok(s.contents), s)
    else
      var l := LoadSpec(s);
      if l.0.Err? then (Err(l.0.exc), l.1) else (Ok(l.1.contents), l.1)
  }

  /** `get(key, default)` */
  function GetSpec(s: State, key: string, default: Json): (r: (Result<Json>, State)) {
    var c := ContentsSpec(s);
    if c.0.Err? then (Err(c.0.exc), c.1)
    else (Ok(if key in c.0.value then c.0.value[key] else default), c.1)
  }

  /** `s[key]` */
  function GetItemSpec(s: State, key: string): (r: (Result<Json>, State)) {
    var c := ContentsSpec(s);
    if c.0.Err? then (Err(c.0.exc), c.1)
    else if key in c.0.value then (Ok(c.0.value[key]), c.1)
    else (Err(KeyError), c.1)
  }

  /** `s[key] = value`: store, commit, then mark dirty. A failing commit
      raises before the flag is set. */
  function SetItemSpec(s: State, key: string, value: Json, writable: bool): (r: (Result<()>, State))
    ensures r.1.contents == s.contents[key := value]
    ensures r.0.Ok? <==> writable
    ensures r.0.Ok? ==> r.1.dirty && r.1.backing == Stored(r.1.contents)
  {
    var stored := State(s.contents[key := value], s.dirty, s.backing);
    var c := CommitSpec(stored, writable);
    if c.0.Err? then c else (Ok(()), State(c.1.contents, true, c.1.backing))
  }

  /** `clear`: empty the contents, then commit */
  function ClearSpec(s: State, writable: bool): (r: (Result<()>, State))
    ensures r.1.contents == map[] && r.1.dirty == s.dirty
    ensures r.0.Ok? ==> r.1.backing == Stored(map[])
  {
    CommitSpec(State(map[], s.dirty, s.backing), writable)
  }

  /** With a faithful disk, a value just set is what `get` returns, whatever
      the default. */
  lemma SetThenGet(s: State, key: string, value: Json, default: Json)
    requires SetItemSpec(s, key, value, true).0.Ok?
    ensures GetSpec(SetItemSpec(s, key, value, true).1, key, default).0 == Ok(value)
    ensures GetItemSpec(SetItemSpec(s, key, value, true).1, key).0 == Ok(value)
  {
  }

  /** After a clear that reached the disk, every key reads as its default. */
  lemma ClearThenGet(s: State, key: string, default: Json)
    ensures var cleared := ClearSpec(s, true).1;
            GetSpec(cleared, key, default).0 == Ok(default)
  {
  }

  /** `get` gives the default exactly for the keys the contents lack. */
  lemma GetGivesDefaultForMissingKeys(s: State, key: string, default: Json)
    requires ContentsSpec(s).0.Ok?
    ensures var c := ContentsSpec(s).0.value;
            GetSpec(s, key, default).0 == Ok(if key in c then c[key] else default)
    ensures key !in ContentsSpec(s).0.value <==> GetItemSpec(s, key).0 == Err(KeyError)
  {
  }

  class PersistentStorage {
    const storageId: string
    /** Whether the backing file can be opened for writing */
    const writable: bool
    var contents: map<string, Json>
    var dirty: bool
    var backing: Backing

    function StateOf(): State
      reads this
    {
      State(contents, dirty, backing)
    }

    /** A new instance starts empty and dirty, so the first read loads. */
    constructor(storageId: string, backing: Backing, writable: bool)
      ensures this.storageId == storageId && this.writable == writable
      ensures StateOf() == State(map[], true, backing)
    {
      this.storageId := storageId;
      this.writable := writable;
      contents := map[];
      dirty := true;
      this.backing := backing;
    }

    method Commit() returns (r: Result<()>)
      modifies this`backing
      ensures (r, StateOf()) == old(CommitSpec(StateOf(), writable))
    {
      if !writable {
        return Err(IOError);
      }
      backing := Stored(contents);
      r := Ok(());
    }

    method LoadFromDisk() returns (r: Result<()>)
      modifies this`contents, this`dirty
      ensures (r, StateOf()) == old(LoadSpec(StateOf()))
    {
      match backing {
        case Corrupt =>
          return Err(ValueError);
        case Missing =>
        case Stored(m) =>
          contents := m;
      }
      dirty := false;
      r := Ok(());
    }

    method Contents() returns (r: Result<map<string, Json>>)
      modifies this`contents, this`dirty
      ensures (r, StateOf()) == old(ContentsSpec(StateOf()))
    {
      if dirty {
        var loaded := LoadFromDisk();
        if loaded.Err? {
          return Err(loaded.exc);
        }
      }
      r := Ok(contents);
    }

    method Get(key: string, default: Json) returns (r: Result<Json>)
      modifies this`contents, this`dirty
      ensures (r, StateOf()) == old(GetSpec(StateOf(), key, default))
    {
      var c := Contents();
      if c.Err? {
        return Err(c.exc);
      }
      r := Ok(if key in c.value then c.value[key] else default);
    }

    method GetItem(key: string) returns (r: Result<Json>)
      modifies this`contents, this`dirty
      ensures (r, StateOf()) == old(GetItemSpec(StateOf(), key))
    {
      var c := Contents();
      if c.Err? {
        return Err(c.exc);
      }
      if key !in c.value {
        return Err(KeyError);
      }
      r := Ok(c.value[key]);
    }

    method SetItem(key: string, value: Json) returns (r: Result<()>)
      modifies this`contents, this`dirty, this`backing
      ensures (r, StateOf()) == old(SetItemSpec(StateOf(), key, value, writable))
    {
      contents := contents[key := value];
      r := Commit();
      if r.Err? {
        return;
      }
      dirty := true;
    }

    method Clear() returns (r: Result<()>)
      modifies this`contents, this`backing
      ensures (r, StateOf()) == old(ClearSpec(StateOf(), writable))
    {
      contents := map[];
      r := Commit();
    }

    /** `__del__`: the contents are committed when the instance goes away. */
    method Destroy() returns (r: Result<()>)
      modifies this`backing
      ensures (r, StateOf()) == old(CommitSpec(StateOf(), writable))
    {
      r := Commit();
    }
  }
}
