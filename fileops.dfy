/** `check_folder_path` of resources/lib/common/fileops.py: append the
    missing trailing separator to a folder path. */
module FileOps {
  const Slash: char := '/'
  const Backslash: char := '\\'

  predicate EndsWith(s: string, c: char) {
    |s| > 0 && s[|s| - 1] == c
  }

  /** The separator the function appends, if any. The backslash test runs
      second, so it wins when both apply. */
  function Ending(check: string): (end: string)
    ensures |end| <= 1
    ensures Backslash in check && !EndsWith(check, Backslash) ==> end == [Backslash]
    ensures !(Backslash in check && !EndsWith(check, Backslash)) ==>
      end == (if Slash in check && !EndsWith(check, Slash) then [Slash] else [])
  {
    var end := if Slash in check && !EndsWith(check, Slash) then [Slash] else [];
    if Backslash in check && !EndsWith(check, Backslash) then [Backslash] else end
  }

  /** `check_folder_path(path)` */
  function CheckFolderPath(path: string): (r: string)
    ensures |path| <= |r| <= |path| + 1 && r[..|path|] == path
    ensures Slash !in path && Backslash !in path ==> r == path
    ensures Slash in path || Backslash in path ==> EndsWith(r, Slash) || EndsWith(r, Backslash)
  {
    path + Ending(path)
  }

  /** A path that uses one kind of separator only is fixed by one call. */
  lemma SingleSeparatorIsIdempotent(path: string)
    requires !(Slash in path && Backslash in path)
    ensures CheckFolderPath(CheckFolderPath(path)) == CheckFolderPath(path)
  {
    var r := CheckFolderPath(path);
    if Backslash in path {
      assert Slash !in r;
    } else if Slash in path {
      assert Backslash !in r;
    }
  }

  /** A path with both kinds of separator never settles: each call appends
      the separator it does not end with. */
  lemma MixedSeparatorsNeverSettle(path: string)
    requires Slash in path && Backslash in path
    ensures CheckFolderPath(path) != path
    ensures CheckFolderPath(CheckFolderPath(path)) != CheckFolderPath(path)
  {
    var r := CheckFolderPath(path);
    assert Slash in r && Backslash in r by {
      assert r[..|path|] == path;
    }
  }

  /** The smallest example: a mixed path that ends in neither */
  lemma MixedPathExample()
    ensures CheckFolderPath("a/b\\c") == "a/b\\c\\"
    ensures CheckFolderPath("a/b\\c\\") == "a/b\\c\\/"
  {
    assert Slash in "a/b\\c" && Backslash in "a/b\\c";
    assert Slash in "a/b\\c\\";
  }
}
