/** Helpers of resources/lib/common/misc_utils.py: `find`, `build_url` and
    its parts, `is_numeric` over Python's `int()`, and the error
    collection of `execute_tasks`. */
module MiscUtils {
  import opened Wrappers
  import opened Json
  import KodiOps
  import VideoIds

  /** `find`: the loop over the search space. It is the search of
      `find_season`: the first video whose id prints as `videoId`, then
      `KeyError` or `{}` according to `raiseExc`. */
  method Find(videoId: string, searchSpace: Json, raiseExc: bool) returns (r: Result<Json>)
    ensures KodiOps.Items(searchSpace).Err? ==> r == Err(TypeError)
    ensures KodiOps.Items(searchSpace).Ok? ==>
      r == KodiOps.FindSeason(videoId, KodiOps.Items(searchSpace).value, raiseExc)
  {
    var items := KodiOps.Items(searchSpace);
    if items.Err? {
      return Err(TypeError);
    }
    var videos := items.value;
    var i := 0;
    assert videos[0..] == videos;
    while i < |videos|
      invariant 0 <= i <= |videos|
      invariant KodiOps.FindSeason(videoId, videos, raiseExc) == KodiOps.FindSeason(videoId, videos[i..], raiseExc)
    {
      FindStep(videoId, videos, i, raiseExc);
      var id := Index(videos[i], "id");
      if id.Err? {
        return Err(id.exc);
      }
      if Str(id.value) == videoId {
        return Ok(videos[i]);
      }
      i := i + 1;
    }
    assert videos[i..] == [];
    r := KodiOps.NotFound(raiseExc);
  }

  /** One pass of the loop of `find`, from the `i`th video on */
  lemma FindStep(videoId: string, videos: seq<Json>, i: nat, raiseExc: bool)
    requires i < |videos|
    ensures var id := Index(videos[i], "id");
            KodiOps.FindSeason(videoId, videos[i..], raiseExc) ==
              if id.Err? then Err(id.exc)
              else if Str(id.value) == videoId then Ok(videos[i])
              else KodiOps.FindSeason(videoId, videos[i + 1..], raiseExc)
  {
    assert videos[i..][0] == videos[i] && videos[i..][1..] == videos[i + 1..];
  }

  // Python's int() on a string

  predicate IsSpace(c: char) {
    c == ' ' || ('\t' <= c <= '\r')
  }

  predicate IsDigit(c: char) {
    '0' <= c <= '9'
  }

  predicate AllDigits(s: string) {
    forall k | 0 <= k < |s| :: IsDigit(s[k])
  }

  /** `s.strip()`: leading and trailing whitespace removed */
  function Strip(s: string): (t: string)
    ensures |t| <= |s|
    ensures t == [] || (!IsSpace(t[0]) && !IsSpace(t[|t| - 1]))
    ensures (s == [] || (!IsSpace(s[0]) && !IsSpace(s[|s| - 1]))) ==> t == s
    decreases |s|
  {
    if s == [] then []
    else if IsSpace(s[0]) then Strip(s[1..])
    else if IsSpace(s[|s| - 1]) then Strip(s[..|s| - 1])
    else s
  }

  /** The value of a string of decimal digits, most significant first */
  function DigitsValue(s: string): nat
    requires AllDigits(s)
    decreases |s|
  {
    if s == [] then 0 else DigitsValue(s[..|s| - 1]) * 10 + (s[|s| - 1] - '0') as nat
  }

  /** An integer literal: an optional sign followed by one or more digits */
  predicate IntLiteral(t: string) {
    || (t != [] && AllDigits(t))
    || (|t| > 1 && t[0] in {'-', '+'} && AllDigits(t[1..]))
  }

  /** `int(s)`: optional surrounding whitespace, an optional sign and at
      least one decimal digit; anything else raises `ValueError`. */
  function ParseInt(s: string): (r: Result<int>)
    ensures r.Err? ==> r.exc == ValueError
    ensures r.Ok? <==> IntLiteral(Strip(s))
    ensures AllDigits(s) && s != [] ==> r == Ok(DigitsValue(s))
  {
    var t := Strip(s);
    var negative := |t| > 0 && t[0] == '-';
    var digits := if |t| > 0 && t[0] in {'-', '+'} then t[1..] else t;
    if digits == [] || !AllDigits(digits) then Err(ValueError)
    else if negative then Ok(0 - DigitsValue(digits))
    else Ok(DigitsValue(digits))
  }

  lemma {:induction false} DigitsOfNat(n: nat)
    ensures DigitsValue(NatToString(n)) == n
    decreases n
  {
    var s := NatToString(n);
    if n >= 10 {
      DigitsOfNat(n / 10);
      assert s[..|s| - 1] == NatToString(n / 10);
    } else {
      assert s[..|s| - 1] == [];
    }
  }

  /** `int(str(i)) == i` for every integer: the printed form parses back */
  lemma ParseIntOfStr(i: int)
    ensures ParseInt(Str(JInt(i))) == Ok(i)
  {
    var n: nat := if i < 0 then -i else i;
    var digits := NatToString(n);
    DigitsOfNat(n);
    assert AllDigits(digits);
    var s := Str(JInt(i));
    if i < 0 {
      assert s == "-" + digits;
      assert s[1..] == digits;
      SignedParses(digits);
    } else {
      assert s == digits;
      assert ParseInt(s) == Ok(DigitsValue(digits));
    }
  }

  /** A minus sign before digits parses to the negated value. */
  lemma SignedParses(digits: string)
    requires digits != [] && AllDigits(digits)
    ensures ParseInt("-" + digits) == Ok(0 - DigitsValue(digits))
  {
    var s := "-" + digits;
    assert s[1..] == digits;
    assert !IsSpace(s[0]) && s[|s| - 1] == digits[|digits| - 1];
    assert Strip(s) == s;
  }

  /** `is_numeric`: whether `int()` accepts the string */
  function IsNumeric(s: string): (b: bool)
    ensures b <==> ParseInt(s).Ok?
    ensures b ==> exists k :: 0 <= k < |s| && IsDigit(s[k])
    ensures s == [] ==> !b
  {
    var r := ParseInt(s);
    if r.Ok? then
      var t := Strip(s);
      var digits := if |t| > 0 && t[0] in {'-', '+'} then t[1..] else t;
      assert digits[0] in t;
      StripIsInside(s, digits[0]);
      true
    else false
  }

  lemma {:induction false} StripIsInside(s: string, c: char)
    requires c in Strip(s)
    ensures c in s
    decreases |s|
  {
    if s != [] && IsSpace(s[0]) {
      StripIsInside(s[1..], c);
    } else if s != [] && IsSpace(s[|s| - 1]) {
      StripIsInside(s[..|s| - 1], c);
    }
  }

  /** Every printed integer is numeric */
  lemma PrintedIntsAreNumeric(i: int)
    ensures IsNumeric(Str(JInt(i)))
  {
    ParseIntOfStr(i);
  }

  /** A string without digits is not numeric */
  lemma DigitFreeIsNotNumeric(s: string)
    requires forall k | 0 <= k < |s| :: !IsDigit(s[k])
    ensures !IsNumeric(s)
  {
  }

  // build_url

  /** `'/'.join(segments)` */
  function Join(segments: seq<string>): (s: string)
    ensures segments == [] ==> s == []
    ensures |segments| == 1 ==> s == segments[0]
  {
    if segments == [] then []
    else if |segments| == 1 then segments[0]
    else segments[0] + "/" + Join(segments[1..])
  }

  /** `s.split('/')` */
  function Split(s: string): (r: seq<string>)
    ensures |r| >= 1
    decreases |s|
  {
    if '/' in s then
      var k := FirstSlash(s);
      [s[..k]] + Split(s[k + 1..])
    else [s]
  }

  function FirstSlash(s: string): (k: nat)
    requires '/' in s
    ensures k < |s| && s[k] == '/' && '/' !in s[..k]
    decreases |s|
  {
    if s[0] == '/' then 0
    else
      var k := FirstSlash(s[1..]);
      assert s[..k + 1] == [s[0]] + s[1..][..k];
      k + 1
  }

  predicate SlashFree(segments: seq<string>) {
    forall k | 0 <= k < |segments| :: '/' !in segments[k]
  }

  /** Joining slash-free segments and splitting the result gives them back */
  lemma {:induction false} SplitJoin(segments: seq<string>)
    requires segments != [] && SlashFree(segments)
    ensures Split(Join(segments)) == segments
    decreases |segments|
  {
    if |segments| > 1 {
      var s := Join(segments);
      var head := segments[0];
      assert s == head + ("/" + Join(segments[1..]));
      assert s[..|head|] == head;
      FirstSlashAt(s, |head|);
      assert s[|head| + 1..] == Join(segments[1..]);
      assert SlashFree(segments[1..]) by {
        forall k | 0 <= k < |segments[1..]|
          ensures '/' !in segments[1..][k]
        {
          assert segments[1..][k] == segments[k + 1];
        }
      }
      SplitJoin(segments[1..]);
    }
  }

  /** The first slash is the one with no slash before it. */
  lemma FirstSlashAt(s: string, n: nat)
    requires n < |s| && s[n] == '/' && '/' !in s[..n]
    ensures FirstSlash(s) == n
  {
  }

  /** `_expand_mode`: a falsy mode contributes no segment */
  function ExpandMode(mode: Option<string>): (r: seq<string>)
    ensures r == [] <==> mode.None? || mode.value == ""
    ensures r != [] ==> r == [mode.value]
  {
    if mode.Some? && mode.value != "" then [mode.value] else []
  }

  /** `_expand_videoid`: the id's path; a None in it makes the join raise */
  function ExpandVideoId(videoid: Option<VideoIds.VideoId>): (r: Result<seq<string>>)
    ensures videoid.None? ==> r == Ok([])
    ensures videoid.Some? ==> (r.Ok? <==> VideoIds.Strings(VideoIds.ToPath(videoid.value)).Some?)
  {
    if videoid.None? then Ok([])
    else
      match VideoIds.Strings(VideoIds.ToPath(videoid.value))
      case Some(p) => Ok(p)
      case None => Err(TypeError)
  }

  /** `_encode_params`: `urlencode` is a library call and is a parameter */
  function EncodeParams(params: seq<(string, string)>, urlencode: seq<(string, string)> -> string): (q: string)
    ensures params == [] ==> q == ""
    ensures params != [] ==> |q| >= 1 && q[0] == '?' && q[1..] == urlencode(params)
  {
    if params == [] then "" else "?" + urlencode(params)
  }

  /** `build_url`: the base URL, the path of mode, path items and video id
      segments, and the query, separated by slashes */
  function BuildUrl(baseUrl: string, pathitems: seq<string>, videoid: Option<VideoIds.VideoId>,
                    params: seq<(string, string)>, mode: Option<string>,
                    urlencode: seq<(string, string)> -> string): (r: Result<string>)
    ensures pathitems == [] && videoid.None? ==> r == Err(ValueError)
    ensures (pathitems != [] || videoid.Some?) ==> (r.Ok? <==> ExpandVideoId(videoid).Ok?)
    ensures r.Ok? ==> exists path ::
      && path == Join(ExpandMode(mode) + pathitems + ExpandVideoId(videoid).value)
      && r.value == baseUrl + "/" + path + "/" + EncodeParams(params, urlencode)
  {
    if pathitems == [] && videoid.None? then Err(ValueError)
    else
      var idPath :- ExpandVideoId(videoid);
      var path := Join(ExpandMode(mode) + pathitems + idPath);
      Ok(baseUrl + "/" + path + "/" + EncodeParams(params, urlencode))
  }

  /** The path of a built URL splits back into mode, path items and the
      video id's path, in that order, when no segment holds a slash. */
  lemma UrlPathSplitsIntoSegments(baseUrl: string, pathitems: seq<string>, videoid: Option<VideoIds.VideoId>,
                                  params: seq<(string, string)>, mode: Option<string>,
                                  urlencode: seq<(string, string)> -> string)
    requires BuildUrl(baseUrl, pathitems, videoid, params, mode, urlencode).Ok?
    requires SlashFree(ExpandMode(mode) + pathitems + ExpandVideoId(videoid).value)
    ensures var url := BuildUrl(baseUrl, pathitems, videoid, params, mode, urlencode).value;
            var segments := ExpandMode(mode) + pathitems + ExpandVideoId(videoid).value;
            var query := EncodeParams(params, urlencode);
            && |url| == |baseUrl| + 1 + |Join(segments)| + 1 + |query|
            && Split(url[|baseUrl| + 1..|url| - |query| - 1]) == segments
  {
    var segments := ExpandMode(mode) + pathitems + ExpandVideoId(videoid).value;
    var url := BuildUrl(baseUrl, pathitems, videoid, params, mode, urlencode).value;
    var query := EncodeParams(params, urlencode);
    assert url == baseUrl + "/" + Join(segments) + "/" + query;
    Between(baseUrl, Join(segments), query);
    SplitJoin(segments);
  }

  /** The part between the slash after `head` and the slash before `tail` */
  lemma Between(head: string, middle: string, tail: string)
    ensures var s := head + "/" + middle + "/" + tail;
            |s| == |head| + 1 + |middle| + 1 + |tail| && s[|head| + 1..|s| - |tail| - 1] == middle
  {
    var s := head + "/" + middle + "/" + tail;
    assert s == (head + "/") + middle + ("/" + tail);
  }

  // execute_tasks

  /** One entry of the returned error list */
  datatype TaskError = TaskError(taskTitle: Json, error: Exc)

  const UnknownTask := JStr("Unknown Task")

  /** `int(task_num / len(tasks) * 100)` as written: under Python 2 the
      division of two ints floors, so the product is 0 before the end. */
  function ProgressPercent(taskNum: nat, count: nat): int
    requires taskNum < count
  {
    (taskNum / count) * 100
  }

  lemma ProgressIsAlwaysZero(taskNum: nat, count: nat)
    requires taskNum < count
    ensures ProgressPercent(taskNum, count) == 0
  {
  }

  /** The second of two tasks is shown at 0 percent rather than 50 */
  lemma HalfwayShowsZero()
    ensures ProgressPercent(1, 2) == 0
    ensures IntendedProgressPercent(1, 2) == 50
  {
  }

  /** The percentage the progress dialog is evidently meant to show */
  function IntendedProgressPercent(taskNum: nat, count: nat): (p: int)
    requires taskNum < count
    ensures 0 <= p < 100
    ensures taskNum > 0 ==> p > 0 || count > 100
  {
    taskNum * 100 / count
  }

  /** The intended percentage grows with the task number */
  lemma IntendedProgressIsMonotone(i: nat, j: nat, count: nat)
    requires i <= j < count
    ensures IntendedProgressPercent(i, count) <= IntendedProgressPercent(j, count)
  {
    DivIsMonotone(i * 100, j * 100, count);
  }

  lemma DivIsMonotone(a: nat, b: nat, c: nat)
    requires a <= b && c > 0
    ensures a / c <= b / c
  {
    var qa, qb := a / c, b / c;
    assert a == qa * c + a % c;
    assert b == qb * c + b % c;
    if qa > qb {
      MulGrows(qb + 1, qa, c);
      assert false;
    }
  }

  lemma MulGrows(x: nat, y: nat, c: nat)
    requires x <= y
    ensures x * c <= y * c
  {
    assert y * c == x * c + (y - x) * c;
  }

  /** The tasks that fail, with their titles, in task order */
  function Failures(tasks: seq<Json>, handler: Json -> Result<()>): (errors: seq<TaskError>)
    requires forall k | 0 <= k < |tasks| :: tasks[k].JObj?
    ensures |errors| <= |tasks|
  {
    if tasks == [] then []
    else
      var title := Get(tasks[0], "title", UnknownTask).value;
      var outcome := handler(tasks[0]);
      (if outcome.Err? then [TaskError(title, outcome.exc)] else []) + Failures(tasks[1..], handler)
  }

  /** The errors of the tasks from `from` on: a task that is not a dict
      makes `.get` raise outside the `try`; a cancel stops the loop. */
  function RunFrom(tasks: seq<Json>, handler: Json -> Result<()>, canceled: nat -> bool, from: nat): Result<seq<TaskError>>
    decreases |tasks| - from
  {
    if from >= |tasks| then Ok([])
    else
      var title :- Get(tasks[from], "title", UnknownTask);
      if canceled(from) then Ok([])
      else
        var rest :- RunFrom(tasks, handler, canceled, from + 1);
        var outcome := handler(tasks[from]);
        Ok((if outcome.Err? then [TaskError(title, outcome.exc)] else []) + rest)
  }

  function Prepend(errors: seq<TaskError>, r: Result<seq<TaskError>>): Result<seq<TaskError>> {
    if r.Ok? then Ok(errors + r.value) else r
  }

  lemma PrependNothing(r: Result<seq<TaskError>>)
    ensures Prepend([], r) == r
  {
    if r.Ok? {
      assert [] + r.value == r.value;
    }
  }

  lemma PrependTwice(first: seq<TaskError>, second: seq<TaskError>, r: Result<seq<TaskError>>)
    ensures Prepend(first, Prepend(second, r)) == Prepend(first + second, r)
  {
    if r.Ok? {
      assert first + (second + r.value) == first + second + r.value;
    }
  }

  /** `execute_tasks`: runs every task through the handler and returns the
      errors; `canceled(i)` is the dialog's cancel flag when task `i` comes
      up. Also returns the progress updates shown, one per task reached,
      with the percentage as written and the task's title. */
  method ExecuteTasks(tasks: seq<Json>, handler: Json -> Result<()>, canceled: nat -> bool)
    returns (r: Result<seq<TaskError>>, shown: seq<(int, Json)>)
    ensures r == RunFrom(tasks, handler, canceled, 0)
    ensures |shown| <= |tasks|
    ensures forall k | 0 <= k < |shown| ::
      shown[k].0 == ProgressPercent(k, |tasks|) && Get(tasks[k], "title", UnknownTask) == Ok(shown[k].1)
    ensures r.Err? ==> |shown| < |tasks| && Get(tasks[|shown|], "title", UnknownTask).Err?
    ensures r.Ok? && |shown| < |tasks| ==> 0 < |shown| && canceled(|shown| - 1)
  {
    var errors: seq<TaskError> := [];
    shown := [];
    var i := 0;
    PrependNothing(RunFrom(tasks, handler, canceled, 0));
    while i < |tasks|
      invariant 0 <= i <= |tasks| && |shown| == i
      invariant RunFrom(tasks, handler, canceled, 0) == Prepend(errors, RunFrom(tasks, handler, canceled, i))
      invariant forall k | 0 <= k < i ::
        shown[k].0 == ProgressPercent(k, |tasks|) && Get(tasks[k], "title", UnknownTask) == Ok(shown[k].1)
    {
      var title := Get(tasks[i], "title", UnknownTask);
      if title.Err? {
        return Err(title.exc), shown;
      }
      shown := shown + [(ProgressPercent(i, |tasks|), title.value)];
      if canceled(i) {
        assert errors + [] == errors;
        return Ok(errors), shown;
      }
      var outcome := handler(tasks[i]);
      var own := if outcome.Err? then [TaskError(title.value, outcome.exc)] else [];
      PrependTwice(errors, own, RunFrom(tasks, handler, canceled, i + 1));
      errors := errors + own;
      i := i + 1;
    }
    assert errors + [] == errors;
    r := Ok(errors);
  }

  /** Without a cancel, every task runs and each failing one is reported
      once, in task order, with its title. */
  lemma {:induction false} UncanceledReportsEveryFailure(tasks: seq<Json>, handler: Json -> Result<()>,
                                                         canceled: nat -> bool, from: nat)
    requires from <= |tasks|
    requires forall k | 0 <= k < |tasks| :: tasks[k].JObj?
    requires forall k | from <= k < |tasks| :: !canceled(k)
    ensures RunFrom(tasks, handler, canceled, from) == Ok(Failures(tasks[from..], handler))
    decreases |tasks| - from
  {
    if from < |tasks| {
      UncanceledReportsEveryFailure(tasks, handler, canceled, from + 1);
      assert tasks[from..][1..] == tasks[from + 1..];
    }
  }

  /** A cancel at task `k` discards the later tasks: the outcome is that of
      the tasks before it. */
  lemma {:induction false} CancelStopsAtTask(tasks: seq<Json>, handler: Json -> Result<()>,
                                             canceled: nat -> bool, from: nat, k: nat)
    requires from <= k < |tasks| && canceled(k)
    requires forall j | 0 <= j <= k :: tasks[j].JObj?
    requires forall j | from <= j < k :: !canceled(j)
    ensures RunFrom(tasks, handler, canceled, from) == Ok(Failures(tasks[from..k], handler))
    decreases k - from
  {
    if from < k {
      CancelStopsAtTask(tasks, handler, canceled, from + 1, k);
      assert tasks[from..k][1..] == tasks[from + 1..k];
    }
  }
}
