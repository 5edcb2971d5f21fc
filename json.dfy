/** The dynamic values the add-on reads from Netflix responses and Kodi
    JSON-RPC: nested dicts, lists and scalars, with the Python operations
    the modelled code applies to them (`d[k]`, `d.get(k, default)`,
    truthiness, `str()`). */
module Json {
  import opened Wrappers

  datatype Json =
    | JNull
    | JBool(b: bool)
    | JInt(i: int)
    | JStr(s: string)
    | JList(items: seq<Json>)
    | JObj(fields: map<string, Json>)

  /** Python truthiness of a value */
  predicate Truthy(j: Json) {
    match j
    case JNull => false
    case JBool(b) => b
    case JInt(i) => i != 0
    case JStr(s) => s != ""
    case JList(xs) => xs != []
    case JObj(m) => m != map[]
  }

  /** `j[key]` with a string key: a dict gives the value or `KeyError`;
      any other value rejects a string subscript with `TypeError`. */
  function Index(j: Json, key: string): (r: Result<Json>)
    ensures r.Ok? <==> j.JObj? && key in j.fields
    ensures r.Ok? ==> r.value == j.fields[key]
    ensures r.Err? ==> r.exc == (if j.JObj? then KeyError else TypeError)
  {
    match j
    case JObj(m) => if key in m then Ok(m[key]) else Err(KeyError)
    case _ => Err(TypeError)
  }

  /** `j.get(key, default)`: only dicts have `get`. */
  function Get(j: Json, key: string, default: Json): (r: Result<Json>)
    ensures r.Err? <==> !j.JObj?
    ensures r.Err? ==> r.exc == AttributeError
    ensures j.JObj? && key !in j.fields ==> r == Ok(default)
    ensures j.JObj? && key in j.fields ==> r == Ok(j.fields[key])
  {
    match j
    case JObj(m) => Ok(if key in m then m[key] else default)
    case _ => Err(AttributeError)
  }

  /** A value used as an integer operand: booleans count as 0 and 1;
      other non-numbers raise `TypeError`. */
  function AsInt(j: Json): (r: Result<int>)
    ensures j.JInt? ==> r == Ok(j.i)
    ensures j.JBool? ==> r == Ok(if j.b then 1 else 0)
    ensures r.Err? <==> !j.JInt? && !j.JBool?
    ensures r.Err? ==> r.exc == TypeError
  {
    match j
    case JInt(n) => Ok(n)
    case JBool(b) => Ok(if b then 1 else 0)
    case _ => Err(TypeError)
  }

  /** `key` is a substring of `s` */
  predicate Occurs(key: string, s: string)
    decreases |s|
  {
    |key| <= |s| && (s[..|key|] == key || Occurs(key, s[1..]))
  }

  /** `key in j`: a key of a dict, an element of a list, a substring of a
      string; numbers and None raise `TypeError`. */
  function Contains(j: Json, key: string): (r: Result<bool>)
    ensures j.JObj? ==> r == Ok(key in j.fields)
    ensures j.JList? ==> r == Ok(JStr(key) in j.items)
    ensures j.JStr? ==> r == Ok(Occurs(key, j.s))
    ensures r.Err? <==> j.JNull? || j.JBool? || j.JInt?
  {
    match j
    case JObj(m) => Ok(key in m)
    case JList(items) => Ok(JStr(key) in items)
    case JStr(s) => Ok(Occurs(key, s))
    case _ => Err(TypeError)
  }

  /** `n >= j` in Python 2, where None is below every number and strings,
      lists and dicts are above them */
  predicate IntAtLeast(n: int, j: Json) {
    match j
    case JNull => true
    case JBool(b) => n >= (if b then 1 else 0)
    case JInt(m) => n >= m
    case _ => false
  }

  /** `n <= j` in Python 2 */
  predicate IntAtMost(n: int, j: Json) {
    match j
    case JNull => false
    case JBool(b) => n <= (if b then 1 else 0)
    case JInt(m) => n <= m
    case _ => true
  }

  /** `len(j)`: strings, lists and dicts have a length; None and numbers
      raise `TypeError`. */
  function Len(j: Json): (r: Result<nat>)
    ensures r.Err? <==> j.JNull? || j.JBool? || j.JInt?
    ensures r.Err? ==> r.exc == TypeError
    ensures j.JStr? ==> r == Ok(|j.s|)
    ensures j.JList? ==> r == Ok(|j.items|)
  {
    match j
    case JStr(s) => Ok(|s|)
    case JList(items) => Ok(|items|)
    case JObj(m) => Ok(|m.Keys|)
    case _ => Err(TypeError)
  }

  /** `j[k]` with a non-negative integer index: a list gives its element, a
      string its character; a dict has no integer keys when it comes from
      JSON, so it raises `KeyError`. */
  function At(j: Json, k: nat): (r: Result<Json>)
    ensures j.JList? && k < |j.items| ==> r == Ok(j.items[k])
    ensures j.JStr? && k < |j.s| ==> r == Ok(JStr([j.s[k]]))
    ensures r.Ok? <==> (j.JList? && k < |j.items|) || (j.JStr? && k < |j.s|)
  {
    match j
    case JList(items) => if k < |items| then Ok(items[k]) else Err(IndexError)
    case JStr(s) => if k < |s| then Ok(JStr([s[k]])) else Err(IndexError)
    case JObj(_) => Err(KeyError)
    case _ => Err(TypeError)
  }

  /** `d[k1][k2]...`: following `path` down nested dicts */
  function GetPath(node: Json, path: seq<string>): Result<Json>
    decreases |path|
  {
    if path == [] then Ok(node)
    else
      var child :- Index(node, path[0]);
      GetPath(child, path[1..])
  }

  /** Text made of ASCII characters only: what Python 2 can decode
      implicitly when a byte string meets a unicode one */
  predicate AsciiText(s: string) {
    forall k :: 0 <= k < |s| ==> s[k] < 128 as char
  }

  /** Decimal digits of a natural number, as `str()` prints it */
  function NatToString(n: nat): (s: string)
    ensures s != []
    ensures forall k :: 0 <= k < |s| ==> '0' <= s[k] <= '9'
    decreases n
  {
    var digit := ['0' + (n % 10) as char];
    if n < 10 then digit else NatToString(n / 10) + digit
  }

  /** `str()` of a scalar as the code uses it to compare ids; containers
      print as an opening bracket, never equal to a numeric or plain id. */
  function Str(j: Json): string {
    match j
    case JNull => "None"
    case JBool(b) => if b then "True" else "False"
    case JInt(i) => if i < 0 then "-" + NatToString(-i) else NatToString(i)
    case JStr(s) => s
    case JList(_) => "["
    case JObj(_) => "{"
  }
}
