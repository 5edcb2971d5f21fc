/** The response handling of resources/lib/services/msl/msl_handler.py:
    splitting a chunked MSL response into its header and payload chunks,
    the error check on decoded responses, and the assembly of the
    decrypted chunk data. Base64, JSON decoding, the cipher and gzip are
    library calls and come in as the functions of `Codecs`. */
module MslHandler {
  import opened Wrappers
  import opened Json

  // Splitting

  /** `s.split(sep)` for a non-empty separator: the pieces between the
      occurrences of `sep`, found from the left without overlapping */
  function StrSplit(s: string, sep: string): (pieces: seq<string>)
    requires sep != []
    ensures |pieces| >= 1
    ensures |pieces[0]| <= |s| && s[..|pieces[0]|] == pieces[0]
    decreases |s|
  {
    if |s| < |sep| then [s]
    else if s[..|sep|] == sep then [""] + StrSplit(s[|sep|..], sep)
    else
      var rest := StrSplit(s[1..], sep);
      [[s[0]] + rest[0]] + rest[1..]
  }

  /** `sep.join(pieces)` */
  function JoinWith(pieces: seq<string>, sep: string): string
    requires pieces != []
    decreases |pieces|
  {
    if |pieces| == 1 then pieces[0] else pieces[0] + sep + JoinWith(pieces[1..], sep)
  }

  /** Splitting loses nothing: joining the pieces gives the string back. */
  lemma {:induction false} SplitThenJoin(s: string, sep: string)
    requires sep != []
    ensures JoinWith(StrSplit(s, sep), sep) == s
    decreases |s|
  {
    var pieces := StrSplit(s, sep);
    if |s| < |sep| {
    } else if s[..|sep|] == sep {
      SplitThenJoin(s[|sep|..], sep);
      assert pieces[1..] == StrSplit(s[|sep|..], sep);
      assert s == s[..|sep|] + s[|sep|..];
    } else {
      var rest := StrSplit(s[1..], sep);
      SplitThenJoin(s[1..], sep);
      if |rest| == 1 {
        assert s == [s[0]] + s[1..];
      } else {
        assert pieces[1..] == rest[1..];
        assert JoinWith(rest, sep) == rest[0] + sep + JoinWith(rest[1..], sep);
        assert s == [s[0]] + s[1..];
      }
    }
  }

  predicate StartsWith(s: string, prefix: string) {
    |prefix| <= |s| && s[..|prefix|] == prefix
  }

  /** The first piece is the text before the first occurrence of the
      separator; with no occurrence there is one piece, the whole string. */
  lemma {:induction false} FirstPieceEndsAtFirstOccurrence(s: string, sep: string)
    requires sep != []
    ensures var pieces := StrSplit(s, sep);
            && (|pieces| == 1 ==> pieces[0] == s)
            && (|pieces| >= 2 ==> StartsWith(s[|pieces[0]|..], sep))
            && (forall j :: 0 <= j < |pieces[0]| ==> !StartsWith(s[j..], sep))
            && (|pieces| == 1 ==> forall j :: 0 <= j <= |s| ==> !StartsWith(s[j..], sep))
    decreases |s|
  {
    var pieces := StrSplit(s, sep);
    if |s| < |sep| {
    } else if s[..|sep|] == sep {
    } else {
      FirstPieceEndsAtFirstOccurrence(s[1..], sep);
      forall j | 1 <= j <= |s|
        ensures s[j..] == s[1..][j - 1..]
      {
      }
    }
  }

  /** Splitting at an occurrence that is the first one */
  lemma {:induction false} SplitAtFirst(a: string, b: string, sep: string)
    requires sep != []
    requires forall j :: 0 <= j < |a| ==> !StartsWith((a + sep + b)[j..], sep)
    ensures StrSplit(a + sep + b, sep) == [a] + StrSplit(b, sep)
    decreases |a|
  {
    var s := a + sep + b;
    if a == [] {
      assert s == sep + b && s[..|sep|] == sep && s[|sep|..] == b;
    } else {
      assert !StartsWith(s[0..], sep);
      assert s[0..] == s;
      var t := a[1..] + sep + b;
      assert t == s[1..];
      forall j | 0 <= j < |a| - 1
        ensures !StartsWith(t[j..], sep)
      {
        assert t[j..] == s[j + 1..];
      }
      SplitAtFirst(a[1..], b, sep);
      assert [s[0]] + a[1..] == a;
    }
  }

  /** A string without the separator is one piece. */
  lemma {:induction false} SplitWithoutOccurrence(s: string, sep: string)
    requires sep != []
    requires forall j :: 0 <= j < |s| ==> !StartsWith(s[j..], sep)
    ensures StrSplit(s, sep) == [s]
    decreases |s|
  {
    if |s| >= |sep| {
      assert s[0..] == s;
      forall j | 0 <= j < |s| - 1
        ensures !StartsWith(s[1..][j..], sep)
      {
        assert s[1..][j..] == s[j + 1..];
      }
      SplitWithoutOccurrence(s[1..], sep);
      assert [s[0]] + s[1..] == s;
    }
  }

  // The signature pattern of `_parse_chunks`: `,"signature":"[0-9A-Za-z=/+]+"}`

  const SignatureStart: string := ",\"signature\":\""
  const SignatureEnd: string := "\"}"
  const Close: string := "}}"

  predicate SignatureChar(c: char) {
    ('0' <= c <= '9') || ('A' <= c <= 'Z') || ('a' <= c <= 'z') || c == '=' || c == '/' || c == '+'
  }

  /** The longest run of signature characters at the start of `s` */
  function SignatureRun(s: string): (n: nat)
    ensures n <= |s|
    ensures forall k :: 0 <= k < n ==> SignatureChar(s[k])
    ensures n < |s| ==> !SignatureChar(s[n])
    decreases |s|
  {
    if s == [] || !SignatureChar(s[0]) then 0 else 1 + SignatureRun(s[1..])
  }

  /** The length of the match of the signature pattern at the start of `s`,
      0 when there is none. The character class excludes `"`, so the
      greedy run is the only candidate. */
  function SignatureMatch(s: string): (k: nat)
    ensures k <= |s|
    ensures k > 0 ==> StartsWith(s, SignatureStart)
  {
    if StartsWith(s, SignatureStart) then
      var n := SignatureRun(s[|SignatureStart|..]);
      if n > 0 && StartsWith(s[|SignatureStart| + n..], SignatureEnd) then |SignatureStart| + n + |SignatureEnd| else 0
    else 0
  }

  /** `re.split(pattern, s)` for the signature pattern */
  function SignatureSplit(s: string): (pieces: seq<string>)
    ensures |pieces| >= 1
    decreases |s|
  {
    if s == [] then [""]
    else if SignatureMatch(s) > 0 then [""] + SignatureSplit(s[SignatureMatch(s)..])
    else
      var rest := SignatureSplit(s[1..]);
      [[s[0]] + rest[0]] + rest[1..]
  }

  /** `[x + '}' for x in pieces][:-1]` */
  function Payloads(pieces: seq<string>): (payloads: seq<string>)
    requires pieces != []
    ensures |payloads| == |pieces| - 1
    ensures forall i :: 0 <= i < |payloads| ==> payloads[i] == pieces[i] + "}"
    decreases |pieces|
  {
    if |pieces| == 1 then [] else [pieces[0] + "}"] + Payloads(pieces[1..])
  }

  datatype Chunks = Chunks(header: string, payloads: seq<string>)

  /** `_parse_chunks(message)`: the header is the text up to the first
      `}}`, and the payloads come from the text between it and the next
      `}}`; a message without `}}` raises `IndexError`. */
  function ParseChunks(message: string): (r: Result<Chunks>)
    ensures r.Err? ==> r == Err(IndexError)
    ensures r.Ok? ==> |r.value.header| >= 2 && StartsWith(message, r.value.header) && EndsWithClose(r.value.header)
    ensures r.Ok? ==> forall i :: 0 <= i < |r.value.payloads| ==> EndsWithClosingBrace(r.value.payloads[i])
  {
    var parts := StrSplit(message, Close);
    if |parts| < 2 then Err(IndexError)
    else
      FirstPieceEndsAtFirstOccurrence(message, Close);
      Ok(Chunks(parts[0] + Close, Payloads(SignatureSplit(parts[1]))))
  }

  predicate EndsWithClose(s: string) {
    |s| >= 2 && s[|s| - 2..] == Close
  }

  predicate EndsWithClosingBrace(s: string) {
    |s| >= 1 && s[|s| - 1] == '}'
  }

  /** The header is the text before the first `}}`, and a message without
      `}}` is rejected. */
  lemma HeaderEndsAtFirstClose(message: string)
    ensures ParseChunks(message).Err? <==> forall j :: 0 <= j <= |message| ==> !StartsWith(message[j..], Close)
    ensures ParseChunks(message).Ok? ==>
      var h := ParseChunks(message).value.header;
      forall j :: 0 <= j < |h| - 2 ==> !StartsWith(message[j..], Close)
  {
    FirstPieceEndsAtFirstOccurrence(message, Close);
    var parts := StrSplit(message, Close);
    if |parts| >= 2 {
      assert StartsWith(message[|parts[0]|..], Close);
    }
  }

  // The chunked format the parser expects

  /** A payload chunk as the server sends it: a JSON object opened by
      `body` and closed by its signature */
  datatype SignedChunk = SignedChunk(body: string, signature: string)

  /** A body holds no `,` and no `}`; a signature is a non-empty run of
      the signature characters. */
  predicate WellFormedChunk(c: SignedChunk) {
    && ',' !in c.body && '}' !in c.body
    && c.signature != [] && forall k :: 0 <= k < |c.signature| ==> SignatureChar(c.signature[k])
  }

  function EncodeChunk(c: SignedChunk): string {
    c.body + SignatureStart + c.signature + SignatureEnd
  }

  function EncodeChunks(chunks: seq<SignedChunk>): string
    decreases |chunks|
  {
    if chunks == [] then "" else EncodeChunk(chunks[0]) + EncodeChunks(chunks[1..])
  }

  /** A chunked message: the header, whose text before its closing `}}`
      holds no `}`, then the payload chunks */
  function Chunked(header: string, chunks: seq<SignedChunk>): string {
    header + Close + EncodeChunks(chunks)
  }

  /** `[c.body + '}' for c in chunks]` */
  function ClosedBodies(chunks: seq<SignedChunk>): (payloads: seq<string>)
    ensures |payloads| == |chunks|
    ensures forall i :: 0 <= i < |chunks| ==> payloads[i] == chunks[i].body + "}"
    decreases |chunks|
  {
    if chunks == [] then [] else [chunks[0].body + "}"] + ClosedBodies(chunks[1..])
  }

  /** Parsing a well-formed chunked message gives back its header and the
      bodies of its chunks, each closed by `}`. */
  lemma ParseChunked(header: string, chunks: seq<SignedChunk>)
    requires '}' !in header
    requires forall i :: 0 <= i < |chunks| ==> WellFormedChunk(chunks[i])
    ensures ParseChunks(Chunked(header, chunks)) == Ok(Chunks(header + Close, ClosedBodies(chunks)))
  {
    var rest := EncodeChunks(chunks);
    NoCloseInChunks(chunks);
    SplitAtHeader(header, rest);
    SplitChunks(chunks);
    PayloadsOfSplit(chunks);
  }

  /** The first `}}` of a header without `}` is the one that closes it. */
  lemma SplitAtHeader(header: string, rest: string)
    requires '}' !in header
    requires forall j :: 0 <= j < |rest| ==> !StartsWith(rest[j..], Close)
    ensures StrSplit(header + Close + rest, Close) == [header, rest]
  {
    var message := header + Close + rest;
    forall j | 0 <= j < |header|
      ensures !StartsWith(message[j..], Close)
    {
      assert header[j] in header;
      assert message[j..][0] == header[j] != Close[0];
    }
    SplitAtFirst(header, rest, Close);
    SplitWithoutOccurrence(rest, Close);
  }

  /** The encoded chunks never hold `}}`: each `}` ends a chunk, and the
      next chunk starts with a body character or `,`. */
  lemma {:induction false} NoCloseInChunks(chunks: seq<SignedChunk>)
    requires forall i :: 0 <= i < |chunks| ==> WellFormedChunk(chunks[i])
    ensures forall j :: 0 <= j < |EncodeChunks(chunks)| ==> !StartsWith(EncodeChunks(chunks)[j..], Close)
    ensures EncodeChunks(chunks) != [] ==> EncodeChunks(chunks)[0] != '}'
    decreases |chunks|
  {
    if chunks != [] {
      var c := chunks[0];
      var e := EncodeChunk(c);
      var rest := EncodeChunks(chunks[1..]);
      var s := e + rest;
      NoCloseInChunks(chunks[1..]);
      assert forall k :: 0 <= k < |e| - 1 ==> e[k] != '}' by {
        assert e == c.body + SignatureStart + c.signature + SignatureEnd;
        forall k | 0 <= k < |e| - 1
          ensures e[k] != '}'
        {
          if k < |c.body| {
            assert e[k] == c.body[k];
          } else if k < |c.body| + |SignatureStart| {
            assert e[k] == SignatureStart[k - |c.body|];
          } else if k < |c.body| + |SignatureStart| + |c.signature| {
            assert e[k] == c.signature[k - |c.body| - |SignatureStart|];
            assert SignatureChar(c.signature[k - |c.body| - |SignatureStart|]);
          } else {
            assert e[k] == '"';
          }
        }
      }
      forall j | 0 <= j < |s|
        ensures !StartsWith(s[j..], Close)
      {
        if j < |e| - 1 {
          assert s[j..][0] == e[j];
        } else if j == |e| - 1 {
          if rest != [] {
            assert s[j..][1] == rest[0];
          }
        } else {
          assert s[j..] == rest[j - |e|..];
        }
      }
      if c.body != [] {
        assert s[0] == c.body[0];
      } else {
        assert s[0] == ',';
      }
    }
  }

  /** A body without `,` holds no match of the signature pattern. */
  lemma {:induction false} SplitBody(body: string, rest: string)
    requires ',' !in body
    ensures var tail := SignatureSplit(rest);
            SignatureSplit(body + rest) == [body + tail[0]] + tail[1..]
    decreases |body|
  {
    var tail := SignatureSplit(rest);
    if body == [] {
      assert body + rest == rest;
      assert body + tail[0] == tail[0];
      assert [tail[0]] + tail[1..] == tail;
    } else {
      var s := body + rest;
      assert s[0] == body[0] && s[0] != SignatureStart[0];
      assert !StartsWith(s, SignatureStart);
      assert s[1..] == body[1..] + rest;
      SplitBody(body[1..], rest);
      var inner := SignatureSplit(s[1..]);
      assert inner == [body[1..] + tail[0]] + tail[1..];
      assert SignatureSplit(s) == [[s[0]] + inner[0]] + inner[1..];
      assert [s[0]] + (body[1..] + tail[0]) == body + tail[0];
    }
  }

  /** A signature is matched whole. */
  lemma SplitSignature(signature: string, rest: string)
    requires signature != [] && forall k :: 0 <= k < |signature| ==> SignatureChar(signature[k])
    ensures SignatureSplit(SignatureStart + signature + SignatureEnd + rest) == [""] + SignatureSplit(rest)
  {
    var s := SignatureStart + signature + SignatureEnd + rest;
    var n := |SignatureStart|;
    assert StartsWith(s, SignatureStart);
    assert s[n..] == signature + (SignatureEnd + rest);
    RunOfSignature(signature, SignatureEnd + rest);
    assert s[n + |signature|..] == SignatureEnd + rest;
    assert s[SignatureMatch(s)..] == rest;
  }

  lemma {:induction false} RunOfSignature(signature: string, rest: string)
    requires forall k :: 0 <= k < |signature| ==> SignatureChar(signature[k])
    requires rest != [] && !SignatureChar(rest[0])
    ensures SignatureRun(signature + rest) == |signature|
    decreases |signature|
  {
    if signature != [] {
      assert (signature + rest)[1..] == signature[1..] + rest;
      RunOfSignature(signature[1..], rest);
    } else {
      assert (signature + rest)[0] == rest[0];
    }
  }

  /** The pieces of the encoded chunks are their bodies and a last, empty
      piece. */
  lemma {:induction false} SplitChunks(chunks: seq<SignedChunk>)
    requires forall i :: 0 <= i < |chunks| ==> WellFormedChunk(chunks[i])
    ensures SignatureSplit(EncodeChunks(chunks)) == Bodies(chunks) + [""]
    decreases |chunks|
  {
    if chunks != [] {
      var c := chunks[0];
      assert WellFormedChunk(c);
      var rest := EncodeChunks(chunks[1..]);
      var signed := SignatureStart + c.signature + SignatureEnd + rest;
      EncodeFirstChunk(chunks);
      SplitBody(c.body, signed);
      SplitSignature(c.signature, rest);
      SplitChunks(chunks[1..]);
      JoinFirstBody(c.body, SignatureSplit(signed), Bodies(chunks[1..]));
      assert Bodies(chunks) == [c.body] + Bodies(chunks[1..]);
    }
  }

  /** The encoding of a first chunk, split at the start of its signature */
  lemma EncodeFirstChunk(chunks: seq<SignedChunk>)
    requires chunks != []
    ensures EncodeChunks(chunks) ==
            chunks[0].body + (SignatureStart + chunks[0].signature + SignatureEnd + EncodeChunks(chunks[1..]))
  {
  }

  /** The first body glued to an empty first piece, ahead of the rest */
  lemma JoinFirstBody(body: string, tail: seq<string>, bodies: seq<string>)
    requires tail == [""] + (bodies + [""])
    ensures [body + tail[0]] + tail[1..] == [body] + bodies + [""]
  {
    assert body + tail[0] == body;
    assert tail[1..] == bodies + [""];
  }

  function Bodies(chunks: seq<SignedChunk>): (bodies: seq<string>)
    ensures |bodies| == |chunks|
    ensures forall i :: 0 <= i < |chunks| ==> bodies[i] == chunks[i].body
    decreases |chunks|
  {
    if chunks == [] then [] else [chunks[0].body] + Bodies(chunks[1..])
  }

  lemma PayloadsOfSplit(chunks: seq<SignedChunk>)
    ensures Payloads(Bodies(chunks) + [""]) == ClosedBodies(chunks)
  {
  }

  // Errors in decoded responses

  /** The library calls the response handling makes: `json.loads`,
      `base64.standard_b64decode`, the session cipher's `decrypt` (key and
      padding included) and gzip decompression. Each can raise. */
  datatype Codecs = Codecs(
    loads: string -> Result<Json>,
    b64decode: string -> Result<string>,
    decrypt: (string, string) -> Result<string>,
    gunzip: string -> Result<string>)

  /** `base64.standard_b64decode(j)`: only strings can be decoded. */
  function B64(c: Codecs, j: Json): (r: Result<string>)
    ensures !j.JStr? ==> r == Err(TypeError)
    ensures j.JStr? ==> r == c.b64decode(j.s)
  {
    if j.JStr? then c.b64decode(j.s) else Err(TypeError)
  }

  /** `_get_error_details(decoded)`: the `errormsg` of the base64 JSON
      `errordata` first, then `result.errorDisplayMessage`, then `''` */
  function ErrorDetails(decoded: Json, c: Codecs): (r: Result<Json>)
    ensures Contains(decoded, "errordata") == Ok(true) ==>
      r == (var field :- Index(decoded, "errordata");
            var raw :- B64(c, field);
            var data :- c.loads(raw);
            Index(data, "errormsg"))
    ensures Contains(decoded, "errordata") == Ok(false) ==>
      r == (var result :- Index(decoded, "result");
            var shown :- Contains(result, "errorDisplayMessage");
            if shown then Index(result, "errorDisplayMessage") else Ok(JStr("")))
  {
    var hasData :- Contains(decoded, "errordata");
    if hasData then
      var field :- Index(decoded, "errordata");
      var raw :- B64(c, field);
      var data :- c.loads(raw);
      Index(data, "errormsg")
    else
      var result :- Index(decoded, "result");
      var shown :- Contains(result, "errorDisplayMessage");
      if shown then Index(result, "errorDisplayMessage") else Ok(JStr(""))
  }
  /** The three outcomes for a dict response: the `errormsg` decoded from
      `errordata`, the result's `errorDisplayMessage`, or `''`; a response
      with neither `errordata` nor `result` raises `KeyError`. */
  lemma ErrorDetailsOutcomes(decoded: Json, c: Codecs)
    requires decoded.JObj?
    ensures var f := decoded.fields;
            "errordata" in f && f["errordata"].JStr? && c.b64decode(f["errordata"].s).Ok? &&
            c.loads(c.b64decode(f["errordata"].s).value).Ok? &&
            c.loads(c.b64decode(f["errordata"].s).value).value.JObj? &&
            "errormsg" in c.loads(c.b64decode(f["errordata"].s).value).value.fields ==>
              ErrorDetails(decoded, c) == Ok(c.loads(c.b64decode(f["errordata"].s).value).value.fields["errormsg"])
    ensures var f := decoded.fields;
            "errordata" !in f && "result" in f && f["result"].JObj? && "errorDisplayMessage" in f["result"].fields ==>
              ErrorDetails(decoded, c) == Ok(f["result"].fields["errorDisplayMessage"])
    ensures var f := decoded.fields;
            "errordata" !in f && "result" in f && f["result"].JObj? && "errorDisplayMessage" !in f["result"].fields ==>
              ErrorDetails(decoded, c) == Ok(JStr(""))
    ensures "errordata" !in decoded.fields && "result" !in decoded.fields ==> ErrorDetails(decoded, c) == Err(KeyError)
  {
  }


  /** Whether `_raise_if_error` lets the response through: no `errordata`
      and a truthy `success` */
  predicate Succeeded(decoded: Json) {
    && Contains(decoded, "errordata") == Ok(false)
    && Index(decoded, "success").Ok? && Truthy(decoded.fields["success"])
  }

  /** `_raise_if_error(decoded)`: a response with `errordata` or a falsy
      `success` raises `MSLError` with the error details, unless finding
      the details raises first; a missing `success` raises `KeyError`. */
  function RaiseIfError(decoded: Json, c: Codecs): (r: Result<Json>)
    ensures r.Ok? <==> Succeeded(decoded)
    ensures r.Ok? ==> r.value == decoded
    ensures Contains(decoded, "errordata") == Ok(true) && ErrorDetails(decoded, c).Ok? ==>
      r == Err(MslError(Str(ErrorDetails(decoded, c).value)))
    ensures Contains(decoded, "errordata") == Ok(false) && Index(decoded, "success").Err? ==>
      r == Err(Index(decoded, "success").exc)
    ensures Index(decoded, "success").Ok? && !Truthy(decoded.fields["success"]) && ErrorDetails(decoded, c).Ok? ==>
      r == Err(MslError(Str(ErrorDetails(decoded, c).value)))
  {
    var hasData :- Contains(decoded, "errordata");
    var failed :- if hasData then Ok(true) else
      var success :- Index(decoded, "success");
      Ok(!Truthy(success));
    if failed then
      var details :- ErrorDetails(decoded, c);
      Err(MslError(Str(details)))
    else Ok(decoded)
  }

  /** A response that passed the check passes it again. */
  lemma RaiseIfErrorIsIdempotent(decoded: Json, c: Codecs)
    requires RaiseIfError(decoded, c).Ok?
    ensures RaiseIfError(RaiseIfError(decoded, c).value, c) == RaiseIfError(decoded, c)
  {
  }

  // Decrypting the payload chunks

  /** The data of one payload chunk, `payload` -> envelope -> plaintext
      -> `data`, gunzipped only when `compressionalgo` is `'GZIP'` */
  function ChunkData(chunk: string, c: Codecs): (r: Result<string>) {
    var payloadChunk :- c.loads(chunk);
    var payload :- Get(payloadChunk, "payload", JNull);
    var decodedPayload :- B64(c, payload);
    var envelope :- c.loads(decodedPayload);
    var ivField :- Index(envelope, "iv");
    var iv :- B64(c, ivField);
    // the envelope is a dict once `iv` was found, so `get` cannot fail
    var ciphertextField := if "ciphertext" in envelope.fields then envelope.fields["ciphertext"] else JNull;
    var ciphertext :- B64(c, ciphertextField);
    var text :- c.decrypt(iv, ciphertext);
    var plaintext :- c.loads(text);
    PlaintextData(plaintext, c)
  }

  /** The data of a decrypted plaintext */
  function PlaintextData(plaintext: Json, c: Codecs): (r: Result<string>)
    ensures !plaintext.JObj? ==> r == Err(AttributeError)
  {
    var data :- Get(plaintext, "data", JNull);
    // the plaintext is a dict once `get('data')` succeeded
    var algo := if "compressionalgo" in plaintext.fields then plaintext.fields["compressionalgo"] else JNull;
    if algo == JStr("GZIP") then
      var compressed :- B64(c, data);
      c.gunzip(compressed)
    else B64(c, data)
  }

  /** Decompression is used for `'GZIP'` data only: without that marker the
      data does not depend on the decompressor, and with it the data is
      the decompressed base64 decoding. */
  lemma GunzipOnlyForGzip(plaintext: Json, c: Codecs, gunzip: string -> Result<string>)
    requires plaintext.JObj?
    ensures Get(plaintext, "compressionalgo", JNull) != Ok(JStr("GZIP")) ==>
      PlaintextData(plaintext, c.(gunzip := gunzip)) == PlaintextData(plaintext, c)
    ensures Get(plaintext, "compressionalgo", JNull) != Ok(JStr("GZIP")) ==>
      PlaintextData(plaintext, c) == B64(c, Get(plaintext, "data", JNull).value)
    ensures Get(plaintext, "compressionalgo", JNull) == Ok(JStr("GZIP")) && B64(c, Get(plaintext, "data", JNull).value).Ok? ==>
      PlaintextData(plaintext, c) == c.gunzip(B64(c, Get(plaintext, "data", JNull).value).value)
  {
  }

  /** The data of the chunks, concatenated in order; the first chunk that
      fails decides the exception. `data` gives the data of one chunk. */
  function Concat(chunks: seq<string>, data: string -> Result<string>): (r: Result<string>)
    decreases |chunks|
  {
    if chunks == [] then Ok("")
    else
      var first :- data(chunks[0]);
      var rest :- Concat(chunks[1..], data);
      Ok(first + rest)
  }

  /** The concatenated data of the payload chunks */
  function ChunksData(chunks: seq<string>, c: Codecs): Result<string> {
    Concat(chunks, chunk => ChunkData(chunk, c))
  }

  /** Every chunk must give its data, and the first one that does not
      decides the exception. */
  lemma {:induction false} FirstFailingChunk(chunks: seq<string>, data: string -> Result<string>)
    ensures Concat(chunks, data).Ok? <==> forall i :: 0 <= i < |chunks| ==> data(chunks[i]).Ok?
    ensures Concat(chunks, data).Err? ==>
      exists i :: 0 <= i < |chunks| && data(chunks[i]) == Err(Concat(chunks, data).exc) &&
                  forall k :: 0 <= k < i ==> data(chunks[k]).Ok?
    decreases |chunks|
  {
    if chunks != [] {
      assert forall i :: 0 < i < |chunks| ==> chunks[i] == chunks[1..][i - 1];
      FirstFailingChunk(chunks[1..], data);
      if data(chunks[0]).Ok? && Concat(chunks[1..], data).Err? {
        var i :| 0 <= i < |chunks| - 1 && data(chunks[1..][i]) == Err(Concat(chunks[1..], data).exc) &&
                 forall k :: 0 <= k < i ==> data(chunks[1..][k]).Ok?;
        assert data(chunks[i + 1]) == Err(Concat(chunks, data).exc);
      }
    }
  }

  /** Concatenation follows the chunk order: the data of `a + b` is the
      data of `a` followed by the data of `b`. */
  lemma {:induction false} ConcatOfAppend(a: seq<string>, b: seq<string>, data: string -> Result<string>)
    requires Concat(a, data).Ok? && Concat(b, data).Ok?
    ensures Concat(a + b, data) == Ok(Concat(a, data).value + Concat(b, data).value)
    decreases |a|
  {
    if a != [] {
      assert (a + b)[0] == a[0] && (a + b)[1..] == a[1..] + b;
      ConcatOfAppend(a[1..], b, data);
      var first, x, y := data(a[0]).value, Concat(a[1..], data).value, Concat(b, data).value;
      assert first + (x + y) == (first + x) + y;
    } else {
      assert a + b == b;
      assert "" + Concat(b, data).value == Concat(b, data).value;
    }
  }

  /** The decrypted response: the concatenated data is a JSON list whose
      second element holds the base64 JSON answer in `payload.data`. */
  function DecryptedResponse(all: string, c: Codecs): (r: Result<Json>) {
    var messages :- c.loads(all);
    var second :- At(messages, 1);
    var payload :- Index(second, "payload");
    var data :- Index(payload, "data");
    var raw :- B64(c, data);
    c.loads(raw)
  }

  /** `_decrypt_chunks(chunks, crypto)` */
  function DecryptChunksSpec(chunks: seq<string>, c: Codecs): (r: Result<Json>)
    ensures ChunksData(chunks, c).Err? ==> r == Err(ChunksData(chunks, c).exc)
    ensures ChunksData(chunks, c).Ok? ==> r == DecryptedResponse(ChunksData(chunks, c).value, c)
  {
    var all :- ChunksData(chunks, c);
    DecryptedResponse(all, c)
  }

  /** `Ok(prefix + data)` for the data of the remaining chunks */
  function After(prefix: string, rest: Result<string>): Result<string> {
    if rest.Ok? then Ok(prefix + rest.value) else rest
  }

  /** `_decrypt_chunks(chunks, crypto)`, accumulating the data chunk by
      chunk */
  method DecryptChunks(chunks: seq<string>, c: Codecs) returns (r: Result<Json>)
    ensures r == DecryptChunksSpec(chunks, c)
  {
    var data := chunk => ChunkData(chunk, c);
    var decrypted := "";
    var i := 0;
    assert chunks[0..] == chunks;
    assert Concat(chunks, data).Ok? ==> "" + Concat(chunks, data).value == Concat(chunks, data).value;
    while i < |chunks|
      invariant 0 <= i <= |chunks|
      invariant Concat(chunks, data) == After(decrypted, Concat(chunks[i..], data))
    {
      assert chunks[i..][0] == chunks[i] && chunks[i..][1..] == chunks[i + 1..];
      var next := ChunkData(chunks[i], c);
      if next.Err? {
        return Err(next.exc);
      }
      var rest := Concat(chunks[i + 1..], data);
      assert Concat(chunks[i..], data) == After(next.value, rest);
      assert rest.Ok? ==> decrypted + (next.value + rest.value) == (decrypted + next.value) + rest.value;
      decrypted := decrypted + next.value;
      i := i + 1;
    }
    assert chunks[i..] == [];
    assert decrypted + "" == decrypted;
    r := DecryptedResponse(decrypted, c);
  }
}
