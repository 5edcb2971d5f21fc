/** The MSL crypto handler for platforms without Widevine crypto sessions,
    resources/lib/services/msl/default_crypto.py: restoring the padding of
    base64url key material (section 5 of RFC 4648), the mastertoken
    lifetime rule, and the constructor that loads the saved keys or falls
    back to fresh key state. RSA, AES and HMAC are outside the model; the
    decoders come in as `MslHandler.Codecs`. */
module DefaultCrypto {
  import opened Wrappers
  import opened Json
  import MiscUtils
  import MslHandler

  // _base64key_decode

  /** `payload` with the `=` padding its length calls for appended; a
      length of 1 modulo 4 cannot come from base64 and raises
      `ValueError`. */
  function RestorePadding(payload: string): (r: Result<string>)
    ensures r.Err? <==> |payload| % 4 == 1
    ensures r.Err? ==> r.exc == ValueError
    ensures r.Ok? ==> |r.value| % 4 == 0 && |payload| <= |r.value| <= |payload| + 2 && r.value[..|payload|] == payload
    ensures r.Ok? ==> forall k :: |payload| <= k < |r.value| ==> r.value[k] == '='
  {
    var length := |payload| % 4;
    if length == 2 then Ok(payload + "==")
    else if length == 3 then Ok(payload + "=")
    else if length != 0 then Err(ValueError)
    else Ok(payload)
  }

  /** `_base64key_decode(payload)`, given `base64.urlsafe_b64decode` */
  function Base64KeyDecode(payload: string, urlsafeDecode: string -> Result<string>): (r: Result<string>)
    ensures |payload| % 4 == 1 ==> r == Err(ValueError)
    ensures |payload| % 4 != 1 ==> r == urlsafeDecode(RestorePadding(payload).value)
  {
    var padded :- RestorePadding(payload);
    urlsafeDecode(padded)
  }

  /** `s` without its trailing `=` characters, as a JSON web key carries
      base64url data */
  function StripPadding(s: string): (r: string)
    ensures |r| <= |s| && s[..|r|] == r
    ensures r == [] || r[|r| - 1] != '='
    ensures forall k :: |r| <= k < |s| ==> s[k] == '='
    decreases |s|
  {
    if s != [] && s[|s| - 1] == '=' then StripPadding(s[..|s| - 1]) else s
  }

  /** Restoring the padding undoes stripping it, for every well-padded
      base64 string (at most two `=`, length a multiple of 4). */
  lemma RestoresStrippedPadding(s: string)
    requires |s| % 4 == 0 && |s| - |StripPadding(s)| <= 2
    ensures RestorePadding(StripPadding(s)) == Ok(s)
  {
    PaddedAgain(StripPadding(s), s);
  }

  /** `s` is `r` with the padding its length calls for. */
  lemma PaddedAgain(r: string, s: string)
    requires |s| % 4 == 0 && |r| <= |s| <= |r| + 2 && s[..|r|] == r
    requires forall k :: |r| <= k < |s| ==> s[k] == '='
    ensures RestorePadding(r) == Ok(s)
  {
    var tail := s[|r|..];
    assert s == r + tail;
    if |s| == |r| + 1 {
      assert |r| % 4 == 3;
      assert tail == "=";
    } else if |s| == |r| + 2 {
      assert |r| % 4 == 2;
      assert tail == "==";
    } else {
      assert s[..|r|] == s;
      assert |r| % 4 == 0;
    }
  }

  /** Stripping undoes restoring: the unpadded key comes back. */
  lemma StripsRestoredPadding(payload: string)
    requires |payload| % 4 != 1 && (payload == [] || payload[|payload| - 1] != '=')
    ensures StripPadding(RestorePadding(payload).value) == payload
  {
    var padded := RestorePadding(payload).value;
    if |padded| > |payload| {
      assert padded[..|padded| - 1][..|payload|] == payload;
      if |padded| == |payload| + 2 {
        assert padded[..|padded| - 1][..|padded| - 2] == padded[..|padded| - 2];
        assert padded[..|padded| - 2] == payload;
      } else {
        assert padded[..|padded| - 1] == payload;
      }
    } else {
      assert padded == payload;
    }
  }

  // The mastertoken

  /** `json.loads(base64.standard_b64decode(mastertoken['tokendata']))` */
  function TokenData(mastertoken: Json, c: MslHandler.Codecs): Result<Json> {
    var field :- Index(mastertoken, "tokendata");
    var raw :- MslHandler.B64(c, field);
    c.loads(raw)
  }

  /** Python's `int()` of a JSON value: numbers and booleans directly,
      strings parsed; anything else raises `TypeError`. */
  function PyInt(j: Json): (r: Result<int>)
    ensures j.JInt? ==> r == Ok(j.i)
    ensures j.JStr? ==> r == MiscUtils.ParseInt(j.s)
    ensures j.JNull? || j.JList? || j.JObj? ==> r == Err(TypeError)
  {
    match j
    case JStr(s) => MiscUtils.ParseInt(s)
    case _ => AsInt(j)
  }

  /** `int(tokendata['expiration'])` */
  function Expiration(tokendata: Json): Result<int> {
    var field :- Index(tokendata, "expiration");
    PyInt(field)
  }

  /** Ten hours in seconds */
  const MinimumLifetime: real := 36000.0

  /** `_set_mastertoken(mastertoken)` at time `now` (seconds since the
      epoch): the mastertoken and the sequence number it stores, accepted
      only with at least ten hours left; the sequence number defaults
      to 0. */
  function MastertokenSpec(mastertoken: Json, now: real, c: MslHandler.Codecs): (r: Result<(Json, Json)>)
    ensures r.Ok? <==>
      && TokenData(mastertoken, c).Ok?
      && Expiration(TokenData(mastertoken, c).value).Ok?
      && Expiration(TokenData(mastertoken, c).value).value as real - now >= MinimumLifetime
    ensures TokenData(mastertoken, c).Ok? && Expiration(TokenData(mastertoken, c).value).Ok? &&
            Expiration(TokenData(mastertoken, c).value).value as real - now < MinimumLifetime ==>
      r == Err(MastertokenExpired)
    ensures r.Ok? ==> r.value.0 == mastertoken
    ensures r.Ok? ==>
      var tokendata := TokenData(mastertoken, c).value;
      && tokendata.JObj?
      && r.value.1 == (if "sequencenumber" in tokendata.fields then tokendata.fields["sequencenumber"] else JInt(0))
  {
    var tokendata :- TokenData(mastertoken, c);
    var expiration :- Expiration(tokendata);
    var remaining := expiration as real - now;
    if remaining / 60.0 / 60.0 >= 10.0 then
      // `tokendata` is a dict once `expiration` was found, so `get` cannot fail
      var sequenceNumber := if "sequencenumber" in tokendata.fields then tokendata.fields["sequencenumber"] else JInt(0);
      Ok((mastertoken, sequenceNumber))
    else Err(MastertokenExpired)
  }

  /** A mastertoken accepted now was accepted at any earlier time, with
      the same result. */
  lemma AcceptedEarlier(mastertoken: Json, now: real, earlier: real, c: MslHandler.Codecs)
    requires MastertokenSpec(mastertoken, now, c).Ok? && earlier <= now
    ensures MastertokenSpec(mastertoken, earlier, c) == MastertokenSpec(mastertoken, now, c)
  {
  }

  // Loading the saved keys

  datatype RsaKey = Imported(der: string) | Generated

  datatype Keys = Keys(encryptionKey: string, signKey: string, rsaKey: RsaKey, mastertoken: Json, sequenceNumber: Json)

  /** The `try` block of the constructor: decode both keys, reject an empty
      one, import the RSA key (`validRsa` says whether `RSA.importKey`
      accepts it) and set the mastertoken. `None` for `msl_data` is
      `JNull`, which fails at the first subscript. */
  function LoadSpec(mslData: Json, now: real, c: MslHandler.Codecs, validRsa: string -> bool): (r: Result<Keys>)
    ensures r.Ok? ==> r.value.encryptionKey != "" && r.value.signKey != ""
    ensures r.Ok? ==> r.value.rsaKey.Imported? && validRsa(r.value.rsaKey.der)
    ensures r.Ok? ==>
      && Index(mslData, "tokens").Ok? && Index(Index(mslData, "tokens").value, "mastertoken").Ok?
      && MastertokenSpec(Index(Index(mslData, "tokens").value, "mastertoken").value, now, c) ==
           Ok((r.value.mastertoken, r.value.sequenceNumber))
    ensures !mslData.JObj? ==> r == Err(TypeError)
  {
    var encryptionField :- Index(mslData, "encryption_key");
    var encryptionKey :- MslHandler.B64(c, encryptionField);
    var signField :- Index(mslData, "sign_key");
    var signKey :- MslHandler.B64(c, signField);
    if encryptionKey == "" || signKey == "" then Err(ValueError)
    else
      var rsaField :- Index(mslData, "rsa_key");
      var der :- MslHandler.B64(c, rsaField);
      if !validRsa(der) then Err(ValueError)
      else
        var tokens :- Index(mslData, "tokens");
        var mastertoken :- Index(tokens, "mastertoken");
        var accepted :- MastertokenSpec(mastertoken, now, c);
        Ok(Keys(encryptionKey, signKey, Imported(der), accepted.0, accepted.1))
  }

  /** Saved keys that decode to an empty key are never loaded. */
  lemma EmptyKeyIsRejected(mslData: Json, now: real, c: MslHandler.Codecs, validRsa: string -> bool)
    requires Index(mslData, "encryption_key").Ok? && MslHandler.B64(c, Index(mslData, "encryption_key").value) == Ok("")
    ensures LoadSpec(mslData, now, c, validRsa).Err?
  {
  }

  class MslCrypto {
    var encryptionKey: Option<string>
    var signKey: Option<string>
    var rsaKey: RsaKey
    var mastertoken: Option<Json>
    var sequenceNumber: Option<Json>

    /** The invariant the class guarantees to its callers: either both keys
        are loaded, non-empty and with a mastertoken, or neither is. The
        constructor establishes it and `SetMastertoken` keeps it. */
    predicate Valid()
      reads this
    {
      && (encryptionKey.Some? <==> signKey.Some?)
      && (encryptionKey.Some? ==>
            encryptionKey.value != "" && signKey.value != "" && rsaKey.Imported? && mastertoken.Some?)
    }

    /** `MSLCrypto(msl_data)`: any failure while loading leaves both keys
        `None` with a newly generated RSA key. */
    constructor(mslData: Json, now: real, c: MslHandler.Codecs, validRsa: string -> bool)
      ensures Valid()
      ensures LoadSpec(mslData, now, c, validRsa).Ok? ==>
        var keys := LoadSpec(mslData, now, c, validRsa).value;
        && encryptionKey == Some(keys.encryptionKey) && signKey == Some(keys.signKey)
        && rsaKey == keys.rsaKey && mastertoken == Some(keys.mastertoken) && sequenceNumber == Some(keys.sequenceNumber)
      ensures LoadSpec(mslData, now, c, validRsa).Err? ==>
        encryptionKey.None? && signKey.None? && rsaKey == Generated && mastertoken.None?
    {
      var loaded := LoadSpec(mslData, now, c, validRsa);
      if loaded.Ok? {
        encryptionKey := Some(loaded.value.encryptionKey);
        signKey := Some(loaded.value.signKey);
        rsaKey := loaded.value.rsaKey;
        mastertoken := Some(loaded.value.mastertoken);
        sequenceNumber := Some(loaded.value.sequenceNumber);
      } else {
        rsaKey := Generated;
        encryptionKey := None;
        signKey := None;
        mastertoken := None;
        sequenceNumber := None;
      }
    }

    /** `_set_mastertoken(mastertoken)`: an expired token raises and
        changes nothing. */
    method SetMastertoken(token: Json, now: real, c: MslHandler.Codecs) returns (r: Result<()>)
      modifies this`mastertoken, this`sequenceNumber
      ensures var spec := MastertokenSpec(token, now, c);
              && (r.Ok? <==> spec.Ok?)
              && (spec.Err? ==> r == Err(spec.exc) && unchanged(this))
              && (spec.Ok? ==> mastertoken == Some(token) && sequenceNumber == Some(spec.value.1))
      ensures old(Valid()) ==> Valid()
    {
      var spec := MastertokenSpec(token, now, c);
      if spec.Err? {
        return Err(spec.exc);
      }
      mastertoken := Some(spec.value.0);
      sequenceNumber := Some(spec.value.1);
      r := Ok(());
    }
  }
}
