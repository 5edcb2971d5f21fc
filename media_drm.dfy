/** The Widevine crypto wrapper of
    resources/lib/services/msl/MSLMediaDrm.py: the PKCS#7 padding added
    before encryption and removed after decryption (section 6.3 of RFC
    5652, with 16-byte blocks), the key response check, and the key ids
    restored from saved data or parsed from a key response. The Widevine
    `CryptoSession` calls are parameters: what they return, or whether
    they succeed. */
module MediaDrm {
  import opened Wrappers
  import opened Json

  newtype Byte = x: int | 0 <= x < 256

  type Bytes = seq<Byte>

  const BlockSize: nat := 16

  // Padding

  /** `16 - len(data) % 16`: a whole block when the data already fills
      its last block */
  function PadLength(n: nat): (pad: nat)
    ensures 1 <= pad <= BlockSize
    ensures (n + pad) % BlockSize == 0
  {
    BlockSize - n % BlockSize
  }

  /** The padded data of `encrypt`: `pad` bytes of value `pad` appended */
  function Pad(data: Bytes): (padded: Bytes)
    ensures |padded| % BlockSize == 0 && |data| < |padded| <= |data| + BlockSize
    ensures padded[..|data|] == data
    ensures forall k :: |data| <= k < |padded| ==> padded[k] as int == |padded| - |data|
  {
    var pad := PadLength(|data|);
    data + seq(pad, _ => pad as Byte)
  }

  /** The unpadding of `decrypt`: `decrypted[:-pad]` for the value `pad` of
      the last byte. A zero pad slices to `[:0]`, and a pad longer than
      the data slices everything away. Empty output means the session
      failed and gives `None`. */
  function Unpad(decrypted: Bytes): (r: Option<Bytes>)
    ensures r.None? <==> decrypted == []
    ensures r.Some? ==>
      var pad := decrypted[|decrypted| - 1] as int;
      && |r.value| == (if pad == 0 || pad >= |decrypted| then 0 else |decrypted| - pad)
      && r.value == decrypted[..|r.value|]
  {
    if decrypted == [] then None
    else
      var pad := decrypted[|decrypted| - 1] as int;
      if pad == 0 || pad >= |decrypted| then Some([]) else Some(decrypted[..|decrypted| - pad])
  }

  /** Unpadding inverts padding. */
  lemma UnpadInvertsPad(data: Bytes)
    ensures Unpad(Pad(data)) == Some(data)
  {
    var padded := Pad(data);
    assert padded[|padded| - 1] as int == |padded| - |data|;
  }

  datatype Envelope = Envelope(version: int, ciphertext: Bytes, sha256: string, keyId: Bytes, iv: Bytes)

  /** `encrypt(data, ...)`, given the session's `Encrypt(keyId, data, iv)`;
      an empty result means the session failed, and gives `None`. The
      base64 encoding of the envelope fields is left to the caller. */
  function Encrypt(data: Bytes, keyId: Bytes, iv: Bytes, cipher: (Bytes, Bytes, Bytes) -> Bytes): (r: Option<Envelope>)
    ensures r.Some? <==> cipher(keyId, Pad(data), iv) != []
    ensures r.Some? ==> r.value.ciphertext == cipher(keyId, Pad(data), iv) && r.value.keyId == keyId && r.value.iv == iv
    ensures r.Some? ==> r.value.version == 1 && r.value.sha256 == "AA=="
  {
    var encrypted := cipher(keyId, Pad(data), iv);
    if encrypted != [] then Some(Envelope(1, encrypted, "AA==", keyId, iv)) else None
  }

  /** `decrypt(iv, data)` up to the UTF-8 decoding, given the session's
      `Decrypt(keyId, data, iv)` */
  function Decrypt(keyId: Bytes, iv: Bytes, data: Bytes, decipher: (Bytes, Bytes, Bytes) -> Bytes): Option<Bytes> {
    Unpad(decipher(keyId, data, iv))
  }

  /** With a session whose decryption inverts its encryption, decrypting
      an envelope gives back the data. */
  lemma DecryptInvertsEncrypt(data: Bytes, keyId: Bytes, iv: Bytes,
                              cipher: (Bytes, Bytes, Bytes) -> Bytes, decipher: (Bytes, Bytes, Bytes) -> Bytes)
    requires forall x :: decipher(keyId, cipher(keyId, x, iv), iv) == x
    requires Encrypt(data, keyId, iv, cipher).Some?
    ensures Decrypt(keyId, iv, Encrypt(data, keyId, iv, cipher).value.ciphertext, decipher) == Some(data)
  {
    UnpadInvertsPad(data);
  }

  // The key response

  /** `__provideKeyResponse` as written: an empty response is refused, and
      otherwise the result is `keySetId != None`, so the empty key set id
      the session returns on failure still counts as success. */
  function ProvideKeyResponseAsWritten(dataLength: nat, keySetId: Option<Bytes>): (ok: bool)
    ensures ok <==> dataLength > 0 && keySetId.Some?
  {
    if dataLength == 0 then false else keySetId != None
  }

  /** The failure the method logs ("provideKeyResponse failed") is
      reported as success. */
  lemma FailedKeyResponseCountsAsSuccess()
    ensures ProvideKeyResponseAsWritten(1, Some([]))
  {
  }

  /** `__provideKeyResponse` as evidently intended: success exactly when
      the session returned a non-empty key set id */
  function KeyResponseAccepted(dataLength: nat, keySetId: Option<Bytes>): (ok: bool)
    ensures ok <==> dataLength > 0 && keySetId.Some? && keySetId.value != []
  {
    dataLength != 0 && keySetId.Some? && keySetId.value != []
  }

  /** The intended check refuses what the written one refuses, and also
      the empty key set id. */
  lemma AcceptedIsStricter(dataLength: nat, keySetId: Option<Bytes>)
    ensures KeyResponseAccepted(dataLength, keySetId) ==> ProvideKeyResponseAsWritten(dataLength, keySetId)
    ensures ProvideKeyResponseAsWritten(dataLength, keySetId) && !KeyResponseAccepted(dataLength, keySetId) <==>
      dataLength > 0 && keySetId == Some([])
  {
  }

  /** `base64.standard_b64decode(j)` to bytes: only strings can be decoded. */
  function B64(decode: string -> Result<Bytes>, j: Json): (r: Result<Bytes>)
    ensures !j.JStr? ==> r == Err(TypeError)
    ensures j.JStr? ==> r == decode(j.s)
  {
    if j.JStr? then decode(j.s) else Err(TypeError)
  }

  /** `headerdata['keyresponsedata']['keydata'][name]`, decoded */
  function KeyData(headerdata: Json, name: string, decode: string -> Result<Bytes>): Result<Bytes> {
    var response :- Index(headerdata, "keyresponsedata");
    var keydata :- Index(response, "keydata");
    var field :- Index(keydata, name);
    B64(decode, field)
  }

  /** The key ids of the crypto object */
  datatype KeyState = KeyState(keySetId: Option<Bytes>, keyId: Option<Bytes>, hmacKeyId: Option<Bytes>)

  /** `parse_key_response(headerdata)`, given what the session's
      `ProvideKeyResponse` returns: a refused response keeps the old key
      ids; an accepted one (by the check as written) replaces the key id,
      then the HMAC key id, and a failing decode raises between the two. */
  function ParseKeyResponseSpec(s: KeyState, headerdata: Json, decode: string -> Result<Bytes>,
                                provided: Option<Bytes>): (r: (Result<()>, KeyState))
    ensures KeyData(headerdata, "cdmkeyresponse", decode).Err? ==>
      r == (Err(KeyData(headerdata, "cdmkeyresponse", decode).exc), s)
    ensures r.1.keySetId != s.keySetId ==>
      KeyData(headerdata, "cdmkeyresponse", decode).Ok? && |KeyData(headerdata, "cdmkeyresponse", decode).value| > 0 &&
      r.1.keySetId == provided
    ensures r.1.keyId != s.keyId || r.1.hmacKeyId != s.hmacKeyId ==>
      KeyData(headerdata, "cdmkeyresponse", decode).Ok? &&
      ProvideKeyResponseAsWritten(|KeyData(headerdata, "cdmkeyresponse", decode).value|, provided)
    ensures KeyData(headerdata, "cdmkeyresponse", decode).Ok? &&
            !ProvideKeyResponseAsWritten(|KeyData(headerdata, "cdmkeyresponse", decode).value|, provided) ==>
      r.0 == Ok(()) && r.1.keyId == s.keyId && r.1.hmacKeyId == s.hmacKeyId
    ensures KeyData(headerdata, "cdmkeyresponse", decode).Ok? &&
            ProvideKeyResponseAsWritten(|KeyData(headerdata, "cdmkeyresponse", decode).value|, provided) &&
            KeyData(headerdata, "encryptionkeyid", decode).Ok? && KeyData(headerdata, "hmackeyid", decode).Ok? ==>
      r == (Ok(()), KeyState(provided, Some(KeyData(headerdata, "encryptionkeyid", decode).value),
                             Some(KeyData(headerdata, "hmackeyid", decode).value)))
  {
    var response := KeyData(headerdata, "cdmkeyresponse", decode);
    if response.Err? then (Err(response.exc), s)
    else if |response.value| == 0 then (Ok(()), s)
    else
      var s1 := s.(keySetId := provided);
      if !ProvideKeyResponseAsWritten(|response.value|, s1.keySetId) then (Ok(()), s1)
      else
        var keyId := KeyData(headerdata, "encryptionkeyid", decode);
        if keyId.Err? then (Err(keyId.exc), s1)
        else
          var s2 := s1.(keyId := Some(keyId.value));
          var hmacKeyId := KeyData(headerdata, "hmackeyid", decode);
          if hmacKeyId.Err? then (Err(hmacKeyId.exc), s2)
          else (Ok(()), s2.(hmacKeyId := Some(hmacKeyId.value)))
  }

  /** As written, a session answer of an empty key set id, which the
      method logs as a failure, still installs the new key ids. */
  lemma EmptyKeySetIdInstallsKeys(s: KeyState, headerdata: Json, decode: string -> Result<Bytes>)
    requires KeyData(headerdata, "cdmkeyresponse", decode).Ok? && |KeyData(headerdata, "cdmkeyresponse", decode).value| > 0
    requires KeyData(headerdata, "encryptionkeyid", decode).Ok? && KeyData(headerdata, "hmackeyid", decode).Ok?
    ensures ParseKeyResponseSpec(s, headerdata, decode, Some([])) ==
      (Ok(()), KeyState(Some([]), Some(KeyData(headerdata, "encryptionkeyid", decode).value),
                        Some(KeyData(headerdata, "hmackeyid", decode).value)))
    ensures !KeyResponseAccepted(|KeyData(headerdata, "cdmkeyresponse", decode).value|, Some([]))
  {
  }

  /** `fromDict(msl_data)`: `False` without a crypto session; otherwise
      `True` (a handshake is needed) when any key id fails to decode or
      the session cannot restore the keys. Key ids decoded before the
      failure stay set. */
  function FromDictSpec(s: KeyState, hasSession: bool, mslData: Json, decode: string -> Result<Bytes>,
                        restores: Bytes -> bool): (r: (bool, KeyState))
    ensures !hasSession ==> r == (false, s)
    ensures hasSession ==> (!r.0 <==> Restored(mslData, decode, restores))
    ensures hasSession && Restored(mslData, decode, restores) ==>
      r.1 == KeyState(Some(Saved(mslData, "key_set_id", decode).value), Some(Saved(mslData, "key_id", decode).value),
                      Some(Saved(mslData, "hmac_key_id", decode).value))
    ensures r.1.keyId != s.keyId ==> Saved(mslData, "key_set_id", decode).Ok?
  {
    if !hasSession then (false, s)
    else
      var keySetId := Saved(mslData, "key_set_id", decode);
      if keySetId.Err? then (true, s)
      else
        var s1 := s.(keySetId := Some(keySetId.value));
        var keyId := Saved(mslData, "key_id", decode);
        if keyId.Err? then (true, s1)
        else
          var s2 := s1.(keyId := Some(keyId.value));
          var hmacKeyId := Saved(mslData, "hmac_key_id", decode);
          if hmacKeyId.Err? then (true, s2)
          else
            var s3 := s2.(hmacKeyId := Some(hmacKeyId.value));
            (!restores(keySetId.value), s3)
  }

  /** `base64.standard_b64decode(msl_data[name])` */
  function Saved(mslData: Json, name: string, decode: string -> Result<Bytes>): Result<Bytes> {
    var field :- Index(mslData, name);
    B64(decode, field)
  }

  /** Every saved key id decodes and the session restores the key set. */
  predicate Restored(mslData: Json, decode: string -> Result<Bytes>, restores: Bytes -> bool) {
    && Saved(mslData, "key_set_id", decode).Ok?
    && Saved(mslData, "key_id", decode).Ok?
    && Saved(mslData, "hmac_key_id", decode).Ok?
    && restores(Saved(mslData, "key_set_id", decode).value)
  }

  class MediaDrmCrypto {
    /** Whether the Widevine `CryptoSession` could be constructed */
    const hasSession: bool
    var keySetId: Option<Bytes>
    var keyId: Option<Bytes>
    var hmacKeyId: Option<Bytes>

    function State(): KeyState
      reads this
    {
      KeyState(keySetId, keyId, hmacKeyId)
    }

    /** A new object has no key ids. */
    constructor(hasSession: bool)
      ensures this.hasSession == hasSession && State() == KeyState(None, None, None)
    {
      this.hasSession := hasSession;
      keySetId := None;
      keyId := None;
      hmacKeyId := None;
    }

    /** `__provideKeyResponse(data)`, given what the session returns, with
        its check as written */
    method ProvideKeyResponse(dataLength: nat, provided: Option<Bytes>) returns (ok: bool)
      modifies this`keySetId
      ensures ok == ProvideKeyResponseAsWritten(dataLength, provided)
      ensures keySetId == if dataLength == 0 then old(keySetId) else provided
    {
      if dataLength == 0 {
        return false;
      }
      keySetId := provided;
      ok := keySetId != None;
    }

    method ParseKeyResponse(headerdata: Json, decode: string -> Result<Bytes>, provided: Option<Bytes>)
      returns (r: Result<()>)
      modifies this`keySetId, this`keyId, this`hmacKeyId
      ensures (r, State()) == ParseKeyResponseSpec(old(State()), headerdata, decode, provided)
    {
      var response := KeyData(headerdata, "cdmkeyresponse", decode);
      if response.Err? {
        return Err(response.exc);
      }
      var accepted := ProvideKeyResponse(|response.value|, provided);
      if !accepted {
        return Ok(());
      }
      var key := KeyData(headerdata, "encryptionkeyid", decode);
      if key.Err? {
        return Err(key.exc);
      }
      keyId := Some(key.value);
      var hmacKey := KeyData(headerdata, "hmackeyid", decode);
      if hmacKey.Err? {
        return Err(hmacKey.exc);
      }
      hmacKeyId := Some(hmacKey.value);
      r := Ok(());
    }

    method FromDict(mslData: Json, decode: string -> Result<Bytes>, restores: Bytes -> bool) returns (needHandshake: bool)
      modifies this`keySetId, this`keyId, this`hmacKeyId
      ensures (needHandshake, State()) == FromDictSpec(old(State()), hasSession, mslData, decode, restores)
    {
      if !hasSession {
        return false;
      }
      var saved := Saved(mslData, "key_set_id", decode);
      if saved.Err? {
        return true;
      }
      keySetId := Some(saved.value);
      saved := Saved(mslData, "key_id", decode);
      if saved.Err? {
        return true;
      }
      keyId := Some(saved.value);
      saved := Saved(mslData, "hmac_key_id", decode);
      if saved.Err? {
        return true;
      }
      hmacKeyId := Some(saved.value);
      needHandshake := !restores(keySetId.value);
    }
  }
}
