/** The MSL request handler of resources/lib/services/msl/MSL.py: the
    header of each MSL message, the playback and DRM contexts kept from the
    last manifest, and the rule that turns a license response into the
    license data or `False`. Posting requests, the key handshake and the
    DASH conversion are outside the model; the chunk decryption is the one
    of `MslHandler`, which MSL.py repeats line for line. */
module Msl {
  import opened Wrappers
  import opened Json
  import MslHandler

  /** The upper end of the message id draw, `pow(2, 52)` */
  const MaxMessageId: int := 0x10_0000_0000_0000
  const Timestamp: int := 1467733923

  /** `__parse_chunked_msl_response(message)`: the header is computed
      before the payload text is looked up, so a message without `}}`
      raises `IndexError` at the second `split`. */
  function ParseChunkedMslResponse(message: string): (r: Result<MslHandler.Chunks>)
    ensures r == MslHandler.ParseChunks(message)
  {
    var header := MslHandler.StrSplit(message, MslHandler.Close)[0] + MslHandler.Close;
    var second := MslHandler.StrSplit(message, MslHandler.Close);
    if |second| < 2 then Err(IndexError)
    else
      var pieces := MslHandler.SignatureSplit(second[1]);
      Ok(MslHandler.Chunks(header, MslHandler.Payloads(pieces)))
  }

  /** The answer inside a chunked license response */
  function DecryptedLicense(text: string, c: MslHandler.Codecs): Result<Json> {
    var chunks :- ParseChunkedMslResponse(text);
    MslHandler.DecryptChunksSpec(chunks.payloads, c)
  }

  /** `data['result']['licenses'][0]['data']` */
  function LicenseData(data: Json): Result<Json> {
    var result :- Index(data, "result");
    var licenses :- Index(result, "licenses");
    var first :- At(licenses, 0);
    Index(first, "data")
  }

  /** The result rule of `get_license`, given the response text, or `None`
      when the post failed or its status was not OK. A response that is
      plain JSON is an error answer; otherwise the decrypted answer gives
      the license only when its `success` is the boolean `true`. */
  function LicenseResult(response: Option<string>, c: MslHandler.Codecs): (r: Result<Json>)
    ensures response.None? ==> r == Ok(JBool(false))
    ensures response.Some? && c.loads(response.value).Ok? ==> r == Ok(JBool(false))
    ensures r.Ok? && r.value != JBool(false) ==>
      && response.Some?
      && c.loads(response.value) == Err(ValueError)
      && DecryptedLicense(response.value, c).Ok?
      && Index(DecryptedLicense(response.value, c).value, "success") == Ok(JBool(true))
    ensures response.Some? && c.loads(response.value) == Err(ValueError) && DecryptedLicense(response.value, c).Ok? ==>
      var data := DecryptedLicense(response.value, c).value;
      && (Index(data, "success") == Ok(JBool(true)) ==> r == LicenseData(data))
      && (Index(data, "success").Ok? && Index(data, "success") != Ok(JBool(true)) ==> r == Ok(JBool(false)))
    ensures response.Some? && c.loads(response.value).Err? && c.loads(response.value).exc != ValueError ==>
      r == Err(c.loads(response.value).exc)
  {
    match response
    case None => Ok(JBool(false))
    case Some(text) =>
      var parsed := c.loads(text);
      if parsed.Ok? then Ok(JBool(false))
      else if parsed.exc != ValueError then Err(parsed.exc)
      else
        var data :- DecryptedLicense(text, c);
        var success :- Index(data, "success");
        if success == JBool(true) then LicenseData(data) else Ok(JBool(false))
  }

  /** A truthy `success` that is not the boolean `true` gives no license. */
  lemma SuccessMustBeTrue(text: string, c: MslHandler.Codecs, data: Json)
    requires c.loads(text) == Err(ValueError) && DecryptedLicense(text, c) == Ok(data)
    requires data == JObj(map["success" := JInt(1)])
    ensures LicenseResult(Some(text), c) == Ok(JBool(false))
    ensures MslHandler.Succeeded(data)
  {
    assert Index(data, "success") == Ok(JInt(1));
    assert Contains(data, "errordata") == Ok(false);
  }

  // The MSL header

  /** `capabilities.compressionalgos` of a header */
  function CompressionAlgos(header: map<string, Json>): Json {
    if "capabilities" in header && header["capabilities"].JObj? && "compressionalgos" in header["capabilities"].fields
    then header["capabilities"].fields["compressionalgos"]
    else JNull
  }

  /** The fields every header has */
  function BaseHeader(isHandshake: bool, compressionalgo: string, messageId: int, esn: string): (header: map<string, Json>)
    ensures "keyrequestdata" !in header && "userauthdata" !in header
    ensures Index(JObj(header), "sender") == Ok(JStr(esn))
    ensures Index(JObj(header), "handshake") == Ok(JBool(isHandshake))
    ensures Index(JObj(header), "messageid") == Ok(JInt(messageId))
    ensures Index(JObj(header), "timestamp") == Ok(JInt(Timestamp))
    ensures CompressionAlgos(header) == JList(if compressionalgo != "" then [JStr(compressionalgo)] else [])
  {
    var algos := if compressionalgo != "" then [JStr(compressionalgo)] else [];
    map[
      "sender" := JStr(esn),
      "handshake" := JBool(isHandshake),
      "nonreplayable" := JBool(false),
      "capabilities" := JObj(map["languages" := JList([JStr("en-US")]), "compressionalgos" := JList(algos)]),
      "recipient" := JStr("Netflix"),
      "renewable" := JBool(true),
      "messageid" := JInt(messageId),
      "timestamp" := JInt(Timestamp)]
  }

  /** The header fields of `__generate_msl_header`, given the drawn message
      id, the ESN, the crypto's key request data and the outcome of
      `get_credentials`. The credentials are read only for a request that
      is neither a key request nor covered by a user token, so only then
      can they fail. */
  function HeaderSpec(isHandshake: bool, isKeyRequest: bool, compressionalgo: string, messageId: int, esn: string,
                      tokens: seq<string>, keyRequest: Json, account: Result<Json>): (r: Result<map<string, Json>>)
    ensures r.Err? ==> !isKeyRequest && "usertoken" !in tokens
    ensures isKeyRequest || "usertoken" in tokens ==> r.Ok?
    ensures r.Ok? ==>
      && Index(JObj(r.value), "sender") == Ok(JStr(esn))
      && Index(JObj(r.value), "handshake") == Ok(JBool(isHandshake))
      && Index(JObj(r.value), "messageid") == Ok(JInt(messageId))
      && Index(JObj(r.value), "timestamp") == Ok(JInt(Timestamp))
    ensures r.Ok? ==> (CompressionAlgos(r.value) == JList([]) <==> compressionalgo == "")
    ensures r.Ok? && compressionalgo != "" ==> CompressionAlgos(r.value) == JList([JStr(compressionalgo)])
    ensures r.Ok? ==> ("keyrequestdata" in r.value <==> isKeyRequest)
    ensures r.Ok? && isKeyRequest ==> r.value["keyrequestdata"] == keyRequest
    ensures r.Ok? ==> ("userauthdata" in r.value <==> !isKeyRequest && "usertoken" !in tokens)
    ensures r.Ok? && "userauthdata" in r.value ==>
      && account.Ok? && Index(account.value, "email").Ok? && Index(account.value, "password").Ok?
      && r.value["userauthdata"] == JObj(map[
           "scheme" := JStr("EMAIL_PASSWORD"),
           "authdata" := JObj(map["email" := Index(account.value, "email").value,
                                  "password" := Index(account.value, "password").value])])
  {
    var header := BaseHeader(isHandshake, compressionalgo, messageId, esn);
    if isKeyRequest then Ok(header["keyrequestdata" := keyRequest])
    else if "usertoken" in tokens then Ok(header)
    else
      var credentials :- account;
      var email :- Index(credentials, "email");
      var password :- Index(credentials, "password");
      Ok(header["userauthdata" := JObj(map[
        "scheme" := JStr("EMAIL_PASSWORD"),
        "authdata" := JObj(map["email" := email, "password" := password])])])
  }

  /** The viewable the manifest describes, and the contexts kept from it.
      The playback context is stored before the DRM context is looked up,
      so a manifest without `drmContextId` still replaces it. */
  function ContextsSpec(manifest: Json, playback: Json, drm: Json): (r: (Result<Json>, Json, Json))
    ensures r.0.Ok? ==> Index(r.0.value, "playbackContextId") == Ok(r.1) && Index(r.0.value, "drmContextId") == Ok(r.2)
    ensures r.0.Err? ==> r.2 == drm
    ensures r.1 != playback || r.2 != drm ==> Viewable(manifest).Ok?
  {
    var viewable := Viewable(manifest);
    if viewable.Err? then (Err(viewable.exc), playback, drm)
    else
      var p := Index(viewable.value, "playbackContextId");
      if p.Err? then (Err(p.exc), playback, drm)
      else
        var d := Index(viewable.value, "drmContextId");
        if d.Err? then (Err(d.exc), p.value, drm)
        else (Ok(viewable.value), p.value, d.value)
  }

  /** `manifest['result']['viewables'][0]` */
  function Viewable(manifest: Json): Result<Json> {
    var result :- Index(manifest, "result");
    var viewables :- Index(result, "viewables");
    At(viewables, 0)
  }

  /** A manifest that lacks only the DRM context leaves the two contexts
      out of step: the playback context is the new one, the DRM context
      the old one. */
  lemma MissingDrmContextSplitsContexts(manifest: Json, playback: Json, drm: Json)
    requires Viewable(manifest).Ok?
    requires Index(Viewable(manifest).value, "playbackContextId").Ok?
    requires Index(Viewable(manifest).value, "drmContextId").Err?
    ensures var r := ContextsSpec(manifest, playback, drm);
            r.0.Err? && r.1 == Index(Viewable(manifest).value, "playbackContextId").value && r.2 == drm
  {
  }

  class Handler {
    var currentMessageId: int
    var lastDrmContext: Json
    var lastPlaybackContext: Json
    var tokens: seq<string>

    /** The class attributes' initial values */
    constructor()
      ensures currentMessageId == 0 && lastDrmContext == JStr("") && lastPlaybackContext == JStr("") && tokens == []
    {
      currentMessageId := 0;
      lastDrmContext := JStr("");
      lastPlaybackContext := JStr("");
      tokens := [];
    }

    /** `__generate_msl_header`, given the draw of `randint(0, 2**52)`:
        the draw becomes the current message id and the header's
        `messageid`. */
    method GenerateMslHeader(isHandshake: bool, isKeyRequest: bool, compressionalgo: string, draw: int,
                             esn: string, keyRequest: Json, account: Result<Json>) returns (r: Result<map<string, Json>>)
      requires 0 <= draw <= MaxMessageId
      modifies this`currentMessageId
      ensures currentMessageId == draw
      ensures r == HeaderSpec(isHandshake, isKeyRequest, compressionalgo, draw, esn, tokens, keyRequest, account)
    {
      currentMessageId := draw;
      r := HeaderSpec(isHandshake, isKeyRequest, compressionalgo, currentMessageId, esn, tokens, keyRequest, account);
    }

    /** `__tranform_to_dash(manifest)` up to the DASH conversion: it
        returns the viewable that `convert_to_dash` is given. */
    method TransformToDash(manifest: Json) returns (r: Result<Json>)
      modifies this`lastPlaybackContext, this`lastDrmContext
      ensures (r, lastPlaybackContext, lastDrmContext) == ContextsSpec(manifest, old(lastPlaybackContext), old(lastDrmContext))
    {
      var viewable := Viewable(manifest);
      if viewable.Err? {
        return Err(viewable.exc);
      }
      var p := Index(viewable.value, "playbackContextId");
      if p.Err? {
        return Err(p.exc);
      }
      lastPlaybackContext := p.value;
      var d := Index(viewable.value, "drmContextId");
      if d.Err? {
        return Err(d.exc);
      }
      lastDrmContext := d.value;
      r := Ok(viewable.value);
    }
  }
}
