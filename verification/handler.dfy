/**
 * `requestHandler(method)`: checks the two route captures, decodes them,
 * builds the presigning parameters and turns the signing outcome into a
 * 307 redirect or a forwarded error.
 */
module Handler {
  import opened Wrappers
  import opened JsString
  import opened Config

  /** The S3 operation an endpoint presigns: GET uses `getObject`, PUT uses `putObject`. */
  datatype Operation = GetObject | PutObject

  /** An `Error` passed to `next`; the SDK's errors are forwarded unchanged. */
  datatype JsError = JsError(message: string)

  const MissingParameters: JsError := JsError("ERROR: Requires both valid bucket and key parameters")
  const KmsAlgorithm: string := "aws:kms"
  const TemporaryRedirect: int := 307

  /** `ServerSideEncryption` and `SSEKMSKeyId`, which are set together. */
  datatype Sse = Sse(algorithm: string, keyId: string)

  /** The `params` object handed to `getSignedUrl`. */
  datatype Params = Params(bucket: string, key: string, expires: int, sse: Option<Sse>)

  /** `req.params[0]` and `req.params[1]`; a capture that is not there is `undefined`. */
  datatype RawCaptures = RawCaptures(bucket: Option<string>, key: Option<string>)

  /** `decodeURIComponent`: the decoded text, or the `URIError` it throws on malformed escapes. */
  datatype Decoded = Decoded(text: string) | UriError

  /** What `getSignedUrl` hands its callback: a URL or an error. */
  datatype Signed = SignedUrl(url: string) | SignError(error: JsError)

  datatype SigningCall = SigningCall(op: Operation, params: Params)

  /**
   * How the handler ends: `res.redirect` with the `max-age` set by
   * `res.cache`, `next(err)`, or an exception escaping the handler.
   */
  datatype Reply = Redirect(status: int, location: string, maxAge: int) | Forward(error: JsError) | Thrown

  /** The reply and the signing calls made on the way (none or one). */
  datatype Outcome = Outcome(reply: Reply, calls: seq<SigningCall>)

  /** `!req.params[0] || !req.params[1]` is false. */
  predicate CapturesPresent(c: RawCaptures) {
    c.bucket.Some? && IsTruthy(c.bucket.value) && c.key.Some? && IsTruthy(c.key.value)
  }

  /**
   * The parameters to presign: bucket, key and lifetime always, and the
   * SSE-KMS pair only for `putObject` with a key id configured.
   */
  function ParamsFor(op: Operation, cfg: Config, bucket: string, key: string): (p: Params)
    ensures p.bucket == bucket && p.key == key && p.expires == cfg.expires
    ensures p.sse.Some? <==> op == PutObject && cfg.sseKmsKeyId.Some? && IsTruthy(cfg.sseKmsKeyId.value)
    ensures p.sse.Some? ==> p.sse.value == Sse(KmsAlgorithm, cfg.sseKmsKeyId.value)
  {
    var params := Params(bucket, key, cfg.expires, None);
    if op == PutObject && cfg.sseKmsKeyId.Some? && IsTruthy(cfg.sseKmsKeyId.value) then
      params.(sse := Some(Sse(KmsAlgorithm, cfg.sseKmsKeyId.value)))
    else
      params
  }

  /** The redirect or forwarded error for the signing result. */
  function Respond(result: Signed, expires: int): (reply: Reply)
    ensures reply.Redirect? <==> result.SignedUrl?
    ensures reply.Redirect? ==> reply.status == TemporaryRedirect && reply.location == result.url && reply.maxAge == expires
    ensures reply.Forward? ==> reply.error == result.error
  {
    match result
    case SignedUrl(url) => Redirect(TemporaryRedirect, url, expires)
    case SignError(e) => Forward(e)
  }

  /** The handler for one request, with the decoder and the signer as parameters. */
  function Handle(op: Operation, cfg: Config, captures: RawCaptures,
                  decode: string -> Decoded, sign: (Operation, Params) -> Signed): (out: Outcome)
    ensures !CapturesPresent(captures) ==> out == Outcome(Forward(MissingParameters), [])
    ensures |out.calls| <= 1
    ensures out.reply.Thrown? ==> out.calls == []
    ensures forall call :: call in out.calls ==> call.op == op && call.params.expires == cfg.expires
    ensures out.reply.Redirect? ==>
      && |out.calls| == 1
      && out.reply.status == TemporaryRedirect
      && out.reply.maxAge == out.calls[0].params.expires
      && sign(out.calls[0].op, out.calls[0].params) == SignedUrl(out.reply.location)
    ensures CapturesPresent(captures) && decode(captures.bucket.value).Decoded? && decode(captures.key.value).Decoded? ==>
      var p := ParamsFor(op, cfg, decode(captures.bucket.value).text, decode(captures.key.value).text);
      && out.calls == [SigningCall(op, p)]
      && (sign(op, p).SignedUrl? ==> out.reply == Redirect(TemporaryRedirect, sign(op, p).url, cfg.expires))
      && (sign(op, p).SignError? ==> out.reply == Forward(sign(op, p).error))
  {
    if !CapturesPresent(captures) then
      Outcome(Forward(MissingParameters), [])
    else
      var bucket := decode(captures.bucket.value);
      var key := decode(captures.key.value);
      if bucket.UriError? || key.UriError? then
        Outcome(Thrown, [])
      else
        var params := ParamsFor(op, cfg, bucket.text, key.text);
        Outcome(Respond(sign(op, params), cfg.expires), [SigningCall(op, params)])
  }

  /** With both captures present and decodable, exactly one signing call is made, with these parameters. */
  lemma OneCallWhenValid(op: Operation, cfg: Config, captures: RawCaptures,
                         decode: string -> Decoded, sign: (Operation, Params) -> Signed)
    requires CapturesPresent(captures)
    requires decode(captures.bucket.value).Decoded? && decode(captures.key.value).Decoded?
    ensures Handle(op, cfg, captures, decode, sign).calls
         == [SigningCall(op, ParamsFor(op, cfg, decode(captures.bucket.value).text, decode(captures.key.value).text))]
  {
  }

  /** A `getObject` request never carries SSE fields. */
  lemma RetrieveNeverEncrypts(cfg: Config, captures: RawCaptures,
                              decode: string -> Decoded, sign: (Operation, Params) -> Signed)
    ensures forall call :: call in Handle(GetObject, cfg, captures, decode, sign).calls ==> call.params.sse == None
  {
  }

  /** A `putObject` request carries `aws:kms` and the configured key id exactly when one is configured. */
  lemma StoreEncryptsIffConfigured(cfg: Config, captures: RawCaptures,
                                   decode: string -> Decoded, sign: (Operation, Params) -> Signed)
    ensures forall call :: call in Handle(PutObject, cfg, captures, decode, sign).calls ==>
      (call.params.sse.Some? <==> cfg.sseKmsKeyId.Some? && IsTruthy(cfg.sseKmsKeyId.value))
      && (call.params.sse.Some? ==> call.params.sse.value == Sse(KmsAlgorithm, cfg.sseKmsKeyId.value))
  {
  }

  /** A signing error is forwarded as it is, with no redirect. */
  lemma SigningErrorForwarded(op: Operation, cfg: Config, captures: RawCaptures,
                              decode: string -> Decoded, sign: (Operation, Params) -> Signed)
    requires CapturesPresent(captures)
    requires decode(captures.bucket.value).Decoded? && decode(captures.key.value).Decoded?
    ensures var p := ParamsFor(op, cfg, decode(captures.bucket.value).text, decode(captures.key.value).text);
            sign(op, p).SignError? ==> Handle(op, cfg, captures, decode, sign).reply == Forward(sign(op, p).error)
  {
  }

  /** A capture `decodeURIComponent` rejects makes the handler throw before any signing call. */
  lemma MalformedEscapeThrows(op: Operation, cfg: Config, captures: RawCaptures,
                              decode: string -> Decoded, sign: (Operation, Params) -> Signed)
    requires CapturesPresent(captures)
    requires decode(captures.bucket.value).UriError? || decode(captures.key.value).UriError?
    ensures Handle(op, cfg, captures, decode, sign) == Outcome(Thrown, [])
  {
  }

  /** How a request ended inside the handler: `next` called (with or without an error), or an exception. */
  datatype Exit = Next(error: Option<JsError>) | Threw

  /** The `res` object: the state `res.cache` and `res.redirect` set. */
  class HttpResponse {
    var maxAge: Option<int>
    var status: Option<int>
    var location: Option<string>

    constructor ()
      ensures maxAge == None && status == None && location == None
    {
      maxAge, status, location := None, None, None;
    }

    /** `res.cache({maxAge: seconds})` */
    method Cache(seconds: int)
      modifies this
      ensures maxAge == Some(seconds) && status == old(status) && location == old(location)
    {
      maxAge := Some(seconds);
    }

    /** `res.redirect(code, url, next)` */
    method Redirect(code: int, url: string)
      modifies this
      ensures status == Some(code) && location == Some(url) && maxAge == old(maxAge)
    {
      status, location := Some(code), Some(url);
    }
  }

  /**
   * The handler as the source runs it: `params` is built and then extended
   * in place, and on success `res` is given its cache age and redirect.
   * It ends exactly as `Handle` says, and leaves `res` untouched on every
   * other path.
   */
  method RequestHandler(op: Operation, cfg: Config, captures: RawCaptures,
                        decode: string -> Decoded, sign: (Operation, Params) -> Signed, res: HttpResponse)
    returns (exit: Exit, calls: seq<SigningCall>)
    modifies res
    ensures calls == Handle(op, cfg, captures, decode, sign).calls
    ensures match Handle(op, cfg, captures, decode, sign).reply
      case Redirect(code, url, age) =>
        exit == Next(None) && res.status == Some(code) && res.location == Some(url) && res.maxAge == Some(age)
      case Forward(e) => exit == Next(Some(e)) && unchanged(res)
      case Thrown => exit == Threw && unchanged(res)
  {
    if !CapturesPresent(captures) {
      return Next(Some(MissingParameters)), [];
    }
    var bucket := decode(captures.bucket.value);
    var key := decode(captures.key.value);
    if bucket.UriError? || key.UriError? {
      return Threw, [];
    }
    var params := Params(bucket.text, key.text, cfg.expires, None);
    if op == PutObject && cfg.sseKmsKeyId.Some? && IsTruthy(cfg.sseKmsKeyId.value) {
      params := params.(sse := Some(Sse(KmsAlgorithm, cfg.sseKmsKeyId.value)));
    }
    calls := [SigningCall(op, params)];
    var result := sign(op, params);
    if result.SignError? {
      return Next(Some(result.error)), calls;
    }
    res.Cache(cfg.expires);
    res.Redirect(TemporaryRedirect, result.url);
    exit := Next(None);
  }
}
