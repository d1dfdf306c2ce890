/**
 * One request through the service: the route table (GET and PUT on the
 * bucket/key pattern), the JWT middleware with its `getToken` hook and
 * `credentialsRequired` flag, then `requestHandler`.
 */
module Server {
  import opened Wrappers
  import opened JsString
  import opened Config
  import Token
  import Route
  import opened Handler

  datatype Verb = Get | Put | OtherVerb

  datatype HttpRequest = HttpRequest(
    verb: Verb,
    path: string,
    authorization: Option<string>,
    query: Option<map<string, string>>,
    cookies: Option<map<string, string>>)

  /** What the token verifier says of a token: its claims, or a rejection. */
  datatype Verification = Claims(claims: map<string, string>) | Invalid

  /** The JWT middleware's verdict: let the request through, or fail it with an `UnauthorizedError` code. */
  datatype Gate = Admit | Reject(code: string)

  /** The server's answer: no route for the request, rejected by the middleware, or handled. */
  datatype ServerReply = NoRoute | Rejected(code: string) | Handled(outcome: Outcome)

  /** The endpoint a verb is routed to. */
  function OperationFor(verb: Verb): (op: Option<Operation>)
    ensures op == Some(GetObject) <==> verb == Get
    ensures op == Some(PutObject) <==> verb == Put
  {
    match verb
    case Get => Some(GetObject)
    case Put => Some(PutObject)
    case OtherVerb => None
  }

  /**
   * The JWT middleware: a falsy token (`null`, `undefined` or empty) is an
   * error only when credentials are required; any other token must pass the
   * verifier.
   */
  function JwtGate(credentialsRequired: bool, token: Token.TokenValue, verify: string -> Verification): (g: Gate)
    ensures g.Reject? && !(token.Token? && IsTruthy(token.value)) ==> credentialsRequired
    ensures g == Admit <==> if token.Token? && IsTruthy(token.value) then verify(token.value).Claims? else !credentialsRequired
  {
    if token.Token? && IsTruthy(token.value) then
      if verify(token.value).Claims? then Admit else Reject("invalid_token")
    else if credentialsRequired then Reject("credentials_required")
    else Admit
  }

  /** Serve one request with the decoder, the verifier and the signer as parameters. */
  function Serve(cfg: Config, req: HttpRequest, verify: string -> Verification,
                 decode: string -> Decoded, sign: (Operation, Params) -> Signed): (reply: ServerReply)
    ensures reply.Handled? ==> Route.Match(req.path).Some? && OperationFor(req.verb).Some?
    ensures reply.Handled? ==> forall call :: call in reply.outcome.calls ==> Some(call.op) == OperationFor(req.verb)
  {
    var route := Route.Match(req.path);
    var op := OperationFor(req.verb);
    if route.None? || op.None? then NoRoute
    else
      var token := Token.GetToken(Token.Request(req.authorization, req.query, req.cookies));
      match JwtGate(cfg.credentialsRequired, token, verify)
      case Reject(code) => Rejected(code)
      case Admit =>
        Handled(Handle(op.value, cfg, RawCaptures(Some(route.value.bucket), Some(route.value.key)), decode, sign))
  }

  /**
   * Every request: one that matches no GET or PUT route gets no route;
   * otherwise the JWT middleware's verdict on the token `getToken` picks
   * decides, and an admitted request gets exactly what the handler returns
   * for the two captures.
   */
  lemma ServeComposes(cfg: Config, req: HttpRequest, verify: string -> Verification,
                      decode: string -> Decoded, sign: (Operation, Params) -> Signed)
    ensures Route.Match(req.path).None? || OperationFor(req.verb).None? ==> Serve(cfg, req, verify, decode, sign) == NoRoute
    ensures Route.Match(req.path).Some? && OperationFor(req.verb).Some? ==>
      var token := Token.GetToken(Token.Request(req.authorization, req.query, req.cookies));
      var captures := RawCaptures(Some(Route.Match(req.path).value.bucket), Some(Route.Match(req.path).value.key));
      match JwtGate(cfg.credentialsRequired, token, verify)
      case Reject(code) => Serve(cfg, req, verify, decode, sign) == Rejected(code)
      case Admit => Serve(cfg, req, verify, decode, sign) == Handled(Handle(OperationFor(req.verb).value, cfg, captures, decode, sign))
  {
  }

  /** A request without a token anywhere. */
  function Anonymous(verb: Verb, path: string): HttpRequest {
    HttpRequest(verb, path, None, None, None)
  }

  /**
   * `GET /{bucket}/{key}` without credentials, when none are required,
   * presigns `getObject` for that bucket and key and redirects to the URL.
   */
  lemma {:induction false} AnonymousGetRedirects(cfg: Config, bucket: string, key: string, url: string,
                                                 verify: string -> Verification,
                                                 decode: string -> Decoded, sign: (Operation, Params) -> Signed)
    requires !cfg.credentialsRequired
    requires |bucket| > 0 && forall i :: 0 <= i < |bucket| ==> Route.IsBucketChar(bucket[i])
    requires |key| > 0 && forall i :: 0 <= i < |key| ==> !Route.IsLineTerminator(key[i])
    requires decode(bucket) == Decoded(bucket) && decode(key) == Decoded(key)
    requires sign(GetObject, Params(bucket, key, cfg.expires, None)) == SignedUrl(url)
    ensures Serve(cfg, Anonymous(Get, "/" + bucket + "/" + key), verify, decode, sign)
         == Handled(Outcome(Redirect(307, url, cfg.expires), [SigningCall(GetObject, Params(bucket, key, cfg.expires, None))]))
  {
    Route.MatchOfParts(bucket, key);
  }

  /** `PUT /{bucket}/{key}` with a KMS key id configured presigns `putObject` with the KMS fields. */
  lemma {:induction false} PutWithKmsKey(cfg: Config, bucket: string, key: string, url: string,
                                         verify: string -> Verification,
                                         decode: string -> Decoded, sign: (Operation, Params) -> Signed)
    requires !cfg.credentialsRequired
    requires cfg.sseKmsKeyId.Some? && IsTruthy(cfg.sseKmsKeyId.value)
    requires |bucket| > 0 && forall i :: 0 <= i < |bucket| ==> Route.IsBucketChar(bucket[i])
    requires |key| > 0 && forall i :: 0 <= i < |key| ==> !Route.IsLineTerminator(key[i])
    requires decode(bucket) == Decoded(bucket) && decode(key) == Decoded(key)
    requires sign(PutObject, Params(bucket, key, cfg.expires, Some(Sse("aws:kms", cfg.sseKmsKeyId.value)))) == SignedUrl(url)
    ensures Serve(cfg, Anonymous(Put, "/" + bucket + "/" + key), verify, decode, sign)
         == Handled(Outcome(Redirect(307, url, cfg.expires),
                            [SigningCall(PutObject, Params(bucket, key, cfg.expires, Some(Sse("aws:kms", cfg.sseKmsKeyId.value))))]))
  {
    Route.MatchOfParts(bucket, key);
  }

  /** `GET /` reaches no endpoint at all. */
  lemma RootIsNotRouted(cfg: Config, verify: string -> Verification,
                        decode: string -> Decoded, sign: (Operation, Params) -> Signed)
    ensures Serve(cfg, Anonymous(Get, "/"), verify, decode, sign) == NoRoute
  {
    Route.RootDoesNotMatch();
  }

  /** `GET /{bucket}/` matches with an empty key, which the handler refuses before signing. */
  lemma {:induction false} EmptyKeyRefused(cfg: Config, bucket: string, verify: string -> Verification,
                                           decode: string -> Decoded, sign: (Operation, Params) -> Signed)
    requires !cfg.credentialsRequired
    requires |bucket| > 0 && forall i :: 0 <= i < |bucket| ==> Route.IsBucketChar(bucket[i])
    ensures Serve(cfg, Anonymous(Get, "/" + bucket + "/"), verify, decode, sign)
         == Handled(Outcome(Forward(MissingParameters), []))
  {
    Route.MatchOfParts(bucket, "");
    assert "/" + bucket + "/" + "" == "/" + bucket + "/";
  }

  /** With credentials required, a request without a token is rejected and nothing is signed. */
  lemma CredentialsRequiredRejectsAnonymous(cfg: Config, verb: Verb, path: string, verify: string -> Verification,
                                            decode: string -> Decoded, sign: (Operation, Params) -> Signed)
    requires cfg.credentialsRequired
    ensures Serve(cfg, Anonymous(verb, path), verify, decode, sign) in {NoRoute, Rejected("credentials_required")}
  {
  }

  /**
   * With the flag as written, a request without a token is never rejected,
   * whatever `JWT_CREDENTIALS_REQUIRED` says.
   */
  lemma AsWrittenNeverDemandsCredentials(setting: Option<string>, req: Token.Request, verify: string -> Verification)
    requires !Token.HeaderSelected(req.authorization) && !Token.HasToken(req.query) && !Token.HasToken(req.cookies)
    ensures JwtGate(Truthy(CredentialsRequiredAsWritten(setting)), Token.GetToken(req), verify) == Admit
  {
  }

  /** With a token in header, query string and cookie, the header's token is the one verified. */
  lemma {:induction false} HeaderTokenIsVerified(cfg: Config, verb: Verb, path: string, t: string,
                                                 fromQuery: string, fromCookie: string,
                                                 verify: string -> Verification,
                                                 decode: string -> Decoded, sign: (Operation, Params) -> Signed)
    requires ' ' !in t && IsTruthy(t)
    requires Route.Match(path).Some? && OperationFor(verb).Some?
    ensures Serve(cfg, HttpRequest(verb, path, Some("Bearer " + t), Some(map["token" := fromQuery]),
                                   Some(map["token" := fromCookie])), verify, decode, sign)
         == if verify(t).Claims?
            then Handled(Handle(OperationFor(verb).value, cfg,
                                RawCaptures(Some(Route.Match(path).value.bucket), Some(Route.Match(path).value.key)),
                                decode, sign))
            else Rejected("invalid_token")
  {
    Token.HeaderBeatsQueryAndCookie(t, fromQuery, fromCookie);
  }
}
