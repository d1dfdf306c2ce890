# s3-url-service: a Dafny model of the request-translation layer

The service is a small HTTP redirector. `GET /{bucket}/{key}` and
`PUT /{bucket}/{key}` are answered with a 307 redirect to a short-lived
presigned S3 URL for `getObject` or `putObject`. A JWT middleware sits in
front of the two endpoints. It takes a bearer token from the
`Authorization` header, the `token` query parameter or the `token` cookie,
in that order. This project models that layer as it is written in
`index.js`, with one exception: the configuration it builds uses the
corrected `credentialsRequired` comparison (see Findings).

- `js_string.dfy` (`JsString`): JavaScript string truthiness and
  `split(' ')`, with its partner `Join` and round-trip lemmas in both
  directions.
- `token.dfy` (`Token`): the `getToken` hook `fromHeaderOrQuerystringOrCookie`.
  It returns a string, `undefined` or `null`.
- `config.dfy` (`Config`): the `credentialsRequired` expression, `EXPIRES`,
  the secret and region defaults, and the immutable `Config` value built
  from them. JavaScript's `||`, `&&`, `===` and truthiness are modelled over
  a small `JsValue` datatype.
- `route.dfy` (`Route`): the route pattern `^/([a-zA-Z0-9_.-]+)/(.*)`. It is
  proved equal to a declarative description of what the pattern matches.
- `handler.dfy` (`Handler`): `requestHandler`. `Handle` is a pure function
  from the captures, the configuration, a decoder and a signer to the reply
  and the list of signing calls made. `RequestHandler` is the same handler
  written imperatively. It builds `params` with bucket, key and lifetime,
  then, for `putObject` with a key id, replaces it with a copy that also
  holds the SSE pair (a datatype value, not an object updated in place). On
  success it calls `Cache` and `Redirect` on an `HttpResponse` object, as
  `res.cache` and `res.redirect` do. It is proved to end exactly as `Handle`
  says.
- `server.dfy` (`Server`): one request end to end. The route table comes
  first, then the JWT middleware's verdict, then the handler. Example
  requests (an anonymous GET, a PUT with a KMS key id, `GET /`, an empty
  key, a missing required token) are stated over all buckets and keys.

Parameters stand for the collaborators. `decodeURIComponent` is a function
`string -> Decoded` that may report a `URIError`. `getSignedUrl` is a
function from the operation and parameters to a URL or an error. The JWT
verifier is a function from a token to claims or a rejection. Each request
records the signing calls it makes. So "no signing call happens" is a
statement about an empty list.

Points where the code behaves differently from what a reader of the
endpoints and comments might expect (index.js:16, 38-39, 49-51), which the
model keeps as the code has them:

- `GET /` does not match the route pattern, so the server never reaches the
  handler. It does not produce the missing-parameter error (`Server.RootIsNotRouted`).
  That error comes from `GET /{bucket}/`, where the key capture is empty
  (`Server.EmptyKeyRefused`).
- `Authorization: Bearer` with no token yields `undefined`. The query string
  and the cookie are then not consulted.
- `EXPIRES` is only guaranteed non-zero. A negative value, or one above a
  week, is passed to the signer unchanged.
- The captures are checked for emptiness before they are percent-decoded.
- The `credentialsRequired` flag as written is always `false`
  (`Config.CredentialsRequiredAsWritten`). `Config.LoadConfig` uses the
  corrected comparison instead (see Findings and Left out).

## Model

| member | source | states |
|---|---|---|
| `JsString.Split` | index.js:20-21 | `split(' ')` always yields at least one field, and no field contains the separator |
| `JsString.JoinSplit` | index.js:20-21 | joining the fields of a split with the separator gives back the original header |
| `JsString.SplitJoin` | index.js:20-21 | splitting a join of separator-free fields gives back the same fields |
| `Token.GetToken` | index.js:19-28 | the result is `null` exactly when no source supplies a token; `undefined` only comes from a `Bearer` header; a token from the query string or cookie is non-empty |
| `Token.HeaderTokenIsSecondField` | index.js:20-21 | the header yields token `t` iff the header is `Bearer `, then `t` (no spaces), then the end or a space |
| `Token.HeaderWins` | index.js:20-21 | once the header's first field is `Bearer`, the query string and cookie do not affect the result, which is never `null` |
| `Token.QueryBeforeCookie` | index.js:22-25 | without a `Bearer` header, a non-empty query token is returned; otherwise a non-empty cookie token |
| `Token.SchemeAloneYieldsUndefined` | index.js:20-21 | `Bearer` alone yields `undefined` whatever the query string and cookie hold |
| `Token.OnlySecondFieldReturned` | index.js:20-21 | `Bearer a b` yields `a` |
| `Token.SchemeIsCaseSensitive` | index.js:20 | `bearer abc` gives the same result as having no header |
| `Token.OtherSchemeFallsThrough` | index.js:20 | `Basic abc` gives the same result as having no header |
| `Token.HeaderBeatsQueryAndCookie` | index.js:19-27 | with tokens in all three sources, the header's token is returned |
| `Config.CredentialsRequiredAsWritten` | index.js:17-18 | the expression as written evaluates to `false` for every value of `JWT_CREDENTIALS_REQUIRED`, set or not |
| `Config.CredentialsRequired` | index.js:17-18 | the corrected expression is `true` exactly when the variable lower-cases to `true` |
| `Config.UpperCaseTrueRequiresCredentials` | index.js:17-18 | for `TRUE` the corrected flag is on and the flag as written is off |
| `Config.Expires` | index.js:40 | the lifetime is never 0; it is 604800 exactly when the parsed value is `NaN`, 0 or 604800; any other parsed value is kept |
| `Config.OrDefault` | index.js:15 | an unset or empty variable gives the default, any other value is kept |
| `Config.LoadConfig` | index.js:15-40 | secret defaults to `secret`, region to `us-east-1`, lifetime is `Expires` of the parsed value (non-zero, kept when non-zero, otherwise 604800), KMS key id passed through, and the credentials flag follows the corrected comparison |
| `Route.BucketRun` | index.js:85 | the greedy `[a-zA-Z0-9_.-]+` run: every character in it is a bucket character and the one after it is not |
| `Route.LineRun` | index.js:85 | the greedy `.*` run: no line terminator inside, and the next character, if any, is one |
| `Route.Match` | index.js:85-88 | a match has a non-empty bucket that contains no `/` |
| `Route.MatchIsPattern` | index.js:85 | `Match` returns `(bucket, key)` iff `/bucket/key` is a prefix of the path, the bucket is a non-empty run of the class, and the key is the longest line-terminator-free remainder |
| `Route.MatchOfParts` | index.js:85 | `/bucket/key` with a valid bucket splits back into that bucket and that key, slashes in the key included |
| `Route.RootDoesNotMatch` | index.js:85 | `/` does not match |
| `Route.EmptyKeyMatches` | index.js:85 | `/mybucket/` matches with an empty key |
| `Route.SpaceInBucketDoesNotMatch` | index.js:85 | a character outside the class before the second `/` prevents a match |
| `Handler.ParamsFor` | index.js:62-72 | `Bucket`, `Key` and `Expires` are always set; the SSE pair is `aws:kms` with the configured id, present iff the operation is `putObject` and a non-empty key id is configured |
| `Handler.Respond` | index.js:74-79 | a URL gives a 307 redirect to it with max-age equal to the lifetime; an error is forwarded unchanged |
| `Handler.Handle` | index.js:42-82 | missing or empty captures forward the missing-parameter error with no signing call; with both captures decodable, exactly one call with `ParamsFor` the decoded bucket and key, and a signed URL gives a 307 redirect to it with max-age `Expires` while a signing error is forwarded unchanged; a redirect is 307 to the URL the signer returned for the call, with max-age equal to the call's `Expires` |
| `Handler.OneCallWhenValid` | index.js:50-74 | with both captures present and decodable, exactly one signing call is made, with the decoded bucket and key |
| `Handler.RetrieveNeverEncrypts` | index.js:68-72 | `getObject` parameters never carry SSE fields |
| `Handler.StoreEncryptsIffConfigured` | index.js:68-72 | `putObject` parameters carry `aws:kms` and the key id iff a key id is configured |
| `Handler.SigningErrorForwarded` | index.js:74-77 | a signing error is forwarded as it is |
| `Handler.MalformedEscapeThrows` | index.js:53-54 | a capture the decoder rejects makes the handler throw, with no signing call |
| `Handler.HttpResponse.Cache` | index.js:78 | sets the cache max-age and nothing else |
| `Handler.HttpResponse.Redirect` | index.js:79 | sets the status and location and nothing else |
| `Handler.RequestHandler` | index.js:42-82 | the imperative handler makes the same signing calls as `Handle`; on a redirect `res` holds 307, the URL and the max-age; on a forwarded error or a throw `res` is unchanged |
| `Server.OperationFor` | index.js:85-88 | GET maps to `getObject`, PUT to `putObject`, anything else to no endpoint |
| `Server.JwtGate` | index.js:13-29 | a non-empty token is admitted iff the verifier accepts it; with no token, the request is admitted iff credentials are not required |
| `Server.Serve` | index.js:13-88 | a handled request matched the route and a GET or PUT endpoint, and every signing call uses that endpoint's operation |
| `Server.ServeComposes` | index.js:13-88 | for every request: no GET/PUT route match gives no route; otherwise a middleware rejection with code `c` gives `Rejected(c)` and an admitted request gives exactly `Handle` of the endpoint's operation on the two captures |
| `Server.AnonymousGetRedirects` | index.js:85 | `GET /{bucket}/{key}` without credentials presigns `getObject` for that bucket and key, with no SSE fields, and redirects with status 307 |
| `Server.PutWithKmsKey` | index.js:88 | `PUT /{bucket}/{key}` with a KMS key id presigns `putObject` with `aws:kms` and that id, and redirects with status 307 |
| `Server.RootIsNotRouted` | index.js:85 | `GET /` reaches no endpoint |
| `Server.EmptyKeyRefused` | index.js:50-51 | `GET /{bucket}/` gets the missing-parameter error and nothing is signed |
| `Server.CredentialsRequiredRejectsAnonymous` | index.js:17-18 | with credentials required, a request without a token is rejected with `credentials_required` or not routed |
| `Server.AsWrittenNeverDemandsCredentials` | index.js:17-18 | with the flag as written, a request without a token always passes the middleware |
| `Server.HeaderTokenIsVerified` | index.js:19-27 | with tokens in all three sources, the header token alone decides whether the middleware admits the request |

## Findings

| source | as written | input that shows it | evidently intended | confidence | as-written member | corrected member |
|---|---|---|---|---|---|---|
| index.js:17-18 | `JWT_CREDENTIALS_REQUIRED.toLowerCase() === true` compares a string with a boolean, so the flag is always `false` | `JWT_CREDENTIALS_REQUIRED=true` or `TRUE`: requests without a token are still served | compare with the string `'true'` | high, not executed | `Config.CredentialsRequiredAsWritten` (with `Config.UpperCaseTrueRequiresCredentials`, `Server.AsWrittenNeverDemandsCredentials`) | `Config.CredentialsRequired`, used by `Config.LoadConfig` |

## Left out

- Config.LoadConfig: builds `credentialsRequired` from the corrected comparison with `'true'`, so for `JWT_CREDENTIALS_REQUIRED=true` it is `true` where index.js:17-18 gives `false`; the program's own value is `Config.CredentialsRequiredAsWritten`, always `false`, and `Server.AsWrittenNeverDemandsCredentials` shows what that means for the middleware.
- Server setup, middleware wiring, `listen` on port 8080 and the `console.log` of claims (index.js:8-11, 46, 91-93) are I/O.
- The query-string and cookie parsers are not modelled. Query parameters and cookies are maps from names to strings. A repeated query parameter, which would become an array, is not modelled.
- restify's router is reduced to "no route". The model does not separate a 404 (no path match) from a 405 (path matches, method does not). The response restify sends for an exception thrown from a handler is also left out.
- restify-jwt is not part of this model. `Server.JwtGate` follows its documented behaviour: a falsy token is an error only when credentials are required, and otherwise the token must pass verification. The token's signature check, expiry check and secret are folded into the `verify` parameter. The claims it attaches to `req.user` are only logged and play no part.
- `getSignedUrl` and Signature Version 4 are the `sign` parameter. That includes the SDK's refusal of a lifetime above one week. The region and access keys given to `AWS.config.update` (index.js:31-35) only reach the SDK. Only the region default is modelled.
- `decodeURIComponent` is the `decode` parameter. Its `URIError` ends the handler as `Thrown`.
- `parseInt` is replaced by its result: `Some(n)` or `None` for `NaN`. Numbers are unbounded integers, so floating-point precision is not modelled.
- `dotenv` loading and `process.env` reads are left out. The environment is an `Env` value. The handler reads `AWS_SSE_KMS_KEY_ID` at request time, and the model reads it from `Config`. Nothing in the service changes the environment after start-up, so the two are the same.
- `Config.ToLowerCase` lower-cases ASCII letters only. JavaScript's full Unicode case mapping is not modelled.
- `res.cache` also marks the response `public`, and `res.redirect` calls `next` after sending. The model keeps the max-age, status and location only.
- There is no concurrency to model. Requests share only the immutable configuration.
