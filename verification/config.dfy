/**
 * The settings the service derives once from its environment: the JWT
 * middleware's `credentialsRequired` flag, the link lifetime `EXPIRES`, and
 * the defaults for the secret and the region.
 */
module Config {
  import opened Wrappers
  import opened JsString

  /** The JavaScript values these expressions produce. `parseInt` yields a number or `NaN`. */
  datatype JsValue = JsUndefined | JsNull | JsBool(b: bool) | JsNumber(n: int) | JsNaN | JsString(s: string)

  predicate Truthy(v: JsValue) {
    match v
    case JsUndefined => false
    case JsNull => false
    case JsBool(b) => b
    case JsNumber(n) => n != 0
    case JsNaN => false
    case JsString(s) => IsTruthy(s)
  }

  /** `a === b`: values of different types are never equal, and `NaN` equals nothing. */
  predicate StrictEquals(a: JsValue, b: JsValue) {
    match (a, b)
    case (JsUndefined, JsUndefined) => true
    case (JsNull, JsNull) => true
    case (JsBool(x), JsBool(y)) => x == y
    case (JsNumber(x), JsNumber(y)) => x == y
    case (JsString(x), JsString(y)) => x == y
    case _ => false
  }

  /** `a || b`: the left operand when it is truthy, otherwise the right one. */
  function Or(a: JsValue, b: JsValue): (r: JsValue)
    ensures Truthy(r) <==> Truthy(a) || Truthy(b)
  {
    if Truthy(a) then a else b
  }

  /** An environment variable: a string, or `undefined` when it is not set. */
  function EnvValue(v: Option<string>): JsValue {
    if v.Some? then JsString(v.value) else JsUndefined
  }

  function LowerChar(c: char): char {
    if 'A' <= c <= 'Z' then (c as int + 32) as char else c
  }

  /** `s.toLowerCase()`, for ASCII letters. */
  function ToLowerCase(s: string): (r: string)
    ensures |r| == |s|
    ensures forall i :: 0 <= i < |s| ==> r[i] == LowerChar(s[i])
  {
    seq(|s|, i requires 0 <= i < |s| => LowerChar(s[i]))
  }

  /**
   * `(v && v.toLowerCase() === true) || false` as written: a string is
   * compared with the boolean `true`, so the flag is `false` whatever the
   * variable holds.
   */
  function CredentialsRequiredAsWritten(v: Option<string>): (r: JsValue)
    ensures r == JsBool(false)
  {
    var env := EnvValue(v);
    var conjunction := if !Truthy(env) then env
                       else JsBool(StrictEquals(JsString(ToLowerCase(v.value)), JsBool(true)));
    Or(conjunction, JsBool(false))
  }

  /** `(v && v.toLowerCase() === 'true') || false`: the comparison the flag was meant to make. */
  function CredentialsRequired(v: Option<string>): (r: JsValue)
    ensures r == JsBool(v.Some? && ToLowerCase(v.value) == "true")
  {
    var env := EnvValue(v);
    var conjunction := if !Truthy(env) then env
                       else JsBool(StrictEquals(JsString(ToLowerCase(v.value)), JsString("true")));
    Or(conjunction, JsBool(false))
  }

  /** `TRUE` switches the intended flag on, while the flag as written stays off. */
  lemma UpperCaseTrueRequiresCredentials()
    ensures CredentialsRequired(Some("TRUE")) == JsBool(true)
    ensures CredentialsRequiredAsWritten(Some("TRUE")) == JsBool(false)
  {
  }

  /** One week in seconds: the longest lifetime a Signature Version 4 presigned URL accepts. */
  const OneWeek: int := 60 * 60 * 24 * 7

  /** The result of `parseInt`: a number, or `NaN` (`None`). */
  function Parsed(n: Option<int>): JsValue {
    if n.Some? then JsNumber(n.value) else JsNaN
  }

  /** `parseInt(process.env.EXPIRES) || (60 * 60 * 24 * 7)` */
  function Expires(parsed: Option<int>): (seconds: int)
    ensures seconds != 0
    ensures seconds == OneWeek <==> parsed.None? || parsed.value in {0, OneWeek}
    ensures parsed.Some? && parsed.value != 0 ==> seconds == parsed.value
  {
    var v := Or(Parsed(parsed), JsNumber(OneWeek));
    if v.JsNumber? then v.n else OneWeek
  }

  /** The environment variables the service reads at start-up; `EXPIRES` already parsed. */
  datatype Env = Env(
    jwtSecret: Option<string>,
    jwtCredentialsRequired: Option<string>,
    region: Option<string>,
    expires: Option<int>,
    sseKmsKeyId: Option<string>)

  /** The immutable configuration every request is served with. */
  datatype Config = Config(
    secret: string,
    credentialsRequired: bool,
    region: string,
    expires: int,
    sseKmsKeyId: Option<string>)

  /** `v || fallback` for an environment variable. */
  function OrDefault(v: Option<string>, fallback: string): (r: string)
    ensures v.Some? && IsTruthy(v.value) ==> r == v.value
    ensures !(v.Some? && IsTruthy(v.value)) ==> r == fallback
  {
    var value := Or(EnvValue(v), JsString(fallback));
    if value.JsString? then value.s else fallback
  }

  /** The configuration read once at start-up. */
  function LoadConfig(env: Env): (cfg: Config)
    ensures cfg.secret == (if env.jwtSecret.Some? && env.jwtSecret.value != "" then env.jwtSecret.value else "secret")
    ensures cfg.region == (if env.region.Some? && env.region.value != "" then env.region.value else "us-east-1")
    ensures cfg.credentialsRequired <==> env.jwtCredentialsRequired.Some? && ToLowerCase(env.jwtCredentialsRequired.value) == "true"
    ensures cfg.expires == Expires(env.expires)
    ensures cfg.expires != 0 && (env.expires.Some? && env.expires.value != 0 ==> cfg.expires == env.expires.value)
    ensures cfg.sseKmsKeyId == env.sseKmsKeyId
  {
    Config(
      OrDefault(env.jwtSecret, "secret"),
      Truthy(CredentialsRequired(env.jwtCredentialsRequired)),
      OrDefault(env.region, "us-east-1"),
      Expires(env.expires),
      env.sseKmsKeyId)
  }
}
