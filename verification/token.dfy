/**
 * `fromHeaderOrQuerystringOrCookie`, the `getToken` hook given to the JWT
 * middleware: where a request's bearer token is taken from.
 */
module Token {
  import opened Wrappers
  import opened JsString

  /** The parts of a request the hook reads; a missing object is `None`. */
  datatype Request = Request(
    authorization: Option<string>,
    query: Option<map<string, string>>,
    cookies: Option<map<string, string>>)

  /** What the hook returns: a string, `undefined` (`split(' ')[1]` past the end) or `null`. */
  datatype TokenValue = Token(value: string) | Undefined | Null

  const Scheme: string := "Bearer"

  /** `req.headers.authorization && req.headers.authorization.split(' ')[0] === 'Bearer'` */
  predicate HeaderSelected(authorization: Option<string>) {
    authorization.Some? && IsTruthy(authorization.value) && Split(authorization.value, ' ')[0] == Scheme
  }

  /** `obj && obj.token` is truthy: the object exists and holds a non-empty `token`. */
  predicate HasToken(obj: Option<map<string, string>>) {
    obj.Some? && "token" in obj.value && IsTruthy(obj.value["token"])
  }

  /** The first of header, query string and cookie that supplies a token; otherwise `null`. */
  function GetToken(req: Request): (r: TokenValue)
    ensures r.Null? <==> !HeaderSelected(req.authorization) && !HasToken(req.query) && !HasToken(req.cookies)
    ensures r.Undefined? ==> HeaderSelected(req.authorization)
    ensures r.Token? && !HeaderSelected(req.authorization) ==> IsTruthy(r.value)
  {
    if HeaderSelected(req.authorization) then
      var fields := Split(req.authorization.value, ' ');
      if |fields| > 1 then Token(fields[1]) else Undefined
    else if HasToken(req.query) then
      Token(req.query.value["token"])
    else if HasToken(req.cookies) then
      Token(req.cookies.value["token"])
    else
      Null
  }

  /**
   * The token taken from the header is exactly the second space-separated
   * field: the header is `Bearer `, then the token (which holds no space),
   * then either nothing or a space.
   */
  lemma HeaderTokenIsSecondField(h: string, t: string, q: Option<map<string, string>>, c: Option<map<string, string>>)
    ensures GetToken(Request(Some(h), q, c)) == Token(t) && HeaderSelected(Some(h))
        <==> ' ' !in t && Scheme + " " + t <= h && (|h| == |Scheme| + 1 + |t| || h[|Scheme| + 1 + |t|] == ' ')
  {
    var fields := Split(h, ' ');
    if HeaderSelected(Some(h)) && |fields| > 1 && fields[1] == t {
      JoinSplit(h, ' ');
      assert h == Scheme + " " + Join(fields[1..], ' ');
      if |fields| > 2 {
        assert Join(fields[1..], ' ') == t + " " + Join(fields[2..], ' ');
        assert h == Scheme + " " + t + " " + Join(fields[2..], ' ');
      }
    }
    if ' ' !in t && Scheme + " " + t <= h && (|h| == |Scheme| + 1 + |t| || h[|Scheme| + 1 + |t|] == ' ') {
      if |h| == |Scheme| + 1 + |t| {
        assert h == Scheme + [' '] + t;
        SplitAtFirstSeparator(Scheme, t, ' ');
        SplitWithoutSeparator(t, ' ');
      } else {
        var rest := h[|Scheme| + 2 + |t|..];
        assert h == Scheme + [' '] + (t + [' '] + rest);
        SplitAtFirstSeparator(Scheme, t + [' '] + rest, ' ');
        SplitAtFirstSeparator(t, rest, ' ');
      }
    }
  }

  /** A selected header decides the result: query string and cookie are not consulted. */
  lemma HeaderWins(h: string, q1: Option<map<string, string>>, c1: Option<map<string, string>>,
                   q2: Option<map<string, string>>, c2: Option<map<string, string>>)
    requires HeaderSelected(Some(h))
    ensures GetToken(Request(Some(h), q1, c1)) == GetToken(Request(Some(h), q2, c2)) != Null
  {
  }

  /** Without a selected header the query string wins over the cookie. */
  lemma QueryBeforeCookie(req: Request)
    requires !HeaderSelected(req.authorization)
    ensures HasToken(req.query) ==> GetToken(req) == Token(req.query.value["token"])
    ensures !HasToken(req.query) && HasToken(req.cookies) ==> GetToken(req) == Token(req.cookies.value["token"])
  {
  }

  /** `Bearer` alone yields `undefined`, and the query string and cookie are ignored. */
  lemma SchemeAloneYieldsUndefined(q: Option<map<string, string>>, c: Option<map<string, string>>)
    ensures GetToken(Request(Some("Bearer"), q, c)) == Undefined
  {
  }

  /** `Bearer a b` yields `a`. */
  lemma OnlySecondFieldReturned(q: Option<map<string, string>>, c: Option<map<string, string>>)
    ensures GetToken(Request(Some("Bearer a b"), q, c)) == Token("a")
  {
    HeaderTokenIsSecondField("Bearer a b", "a", q, c);
  }

  /** The scheme comparison is case-sensitive: `bearer abc` falls through to query string and cookie. */
  lemma {:induction false} SchemeIsCaseSensitive(q: Option<map<string, string>>, c: Option<map<string, string>>)
    ensures GetToken(Request(Some("bearer abc"), q, c)) == GetToken(Request(None, q, c))
  {
    assert "bearer abc" == "bearer" + [' '] + "abc";
    SplitAtFirstSeparator("bearer", "abc", ' ');
    assert "bearer"[0] != Scheme[0];
  }

  /** Another scheme, such as `Basic abc`, falls through as well. */
  lemma OtherSchemeFallsThrough(q: Option<map<string, string>>, c: Option<map<string, string>>)
    ensures GetToken(Request(Some("Basic abc"), q, c)) == GetToken(Request(None, q, c))
  {
  }

  /** With a token in all three places, the header's token is the one returned. */
  lemma {:induction false} HeaderBeatsQueryAndCookie(t: string, fromQuery: string, fromCookie: string)
    requires ' ' !in t
    ensures GetToken(Request(Some("Bearer " + t), Some(map["token" := fromQuery]), Some(map["token" := fromCookie])))
         == Token(t)
  {
    HeaderTokenIsSecondField("Bearer " + t, t, Some(map["token" := fromQuery]), Some(map["token" := fromCookie]));
  }
}
