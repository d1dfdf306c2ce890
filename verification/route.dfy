/**
 * The route pattern `^/([a-zA-Z0-9_.-]+)/(.*)` shared by the GET and PUT
 * endpoints, and the two captures it hands the handler as `req.params[0]`
 * (the bucket) and `req.params[1]` (the key).
 */
module Route {
  import opened Wrappers

  datatype Captures = Captures(bucket: string, key: string)

  /** The class `[a-zA-Z0-9_.-]`. */
  predicate IsBucketChar(c: char) {
    'a' <= c <= 'z' || 'A' <= c <= 'Z' || '0' <= c <= '9' || c == '_' || c == '.' || c == '-'
  }

  /** The characters a JavaScript `.` does not match. */
  predicate IsLineTerminator(c: char) {
    c == '\n' || c == '\r' || c == '\U{2028}' || c == '\U{2029}'
  }

  /** Length of the longest prefix of `s` made of bucket characters (what the greedy `+` takes). */
  function BucketRun(s: string): (n: nat)
    ensures n <= |s|
    ensures forall i :: 0 <= i < n ==> IsBucketChar(s[i])
    ensures n < |s| ==> !IsBucketChar(s[n])
  {
    if s == [] || !IsBucketChar(s[0]) then 0 else 1 + BucketRun(s[1..])
  }

  /** Length of the longest prefix of `s` without a line terminator (what the greedy `.*` takes). */
  function LineRun(s: string): (n: nat)
    ensures n <= |s|
    ensures forall i :: 0 <= i < n ==> !IsLineTerminator(s[i])
    ensures n < |s| ==> IsLineTerminator(s[n])
  {
    if s == [] || IsLineTerminator(s[0]) then 0 else 1 + LineRun(s[1..])
  }

  /**
   * The match of the route pattern against a request path: a leading `/`,
   * the longest run of bucket characters (at least one) which must be
   * followed by `/`, then everything up to the end of the path or the first
   * line terminator.
   */
  function Match(path: string): (r: Option<Captures>)
    ensures r.Some? ==> |r.value.bucket| > 0 && '/' !in r.value.bucket
  {
    if |path| == 0 || path[0] != '/' then None
    else
      var n := BucketRun(path[1..]);
      if n == 0 || 1 + n == |path| || path[1 + n] != '/' then None
      else
        var rest := path[2 + n..];
        Some(Captures(path[1..1 + n], rest[..LineRun(rest)]))
  }

  /**
   * What it means for the pattern to match `path` with captures `bucket`
   * and `key`: `/bucket/key` is a prefix of the path, the bucket is a
   * non-empty run of bucket characters, and the key is the longest run
   * after it without a line terminator.
   */
  ghost predicate PatternMatches(path: string, bucket: string, key: string) {
    && |bucket| > 0
    && (forall i :: 0 <= i < |bucket| ==> IsBucketChar(bucket[i]))
    && (forall i :: 0 <= i < |key| ==> !IsLineTerminator(key[i]))
    && "/" + bucket + "/" + key <= path
    && (|path| == |bucket| + |key| + 2 || IsLineTerminator(path[|bucket| + |key| + 2]))
  }

  /** A run of bucket characters ended by a non-bucket character is the whole greedy run. */
  lemma BucketRunEndsAt(s: string, k: nat)
    requires k < |s| && !IsBucketChar(s[k])
    requires forall i :: 0 <= i < k ==> IsBucketChar(s[i])
    ensures BucketRun(s) == k
  {
  }

  /** A run without line terminators ended by the end or a line terminator is the whole greedy run. */
  lemma LineRunEndsAt(s: string, k: nat)
    requires k <= |s| && (k == |s| || IsLineTerminator(s[k]))
    requires forall i :: 0 <= i < k ==> !IsLineTerminator(s[i])
    ensures LineRun(s) == k
  {
  }

  lemma PatternGivesMatch(path: string, bucket: string, key: string)
    requires PatternMatches(path, bucket, key)
    ensures Match(path) == Some(Captures(bucket, key))
  {
    var b, k := |bucket|, |key|;
    var prefix := "/" + bucket + "/" + key;
    assert path[..b + k + 2] == prefix;
    assert path[0] == '/' && path[1 + b] == '/';
    assert path[1..1 + b] == prefix[1..1 + b] == bucket;
    assert path[2 + b..2 + b + k] == prefix[2 + b..] == key;
    var tail := path[1..];
    assert tail[..b] == bucket;
    BucketRunEndsAt(tail, b);
    var rest := path[2 + b..];
    assert rest[..k] == key;
    LineRunEndsAt(rest, k);
  }

  lemma MatchGivesPattern(path: string, bucket: string, key: string)
    requires Match(path) == Some(Captures(bucket, key))
    ensures PatternMatches(path, bucket, key)
  {
  }

  /** `Match` finds exactly the captures the pattern describes, and nothing when there are none. */
  lemma MatchIsPattern(path: string, bucket: string, key: string)
    ensures Match(path) == Some(Captures(bucket, key)) <==> PatternMatches(path, bucket, key)
  {
    if PatternMatches(path, bucket, key) {
      PatternGivesMatch(path, bucket, key);
    }
    if Match(path) == Some(Captures(bucket, key)) {
      MatchGivesPattern(path, bucket, key);
    }
  }

  /** `GET /` reaches no endpoint: the pattern needs a bucket and a second `/`. */
  lemma RootDoesNotMatch()
    ensures Match("/") == None
  {
  }

  /**
   * A path built from a valid bucket and a key without line terminators
   * splits back into them; in particular the key keeps its slashes.
   */
  lemma {:induction false} MatchOfParts(bucket: string, key: string)
    requires |bucket| > 0 && forall i :: 0 <= i < |bucket| ==> IsBucketChar(bucket[i])
    requires forall i :: 0 <= i < |key| ==> !IsLineTerminator(key[i])
    ensures Match("/" + bucket + "/" + key) == Some(Captures(bucket, key))
  {
    MatchIsPattern("/" + bucket + "/" + key, bucket, key);
  }

  /** The key capture may be empty. */
  lemma {:induction false} EmptyKeyMatches()
    ensures Match("/mybucket/") == Some(Captures("mybucket", ""))
  {
    MatchOfParts("mybucket", "");
    assert "/mybucket/" == "/" + "mybucket" + "/" + "";
  }

  /** A character outside the bucket class before the second `/` prevents a match. */
  lemma SpaceInBucketDoesNotMatch()
    ensures Match("/my bucket/x") == None
  {
  }
}
