/**
  The part of the gin framework and of net/http that the pipeline touches:
  the request as an immutable record, header and query lookups, and the gin
  context with its request-local storage and the response it writes.
*/
module Gin {
  import opened GoBase

  /** An already-routed HTTP request. `verb` is the HTTP method, `path` is
      `URL.Path`, `target` is `URL.String()`; `header` maps each key to its
      values as the server stored them, `query` maps each query parameter to
      its values. */
  datatype HttpRequest = HttpRequest(
    verb: string,
    path: string,
    target: string,
    header: map<string, seq<string>>,
    query: map<string, seq<string>>,
    body: string)

  /** A byte that may appear in a header field name (an RFC 7230 token character). */
  predicate IsTokenChar(c: char) {
    ('a' <= c <= 'z') || ('A' <= c <= 'Z') || ('0' <= c <= '9') || c in "!#$%&'*+-.^_`|~"
  }

  /** The case-folding loop of textproto.CanonicalMIMEHeaderKey: upper case
      at the start and after each '-', lower case elsewhere. */
  function CanonicalCase(s: string, upper: bool): (r: string)
    ensures |r| == |s|
  {
    if s == [] then []
    else
      var c := s[0];
      var c' :=
        if upper && 'a' <= c <= 'z' then (c as int - 32) as char
        else if !upper && 'A' <= c <= 'Z' then (c as int + 32) as char
        else c;
      [c'] + CanonicalCase(s[1..], c' == '-')
  }

  /** textproto.CanonicalMIMEHeaderKey: a key holding a character that is not
      a token character is returned unchanged. */
  function CanonicalKey(key: string): string {
    if forall i :: 0 <= i < |key| ==> IsTokenChar(key[i]) then CanonicalCase(key, true) else key
  }

  /** Case folding keeps every character a token character. */
  lemma {:induction false} CanonicalCaseTokens(s: string, upper: bool)
    requires forall i :: 0 <= i < |s| ==> IsTokenChar(s[i])
    ensures var r := CanonicalCase(s, upper); forall i :: 0 <= i < |r| ==> IsTokenChar(r[i])
    decreases |s|
  {
    if s != [] {
      var r := CanonicalCase(s, upper);
      CanonicalCaseTokens(s[1..], r[0] == '-');
      assert r[1..] == CanonicalCase(s[1..], r[0] == '-');
      assert IsTokenChar(r[0]);
    }
  }

  /** Folding a folded key a second time changes nothing. */
  lemma {:induction false} CanonicalCaseIdempotent(s: string, upper: bool)
    ensures CanonicalCase(CanonicalCase(s, upper), upper) == CanonicalCase(s, upper)
    decreases |s|
  {
    if s != [] {
      var r := CanonicalCase(s, upper);
      CanonicalCaseIdempotent(s[1..], r[0] == '-');
      assert r[1..] == CanonicalCase(s[1..], r[0] == '-');
    }
  }

  /** textproto.CanonicalMIMEHeaderKey is idempotent. */
  lemma CanonicalKeyIdempotent(key: string)
    ensures CanonicalKey(CanonicalKey(key)) == CanonicalKey(key)
  {
    if forall i :: 0 <= i < |key| ==> IsTokenChar(key[i]) {
      CanonicalCaseTokens(key, true);
      CanonicalCaseIdempotent(key, true);
    }
  }

  /** Header.Get finds the same value whether it is given a key or its
      canonical form, and two keys with one canonical form find the same
      value. */
  lemma HeaderGetCanonical(header: map<string, seq<string>>, key: string, other: string)
    ensures HeaderGet(header, CanonicalKey(key)) == HeaderGet(header, key)
    ensures CanonicalKey(other) == CanonicalKey(key) ==> HeaderGet(header, other) == HeaderGet(header, key)
  {
    CanonicalKeyIdempotent(key);
  }

  /** The first of a list of values, "" when there is none. */
  function FirstOrEmpty(values: seq<string>): string {
    if |values| > 0 then values[0] else ""
  }

  /** http.Header.Get, which is what gin's GetHeader calls: the first value under the canonical key. */
  function HeaderGet(header: map<string, seq<string>>, key: string): string {
    var k := CanonicalKey(key);
    if k in header then FirstOrEmpty(header[k]) else ""
  }

  /** gin's Context.Query: the first value of query parameter `key`, "" when absent. */
  function Query(req: HttpRequest, key: string): string {
    if key in req.query then FirstOrEmpty(req.query[key]) else ""
  }

  /** The gin context of one request. `keys` holds the entries of the
      request-local storage (gctx.Set / gctx.Get) that are BaseContexts;
      `bodyBytes` is the entry under gin.BodyBytesKey; `writes` is every
      envelope written to the response, in order; `aborted` says whether
      Abort was called. */
  class GinContext {
    const request: HttpRequest
    var keys: map<string, BaseContext>
    var bodyBytes: Option<string>
    var writes: seq<Envelope>
    var aborted: bool

    constructor (request: HttpRequest)
      ensures this.request == request
      ensures keys == map[] && bodyBytes == None && writes == [] && !aborted
    {
      this.request := request;
      keys := map[];
      bodyBytes := None;
      writes := [];
      aborted := false;
    }

    /** gctx.Writer.Written() */
    predicate Written()
      reads this
    {
      writes != []
    }

    /** gctx.JSON(http.StatusOK, e): writes the envelope, whether or not something was written before. */
    method JSON(e: Envelope)
      modifies this`writes
      ensures writes == old(writes) + [e]
    {
      writes := writes + [e];
    }

    /** gctx.Abort(): no later handler of the chain runs. */
    method Abort()
      modifies this`aborted
      ensures aborted
    {
      aborted := true;
    }

    /** gctx.AbortWithStatusJSON(http.StatusOK, e) */
    method AbortWithStatusJSON(e: Envelope)
      modifies this`writes, this`aborted
      ensures aborted && writes == old(writes) + [e]
    {
      Abort();
      JSON(e);
    }

    /** The body caching of gctx.ShouldBindBodyWith: the body is read once
        and kept under gin.BodyBytesKey (read failures are not modelled). */
    method CacheBody()
      modifies this`bodyBytes
      ensures bodyBytes == if old(bodyBytes).None? then Some(request.body) else old(bodyBytes)
    {
      if bodyBytes.None? {
        bodyBytes := Some(request.body);
      }
    }
  }
}
