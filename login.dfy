/**
  The login handler of requests/request.go (loginHandler, maybeShare): the
  first handler of every route, which classifies the request by the tier
  markers in its URL path and by the share token, runs the matching identity
  callback, and either lets the chain continue or aborts it with a response.
*/
module Login {
  import opened GoBase
  import opened GoStrings
  import opened Gin
  import opened Common

  const PublicMarker: string := "/public/"
  const PrivateMarker: string := "/private/"
  const ApiMarker: string := "/api/"

  /** How loginHandler ends: gctx.Next(), AbortWithStatusJSON with the error's
      envelope, AbortWithStatusJSON with NotLoginError, or a panic raised by a
      callback, which leaves the handler. */
  datatype LoginOutcome =
    | Continue
    | AbortWithError(err: Error)
    | AbortNotLogin
    | LoginPanic(p: PanicValue)

  /** An identity callback loginHandler called, with the arguments it passed. */
  datatype IdentityCall =
    | PublicCalled(token: string, urlPath: string)
    | PrivateCalled(uid: int)
    | ApiCalled(token: string, urlPath: string)

  /** The outcome, the QuickInfo uid afterwards, and the callbacks called in order. */
  datatype LoginResult = LoginResult(outcome: LoginOutcome, uid: int, calls: seq<IdentityCall>)

  /** maybeShare(ctx): the request carries a share token. */
  predicate MaybeShare(values: map<string, string>) {
    ValueOf(values, ShareTokenKey) != ""
  }

  /** What a callback's error or panic makes of the handler; `next` is what
      happens after a callback that returns nil. */
  function AfterCheck(c: CheckResult, uid: int, calls: seq<IdentityCall>, next: int -> LoginResult): LoginResult {
    match c
    case Passed(u) => next(u)
    case Failed(e) => LoginResult(AbortWithError(e), uid, calls)
    case Panicked(p) => LoginResult(LoginPanic(p), uid, calls)
  }

  /** The final uid test of loginHandler: a zero uid is not logged in. */
  function RequireUid(uid: int, calls: seq<IdentityCall>): LoginResult {
    if uid == 0 then LoginResult(AbortNotLogin, uid, calls) else LoginResult(Continue, uid, calls)
  }

  /** loginHandler's branches for URL path `urlPath`, the BaseContext entries
      `values` and the QuickInfo uid `uid`, in the order the source tests them:
      /public/, then the share token, then /private/, then /api/, then the uid. */
  function LoginDecision(urlPath: string, values: map<string, string>, uid: int, cbs: Callbacks): LoginResult {
    // commons.GetToken(ctx): the token genBaseContext stored
    var token := ValueOf(values, TokenKey);
    if Contains(urlPath, PublicMarker) then
      var calls := [PublicCalled(token, urlPath)];
      AfterCheck(cbs.publicCheck(token, urlPath, uid), uid, calls, u => LoginResult(Continue, u, calls))
    else if MaybeShare(values) then
      LoginResult(Continue, uid, [])
    else if Contains(urlPath, PrivateMarker) then
      var sUid := ValueOf(values, PrivateUidKey);
      if sUid == "" then LoginResult(Continue, uid, [])
      else
        match ParseInt(sUid)
        case Err(e) => LoginResult(AbortWithError(e), uid, [])
        case Ok(n) =>
          var calls := [PrivateCalled(n)];
          AfterCheck(cbs.privateCheck(n, uid), uid, calls, u => RequireUid(u, calls))
    else if Contains(urlPath, ApiMarker) then
      var calls := [ApiCalled(token, urlPath)];
      AfterCheck(cbs.apiCheck(token, urlPath, uid), uid, calls, u => RequireUid(u, calls))
    else
      RequireUid(uid, [])
  }

  predicate IsAbort(o: LoginOutcome) {
    o.AbortWithError? || o.AbortNotLogin?
  }

  /** The response an aborting outcome writes: commons.QuickFromError(err),
      or NotLoginError itself. */
  function LoginWrites(o: LoginOutcome): (w: seq<Envelope>)
    ensures |w| == (if IsAbort(o) then 1 else 0)
  {
    match o
    case AbortWithError(e) => [ErrorResult(e)]
    case AbortNotLogin => [BareError(NotLoginError)]
    case _ => []
  }

  /** loginHandler(rd) applied to gctx `g`: the callbacks update the uid of the
      request's BaseContext; an abort writes the outcome's envelope. */
  method LoginHandler(g: GinContext, cbs: Callbacks, uuid: string, now: int) returns (outcome: LoginOutcome)
    modifies g`keys, g`writes, g`aborted, StoredContext(g)
    ensures BaseContextName in g.keys
    ensures BaseContextName in old(g.keys) ==>
      g.keys == old(g.keys) && g.keys[BaseContextName].values == old(g.keys[BaseContextName].values)
    ensures BaseContextName !in old(g.keys) ==>
      fresh(g.keys[BaseContextName]) && g.keys == old(g.keys)[BaseContextName := g.keys[BaseContextName]]
    ensures var ctx := g.keys[BaseContextName];
      var uid0 := if BaseContextName in old(g.keys) then old(g.keys[BaseContextName].uid) else 0;
      var r := LoginDecision(g.request.path, ctx.values, uid0, cbs);
      && outcome == r.outcome
      && ctx.uid == r.uid
      && g.writes == old(g.writes) + LoginWrites(r.outcome)
      && g.aborted == (old(g.aborted) || IsAbort(r.outcome))
    ensures var ctx := g.keys[BaseContextName];
      BaseContextName !in old(g.keys) ==> ctx.values == ContextValues(g.request, uuid) && ctx.createTime == now && !ctx.notLogSql
    ensures var ctx := g.keys[BaseContextName];
      BaseContextName in old(g.keys) ==> ctx.notLogSql == old(ctx.notLogSql)
  {
    ghost var frame := StoredContext(g);
    var ctx := GenBaseContext(g, uuid, now);
    assert ctx in frame || fresh(ctx);
    outcome := Authenticate(g, ctx, cbs);
  }

  /** The body of loginHandler once the BaseContext is at hand. */
  method Authenticate(g: GinContext, ctx: BaseContext, cbs: Callbacks) returns (outcome: LoginOutcome)
    modifies g`writes, g`aborted, ctx`uid
    ensures var r := LoginDecision(g.request.path, ctx.values, old(ctx.uid), cbs);
      && outcome == r.outcome
      && ctx.uid == r.uid
      && g.writes == old(g.writes) + LoginWrites(r.outcome)
      && g.aborted == (old(g.aborted) || IsAbort(r.outcome))
  {
    var r := LoginDecision(g.request.path, ctx.values, ctx.uid, cbs);
    ctx.uid := r.uid;
    outcome := r.outcome;
    match outcome
    case AbortWithError(e) =>
      g.AbortWithStatusJSON(ErrorResult(e));
    case AbortNotLogin =>
      g.AbortWithStatusJSON(BareError(NotLoginError));
    case _ =>
  }

  // ---------------------------------------------------------------------
  // The tiers
  // ---------------------------------------------------------------------

  /** A /public/ path calls only PublicUserInfoCheckFunc, aborts only when
      that callback fails, and never answers NotLoginError, whatever the uid. */
  lemma PublicTier(urlPath: string, values: map<string, string>, uid: int, cbs: Callbacks)
    requires Contains(urlPath, PublicMarker)
    ensures var r := LoginDecision(urlPath, values, uid, cbs);
      var c := cbs.publicCheck(ValueOf(values, TokenKey), urlPath, uid);
      && r.calls == [PublicCalled(ValueOf(values, TokenKey), urlPath)]
      && r.outcome != AbortNotLogin
      && (c.Passed? <==> r.outcome == Continue)
      && (c.Passed? ==> r.uid == c.uid)
      && (c.Failed? ==> r.outcome == AbortWithError(c.err))
      && (r.outcome.AbortWithError? ==> c.Failed?)
  {
  }

  /** Off /public/, a share token lets the request through untouched, with no
      callback and no uid test, even on /private/ and /api/ paths. */
  lemma ShareTokenBypass(urlPath: string, values: map<string, string>, uid: int, cbs: Callbacks)
    requires !Contains(urlPath, PublicMarker) && MaybeShare(values)
    ensures LoginDecision(urlPath, values, uid, cbs) == LoginResult(Continue, uid, [])
  {
  }

  /** The four outcomes of a /private/ path (without /public/ or a share token). */
  lemma PrivateTier(urlPath: string, values: map<string, string>, uid: int, cbs: Callbacks)
    requires !Contains(urlPath, PublicMarker) && !MaybeShare(values) && Contains(urlPath, PrivateMarker)
    ensures var r := LoginDecision(urlPath, values, uid, cbs);
      var hint := ValueOf(values, PrivateUidKey);
      // no hint: on through, with no check at all
      && (hint == "" ==> r == LoginResult(Continue, uid, []))
      // a hint ParseInt rejects: abort with its error, before any callback
      && (hint != "" && ParseInt(hint).Err? ==> r == LoginResult(AbortWithError(ParseInt(hint).error), uid, []))
      // a parsed hint goes to PrivateUserInfoCheckFunc, and only there
      && (hint != "" && ParseInt(hint).Ok? ==>
            var c := cbs.privateCheck(ParseInt(hint).value, uid);
            && r.calls == [PrivateCalled(ParseInt(hint).value)]
            && (c.Failed? ==> r.outcome == AbortWithError(c.err))
            && (c.Passed? && c.uid == 0 ==> r.outcome == AbortNotLogin)
            && (c.Passed? && c.uid != 0 ==> r.outcome == Continue && r.uid == c.uid))
  {
  }

  /** A hint with a character that is neither a digit nor a leading sign is
      answered with strconv's error for that hint, before any callback runs. */
  lemma PrivateHintNotNumeric(urlPath: string, values: map<string, string>, uid: int, cbs: Callbacks, i: nat)
    requires !Contains(urlPath, PublicMarker) && !MaybeShare(values) && Contains(urlPath, PrivateMarker)
    requires PrivateUidKey in values
    requires i < |values[PrivateUidKey]| && !IsDigit(values[PrivateUidKey][i])
    requires i == 0 ==> values[PrivateUidKey][0] != '+' && values[PrivateUidKey][0] != '-'
    ensures var r := LoginDecision(urlPath, values, uid, cbs);
      && r.outcome.AbortWithError?
      && r.outcome.err.NumError? && r.outcome.err.num == values[PrivateUidKey]
      && r.calls == []
  {
    ParseIntRejectsNonNumeric(values[PrivateUidKey], i);
  }

  /** Every other path: /api/ first aborts on an ApiUserInfoCheckFunc error;
      then a zero uid always aborts with NotLoginError and only a non-zero uid
      continues. */
  lemma ApiAndOtherTier(urlPath: string, values: map<string, string>, uid: int, cbs: Callbacks)
    requires !Contains(urlPath, PublicMarker) && !MaybeShare(values) && !Contains(urlPath, PrivateMarker)
    ensures var r := LoginDecision(urlPath, values, uid, cbs);
      var token := ValueOf(values, TokenKey);
      var c := cbs.apiCheck(token, urlPath, uid);
      && (Contains(urlPath, ApiMarker) ==>
            && r.calls == [ApiCalled(token, urlPath)]
            && (c.Failed? ==> r.outcome == AbortWithError(c.err))
            && (c.Panicked? ==> r.outcome == LoginPanic(c.p))
            && (c.Passed? ==> r.uid == c.uid && r.outcome == (if c.uid != 0 then Continue else AbortNotLogin)))
      && (!Contains(urlPath, ApiMarker) ==>
            && r.calls == []
            && r.uid == uid
            && (r.outcome == Continue <==> uid != 0)
            && (r.outcome == AbortNotLogin <==> uid == 0))
  {
  }

  /** NotLoginError is only ever given to a request whose uid is 0. */
  lemma NotLoginMeansNoUid(urlPath: string, values: map<string, string>, uid: int, cbs: Callbacks)
    ensures LoginDecision(urlPath, values, uid, cbs).outcome == AbortNotLogin ==>
      LoginDecision(urlPath, values, uid, cbs).uid == 0
  {
  }

  /** A request continues without a uid only on a /public/ path, with a share
      token, or on a /private/ path without a uid hint. */
  lemma AnonymousContinue(urlPath: string, values: map<string, string>, uid: int, cbs: Callbacks)
    requires LoginDecision(urlPath, values, uid, cbs).outcome == Continue
    requires LoginDecision(urlPath, values, uid, cbs).uid == 0
    ensures || Contains(urlPath, PublicMarker)
            || MaybeShare(values)
            || (Contains(urlPath, PrivateMarker) && ValueOf(values, PrivateUidKey) == "")
  {
  }

  /** At most one identity callback runs per request. */
  lemma AtMostOneCallback(urlPath: string, values: map<string, string>, uid: int, cbs: Callbacks)
    ensures |LoginDecision(urlPath, values, uid, cbs).calls| <= 1
  {
  }

  /** With the callbacks common.go installs, a plain /api/ path panics with
      the reminder to set ApiUserInfoCheckFunc. */
  lemma DefaultApiCheckPanics(urlPath: string, values: map<string, string>, uid: int)
    requires !Contains(urlPath, PublicMarker) && !MaybeShare(values) && !Contains(urlPath, PrivateMarker)
    requires Contains(urlPath, ApiMarker)
    ensures LoginDecision(urlPath, values, uid, DefaultCallbacks).outcome == LoginPanic(PanicString(ApiUnsetMessage))
  {
  }
}
