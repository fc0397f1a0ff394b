/**
  One request through a route's two handlers, loginHandler and doBizFunc
  (buildHandlersChain in requests/request.go), inside recoverHandler
  (requests/recover_handler.go). A panic raised by a callback
  or by the biz function unwinds to the recovery handler, which answers it.
*/
module Pipeline {
  import opened GoBase
  import opened Gin
  import opened Common
  import opened Recovery
  import opened Login
  import opened Dispatch

  /** What the chain does with one request: the login handler's result, the
      biz handler's run when the login handler let the request through, the
      envelopes written, whether the chain was aborted, and the panic the
      recovery handler answered, if any. */
  datatype ServeRun = ServeRun(
    login: LoginResult,
    biz: Option<BizRun>,
    writes: seq<Envelope>,
    aborted: bool,
    recovered: Option<PanicValue>)

  /** The chain on request `req`, given the route, the callbacks, what
      binding and the clock yield, the profile, the uuid and the time the
      BaseContext is created at. */
  function ServeSpec(req: HttpRequest, rd: RequestDesc, cbs: Callbacks, env: BizEnv, prod: bool, uuid: string, now: int): ServeRun {
    var values := ContextValues(req, uuid);
    var l := LoginDecision(req.path, values, 0, cbs);
    Chain(l, DoBizSpec(rd, env, cbs, BizState(req, values, l.uid, now, false, None)), prod)
  }

  /** How the recovery handler combines the login handler's result `l` with
      the run doBizFunc would make after it. */
  function Chain(l: LoginResult, run: BizRun, prod: bool): ServeRun {
    match l.outcome
    case LoginPanic(p) => ServeRun(l, None, [ErrorToResult(p, prod)], true, Some(p))
    case Continue =>
      if run.escaped.Some? then
        ServeRun(l, Some(run), run.writes + [ErrorToResult(run.escaped.value, prod)], true, run.escaped)
      else
        ServeRun(l, Some(run), run.writes, run.aborted, None)
    case _ => ServeRun(l, None, LoginWrites(l.outcome), true, None)
  }

  /** The chain keeps the login handler's result, and runs doBizFunc only
      when that result lets the request through. */
  lemma ChainShape(l: LoginResult, run: BizRun, prod: bool)
    ensures var s := Chain(l, run, prod);
      && s.login == l
      && (s.biz.Some? <==> l.outcome == Continue)
      && (s.biz.Some? ==> s.biz.value == run)
  {
  }

  /** When doBizFunc writes one envelope unless a panic escapes it, and
      nothing when one does, the chain writes exactly one envelope; a panic
      the recovery handler answers is answered with errorToResult's
      envelope alone. */
  lemma ChainAnswers(l: LoginResult, run: BizRun, prod: bool)
    requires l.outcome == Continue ==>
      (run.escaped.Some? ==> run.writes == []) && (run.escaped.None? ==> |run.writes| == 1)
    ensures var s := Chain(l, run, prod);
      && |s.writes| == 1
      && (s.recovered.Some? ==> s.writes == [ErrorToResult(s.recovered.value, prod)] && s.aborted)
  {
  }

  /** Every request that reaches the route's two handlers inside the recovery
      handler gets exactly one response envelope from them: an abort, a
      recovered panic, or doBizFunc's result, never two and never none. The
      CORS, monitor and health handlers that run in between are not modelled. A request a
      callback or the biz function panics on is answered with the envelope
      errorToResult gives for the panic, and with nothing else. */
  lemma {:induction false} ExactlyOneResponse(req: HttpRequest, rd: RequestDesc, cbs: Callbacks, env: BizEnv,
                                              prod: bool, uuid: string, now: int)
    ensures var s := ServeSpec(req, rd, cbs, env, prod, uuid, now);
      && |s.writes| == 1
      && (s.recovered.Some? ==> s.writes == [ErrorToResult(s.recovered.value, prod)] && s.aborted)
  {
    var values := ContextValues(req, uuid);
    var l := LoginDecision(req.path, values, 0, cbs);
    var st := BizState(req, values, l.uid, now, false, None);
    WriteGuard(rd, env, cbs, st);
    ChainAnswers(l, DoBizSpec(rd, env, cbs, st), prod);
  }

  /** doBizFunc runs exactly when the login handler lets the request through. */
  lemma BizOnlyAfterLogin(req: HttpRequest, rd: RequestDesc, cbs: Callbacks, env: BizEnv, prod: bool, uuid: string, now: int)
    ensures var s := ServeSpec(req, rd, cbs, env, prod, uuid, now);
      s.login == LoginDecision(req.path, ContextValues(req, uuid), 0, cbs) &&
      (s.biz.Some? <==> s.login.outcome == Continue)
  {
    var values := ContextValues(req, uuid);
    var l := LoginDecision(req.path, values, 0, cbs);
    ChainShape(l, DoBizSpec(rd, env, cbs, BizState(req, values, l.uid, now, false, None)), prod);
  }

  /** The chain once the BaseContext `ctx` is stored in `g`: the rest of
      loginHandler, then the handlers after it. */
  method RunChain(g: GinContext, ctx: BaseContext, rd: RequestDesc, env: BizEnv, cbs: Callbacks,
                  prod: bool, uuid: string, now: int, ghost l: LoginResult, ghost run: BizRun)
    returns (outcome: LoginOutcome, steps: seq<Step>, records: seq<LogRecord>, recovered: Option<PanicValue>)
    requires BaseContextName in g.keys && g.keys[BaseContextName] == ctx
    requires g.writes == [] && !g.aborted && g.bodyBytes == None && ctx.uid == 0
    requires l == LoginDecision(g.request.path, ctx.values, 0, cbs)
    requires run == DoBizSpec(rd, env, cbs, BizState(g.request, ctx.values, l.uid, ctx.createTime, false, None))
    modifies g`keys, g`writes, g`aborted, g`bodyBytes, ctx`uid, ctx`notLogSql
    ensures var s := Chain(l, run, prod);
      && outcome == l.outcome
      && g.writes == s.writes
      && g.aborted == s.aborted
      && recovered == s.recovered
      && (s.biz.Some? ==> steps == run.steps && records == run.records)
      && (s.biz.None? ==> steps == [] && records == [])
      && (s.biz.Some? ==> ctx.uid == run.uid && g.bodyBytes == run.bodyBytes && ctx.notLogSql == rd.notLogSql)
      && (s.biz.None? ==> ctx.uid == l.uid && g.bodyBytes == None && ctx.notLogSql == old(ctx.notLogSql))
    ensures g.keys == old(g.keys)
  {
    outcome := Authenticate(g, ctx, cbs);
    steps, records, recovered := AfterLogin(g, ctx, outcome, rd, env, cbs, prod, uuid, now, l, run);
  }

  /** The chain once loginHandler has returned `outcome`, the outcome of `l`:
      doBizFunc runs when the request may go on, and the recovery handler
      answers a panic that escaped either handler. `run` is what doBizFunc
      does on the context the login handler left. */
  method AfterLogin(g: GinContext, ctx: BaseContext, outcome: LoginOutcome, rd: RequestDesc, env: BizEnv, cbs: Callbacks,
                    prod: bool, uuid: string, now: int, ghost l: LoginResult, ghost run: BizRun)
    returns (steps: seq<Step>, records: seq<LogRecord>, recovered: Option<PanicValue>)
    requires BaseContextName in g.keys && g.keys[BaseContextName] == ctx
    requires outcome == l.outcome
    requires g.writes == LoginWrites(outcome) && g.aborted == IsAbort(outcome)
    requires outcome == Continue ==>
      run == DoBizSpec(rd, env, cbs, BizState(g.request, ctx.values, ctx.uid, ctx.createTime, false, g.bodyBytes))
    modifies g`keys, g`writes, g`aborted, g`bodyBytes, ctx`uid, ctx`notLogSql
    ensures var s := Chain(l, run, prod);
      && g.writes == s.writes
      && g.aborted == s.aborted
      && recovered == s.recovered
      && (s.biz.Some? ==> steps == run.steps && records == run.records)
      && (s.biz.None? ==> steps == [] && records == [])
      && (s.biz.Some? ==> ctx.uid == run.uid && g.bodyBytes == run.bodyBytes && ctx.notLogSql == rd.notLogSql)
      && (s.biz.None? ==> ctx.uid == old(ctx.uid) && g.bodyBytes == old(g.bodyBytes) && ctx.notLogSql == old(ctx.notLogSql))
    ensures g.keys == old(g.keys)
  {
    steps, records, recovered := [], [], None;
    match outcome {
      case LoginPanic(p) =>
        recovered := Some(p);
      case Continue =>
        // doBizFunc finds the BaseContext the login handler stored
        steps, records, recovered := RunBiz(g, ctx, rd, env, cbs);
      case _ =>
    }
    if recovered.Some? {
      MyRecover(g, recovered.value, prod, uuid, now);
    }
    // recoverHandler looks the BaseContext up once more to log the stack
    var baseCtx := GenBaseContext(g, uuid, now);
  }
}
