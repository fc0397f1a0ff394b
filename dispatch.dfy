/**
  The biz handler of requests/request.go (doBizFunc with beforeLog, afterLog
  and keysJson): bind the request payload, answer a bind failure with the
  validation messages, run the share check and the route's biz function,
  log the enter and exit records the route's log level selects, and write
  the result unless something was written already.
*/
module Dispatch {
  import opened GoBase
  import opened GoStrings
  import opened Gin
  import opened LogLevels
  import opened Common
  import opened ErrMsgTable
  import Login

  // ---------------------------------------------------------------------
  // Route description and the collaborators doBizFunc calls
  // ---------------------------------------------------------------------

  /** What the route's BizCoreFunc does with the bound payload and the uid:
      the value it returns or the panic it raises, and in both cases the
      QuickInfo uid it leaves in the BaseContext. */
  datatype BizOutcome = Returned(json: string, uid: int) | BizPanic(p: PanicValue, uid: int)

  /** RequestDesc[T, V]: `payloadType` is T, the type doBizFunc binds into;
      `bizCore` is BizCoreFunc, given the bound payload and the QuickInfo uid. */
  datatype RequestDesc = RequestDesc(
    relativePath: string,
    allowRoles: seq<string>,
    allowProducts: seq<int>,
    payloadType: GoType,
    bizCore: (string, int) -> BizOutcome,
    logLevel: LogLevel,
    notLogSql: bool)

  /** gctx.ShouldBindQuery or gctx.ShouldBindBodyWith(obj, binding.JSON). */
  datatype BindKind = QueryBinding | JsonBodyBinding

  /** The binding doBizFunc picks for the HTTP method `verb`. */
  function BindingFor(verb: string): (k: BindKind)
    ensures k == QueryBinding <==> verb == "GET"
  {
    if verb == "GET" then QueryBinding else JsonBodyBinding
  }

  /** A validator.FieldError: its Namespace() and its Error() text. */
  datatype FieldError = FieldError(namespace: string, text: string)

  /** What binding yields: the payload it filled, validator.ValidationErrors,
      or any other error. */
  datatype BindOutcome =
    | Bound(payload: string)
    | Invalid(errs: seq<FieldError>)
    | BindFailed(err: Error)

  /** The rest of the world as doBizFunc sees it: what each binding yields for
      this request, and the two clock readings (start of doBizFunc, afterLog). */
  datatype BizEnv = BizEnv(bind: BindKind -> BindOutcome, startTs: int, endTs: int)

  // ---------------------------------------------------------------------
  // Log records
  // ---------------------------------------------------------------------

  /** The records beforeLog and afterLog write, as data rather than text:
      "enter <target>,uid=..", optionally with the key headers and the body,
      and "exit,uid=..", optionally with the serialised return value, both
      costs in milliseconds. */
  datatype LogRecord =
    | Enter(target: string, uid: int)
    | EnterWithParams(target: string, uid: int, keyHeaders: map<string, string>, body: string)
    | Exit(uid: int, latency: int, bizCost: int)
    | ExitWithReturn(uid: int, ret: Envelope, latency: int, bizCost: int)

  function Records(r: Option<LogRecord>): (s: seq<LogRecord>)
    ensures |s| <= 1
  {
    if r.Some? then [r.value] else []
  }

  /** The headers keysJson reports. */
  const KeyHeaders: seq<string> := ["device-id", "hardware", "os", "os-version", "app-version"]

  /** The map keysJson marshals: each key header with its getHeader value. */
  function KeyHeaderValues(req: HttpRequest): map<string, string> {
    map k | k in KeyHeaders :: GetHeader(req, k)
  }

  /** keysJson, up to the JSON text: one entry per key header, holding its
      value or "" when the request lacks it. */
  method KeysJson(g: GinContext) returns (km: map<string, string>)
    ensures km.Keys == set k | k in KeyHeaders
    ensures forall k :: k in KeyHeaders ==> km[k] == GetHeader(g.request, k)
    ensures km == KeyHeaderValues(g.request)
  {
    km := map[];
    for i := 0 to |KeyHeaders|
      invariant km.Keys == set j | 0 <= j < i :: KeyHeaders[j]
      invariant forall j :: 0 <= j < i ==> km[KeyHeaders[j]] == GetHeader(g.request, KeyHeaders[j])
    {
      var k := KeyHeaders[i];
      var v := GetHeader(g.request, k);
      km := km[k := v];
    }
    assert forall k :: k in KeyHeaders <==> exists j :: 0 <= j < |KeyHeaders| && KeyHeaders[j] == k;
  }

  /** The body beforeLog reports: the cached body, "" when none was cached. */
  function BodyText(cached: Option<string>): string {
    if cached.Some? then cached.value else ""
  }

  /** The record beforeLog writes at level `level`. */
  function BeforeRecord(level: LogLevel, target: string, uid: int, keyHeaders: map<string, string>, body: string): Option<LogRecord> {
    if level == LogLevelNone then None
    else if HasBit(level, LogLevelParam) then Some(EnterWithParams(target, uid, keyHeaders, body))
    else Some(Enter(target, uid))
  }

  /** The record afterLog writes at level `level` for result `ret`. */
  function AfterRecord(level: LogLevel, ret: Envelope, uid: int, createTime: int, startTs: int, endTs: int): Option<LogRecord> {
    if level == LogLevelNone then None
    else
      var latency := endTs - createTime;
      var bizCost := endTs - startTs;
      if HasBit(level, LogLevelReturn) then Some(ExitWithReturn(uid, ret, latency, bizCost))
      else Some(Exit(uid, latency, bizCost))
  }

  /** beforeLog(gctx, baseCtx, level) */
  method BeforeLog(g: GinContext, ctx: BaseContext, level: LogLevel) returns (rec: Option<LogRecord>)
    ensures rec == BeforeRecord(level, g.request.target, ctx.uid, KeyHeaderValues(g.request), BodyText(g.bodyBytes))
  {
    if level == LogLevelNone {
      return None;
    }
    var uid := ctx.uid;
    if level & LogLevelParam == LogLevelParam {
      var body := "";
      if g.bodyBytes.Some? {
        body := g.bodyBytes.value;
      }
      var keysContent := KeysJson(g);
      return Some(EnterWithParams(g.request.target, uid, keysContent, body));
    }
    return Some(Enter(g.request.target, uid));
  }

  /** LOG_LEVEL_NONE silences both records. */
  lemma LevelNoneLogsNothing(ret: Envelope, target: string, uid: int, keyHeaders: map<string, string>, body: string,
                             createTime: int, startTs: int, endTs: int)
    ensures BeforeRecord(LogLevelNone, target, uid, keyHeaders, body) == None
    ensures AfterRecord(LogLevelNone, ret, uid, createTime, startTs, endTs) == None
  {
  }

  /** At any other level both records are written; the enter record carries
      the parameters exactly when the PARAM bit is set, the exit record the
      return value exactly when the RETURN bit is set; latency counts from the
      BaseContext's creation and bizCost from the start of doBizFunc. */
  lemma LevelBitsSelectRecords(level: LogLevel, ret: Envelope, target: string, uid: int,
                               keyHeaders: map<string, string>, body: string,
                               createTime: int, startTs: int, endTs: int)
    requires level != LogLevelNone
    ensures var b := BeforeRecord(level, target, uid, keyHeaders, body);
      && b.Some? && b.value.target == target && b.value.uid == uid
      && (b.value.EnterWithParams? <==> HasBit(level, LogLevelParam))
      && (b.value.EnterWithParams? ==> b.value.keyHeaders == keyHeaders && b.value.body == body)
    ensures var a := AfterRecord(level, ret, uid, createTime, startTs, endTs);
      && a.Some? && (a.value.Exit? || a.value.ExitWithReturn?) && a.value.uid == uid
      && (a.value.ExitWithReturn? <==> HasBit(level, LogLevelReturn))
      && (a.value.ExitWithReturn? ==> a.value.ret == ret)
      && a.value.latency == endTs - createTime
      && a.value.bizCost == endTs - startTs
  {
  }

  /** LOG_LEVEL_ALL selects the parameters and the return value. */
  lemma LevelAllLogsEverything(ret: Envelope, target: string, uid: int, keyHeaders: map<string, string>, body: string,
                               createTime: int, startTs: int, endTs: int)
    ensures BeforeRecord(LogLevelAll, target, uid, keyHeaders, body) == Some(EnterWithParams(target, uid, keyHeaders, body))
    ensures AfterRecord(LogLevelAll, ret, uid, createTime, startTs, endTs)
      == Some(ExitWithReturn(uid, ret, endTs - createTime, endTs - startTs))
  {
    LogLevelConstants();
  }

  // ---------------------------------------------------------------------
  // The answer to a bind failure
  // ---------------------------------------------------------------------

  const ArgsInvalid: string := "args invalid"
  const MessageSeparator: char := '\n'

  /** The message for one validation error: the custom message registered
      under its namespace, else its own Error() text. */
  function ErrMsgFor(table: map<string, string>, e: FieldError): string {
    if e.namespace in table then table[e.namespace] else e.text
  }

  /** One message per validation error, in the validator's order. */
  function ErrMsgList(table: map<string, string>, errs: seq<FieldError>): (msgs: seq<string>)
    ensures |msgs| == |errs|
    ensures forall i :: 0 <= i < |errs| ==> msgs[i] == ErrMsgFor(table, errs[i])
  {
    seq(|errs|, i requires 0 <= i < |errs| => ErrMsgFor(table, errs[i]))
  }

  /** The loop of doBizFunc over validator.ValidationErrors. */
  method CollectErrMsgs(errs: seq<FieldError>, customErrMsgs: map<string, string>) returns (errMsgs: seq<string>)
    ensures |errMsgs| == |errs|
    ensures forall i :: 0 <= i < |errs| && errs[i].namespace in customErrMsgs ==>
      errMsgs[i] == customErrMsgs[errs[i].namespace]
    ensures forall i :: 0 <= i < |errs| && errs[i].namespace !in customErrMsgs ==>
      errMsgs[i] == errs[i].text
  {
    errMsgs := [];
    for i := 0 to |errs|
      invariant |errMsgs| == i
      invariant forall j :: 0 <= j < i ==> errMsgs[j] == ErrMsgFor(customErrMsgs, errs[j])
    {
      var ns := errs[i].namespace;
      if ns in customErrMsgs {
        errMsgs := errMsgs + [customErrMsgs[ns]];
      } else {
        errMsgs := errMsgs + [errs[i].text];
      }
    }
  }

  /** The error result for validation errors `errs`: their messages joined
      by "\n", or "args invalid" when that join is empty. */
  function BindFailureMessage(errs: seq<FieldError>, table: map<string, string>): string {
    var msg := Join(ErrMsgList(table, errs), [MessageSeparator]);
    if msg != "" then msg else ArgsInvalid
  }

  /** The fallback is taken exactly when there are no messages or a single empty one. */
  lemma BindFailureFallback(errs: seq<FieldError>, table: map<string, string>)
    ensures var msgs := ErrMsgList(table, errs);
      var fallback := |msgs| == 0 || (|msgs| == 1 && msgs[0] == "");
      && (fallback ==> BindFailureMessage(errs, table) == ArgsInvalid)
      && (!fallback ==> BindFailureMessage(errs, table) == Join(msgs, [MessageSeparator]))
  {
    JoinEmpty(ErrMsgList(table, errs), [MessageSeparator]);
  }

  /** When no message holds a line break, every message can be read back
      from the joined text, in order: the text loses nothing. */
  lemma BindFailureLines(errs: seq<FieldError>, table: map<string, string>)
    requires |errs| >= 1 && !(|errs| == 1 && ErrMsgFor(table, errs[0]) == "")
    requires forall i :: 0 <= i < |errs| ==> MessageSeparator !in ErrMsgFor(table, errs[i])
    ensures Split(BindFailureMessage(errs, table), MessageSeparator) == ErrMsgList(table, errs)
  {
    var msgs := ErrMsgList(table, errs);
    BindFailureFallback(errs, table);
    SplitJoin(msgs, MessageSeparator);
  }

  /** A validation error on a field that carries an `errMsg` tag is answered
      with that tag, whatever the validator's own text. */
  lemma TaggedFieldMessage(t: GoType, path: seq<string>, m: string, text: string)
    requires WellFormed(t)
    requires TagAt(t, path) == Some(m)
    ensures ErrMsgFor(CustomErrMsgs(Pointer(t)), FieldError(Join([t.name] + path, "."), text)) == m
  {
    CustomErrMsgsHasTag(t, path, m);
  }

  /** The answer doBizFunc gives when binding fails: rt stays nil unless the
      error is a validation error with a non-empty message. */
  method BindFailureResult(bound: BindOutcome, payloadType: GoType) returns (rt: Envelope)
    requires !bound.Bound?
    ensures bound.Invalid? ==> rt == ErrResult(BindFailureMessage(bound.errs, CustomErrMsgs(Pointer(payloadType))))
    ensures bound.BindFailed? ==> rt == ErrResult(ArgsInvalid)
    ensures rt == BindFailureEnvelope(bound, payloadType)
  {
    var rtOpt: Option<Envelope> := None;
    if bound.Invalid? {
      var customErrMsgs := GetCustomErrMsgs(Pointer(payloadType));
      var errMsgs := CollectErrMsgs(bound.errs, customErrMsgs);
      assert errMsgs == ErrMsgList(customErrMsgs, bound.errs);
      var msg := Join(errMsgs, [MessageSeparator]);
      if msg != "" {
        rtOpt := Some(ErrResult(msg));
      }
    }
    if rtOpt.None? {
      rtOpt := Some(ErrResult(ArgsInvalid));
    }
    rt := rtOpt.value;
  }

  // ---------------------------------------------------------------------
  // doBizFunc as a specification
  // ---------------------------------------------------------------------

  /** A call doBizFunc makes, in order. */
  datatype Step =
    | BeforeLogged
    | ShareChecked(payload: string, urlPath: string)
    | BizCalled(payload: string, uid: int)
    | AfterLogged

  /** What doBizFunc finds: the request, its BaseContext's entries, uid and
      creation time, whether the response was already written, and the body
      cached under gin.BodyBytesKey. */
  datatype BizState = BizState(
    request: HttpRequest,
    values: map<string, string>,
    uid: int,
    createTime: int,
    written: bool,
    bodyBytes: Option<string>)

  /** What one run of doBizFunc does: its calls, the log records, the
      envelopes it writes, whether it aborts, the uid and the cached body it
      leaves, and the panic that escapes it, if any. */
  datatype BizRun = BizRun(
    steps: seq<Step>,
    records: seq<LogRecord>,
    writes: seq<Envelope>,
    aborted: bool,
    uid: int,
    bodyBytes: Option<string>,
    escaped: Option<PanicValue>)

  /** afterLog, then the JSON write unless something was written already. */
  function RespondSpec(rd: RequestDesc, env: BizEnv, st: BizState, body: Option<string>,
                   steps: seq<Step>, records: seq<LogRecord>, rt: Envelope, uid: int): BizRun {
    var exit := Records(AfterRecord(rd.logLevel, rt, uid, st.createTime, env.startTs, env.endTs));
    BizRun(steps + [AfterLogged], records + exit, if st.written then [] else [rt], false, uid, body, None)
  }

  /** rd.BizCoreFunc, then the response. */
  function CallBiz(rd: RequestDesc, env: BizEnv, st: BizState, body: Option<string>,
                   steps: seq<Step>, records: seq<LogRecord>, payload: string, uid: int): BizRun {
    var called := steps + [BizCalled(payload, uid)];
    match rd.bizCore(payload, uid)
    case BizPanic(p, u) => BizRun(called, records, [], false, u, body, Some(p))
    case Returned(v, u) => RespondSpec(rd, env, st, body, called, records, Body(v), u)
  }

  /** The cached body after binding: the JSON binding caches the request
      body when nothing was cached; the query binding leaves it alone. */
  function BodyAfterBind(kind: BindKind, st: BizState): Option<string> {
    if kind == JsonBodyBinding && st.bodyBytes.None? then Some(st.request.body) else st.bodyBytes
  }

  /** The envelope doBizFunc answers a failed bind with. */
  function BindFailureEnvelope(bound: BindOutcome, payloadType: GoType): Envelope
    requires !bound.Bound?
  {
    if bound.Invalid? then ErrResult(BindFailureMessage(bound.errs, CustomErrMsgs(Pointer(payloadType))))
    else ErrResult(ArgsInvalid)
  }

  /** The rest of doBizFunc after `payload` was bound: the share check when
      there is a share token, then BizCoreFunc and the response. */
  function AfterBindSpec(rd: RequestDesc, env: BizEnv, cbs: Callbacks, st: BizState, body: Option<string>,
                         enter: seq<LogRecord>, payload: string): BizRun {
    if Login.MaybeShare(st.values) then
      var steps := [BeforeLogged, ShareChecked(payload, st.request.path)];
      match cbs.shareCheck(payload, st.request.path, st.uid)
      case Failed(e) => BizRun(steps, enter, [ErrorResult(e)], true, st.uid, body, None)
      case Panicked(p) => BizRun(steps, enter, [], false, st.uid, body, Some(p))
      case Passed(u) => CallBiz(rd, env, st, body, steps, enter, payload, u)
    else
      CallBiz(rd, env, st, body, [BeforeLogged], enter, payload, st.uid)
  }

  /** doBizFunc(rd) on a request in state `st`. */
  function DoBizSpec(rd: RequestDesc, env: BizEnv, cbs: Callbacks, st: BizState): BizRun {
    var kind := BindingFor(st.request.verb);
    var body := BodyAfterBind(kind, st);
    var enter := Records(BeforeRecord(rd.logLevel, st.request.target, st.uid, KeyHeaderValues(st.request), BodyText(body)));
    var bound := env.bind(kind);
    if bound.Bound? then AfterBindSpec(rd, env, cbs, st, body, enter, bound.payload)
    else RespondSpec(rd, env, st, body, [BeforeLogged], enter, BindFailureEnvelope(bound, rd.payloadType), st.uid)
  }

  // ---------------------------------------------------------------------
  // What doBizFunc promises
  // ---------------------------------------------------------------------

  predicate ShareCheckedIn(steps: seq<Step>) {
    exists i :: 0 <= i < |steps| && steps[i].ShareChecked?
  }

  predicate BizCalledIn(steps: seq<Step>) {
    exists i :: 0 <= i < |steps| && steps[i].BizCalled?
  }

  /** A failed bind never reaches the share check or BizCoreFunc: it logs,
      answers with the validation messages or "args invalid", and logs again. */
  lemma BindFailureSkipsBiz(rd: RequestDesc, env: BizEnv, cbs: Callbacks, st: BizState)
    requires !env.bind(BindingFor(st.request.verb)).Bound?
    ensures var run := DoBizSpec(rd, env, cbs, st);
      var bound := env.bind(BindingFor(st.request.verb));
      var rt := if bound.Invalid? then ErrResult(BindFailureMessage(bound.errs, CustomErrMsgs(Pointer(rd.payloadType))))
                else ErrResult(ArgsInvalid);
      && run.steps == [BeforeLogged, AfterLogged]
      && !ShareCheckedIn(run.steps) && !BizCalledIn(run.steps)
      && run.writes == (if st.written then [] else [rt])
      && !run.aborted && run.escaped == None && run.uid == st.uid
  {
    var run := DoBizSpec(rd, env, cbs, st);
    assert run.steps[0] == BeforeLogged && run.steps[1] == AfterLogged;
  }

  /** beforeLog runs exactly once, as the first call, on every branch. */
  lemma BeforeLogOnce(rd: RequestDesc, env: BizEnv, cbs: Callbacks, st: BizState)
    ensures var run := DoBizSpec(rd, env, cbs, st);
      && |run.steps| >= 1 && run.steps[0] == BeforeLogged
      && forall i :: 1 <= i < |run.steps| ==> run.steps[i] != BeforeLogged
  {
  }

  /** The share check runs exactly when binding succeeded and the request
      carries a share token. */
  lemma ShareCheckWhenBoundAndShared(rd: RequestDesc, env: BizEnv, cbs: Callbacks, st: BizState)
    ensures ShareCheckedIn(DoBizSpec(rd, env, cbs, st).steps) <==>
      env.bind(BindingFor(st.request.verb)).Bound? && Login.MaybeShare(st.values)
  {
    var run := DoBizSpec(rd, env, cbs, st);
    if env.bind(BindingFor(st.request.verb)).Bound? && Login.MaybeShare(st.values) {
      assert run.steps[1].ShareChecked?;
    }
  }

  /** A share check that fails aborts with its error before BizCoreFunc and
      before afterLog, whatever was written before. */
  lemma ShareFailureAborts(rd: RequestDesc, env: BizEnv, cbs: Callbacks, st: BizState, e: Error)
    requires env.bind(BindingFor(st.request.verb)).Bound? && Login.MaybeShare(st.values)
    requires cbs.shareCheck(env.bind(BindingFor(st.request.verb)).payload, st.request.path, st.uid) == Failed(e)
    ensures var run := DoBizSpec(rd, env, cbs, st);
      && run.aborted && run.writes == [ErrorResult(e)]
      && !BizCalledIn(run.steps) && AfterLogged !in run.steps
      && |run.records| <= 1
  {
  }

  /** BizCoreFunc runs exactly when binding succeeded and the share check,
      if there was one, passed; it gets the bound payload and the uid the
      share check left. */
  lemma BizCalledWhenAllowed(rd: RequestDesc, env: BizEnv, cbs: Callbacks, st: BizState)
    ensures var run := DoBizSpec(rd, env, cbs, st);
      var bound := env.bind(BindingFor(st.request.verb));
      (!bound.Bound? ==> !BizCalledIn(run.steps))
      && (bound.Bound? ==>
            var share := cbs.shareCheck(bound.payload, st.request.path, st.uid);
            && (BizCalledIn(run.steps) <==> !Login.MaybeShare(st.values) || share.Passed?)
            && (!Login.MaybeShare(st.values) ==> BizCalled(bound.payload, st.uid) in run.steps)
            && (Login.MaybeShare(st.values) && share.Passed? ==> BizCalled(bound.payload, share.uid) in run.steps))
  {
    var run := DoBizSpec(rd, env, cbs, st);
    var bound := env.bind(BindingFor(st.request.verb));
    if bound.Bound? {
      var share := cbs.shareCheck(bound.payload, st.request.path, st.uid);
      if !Login.MaybeShare(st.values) {
        assert run.steps[1] == BizCalled(bound.payload, st.uid);
      } else if share.Passed? {
        assert run.steps[2] == BizCalled(bound.payload, share.uid);
      }
    }
  }

  /** The uid doBizFunc leaves is the one BizCoreFunc left in QuickInfo when
      it ran, and the one the request came with when the share check stopped
      the request first. */
  lemma BizLeavesUid(rd: RequestDesc, env: BizEnv, cbs: Callbacks, st: BizState)
    requires env.bind(BindingFor(st.request.verb)).Bound?
    ensures var run := DoBizSpec(rd, env, cbs, st);
      var payload := env.bind(BindingFor(st.request.verb)).payload;
      var share := cbs.shareCheck(payload, st.request.path, st.uid);
      && (!Login.MaybeShare(st.values) ==> run.uid == rd.bizCore(payload, st.uid).uid)
      && (Login.MaybeShare(st.values) && share.Passed? ==> run.uid == rd.bizCore(payload, share.uid).uid)
      && (Login.MaybeShare(st.values) && !share.Passed? ==> run.uid == st.uid)
  {
  }

  /** The write guard: doBizFunc writes at most one envelope; after a panic
      none; over an earlier write only the share check's abort; and on a
      fresh response exactly one unless a panic escaped. */
  lemma WriteGuard(rd: RequestDesc, env: BizEnv, cbs: Callbacks, st: BizState)
    ensures var run := DoBizSpec(rd, env, cbs, st);
      && |run.writes| <= 1
      && (run.escaped.Some? ==> run.writes == [])
      && (st.written && !run.aborted ==> run.writes == [])
      && (!st.written && run.escaped.None? ==> |run.writes| == 1)
      && (run.aborted ==> run.escaped.None? && ShareCheckedIn(run.steps))
  {
    var run := DoBizSpec(rd, env, cbs, st);
    if run.aborted {
      assert run.steps[1].ShareChecked?;
    }
  }

  /** A GET binds from the query and leaves the body alone, so a GET's enter
      record shows no body unless one was cached before; any other method
      binds the JSON body and logs it. */
  lemma BindingChoice(rd: RequestDesc, env: BizEnv, cbs: Callbacks, st: BizState)
    ensures var run := DoBizSpec(rd, env, cbs, st);
      && (st.request.verb == "GET" ==> run.bodyBytes == st.bodyBytes)
      && (st.request.verb != "GET" && st.bodyBytes.None? ==> run.bodyBytes == Some(st.request.body))
      && (st.request.verb == "GET" && st.bodyBytes.None? && HasBit(rd.logLevel, LogLevelParam) && rd.logLevel != LogLevelNone ==>
            run.records[0] == EnterWithParams(st.request.target, st.uid, KeyHeaderValues(st.request), ""))
  {
  }

  /** The exit record, when there is one, is the last record and reports the
      final uid, the latency since the BaseContext was created and the time
      since doBizFunc started. */
  lemma ExitRecordCosts(rd: RequestDesc, env: BizEnv, cbs: Callbacks, st: BizState)
    requires rd.logLevel != LogLevelNone
    requires AfterLogged in DoBizSpec(rd, env, cbs, st).steps
    ensures var run := DoBizSpec(rd, env, cbs, st);
      var last := run.records[|run.records| - 1];
      && |run.records| == 2
      && (last.Exit? || last.ExitWithReturn?)
      && last.uid == run.uid
      && last.latency == env.endTs - st.createTime
      && last.bizCost == env.endTs - env.startTs
  {
    var kind := BindingFor(st.request.verb);
    var body := BodyAfterBind(kind, st);
    var enter := Records(BeforeRecord(rd.logLevel, st.request.target, st.uid, KeyHeaderValues(st.request), BodyText(body)));
    var bound := env.bind(kind);
    if !bound.Bound? {
      RespondExit(rd, env, st, body, [BeforeLogged], enter, BindFailureEnvelope(bound, rd.payloadType), st.uid);
    } else if !Login.MaybeShare(st.values) {
      RespondExit(rd, env, st, body, [BeforeLogged, BizCalled(bound.payload, st.uid)], enter, Body(rd.bizCore(bound.payload, st.uid).json), rd.bizCore(bound.payload, st.uid).uid);
    } else {
      var u := cbs.shareCheck(bound.payload, st.request.path, st.uid).uid;
      RespondExit(rd, env, st, body, [BeforeLogged, ShareChecked(bound.payload, st.request.path), BizCalled(bound.payload, u)],
                  enter, Body(rd.bizCore(bound.payload, u).json), rd.bizCore(bound.payload, u).uid);
    }
  }

  /** The response step appends afterLog's record, which reports `uid` and
      the two costs, to the enter record. */
  lemma RespondExit(rd: RequestDesc, env: BizEnv, st: BizState, body: Option<string>,
                    steps: seq<Step>, records: seq<LogRecord>, rt: Envelope, uid: int)
    requires rd.logLevel != LogLevelNone
    ensures var run := RespondSpec(rd, env, st, body, steps, records, rt, uid);
      var last := run.records[|run.records| - 1];
      && |run.records| == |records| + 1
      && (last.Exit? || last.ExitWithReturn?)
      && last.uid == run.uid == uid
      && last.latency == env.endTs - st.createTime
      && last.bizCost == env.endTs - env.startTs
  {
  }

  // ---------------------------------------------------------------------
  // doBizFunc as the handler
  // ---------------------------------------------------------------------

  /** doBizFunc(rd) applied to gctx `g`; the steps taken and the log records
      written are returned. */
  method DoBizFunc(g: GinContext, rd: RequestDesc, env: BizEnv, cbs: Callbacks, uuid: string, now: int)
    returns (steps: seq<Step>, records: seq<LogRecord>, escaped: Option<PanicValue>)
    modifies g`keys, g`writes, g`aborted, g`bodyBytes, StoredContext(g)
    ensures BaseContextName in g.keys
    ensures BaseContextName in old(g.keys) ==>
      g.keys == old(g.keys) && g.keys[BaseContextName].values == old(g.keys[BaseContextName].values)
    ensures BaseContextName !in old(g.keys) ==>
      var ctx := g.keys[BaseContextName];
      fresh(ctx) && ctx.values == ContextValues(g.request, uuid) && ctx.createTime == now
      && g.keys == old(g.keys)[BaseContextName := ctx]
    ensures var ctx := g.keys[BaseContextName];
      var uid0 := if BaseContextName in old(g.keys) then old(g.keys[BaseContextName].uid) else 0;
      var run := DoBizSpec(rd, env, cbs, BizState(g.request, ctx.values, uid0, ctx.createTime, old(g.writes) != [], old(g.bodyBytes)));
      && steps == run.steps && records == run.records && escaped == run.escaped
      && g.writes == old(g.writes) + run.writes
      && g.aborted == (old(g.aborted) || run.aborted)
      && g.bodyBytes == run.bodyBytes
      && ctx.uid == run.uid
      && ctx.notLogSql == rd.notLogSql
  {
    ghost var frame := StoredContext(g);
    var ctx := GenBaseContext(g, uuid, now);
    assert ctx in frame || fresh(ctx);
    steps, records, escaped := RunBiz(g, ctx, rd, env, cbs);
  }

  /** The body of doBizFunc once the BaseContext is at hand. */
  method RunBiz(g: GinContext, ctx: BaseContext, rd: RequestDesc, env: BizEnv, cbs: Callbacks)
    returns (steps: seq<Step>, records: seq<LogRecord>, escaped: Option<PanicValue>)
    modifies g`writes, g`aborted, g`bodyBytes, ctx`uid, ctx`notLogSql
    ensures var run := DoBizSpec(rd, env, cbs, BizState(g.request, ctx.values, old(ctx.uid), ctx.createTime, old(g.writes) != [], old(g.bodyBytes)));
      && steps == run.steps && records == run.records && escaped == run.escaped
      && g.writes == old(g.writes) + run.writes
      && g.aborted == (old(g.aborted) || run.aborted)
      && g.bodyBytes == run.bodyBytes
      && ctx.uid == run.uid
      && ctx.notLogSql == rd.notLogSql
  {
    ghost var st := BizState(g.request, ctx.values, ctx.uid, ctx.createTime, g.writes != [], g.bodyBytes);
    ctx.notLogSql := rd.notLogSql;
    var kind := BindingFor(g.request.verb);
    if kind == JsonBodyBinding {
      g.CacheBody();
    }
    assert g.bodyBytes == BodyAfterBind(kind, st);
    var bound := env.bind(kind);
    var enter := BeforeLog(g, ctx, rd.logLevel);
    ghost var body := g.bodyBytes;
    if !bound.Bound? {
      var rt := BindFailureResult(bound, rd.payloadType);
      assert DoBizSpec(rd, env, cbs, st) == RespondSpec(rd, env, st, body, [BeforeLogged], Records(enter), rt, st.uid);
      steps, records := Respond(g, ctx, rd, env, [BeforeLogged], Records(enter), rt);
      escaped := None;
    } else {
      assert DoBizSpec(rd, env, cbs, st) == AfterBindSpec(rd, env, cbs, st, body, Records(enter), bound.payload);
      steps, records, escaped := AfterBind(g, ctx, rd, env, cbs, bound.payload, Records(enter), st);
    }
  }

  /** doBizFunc after `payload` was bound. */
  method AfterBind(g: GinContext, ctx: BaseContext, rd: RequestDesc, env: BizEnv, cbs: Callbacks,
                   payload: string, enter: seq<LogRecord>, ghost st: BizState)
    returns (steps: seq<Step>, records: seq<LogRecord>, escaped: Option<PanicValue>)
    requires st.request == g.request && st.values == ctx.values && st.uid == ctx.uid
    requires st.createTime == ctx.createTime && st.written == (g.writes != [])
    modifies g`writes, g`aborted, ctx`uid
    ensures var run := AfterBindSpec(rd, env, cbs, st, g.bodyBytes, enter, payload);
      && steps == run.steps && records == run.records && escaped == run.escaped
      && g.writes == old(g.writes) + run.writes
      && g.aborted == (old(g.aborted) || run.aborted)
      && ctx.uid == run.uid
  {
    steps := [BeforeLogged];
    records := enter;
    escaped := None;
    if Login.MaybeShare(ctx.values) {
      steps := steps + [ShareChecked(payload, g.request.path)];
      var share := cbs.shareCheck(payload, g.request.path, ctx.uid);
      match share
      case Failed(e) =>
        g.AbortWithStatusJSON(ErrorResult(e));
        return;
      case Panicked(p) =>
        escaped := Some(p);
        return;
      case Passed(u) =>
        ctx.uid := u;
    }
    steps := steps + [BizCalled(payload, ctx.uid)];
    var result := rd.bizCore(payload, ctx.uid);
    // BizCoreFunc may have changed the uid in QuickInfo
    ctx.uid := result.uid;
    match result
    case BizPanic(p, _) =>
      escaped := Some(p);
    case Returned(v, _) =>
      steps, records := Respond(g, ctx, rd, env, steps, records, Body(v));
  }

  /** The end of doBizFunc: afterLog, then the write guard. */
  method Respond(g: GinContext, ctx: BaseContext, rd: RequestDesc, env: BizEnv,
                 steps0: seq<Step>, records0: seq<LogRecord>, rt: Envelope)
    returns (steps: seq<Step>, records: seq<LogRecord>)
    modifies g`writes
    ensures steps == steps0 + [AfterLogged]
    ensures records == records0 + Records(AfterRecord(rd.logLevel, rt, ctx.uid, ctx.createTime, env.startTs, env.endTs))
    ensures g.writes == old(g.writes) + (if old(g.writes) != [] then [] else [rt])
  {
    var exit := AfterRecord(rd.logLevel, rt, ctx.uid, ctx.createTime, env.startTs, env.endTs);
    steps := steps0 + [AfterLogged];
    records := records0 + Records(exit);
    if !g.Written() {
      g.JSON(rt);
    }
  }
}
