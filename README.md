# qweb request pipeline in Dafny

This project models the per-request core of the `requests` package of qweb,
a layer in front of gin business handlers, and proves properties of it. A
route's own handlers are `loginHandler` then `doBizFunc`; `NewEngine` runs
`recoverHandler` in front of them, with the CORS, monitor and health
middleware in between. The model covers the route's two handlers inside
`recoverHandler`; the middleware in between is left out. Its parts are:

- **Request context** (`Common`): `genBaseContext` memoises the request's
  `commons.BaseContext` in gin's request-local storage. It fills the context
  from headers, falling back to query parameters for the two tokens, and
  synthesises a trace id with the `-cr` suffix when the client sent none.
- **Login** (`Login`): `loginHandler` classifies a request by the `/public/`,
  `/private/` and `/api/` markers in its URL path and by the share token. It
  runs the matching identity callback and then continues, aborts with the
  error's envelope, or aborts with `NotLoginError`.
- **Biz** (`Dispatch`): `doBizFunc` picks query or JSON-body binding by HTTP
  method. A bind failure is answered with the validation messages: for each
  field error the custom `errMsg` of its namespace when there is one, else
  the validator's text; `"args invalid"` when the joined text is empty. A bound payload goes
  through the share check and `BizCoreFunc`. The enter and exit records chosen
  by the route's log level are kept, and the result is written only if
  nothing was written yet.
- **Error table** (`ErrMsgTable`): `getCustomErrMsgs` / `findCustomErrMsgs`
  walk the payload's struct type and fill the namespace → `errMsg` table in
  place. They are proved equal to a recursive specification, and the table is
  characterised in both directions.
- **Log levels** (`LogLevels`): the `LogLevel` bit mask of `log.go`.
- **Recovery** (`Recovery`): `errorToResult` and `myRecover` turn a panic into
  a response envelope.
- **Pipeline** (`Pipeline`): how the recovery handler combines the login
  handler and doBizFunc.

`GoBase`, `GoStrings` and `Gin` stand in for the collaborators the core
calls: go-base's errors, envelopes and `BaseContext`; `strings` and
`strconv.ParseInt`; and gin's context and header lookup.

Objects the source updates in place are classes:
- `GinContext`, with its request-local keys, cached body, written envelopes
  and abort flag;
- `BaseContext`, with its values, uid and `NotLogSqlConf`;
- the `errMsgs` map that `findCustomErrMsgs` fills.

The handlers are methods over those classes. Each is proved against a pure
specification function: `LoginDecision`, `DoBizSpec`, `TableFrom`,
`ContextValues` and `ErrorToResult`. The lemmas then state what the source
promises about those functions.

Some facts about the code that a reader might expect otherwise:
- There is no login-exempt route flag.
- Login precedence is `/public/`, then a non-empty share token, then
  `/private/`, then `/api/`, then the uid test.
- A share token only bypasses the login checks. The share check runs in
  doBizFunc, after a successful bind, with the bound payload rather than the
  query mapping.
- There is no "invalid request" answer for a share request with the wrong
  method.
- `NotLoginError` is written as a bare error value, not as a result envelope.

## Model

| member | source | states |
|---|---|---|
| GoBase.ErrorText | requests/recover_handler.go:41 | `e.Error()` of an error that is not a StdError: a plain error's own text, a strconv.NumError's "strconv.ParseInt: parsing ..." text |
| GoBase.ValueOf | requests/request.go:110 | BaseContext.Get: the value stored under the key, "" when the key is absent |
| GoBase.BaseContext.constructor | requests/common.go:47 | commons.NewBaseContext: no values, uid 0, NotLogSqlConf false, created at the given time |
| GoBase.BaseContext.Put | requests/common.go:52-59 | BaseContext.Put: stores the value under the key and keeps every other entry |
| Common.GetHeader | requests/common.go:87-99 | gin's canonical-key lookup when it is non-empty, else the first raw `Header[key]` value, else ""; "" exactly when both are empty |
| Common.GetHeaderCanonicalKey | requests/common.go:87-91 | for a key already in canonical form, getHeader is the canonical header lookup |
| Common.HeaderThenQuery | requests/common.go:71-85 | the header value when non-empty, the query parameter of the same name exactly when the header is empty |
| Common.GetToken | requests/common.go:71-77 | empty exactly when both the Token header and the Token query parameter are empty; otherwise one of the two |
| Common.GetShareToken | requests/common.go:79-85 | the same header-then-query fallback for the share token |
| Common.NewTraceId | requests/common.go:66-69 | ends in "-cr", holds exactly one '-', keeps every other character of the uuid, and its body is the uuid with every '-' removed |
| Common.StoredValues | requests/common.go:52-60 | the five always-put keys are present with the values put; PrivateUid is present exactly when its value is non-empty; no other key |
| Common.StoredKeysDistinct | requests/common.go:52-59 | the PrivateUid key is none of the five keys that are always stored |
| Common.TraceIdFor | requests/common.go:48-51 | the stored trace id is never empty |
| Common.ContextValuesStored | requests/common.go:47-61 | a new context holds the client's trace id when sent, else newTraceId's; profile, token, platform and share token always; the private uid hint exactly when non-empty |
| Common.ContextValues | requests/common.go:47-61 | the entries genBaseContext stores for a request: trace id, profile, token, platform, share token and the private uid hint, read from the request's headers and queries |
| Common.NewFilledContext | requests/common.go:47-60 | the puts on a new BaseContext leave exactly StoredValues of the six values, uid 0, created at the given time |
| Common.NewBaseContextFor | requests/common.go:47-60 | a fresh BaseContext holding ContextValues of the request |
| Common.GenBaseContext | requests/common.go:41-64 | an existing BaseContext is returned unchanged with storage untouched; otherwise a fresh one holding ContextValues is stored under baseContextName and nothing else changes |
| Common.GenBaseContextTwice | requests/common.go:41-45 | a second call returns the same object as the first, whatever uuid and clock it sees |
| Common.DefaultCallbackBehaviour | requests/common.go:19-31 | the default API and share checks panic with their reminder strings; the private and public checks pass and leave the uid |
| Gin.GinContext.JSON | requests/recover_handler.go:27 | appends exactly the envelope given to the response |
| Gin.GinContext.Abort | requests/recover_handler.go:28 | marks the chain aborted |
| Gin.GinContext.AbortWithStatusJSON | requests/request.go:53 | aborts and appends the envelope |
| Gin.GinContext.CacheBody | requests/request.go:131-133 | the body is cached under the body key when nothing was cached, otherwise the cached value is kept |
| Gin.CanonicalKey | requests/common.go:88 | textproto's canonical header key: upper case at the start and after each '-', lower case elsewhere, and a key with a non-token character left as it is |
| Gin.CanonicalKeyIdempotent | requests/common.go:88 | canonicalising a canonical key changes nothing |
| Gin.HeaderGet | requests/common.go:88 | gin's GetHeader: the first value stored under the key's canonical form, "" when there is none |
| Gin.HeaderGetCanonical | requests/common.go:88 | GetHeader gives the same value for a key and for its canonical form, and for any two keys with one canonical form |
| Gin.Query | requests/common.go:74 | gctx.Query: the first value of the query parameter, "" when it is absent |
| Gin.GinContext.Written | requests/request.go:178 | gctx.Writer.Written(): some envelope has been written to the response |
| GoStrings.ParseInt | requests/request.go:68 | an accepted hint lies in the int64 range; a rejected one yields a NumError naming the hint |
| GoStrings.ParseIntRejectsNonNumeric | requests/request.go:68-73 | a hint with a non-digit (other than a leading sign) is rejected |
| GoStrings.ParseIntFormatInt | requests/request.go:68 | every int64's decimal text parses back to it |
| GoStrings.Contains | requests/request.go:48-89 | strings.Contains, the test of the /public/, /private/ and /api/ markers in the URL path |
| GoStrings.ContainsAt | requests/request.go:48-89 | the marker test holds exactly when the marker occurs in the path at some index |
| GoStrings.Join | requests/request.go:153 | strings.Join: the parts with the separator between consecutive ones, "" for no parts |
| GoStrings.RemoveChar | requests/common.go:68 | the ReplaceAll of newTraceId removes every '-' and keeps every other character with its count |
| GoStrings.JoinEmpty | requests/request.go:153-155 | with a non-empty separator, the join is "" exactly when there are no parts or one empty part |
| GoStrings.SplitJoin | requests/request.go:153 | joining parts that lack the separator character and splitting again gives back the parts |
| LogLevels.LogLevelConstants | requests/log.go:5-10 | NONE is 0, PARAM and RETURN are distinct single bits, ALL is their union and selects both |
| ErrMsgTable.ErrMsgs.constructor | requests/request.go:229 | the table starts empty |
| ErrMsgTable.FindCustomErrMsgs | requests/request.go:234-260 | the in-place walk adds exactly the recursive table TableFrom for the struct under path tPath+tName+"." to what the map held |
| ErrMsgTable.RecordField | requests/request.go:246-258 | one loop turn adds the field's own tag entry, then the entries of the struct it points to |
| ErrMsgTable.LoopStep | requests/request.go:245-259 | one loop turn preserves the loop invariant relating the map to the remaining fields' table |
| ErrMsgTable.GetCustomErrMsgs | requests/request.go:223-232 | returns exactly CustomErrMsgs of the payload type |
| ErrMsgTable.TableFrom | requests/request.go:243-259 | the table the walk from field `i` on adds under `prefix`: each tagged field's tag under prefix plus its name, then the table of each pointer-to-struct field under prefix plus its name and "."; a later write to the same key wins |
| ErrMsgTable.CustomErrMsgs | requests/request.go:223-232 | the table getCustomErrMsgs returns: empty unless the type is a pointer to a struct, else the walk from "<Name>." |
| ErrMsgTable.TagAt | requests/request.go:243-258 | the tag of the field reached along a path of field names through pointer-to-struct fields, when it is non-empty: a definition of the table's meaning separate from the walk |
| ErrMsgTable.CustomErrMsgsNeedsPointerToStruct | requests/request.go:225-227 | anything but a pointer to a struct (a struct value included) gives the empty table |
| ErrMsgTable.TableValuesNonEmpty | requests/request.go:250-254 | only non-empty tags are recorded |
| ErrMsgTable.CustomErrMsgsNonEmpty | requests/request.go:223-260 | every message of the returned table is non-empty |
| ErrMsgTable.FieldNamed | requests/request.go:245-248 | the first field with the given name, or none when no field has it |
| ErrMsgTable.TagRecorded | requests/request.go:243-258 | a tagged field reached through pointer-to-struct fields is recorded under prefix + its dotted path, with its tag |
| ErrMsgTable.RecordedIsTag | requests/request.go:243-258 | every recorded key is prefix + the dotted path of a tagged field, and holds that field's tag |
| ErrMsgTable.CustomErrMsgsHasTag | requests/request.go:223-260 | for a payload pointing to a struct, every tagged field's "Type.Field…" namespace maps to its tag |
| ErrMsgTable.CustomErrMsgsOnlyTags | requests/request.go:223-260 | every key of the table is some tagged field's "Type.Field…" namespace, holding its tag |
| ErrMsgTable.FirstSegment | requests/request.go:243 | the text of a namespace before its first '.' is dot-free |
| ErrMsgTable.TableKeysUnder | requests/request.go:243-257 | every key recorded for fields i.. starts with the prefix and names one of those fields as its next segment |
| Login.LoginWrites | requests/request.go:53 | an aborting outcome writes exactly one envelope, any other outcome none |
| Login.MaybeShare | requests/request.go:109-112 | a request is shared exactly when its BaseContext holds a non-empty share token |
| Login.LoginDecision | requests/request.go:43-107 | loginHandler's decision on the stored values and uid: /public/, then the share token, then /private/ with its uid hint, then /api/, then the uid test, with the callbacks each branch calls |
| Login.LoginHandler | requests/request.go:43-107 | after genBaseContext, the outcome, the new uid, the envelope written and the abort flag are those of LoginDecision on the stored values; the storage gains at most the new BaseContext and keeps every other key |
| Login.Authenticate | requests/request.go:46-106 | on a given BaseContext: outcome, uid, writes and abort flag follow LoginDecision |
| Login.PublicTier | requests/request.go:48-58 | /public/ calls only PublicUserInfoCheckFunc, continues exactly when it passes, aborts only with its error, and never with NotLoginError |
| Login.ShareTokenBypass | requests/request.go:60-63 | off /public/, a share token continues with no callback and the uid untouched, on /private/ and /api/ paths too |
| Login.PrivateTier | requests/request.go:65-87 | on /private/: no hint continues unchecked; a rejected hint aborts with the parse error before any callback; a parsed one goes to PrivateUserInfoCheckFunc, whose error aborts, and a zero uid after it aborts with NotLoginError |
| Login.PrivateHintNotNumeric | requests/request.go:66-73 | a non-numeric hint aborts with strconv's error for that hint and calls nothing |
| Login.ApiAndOtherTier | requests/request.go:89-105 | /api/ aborts on ApiUserInfoCheckFunc's error; then, with or without /api/, a zero uid aborts with NotLoginError and only a non-zero uid continues |
| Login.NotLoginMeansNoUid | requests/request.go:79-103 | NotLoginError is only ever answered with uid 0 |
| Login.AnonymousContinue | requests/request.go:43-107 | a request continues with uid 0 only on /public/, with a share token, or on /private/ without a hint |
| Login.AtMostOneCallback | requests/request.go:43-107 | at most one identity callback runs per request |
| Login.DefaultApiCheckPanics | requests/request.go:89-91 | with the default callbacks a plain /api/ request panics with the ApiUserInfoCheckFunc reminder |
| Dispatch.BindingFor | requests/request.go:128-134 | query binding exactly for GET, JSON-body binding for every other method |
| Dispatch.KeysJson | requests/request.go:270-278 | one entry per key header, each holding getHeader's value for it |
| Dispatch.KeyHeaderValues | requests/request.go:262-278 | the key-header map keysJson serialises: each of the five key headers with its header value |
| Dispatch.BeforeLog | requests/request.go:205-221 | returns the enter record BeforeRecord selects for the level, with the target, the uid, the key headers and the cached body |
| Dispatch.BeforeRecord | requests/request.go:205-221 | beforeLog's record: none at NONE, the target, uid, key headers and cached body with the PARAM bit, else the target and uid |
| Dispatch.AfterRecord | requests/request.go:186-203 | afterLog's record: none at NONE, else the uid, latency since the context's creation and cost since doBizFunc started, with the return value when the RETURN bit is set |
| Dispatch.LevelNoneLogsNothing | requests/request.go:186-208 | at LOG_LEVEL_NONE neither beforeLog nor afterLog writes a record |
| Dispatch.LevelBitsSelectRecords | requests/request.go:186-221 | at any other level both records are written; the PARAM bit exactly adds key headers and body, the RETURN bit exactly adds the return value; latency is end minus creation, bizCost end minus start |
| Dispatch.LevelAllLogsEverything | requests/request.go:197-210 | LOG_LEVEL_ALL gives the enter record with params and the exit record with the return value |
| Dispatch.ErrMsgList | requests/request.go:143-151 | one message per validation error, in order: the custom one for its namespace, else its own text |
| Dispatch.BindFailureMessage | requests/request.go:153-163 | the message a validation failure is answered with: the "\n" join of the messages, or "args invalid" when it is empty |
| Dispatch.CollectErrMsgs | requests/request.go:142-151 | the loop yields one message per error, the custom message when the namespace is in the table and the error's text otherwise |
| Dispatch.BindFailureFallback | requests/request.go:153-163 | "args invalid" exactly when there are no messages or a single empty one; otherwise the "\n" join |
| Dispatch.BindFailureLines | requests/request.go:153 | when no message holds a line break, splitting the answer at "\n" gives back every message in order |
| Dispatch.TaggedFieldMessage | requests/request.go:141-147 | a validation error on a tagged field is answered with its tag, whatever the validator's text |
| Dispatch.BindFailureResult | requests/request.go:136-163 | validation errors give their joined messages (or "args invalid"); any other bind error gives "args invalid" |
| Dispatch.BindFailureSkipsBiz | requests/request.go:136-163 | a failed bind logs, never runs the share check or BizCoreFunc, answers with the bind-failure message unless something was written, and does not abort |
| Dispatch.BeforeLogOnce | requests/request.go:136-176 | beforeLog runs exactly once, first, on every branch |
| Dispatch.ShareCheckWhenBoundAndShared | requests/request.go:164-172 | the share check runs exactly when binding succeeded and there is a share token |
| Dispatch.ShareFailureAborts | requests/request.go:166-171 | a failing share check aborts with its error, before BizCoreFunc and afterLog |
| Dispatch.BizCalledWhenAllowed | requests/request.go:164-173 | BizCoreFunc runs exactly when binding succeeded and the share check, if any, passed, with the payload and the uid the check left |
| Dispatch.WriteGuard | requests/request.go:176-180 | at most one envelope; none after a panic; nothing over an earlier write except the share-check abort; exactly one on a fresh response when no panic escaped |
| Dispatch.BindingChoice | requests/request.go:128-134 | GET leaves the body cache alone; any other method caches the request body |
| Dispatch.ExitRecordCosts | requests/request.go:176-202 | when afterLog runs at a non-NONE level, its record is the second and last, with the final uid and both costs |
| Dispatch.BizLeavesUid | requests/request.go:166-176 | the uid afterLog reports is the one BizCoreFunc left in QuickInfo, or the incoming uid when the share check stopped the request |
| Dispatch.RespondExit | requests/request.go:176-180 | afterLog appends one exit record carrying the uid and both costs |
| Dispatch.DoBizFunc | requests/request.go:114-184 | after genBaseContext: steps, records, writes, abort flag, cached body, uid and NotLogSqlConf are those of DoBizSpec; the storage gains at most the new BaseContext and keeps every other key |
| Dispatch.RunBiz | requests/request.go:118-180 | the same on a given BaseContext |
| Dispatch.AfterBind | requests/request.go:164-180 | after a successful bind: share check, BizCoreFunc and the response follow AfterBindSpec |
| Dispatch.Respond | requests/request.go:176-180 | afterLog's record is appended, and the result is written only if nothing was written |
| Dispatch.DoBizSpec | requests/request.go:114-184 | doBizFunc on a request state: binding by method, beforeLog, then the bind-failure answer or the bound path |
| Dispatch.AfterBindSpec | requests/request.go:164-174 | the bound path: the share check when shared (an error aborts, a panic escapes), then BizCoreFunc with the uid the share check left |
| Dispatch.CallBiz | requests/request.go:173-180 | BizCoreFunc with the payload and uid; a panic escapes with nothing written, a value is answered with the uid BizCoreFunc left |
| Dispatch.RespondSpec | requests/request.go:176-180 | afterLog's record, then the JSON envelope unless something was written already |
| Recovery.ErrorToResult | requests/recover_handler.go:31-45 | string → that string; StdError → its own code and message; other error → "internal server error" in prod, its text elsewhere; anything else → "unknown error" |
| Recovery.ProdHidesErrorText | requests/recover_handler.go:37-40 | in prod the answer to a generic error panic does not depend on the error |
| Recovery.StdErrorBeforeError | requests/recover_handler.go:35-36 | a StdError keeps its message even in prod |
| Recovery.MyRecover | requests/recover_handler.go:23-29 | writes exactly errorToResult's envelope, then aborts; the storage gains at most a new BaseContext and keeps every other key |
| Pipeline.ChainShape | requests/request.go:37-41 | the chain keeps the login result and runs doBizFunc exactly when login continues |
| Pipeline.ChainAnswers | requests/recover_handler.go:13-29 | exactly one envelope per request; a recovered panic is answered by errorToResult's envelope alone |
| Pipeline.ExactlyOneResponse | requests/request.go:37-41 | every request that reaches the route's two handlers inside recoverHandler gets exactly one response envelope from them, and a panic is answered with errorToResult's envelope only |
| Pipeline.BizOnlyAfterLogin | requests/request.go:37-41 | doBizFunc runs exactly when loginHandler continues |
| Pipeline.RunChain | requests/request.go:37-41 | once the BaseContext is stored, loginHandler then doBizFunc inside the recovery handler produce the outcome, writes, abort flag and recovered panic of Chain, and leave the uid, cached body and NotLogSqlConf of doBizFunc's run (or login's uid when doBizFunc did not run) |
| Pipeline.AfterLogin | requests/recover_handler.go:13-29 | after loginHandler, doBizFunc runs on Continue and any escaped panic is answered by myRecover; the uid, cached body and NotLogSqlConf are doBizFunc's when it ran and untouched otherwise |
| Pipeline.Chain | requests/recover_handler.go:13-29 | the recovery handler around the route's handlers: a login panic or a biz panic gets errorToResult's envelope after what was written and aborts; otherwise the handlers' writes stand |
| Pipeline.ServeSpec | requests/request.go:37-41 | one request through loginHandler and doBizFunc inside recoverHandler, from a fresh gin context: the stored values, LoginDecision, then DoBizSpec on the uid login left |

## Left out

- The gin engine, route registration (`Get`, `Post`, `NewEngine`), CORS and the monitor counters are framework wiring. `NewEngine` runs the CORS, monitor and health handlers between `recoverHandler` and a route's `loginHandler`; the health handler answers `/health` and aborts before login runs. The model starts at the route's handlers, so requests those handlers stop are not covered.
- `profile/profile.go` is not part of this model. The profile test `envsupport.Profile() == "prod"` is the boolean parameter `prod`.
- `RequestLevelFunc` and `ConcurrentLimiterFunc` are declared in `common.go` but the core never calls them.
- `GoBase.ErrorText`: the text of a `strconv.NumError` does not model `strconv.Quote`'s escaping of the number.
- Logging is modelled as the enter and exit records each call selects. The logger, its text formats, JSON marshalling, the other info lines and the panic stack that `gin.RecoveryWithWriter` captures are not modelled.
- `Login.LoginDecision`: a callback that fails or panics is taken to leave the uid as it was. Go's callbacks receive `QuickInfo` and could change it before failing.
- `Dispatch.AfterBindSpec`: a share check that fails or panics is likewise taken to leave the uid as it was. A share check that passes, and `BizCoreFunc` whether it returns or panics, hand back the uid they leave, so afterLog reports that uid.
- The callbacks and `BizCoreFunc` see only the arguments the model passes them (token, URL path, payload, uid), not the whole context. The payload is the bound value, as text.
- Gin binding and the validator are an abstract outcome per binding kind: a payload, a list of field errors, or another error. Reading the body cannot fail in the model (`Gin.GinContext.CacheBody`).
- `uuid.NewString()` and `time.Now()` are parameters: `uuid` is the text of the uuid, and the timestamps are unbounded integers in milliseconds, with no int64 wrap-around.
- `reflect`: types are a finite tree, so recursive payload types (a struct that points to itself) are not modelled. On such a type `findCustomErrMsgs` follows the type rather than values, so by reading request.go:256-257 it would recurse until Go's fatal stack overflow, which `recoverHandler` cannot catch; this follows from request.go:256-257 and has no Dafny counterpart. Blank `_` field names, which Go allows to repeat, are excluded by `ErrMsgTable.WellFormed` in the characterisation lemmas. `findCustomErrMsgs` itself is modelled on every struct.
- `ErrMsgTable.FindCustomErrMsgs` requires a struct or a pointer to one, the only types Go ever passes it. On anything else Go's `NumField` would panic.
- go-base is not part of this model. The context keys are given their Go identifier names as values, and only their distinctness is used.
- `Pipeline.RunChain`: the chain is stated from the point where loginHandler's genBaseContext has stored the BaseContext, rather than from a fresh gin context. That first step is `Common.GenBaseContext`, and the value-level composition of all steps is `Pipeline.ServeSpec`.
- A panic inside `myRecover` itself, and the broken-pipe handling of gin's recovery, are not modelled.
- Requests are independent, so concurrency is not modelled.
- go-base is not part of this model, so `commons.GetToken(ctx)` is read as the stored `Token` entry of the BaseContext (`ValueOf(values, TokenKey)`), the entry genBaseContext filled with `Common.GetToken`.
