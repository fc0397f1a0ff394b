/**
  requests/common.go: building the per-request BaseContext (memoised in the
  gin context's request-local storage), the header and query lookups it uses,
  trace-id synthesis, and the identity callbacks with their default behaviour.
*/
module Common {
  import opened GoBase
  import opened GoStrings
  import opened Gin

  /** The request-local storage key the BaseContext is kept under. */
  const BaseContextName: string := "base_context_qweb"

  /* The keys of go-base's commons package (commons.TraceId, commons.Profile,
     ...). Their literal values live in go-base; the model uses the Go names
     and relies only on their being distinct. */
  const TraceIdKey: string := "TraceId"
  const ProfileKey: string := "Profile"
  const TokenKey: string := "Token"
  const PlatformKey: string := "Platform"
  const ShareTokenKey: string := "ShareToken"
  const PrivateUidKey: string := "PrivateUid"

  /** NotLoginError = errors.New("not login") */
  const NotLoginError: Error := PlainError("not login")

  /** The first value stored under `key` exactly as written, "" when there is none. */
  function RawHeader(req: HttpRequest, key: string): string {
    if key in req.header then FirstOrEmpty(req.header[key]) else ""
  }

  /** getHeader: gin's GetHeader (canonical key), falling back to the raw
      `Header[key]` entry; "" only when both are empty. */
  function GetHeader(req: HttpRequest, key: string): (r: string)
    ensures HeaderGet(req.header, key) != "" ==> r == HeaderGet(req.header, key)
    ensures HeaderGet(req.header, key) == "" ==> r == RawHeader(req, key)
    ensures r == "" <==> HeaderGet(req.header, key) == "" && RawHeader(req, key) == ""
  {
    var header := HeaderGet(req.header, key);
    if header != "" then header
    else if key in req.header && |req.header[key]| > 0 then req.header[key][0]
    else ""
  }

  /** The raw fallback only matters for keys that are not in canonical form:
      for a canonical key getHeader is http.Header.Get. */
  lemma GetHeaderCanonicalKey(req: HttpRequest, key: string)
    requires CanonicalKey(key) == key
    ensures GetHeader(req, key) == HeaderGet(req.header, key)
  {
  }

  /** The lookup shared by getToken and getShareToken: the header, and the
      query parameter of the same name only when the header is empty. */
  function HeaderThenQuery(req: HttpRequest, key: string): (r: string)
    ensures GetHeader(req, key) != "" ==> r == GetHeader(req, key)
    ensures GetHeader(req, key) == "" ==> r == Query(req, key)
  {
    var token := GetHeader(req, key);
    if |token| == 0 then Query(req, key) else token
  }

  /** getToken */
  function GetToken(req: HttpRequest): (r: string)
    ensures r == "" <==> GetHeader(req, TokenKey) == "" && Query(req, TokenKey) == ""
    ensures r != "" ==> r == GetHeader(req, TokenKey) || r == Query(req, TokenKey)
  {
    HeaderThenQuery(req, TokenKey)
  }

  /** getShareToken */
  function GetShareToken(req: HttpRequest): (r: string)
    ensures r == "" <==> GetHeader(req, ShareTokenKey) == "" && Query(req, ShareTokenKey) == ""
    ensures r != "" ==> r == GetHeader(req, ShareTokenKey) || r == Query(req, ShareTokenKey)
  {
    HeaderThenQuery(req, ShareTokenKey)
  }

  /** The suffix that marks a trace id generated here rather than sent by the client. */
  const GeneratedSuffix: string := "-cr"

  /** newTraceId, given the text of uuid.NewString(): the uuid without its
      dashes, then "-cr". The result ends in "-cr", holds exactly one '-',
      and keeps every other character of the uuid. */
  function NewTraceId(uuid: string): (r: string)
    ensures |r| >= |GeneratedSuffix| && r[|r| - |GeneratedSuffix|..] == GeneratedSuffix
    ensures multiset(r)['-'] == 1
    ensures forall c :: c != '-' ==> multiset(r)[c] == multiset(uuid)[c] + multiset(GeneratedSuffix)[c]
    ensures r[..|r| - |GeneratedSuffix|] == RemoveChar(uuid, '-')
  {
    var body := RemoveChar(uuid, '-');
    assert multiset(body)['-'] == 0;
    body + GeneratedSuffix
  }

  /** The private uid key differs from the five keys that are always stored. */
  lemma StoredKeysDistinct()
    ensures PrivateUidKey !in {TraceIdKey, ProfileKey, TokenKey, PlatformKey, ShareTokenKey}
  {
    assert |PrivateUidKey| == 10 && |ShareTokenKey| == 10;
    assert PrivateUidKey[0] != ShareTokenKey[0];
    assert |TraceIdKey| == 7 && |ProfileKey| == 7 && |TokenKey| == 5 && |PlatformKey| == 8;
  }

  /** The map a BaseContext holds after genBaseContext's puts of the six values. */
  function StoredValues(traceId: string, profile: string, token: string, platform: string,
                        shareToken: string, privateUid: string): (m: map<string, string>)
    ensures m.Keys == {TraceIdKey, ProfileKey, TokenKey, PlatformKey, ShareTokenKey}
                      + (if privateUid != "" then {PrivateUidKey} else {})
    ensures m[TraceIdKey] == traceId && m[ProfileKey] == profile && m[TokenKey] == token
    ensures m[PlatformKey] == platform && m[ShareTokenKey] == shareToken
    ensures privateUid != "" ==> m[PrivateUidKey] == privateUid
    ensures PrivateUidKey in m <==> privateUid != ""
  {
    StoredKeysDistinct();
    var m := map[][TraceIdKey := traceId][ProfileKey := profile][TokenKey := token]
                  [PlatformKey := platform][ShareTokenKey := shareToken];
    if privateUid != "" then m[PrivateUidKey := privateUid] else m
  }

  /** The trace id a new BaseContext gets: the client's, else a generated one. */
  function TraceIdFor(req: HttpRequest, uuid: string): (tid: string)
    ensures tid != ""
  {
    var header := GetHeader(req, TraceIdKey);
    if header == "" then NewTraceId(uuid) else header
  }

  /** The values a newly built BaseContext holds. */
  function ContextValues(req: HttpRequest, uuid: string): map<string, string> {
    StoredValues(TraceIdFor(req, uuid), GetHeader(req, ProfileKey), GetToken(req),
                 GetHeader(req, PlatformKey), GetShareToken(req), GetHeader(req, PrivateUidKey))
  }

  /** What a new BaseContext holds: a non-empty trace id, the client's when it
      sent one, else a generated one; profile, token, platform and share token
      always, possibly as ""; the private uid hint exactly when it is non-empty;
      and nothing else. */
  lemma ContextValuesStored(req: HttpRequest, uuid: string)
    ensures var m := ContextValues(req, uuid);
      && TraceIdKey in m && m[TraceIdKey] != ""
      && (GetHeader(req, TraceIdKey) != "" ==> m[TraceIdKey] == GetHeader(req, TraceIdKey))
      && (GetHeader(req, TraceIdKey) == "" ==> m[TraceIdKey] == NewTraceId(uuid))
      && ProfileKey in m && m[ProfileKey] == GetHeader(req, ProfileKey)
      && TokenKey in m && m[TokenKey] == GetToken(req)
      && PlatformKey in m && m[PlatformKey] == GetHeader(req, PlatformKey)
      && ShareTokenKey in m && m[ShareTokenKey] == GetShareToken(req)
      && (PrivateUidKey in m <==> GetHeader(req, PrivateUidKey) != "")
      && (PrivateUidKey in m ==> m[PrivateUidKey] == GetHeader(req, PrivateUidKey))
      && m.Keys <= {TraceIdKey, ProfileKey, TokenKey, PlatformKey, ShareTokenKey, PrivateUidKey}
  {
  }

  /** The fresh BaseContext genBaseContext fills from the request: trace id,
      profile, token, platform and share token, then the private uid hint
      when there is one. */
  method NewBaseContextFor(req: HttpRequest, uuid: string, now: int) returns (ctx: BaseContext)
    ensures fresh(ctx)
    ensures ctx.values == ContextValues(req, uuid)
    ensures ctx.createTime == now && ctx.uid == 0 && !ctx.notLogSql
  {
    var tid := GetHeader(req, TraceIdKey);
    if tid == "" {
      tid := NewTraceId(uuid);
    }
    var profile, token, platform, shareToken := GetHeader(req, ProfileKey), GetToken(req), GetHeader(req, PlatformKey), GetShareToken(req);
    var privateUid := GetHeader(req, PrivateUidKey);
    assert tid == TraceIdFor(req, uuid);
    ctx := NewFilledContext(now, tid, profile, token, platform, shareToken, privateUid);
  }

  /** The puts of genBaseContext on a new BaseContext, in the source's order;
      the private uid hint is put only when it is non-empty. */
  method NewFilledContext(now: int, traceId: string, profile: string, token: string, platform: string,
                          shareToken: string, privateUid: string) returns (ctx: BaseContext)
    ensures fresh(ctx)
    ensures ctx.values == StoredValues(traceId, profile, token, platform, shareToken, privateUid)
    ensures ctx.createTime == now && ctx.uid == 0 && !ctx.notLogSql
  {
    ctx := new BaseContext(now);
    ctx.Put(TraceIdKey, traceId);
    ctx.Put(ProfileKey, profile);
    ctx.Put(TokenKey, token);
    ctx.Put(PlatformKey, platform);
    ctx.Put(ShareTokenKey, shareToken);
    if privateUid != "" {
      ctx.Put(PrivateUidKey, privateUid);
    }
  }

  /** The BaseContext already stored in `g`, as a frame: the only stored
      object loginHandler and doBizFunc may change. */
  function StoredContext(g: GinContext): set<BaseContext>
    reads g
  {
    if BaseContextName in g.keys then {g.keys[BaseContextName]} else {}
  }

  /** genBaseContext: the BaseContext stored in the request-local storage if
      there is one, unchanged; otherwise a new one, created at `now`, filled
      from the request (with `uuid` standing for uuid.NewString()) and stored. */
  method GenBaseContext(g: GinContext, uuid: string, now: int) returns (ctx: BaseContext)
    modifies g`keys
    ensures BaseContextName in g.keys && g.keys[BaseContextName] == ctx
    ensures BaseContextName in old(g.keys) ==> ctx == old(g.keys[BaseContextName]) && g.keys == old(g.keys)
    ensures BaseContextName !in old(g.keys) ==>
      && fresh(ctx)
      && g.keys == old(g.keys)[BaseContextName := ctx]
      && ctx.values == ContextValues(g.request, uuid)
      && ctx.createTime == now && ctx.uid == 0 && !ctx.notLogSql
  {
    if BaseContextName in g.keys {
      return g.keys[BaseContextName];
    }
    ctx := NewBaseContextFor(g.request, uuid, now);
    g.keys := g.keys[BaseContextName := ctx];
  }

  /** Calling genBaseContext a second time within a request returns the same
      object, with the same values, whatever uuid and clock the call sees. */
  method GenBaseContextTwice(g: GinContext, uuid1: string, now1: int, uuid2: string, now2: int)
    returns (first: BaseContext, second: BaseContext)
    modifies g`keys
    ensures second == first
    ensures BaseContextName in old(g.keys) ==> first == old(g.keys[BaseContextName])
    ensures BaseContextName !in old(g.keys) ==> first.values == ContextValues(g.request, uuid1)
  {
    first := GenBaseContext(g, uuid1, now1);
    ghost var values := first.values;
    second := GenBaseContext(g, uuid2, now2);
    assert second.values == values;
  }

  /** What an identity or share callback does: it leaves `uid` in QuickInfo
      and returns nil, returns an error, or panics. */
  datatype CheckResult = Passed(uid: int) | Failed(err: Error) | Panicked(p: PanicValue)

  /** The application's callbacks, each given what it is passed besides the
      context, and the QuickInfo uid before the call:
      ApiUserInfoCheckFunc(token, urlPath), ShareCheckFunc(request payload, urlPath),
      PrivateUserInfoCheckFunc(parsed uid), PublicUserInfoCheckFunc(token, urlPath). */
  datatype Callbacks = Callbacks(
    apiCheck: (string, string, int) -> CheckResult,
    shareCheck: (string, string, int) -> CheckResult,
    privateCheck: (int, int) -> CheckResult,
    publicCheck: (string, string, int) -> CheckResult)

  const ApiUnsetMessage: string := "请设置ApiUserInfoCheckFunc"
  const ShareUnsetMessage: string := "请设置ShareCheckFunc"

  /** The callbacks as common.go initialises them: the API and share checks
      panic until the application replaces them; the private and public checks
      succeed without touching QuickInfo. */
  const DefaultCallbacks: Callbacks := Callbacks(
    (token: string, urlPath: string, uid: int) => Panicked(PanicString(ApiUnsetMessage)),
    (payload: string, urlPath: string, uid: int) => Panicked(PanicString(ShareUnsetMessage)),
    (parsedUid: int, uid: int) => Passed(uid),
    (token: string, urlPath: string, uid: int) => Passed(uid))

  lemma DefaultCallbackBehaviour(token: string, urlPath: string, parsedUid: int, uid: int)
    ensures DefaultCallbacks.apiCheck(token, urlPath, uid) == Panicked(PanicString(ApiUnsetMessage))
    ensures DefaultCallbacks.shareCheck(token, urlPath, uid) == Panicked(PanicString(ShareUnsetMessage))
    ensures DefaultCallbacks.privateCheck(parsedUid, uid) == Passed(uid)
    ensures DefaultCallbacks.publicCheck(token, urlPath, uid) == Passed(uid)
  {
  }
}
