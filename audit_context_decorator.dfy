/** The parameter decorators `AuditCtx`, `CurrentUser`, `IpAddress` and
    `UserAgent`: how a handler argument is resolved from the request. */
module AuditContextDecorator {
  import opened Wrappers
  import opened JsonValues
  import opened Http
  import RequestContextMiddleware

  /** `keyof AuditContext` */
  datatype ContextKey = UserIdKey | IpAddressKey | UserAgentKey | RequestIdKey | SessionIdKey

  /** What `AuditCtx` hands the handler: the whole context or one of its fields. */
  datatype ContextValue = Whole(ctx: AuditContext) | Part(value: Option<string>)

  function FieldOf(ctx: AuditContext, key: ContextKey): Option<string> {
    match key
    case UserIdKey => Some(ctx.userId)
    case IpAddressKey => ctx.ipAddress
    case UserAgentKey => Some(ctx.userAgent)
    case RequestIdKey => Some(ctx.requestId)
    case SessionIdKey => ctx.sessionId
  }

  /** The context `AuditCtx` builds when no middleware attached one; unlike
      the middleware it has no `'unknown'` fallback for the address. */
  function FallbackContext(req: HttpRequest, generated: GeneratedId): (ctx: AuditContext)
    reads req
    ensures ctx.userId != "" && ctx.userAgent != "" && ctx.requestId != ""
    ensures UserId(req.user).Some? && UserId(req.user).value != "" ==> ctx.userId == UserId(req.user).value
    ensures UserId(req.user).None? || UserId(req.user) == Some("") ==> ctx.userId == "anonymous"
    ensures req.ip.Some? && req.ip.value != "" ==> ctx.ipAddress == req.ip
    ensures req.ip.None? || req.ip == Some("") ==> ctx.ipAddress == req.remoteAddress
    ensures USER_AGENT in req.headers && req.headers[USER_AGENT] != "" ==> ctx.userAgent == req.headers[USER_AGENT]
    ensures USER_AGENT !in req.headers || req.headers[USER_AGENT] == "" ==> ctx.userAgent == "unknown"
    ensures X_REQUEST_ID in req.headers && req.headers[X_REQUEST_ID] != "" ==> ctx.requestId == req.headers[X_REQUEST_ID]
    ensures X_REQUEST_ID !in req.headers || req.headers[X_REQUEST_ID] == "" ==> ctx.requestId == generated
    ensures ctx.sessionId == req.sessionId
  {
    AuditContext(
      OrElse(UserId(req.user), "anonymous"),
      OrOption(req.ip, req.remoteAddress),
      OrElse(Header(req.headers, USER_AGENT), "unknown"),
      OrElse(Header(req.headers, X_REQUEST_ID), generated),
      req.sessionId)
  }

  /** `AuditCtx(data)`: the attached context, else the fallback; one field when a key is given. */
  function ResolveAuditCtx(req: HttpRequest, key: Option<ContextKey>, generated: GeneratedId): (v: ContextValue)
    reads req
    ensures req.auditContext.Some? && key.None? ==> v == Whole(req.auditContext.value)
    ensures req.auditContext.Some? && key.Some? ==> v == Part(FieldOf(req.auditContext.value, key.value))
    ensures req.auditContext.None? && key.None? ==> v == Whole(FallbackContext(req, generated))
    ensures req.auditContext.None? && key.Some? ==> v == Part(FieldOf(FallbackContext(req, generated), key.value))
  {
    var ctx := if req.auditContext.Some? then req.auditContext.value else FallbackContext(req, generated);
    if key.Some? then Part(FieldOf(ctx, key.value)) else Whole(ctx)
  }

  /** `CurrentUser(data)`: the user, or one of its properties; `undefined` without a user. */
  function ResolveCurrentUser(user: Option<seq<Field>>, key: string): (v: Json)
    ensures user.None? ==> v == Undefined
    ensures user.Some? && key == "" ==> v == Obj(user.value)
    ensures user.Some? && key != "" ==> v == Lookup(user.value, key)
  {
    if key != "" then (if user.Some? then Lookup(user.value, key) else Undefined)
    else (if user.Some? then Obj(user.value) else Undefined)
  }

  /** `IpAddress()`: `request.ip || request.connection?.remoteAddress || 'unknown'` */
  function ResolveIpAddress(req: HttpRequest): (ip: string)
    ensures ip != ""
    ensures req.ip.Some? && req.ip.value != "" ==> ip == req.ip.value
    ensures (req.ip.None? || req.ip == Some("")) && req.remoteAddress.Some? && req.remoteAddress.value != "" ==>
      ip == req.remoteAddress.value
    ensures (req.ip.None? || req.ip == Some("")) && (req.remoteAddress.None? || req.remoteAddress == Some("")) ==>
      ip == "unknown"
  {
    OrElse(OrOption(req.ip, req.remoteAddress), "unknown")
  }

  /** `UserAgent()`: the `user-agent` header, else `'unknown'`. */
  function ResolveUserAgent(req: HttpRequest): (ua: string)
    reads req
    ensures ua != ""
    ensures USER_AGENT in req.headers && req.headers[USER_AGENT] != "" ==> ua == req.headers[USER_AGENT]
    ensures USER_AGENT !in req.headers || req.headers[USER_AGENT] == "" ==> ua == "unknown"
  {
    OrElse(Header(req.headers, USER_AGENT), "unknown")
  }

  /** The decorators see the middleware's context: the fallback `AuditCtx`
      would build agrees with the middleware's capture on every field but the
      address, and the `IpAddress`/`UserAgent` resolvers return exactly the
      middleware's address and user agent. */
  lemma {:induction false} FallbackAgreesWithMiddleware(req: HttpRequest, generated: GeneratedId)
    ensures var m := RequestContextMiddleware.CaptureContext(req.user, req.ip, req.remoteAddress, req.headers, req.sessionId, generated);
      var f := FallbackContext(req, generated);
      && f.userId == m.userId && f.userAgent == m.userAgent
      && f.requestId == m.requestId && f.sessionId == m.sessionId
      && m.ipAddress == Some(ResolveIpAddress(req))
      && m.userAgent == ResolveUserAgent(req)
      && (f.ipAddress == m.ipAddress <==> f.ipAddress.Some? && f.ipAddress.value != "")
  {
  }

  /** After the middleware ran, `AuditCtx` returns its context unchanged. */
  method AuditCtxAfterMiddleware(generated: GeneratedId, later: GeneratedId, user: Option<seq<Field>>,
                                 ip: Option<string>, remoteAddress: Option<string>, sessionId: Option<string>,
                                 headers: map<string, string>)
    returns (resolved: ContextValue, requestId: Option<string>)
    ensures resolved == Whole(RequestContextMiddleware.CaptureContext(user, ip, remoteAddress, headers, sessionId, generated))
    ensures requestId == Some(OrElse(Header(headers, X_REQUEST_ID), generated))
  {
    var req := new HttpRequest("POST", "/patients", Undefined, Undefined, user, ip, remoteAddress, sessionId, headers);
    var res := new HttpResponse();
    var next := new NextFunction();
    var middleware := new RequestContextMiddleware.RequestContextMiddleware();
    middleware.Use(req, res, next, generated);
    resolved := ResolveAuditCtx(req, None, later);
    var part := ResolveAuditCtx(req, Some(RequestIdKey), later);
    requestId := part.value;
  }
}
