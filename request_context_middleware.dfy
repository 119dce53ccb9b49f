/** `RequestContextMiddleware.use`: capture the actor context once per
    request, write the correlation id back, and attach the context to a fresh
    query runner and to the request. */
module RequestContextMiddleware {
  import opened Wrappers
  import opened JsonValues
  import opened Http

  /** The five values `use` computes before touching anything. */
  function CaptureContext(user: Option<seq<Field>>, ip: Option<string>, remoteAddress: Option<string>,
                          headers: map<string, string>, sessionId: Option<string>,
                          generated: GeneratedId): (ctx: AuditContext)
    ensures ctx.userId != "" && ctx.userAgent != "" && ctx.requestId != ""
    ensures ctx.ipAddress.Some? && ctx.ipAddress.value != ""
    ensures ctx.userId == "anonymous" || Some(ctx.userId) == UserId(user)
    ensures ctx.requestId == generated || Some(ctx.requestId) == Header(headers, X_REQUEST_ID)
    ensures ctx.sessionId == sessionId
    ensures ip.Some? && ip.value != "" ==> ctx.ipAddress == ip
    ensures (ip.None? || ip == Some("")) && remoteAddress.Some? && remoteAddress.value != "" ==>
      ctx.ipAddress == remoteAddress
    ensures (ip.None? || ip == Some("")) && (remoteAddress.None? || remoteAddress == Some("")) ==>
      ctx.ipAddress == Some("unknown")
    ensures USER_AGENT in headers && headers[USER_AGENT] != "" ==> ctx.userAgent == headers[USER_AGENT]
    ensures USER_AGENT !in headers || headers[USER_AGENT] == "" ==> ctx.userAgent == "unknown"
    ensures X_REQUEST_ID !in headers || headers[X_REQUEST_ID] == "" ==> ctx.requestId == generated
  {
    AuditContext(
      OrElse(UserId(user), "anonymous"),
      Some(OrElse(OrOption(ip, remoteAddress), "unknown")),
      OrElse(Header(headers, USER_AGENT), "unknown"),
      OrElse(Header(headers, X_REQUEST_ID), generated),
      sessionId)
  }

  /** Precedence: an authenticated id beats the anonymous sentinel, `ip`
      beats the connection's address and both beat `'unknown'`, a real
      user-agent header beats `'unknown'`, an inbound correlation id beats a
      generated one; a sentinel shows up only when nothing better exists. */
  lemma CapturePrecedence(user: Option<seq<Field>>, ip: Option<string>, remoteAddress: Option<string>,
                          headers: map<string, string>, sessionId: Option<string>, generated: GeneratedId)
    ensures var ctx := CaptureContext(user, ip, remoteAddress, headers, sessionId, generated);
      && (ctx.userId == "anonymous" <==> UserId(user) in {None, Some(""), Some("anonymous")})
      && (UserId(user).Some? && UserId(user).value != "" ==> ctx.userId == UserId(user).value)
      && (ip.Some? && ip.value != "" ==> ctx.ipAddress == ip)
      && ((ip.None? || ip == Some("")) && remoteAddress.Some? && remoteAddress.value != "" ==> ctx.ipAddress == remoteAddress)
      && (ctx.ipAddress == Some("unknown") <==> OrOption(ip, remoteAddress) in {None, Some(""), Some("unknown")})
      && (ctx.userAgent == "unknown" <==> Header(headers, USER_AGENT) in {None, Some(""), Some("unknown")})
      && (X_REQUEST_ID in headers && headers[X_REQUEST_ID] != "" ==> ctx.requestId == headers[X_REQUEST_ID])
      && (X_REQUEST_ID !in headers ==> ctx.requestId == generated)
  {
  }

  class RequestContextMiddleware {

    constructor ()
    {
    }

    /** `use(req, res, next)` */
    method Use(req: HttpRequest, res: HttpResponse, next: NextFunction, generated: GeneratedId)
      modifies req, res, next
      ensures var ctx := CaptureContext(req.user, req.ip, req.remoteAddress, old(req.headers), req.sessionId, generated);
        && req.headers == old(req.headers)[X_REQUEST_ID := ctx.requestId]
        && req.auditContext == Some(ctx)
        && req.queryRunner != null && fresh(req.queryRunner)
        && req.queryRunner.data == Some(ctx)
        && !req.queryRunner.isReleased && req.queryRunner.releases == 0
        && res.finishListeners == old(res.finishListeners) + [req.queryRunner]
      ensures next.calls == old(next.calls) + 1
    {
      var ctx := CaptureContext(req.user, req.ip, req.remoteAddress, req.headers, req.sessionId, generated);
      req.headers := req.headers[X_REQUEST_ID := ctx.requestId];
      var queryRunner := new QueryRunner();
      queryRunner.data := Some(ctx);
      req.queryRunner := queryRunner;
      req.auditContext := Some(ctx);
      res.OnFinishRelease(queryRunner);
      next.Call();
    }
  }

  /** A request passed through the middleware and then finished, even twice,
      has had its query runner released exactly once, and `next` ran once. */
  method ReleaseOnceScenario(generated: GeneratedId) returns (releases: nat, nextCalls: nat)
    ensures releases == 1 && nextCalls == 1
  {
    var req := new HttpRequest("GET", "/patients", Undefined, Undefined, None, None, None, None, map[]);
    var res := new HttpResponse();
    var next := new NextFunction();
    var middleware := new RequestContextMiddleware();
    middleware.Use(req, res, next, generated);
    var qr := req.queryRunner;
    res.Finish();
    res.Finish();
    releases := qr.releases;
    nextCalls := next.calls;
  }
}
