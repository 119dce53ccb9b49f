/** The pieces of an inbound HTTP request that the actor-context code reads
    and writes, the TypeORM query runner the context is attached to, and the
    response's `finish` event. */
module Http {
  import opened Wrappers
  import opened JsonValues

  /** The actor context (`AuditContext`): who, from where, in which request. */
  datatype AuditContext = AuditContext(
    userId: string,
    ipAddress: Option<string>,
    userAgent: string,
    requestId: string,
    sessionId: Option<string>)

  /** `${Date.now()}-${Math.random().toString(36).substr(2, 9)}`: an opaque
      fresh id, never empty because of its `-`. */
  type GeneratedId = s: string | s != "" witness "0-0"

  const USER_AGENT: string := "user-agent"
  const X_REQUEST_ID: string := "x-request-id"

  /** `a || d` for a string that may be absent. */
  function OrElse(a: Option<string>, d: string): string {
    if a.Some? && a.value != "" then a.value else d
  }

  /** `a || b` for two strings that may be absent. */
  function OrOption(a: Option<string>, b: Option<string>): Option<string> {
    if a.Some? && a.value != "" then a else b
  }

  function Header(headers: map<string, string>, name: string): Option<string> {
    if name in headers then Some(headers[name]) else None
  }

  /** `user?.id`; only string ids are modelled. */
  function UserId(user: Option<seq<Field>>): Option<string> {
    if user.Some? && Lookup(user.value, "id").Str? then Some(Lookup(user.value, "id").s) else None
  }

  class QueryRunner {
    var data: Option<AuditContext>
    var isReleased: bool
    /** How many times the connection went back to the pool. */
    var releases: nat

    constructor ()
      ensures data == None && !isReleased && releases == 0
    {
      data := None;
      isReleased := false;
      releases := 0;
    }

    method Release()
      modifies this
      ensures isReleased && releases == old(releases) + 1 && data == old(data)
    {
      isReleased := true;
      releases := releases + 1;
    }
  }

  class HttpRequest {
    const httpMethod: string
    const url: string
    const body: Json
    const params: Json
    const user: Option<seq<Field>>
    const ip: Option<string>
    /** `request.connection?.remoteAddress` */
    const remoteAddress: Option<string>
    /** `request.session?.id` */
    const sessionId: Option<string>
    var headers: map<string, string>
    var auditContext: Option<AuditContext>
    var queryRunner: QueryRunner?

    constructor (httpMethod: string, url: string, body: Json, params: Json, user: Option<seq<Field>>,
                 ip: Option<string>, remoteAddress: Option<string>, sessionId: Option<string>,
                 headers: map<string, string>)
      ensures this.httpMethod == httpMethod && this.url == url && this.body == body && this.params == params
      ensures this.user == user && this.ip == ip && this.remoteAddress == remoteAddress
      ensures this.sessionId == sessionId && this.headers == headers
      ensures auditContext == None && queryRunner == null
    {
      this.httpMethod := httpMethod;
      this.url := url;
      this.body := body;
      this.params := params;
      this.user := user;
      this.ip := ip;
      this.remoteAddress := remoteAddress;
      this.sessionId := sessionId;
      this.headers := headers;
      auditContext := None;
      queryRunner := null;
    }
  }

  /** The response, reduced to the query runners whose release is registered on `finish`. */
  class HttpResponse {
    var finishListeners: seq<QueryRunner>

    constructor ()
      ensures finishListeners == []
    {
      finishListeners := [];
    }

    /** `res.on('finish', () => { if (!queryRunner.isReleased) queryRunner.release(); })` */
    method OnFinishRelease(qr: QueryRunner)
      modifies this
      ensures finishListeners == old(finishListeners) + [qr]
    {
      finishListeners := finishListeners + [qr];
    }

    /** Emitting `finish`: each listener releases its runner unless it is
        already released, so a runner goes back to the pool at most once. */
    method Finish()
      modifies set r | r in finishListeners
      ensures forall r :: r in finishListeners ==> r.isReleased && r.data == old(r.data)
      ensures forall r :: r in finishListeners ==> r.releases == old(r.releases) + (if old(r.isReleased) then 0 else 1)
    {
      var i := 0;
      while i < |finishListeners|
        invariant 0 <= i <= |finishListeners|
        invariant forall r :: r in finishListeners[..i] ==> r.isReleased && r.data == old(r.data)
        invariant forall r :: r in finishListeners[..i] ==> r.releases == old(r.releases) + (if old(r.isReleased) then 0 else 1)
        invariant forall r :: r in finishListeners && r !in finishListeners[..i] ==>
          r.isReleased == old(r.isReleased) && r.releases == old(r.releases) && r.data == old(r.data)
      {
        var qr := finishListeners[i];
        if !qr.isReleased {
          qr.Release();
        }
        assert finishListeners[..i + 1] == finishListeners[..i] + [qr];
        i := i + 1;
      }
      assert finishListeners[..i] == finishListeners;
    }
  }

  /** Express's `next`, reduced to how often it was called. */
  class NextFunction {
    var calls: nat

    constructor ()
      ensures calls == 0
    {
      calls := 0;
    }

    method Call()
      modifies this
      ensures calls == old(calls) + 1
    {
      calls := calls + 1;
    }
  }
}
