/** `AuditInterceptor`: the request-level audit trail. It rebuilds the actor
    context on the request, then records one row per handled request (when
    the audit policy asks for it) and one row per failed request (always). */
module RequestAuditing {
  import opened Wrappers
  import opened Text
  import opened Hex
  import opened JsonValues
  import opened Http
  import opened Redaction
  import opened AuditLogs
  import RequestContextMiddleware

  // ---------------------------------------------------------------- policy

  const EXCLUDED_PATHS: seq<string> := ["/health", "/metrics", "/favicon.ico"]
  const EXCLUDED_METHODS: seq<string> := ["GET"]

  /** `shouldAudit(method, url)`; `auditGetRequests` is the
      `AUDIT_GET_REQUESTS` environment variable. */
  function ShouldAudit(httpMethod: string, url: string, auditGetRequests: Option<string>): (b: bool)
    ensures b <==> ((forall p :: p in EXCLUDED_PATHS ==> !StartsWith(url, p))
                    && (httpMethod == "GET" ==> auditGetRequests == Some("true")))
  {
    if exists i :: 0 <= i < |EXCLUDED_PATHS| && StartsWith(url, EXCLUDED_PATHS[i]) then false
    else if auditGetRequests != Some("true") && httpMethod in EXCLUDED_METHODS then false
    else true
  }

  /** The exclusion is a bare string prefix, not a path segment: `/healthz`
      and `/metrics-export` are never audited, GETs are skipped by default,
      and writes to `/patients…` are always audited. */
  lemma ShouldAuditPrefixes(httpMethod: string, rest: string, flag: Option<string>)
    ensures !ShouldAudit(httpMethod, "/health" + rest, flag)
    ensures !ShouldAudit(httpMethod, "/metrics" + rest, flag)
    ensures !ShouldAudit(httpMethod, "/favicon.ico" + rest, flag)
    ensures !ShouldAudit("GET", "/patients" + rest, None)
    ensures httpMethod != "GET" ==> ShouldAudit(httpMethod, "/patients" + rest, flag)
  {
    assert EXCLUDED_PATHS[0] == "/health" && EXCLUDED_PATHS[1] == "/metrics" && EXCLUDED_PATHS[2] == "/favicon.ico";
    assert StartsWith("/health" + rest, EXCLUDED_PATHS[0]) by {
      assert ("/health" + rest)[..|"/health"|] == "/health";
    }
    assert StartsWith("/metrics" + rest, EXCLUDED_PATHS[1]) by {
      assert ("/metrics" + rest)[..|"/metrics"|] == "/metrics";
    }
    assert StartsWith("/favicon.ico" + rest, EXCLUDED_PATHS[2]) by {
      assert ("/favicon.ico" + rest)[..|"/favicon.ico"|] == "/favicon.ico";
    }
    var url := "/patients" + rest;
    assert url[1] == 'p';
    NotPrefixAt(url, "/health", 1);
    NotPrefixAt(url, "/metrics", 1);
    NotPrefixAt(url, "/favicon.ico", 1);
  }

  /** One differing character rules a prefix out. */
  lemma NotPrefixAt(s: string, p: string, j: nat)
    requires j < |p| && j < |s| && s[j] != p[j]
    ensures !StartsWith(s, p)
  {
  }

  // -------------------------------------------------------------- labels

  /** `url.split('?')[0]` */
  function PathWithoutQuery(url: string): (p: string)
    ensures StartsWith(url, p) && '?' !in p
    ensures |p| == |url| || url[|p|] == '?'
  {
    SplitFirstPart(url, '?');
    Split(url, '?')[0]
  }

  /** The `operation` column of a request row: `${method}_${path}`. */
  function OperationLabel(httpMethod: string, url: string): (op: string)
    ensures op == httpMethod + "_" + PathWithoutQuery(url)
    ensures '?' !in op[|httpMethod| + 1..]
  {
    var op := httpMethod + "_" + PathWithoutQuery(url);
    assert op[|httpMethod| + 1..] == PathWithoutQuery(url);
    op
  }

  /** `.filter(Boolean)` on strings. */
  function NonEmpty(ps: seq<string>): (r: seq<string>)
    ensures forall x :: x in r <==> x in ps && x != ""
    ensures |ps| > 0 && ps[0] != "" ==> |r| > 0 && r[0] == ps[0]
  {
    if ps == [] then [] else (if ps[0] != "" then [ps[0]] else []) + NonEmpty(ps[1..])
  }

  /** `extractEntityType(url)`: the first non-empty `/`-separated part, else `'unknown'`. */
  function ExtractEntityType(url: string): (t: string)
    ensures t != "" && (t == "unknown" || '/' !in t)
  {
    var parts := NonEmpty(Split(url, '/'));
    SplitPartsFree(url, '/');
    if |parts| > 0 then
      assert parts[0] in parts;
      parts[0]
    else "unknown"
  }

  /** The filter keeps order: filtering a concatenation concatenates the filtered parts. */
  lemma {:induction false} NonEmptyAppend(a: seq<string>, b: seq<string>)
    ensures NonEmpty(a + b) == NonEmpty(a) + NonEmpty(b)
  {
    if a == [] {
      assert a + b == b;
    } else {
      assert (a + b)[1..] == a[1..] + b;
      NonEmptyAppend(a[1..], b);
    }
  }

  /** The filter drops every empty string and keeps every other one as often as it occurs. */
  lemma {:induction false} NonEmptyCounts(ps: seq<string>)
    ensures multiset(NonEmpty(ps)) == multiset(ps)["" := 0]
  {
    if ps != [] {
      assert ps == [ps[0]] + ps[1..];
      NonEmptyCounts(ps[1..]);
    }
  }

  /** Nothing survives the filter of a run of empty strings. */
  lemma {:induction false} NonEmptyOfEmpties(ps: seq<string>)
    requires forall j :: 0 <= j < |ps| ==> ps[j] == ""
    ensures NonEmpty(ps) == []
  {
    if ps != [] {
      NonEmptyOfEmpties(ps[1..]);
    }
  }

  /** The first element kept is the first non-empty one. */
  lemma NonEmptyFirst(ps: seq<string>, k: int)
    requires 0 <= k < |ps| && ps[k] != ""
    requires forall j :: 0 <= j < k ==> ps[j] == ""
    ensures |NonEmpty(ps)| > 0 && NonEmpty(ps)[0] == ps[k]
  {
    assert ps == ps[..k] + ps[k..];
    NonEmptyAppend(ps[..k], ps[k..]);
    NonEmptyOfEmpties(ps[..k]);
  }

  /** Reference reading of the entity type: skip leading slashes and take
      everything up to the next slash. */
  function FirstSegment(s: string): string {
    if s == [] then ""
    else if s[0] == '/' then FirstSegment(s[1..])
    else UpToSlash(s)
  }

  function UpToSlash(s: string): string {
    if s == [] || s[0] == '/' then "" else [s[0]] + UpToSlash(s[1..])
  }

  lemma {:induction false} SplitHeadIsUpToSlash(s: string)
    ensures Split(s, '/')[0] == UpToSlash(s)
  {
    if s != [] && s[0] != '/' {
      SplitHeadIsUpToSlash(s[1..]);
    }
  }

  lemma {:induction false} NonEmptySplitHead(s: string)
    ensures var parts := NonEmpty(Split(s, '/'));
      FirstSegment(s) == (if |parts| > 0 then parts[0] else "")
  {
    if s != [] {
      if s[0] == '/' {
        assert Split(s, '/') == [""] + Split(s[1..], '/');
        assert NonEmpty(Split(s, '/')) == NonEmpty(Split(s[1..], '/')) by {
          assert ([""] + Split(s[1..], '/'))[1..] == Split(s[1..], '/');
        }
        NonEmptySplitHead(s[1..]);
      } else {
        SplitHeadIsUpToSlash(s);
        var parts := Split(s, '/');
        assert parts[0] == [s[0]] + Split(s[1..], '/')[0];
      }
    }
  }

  /** The entity type is the first path segment of the url, `'unknown'` for a bare `/`. */
  lemma EntityTypeIsFirstSegment(url: string)
    ensures ExtractEntityType(url) == if FirstSegment(url) == "" then "unknown" else FirstSegment(url)
  {
    NonEmptySplitHead(url);
  }

  // ----------------------------------------------------------- entity id

  const UUID_LENGTH: nat := 36

  predicate IsHexChar(c: char) {
    HexValue(c) >= 0
  }

  /** `/[0-9a-f]{8}-[0-9a-f]{4}-[0-9a-f]{4}-[0-9a-f]{4}-[0-9a-f]{12}/i` matches at `i`. */
  predicate IsUuidAt(s: string, i: nat) {
    i + UUID_LENGTH <= |s| &&
    forall k :: i <= k < i + UUID_LENGTH ==>
      if k - i in {8, 13, 18, 23} then s[k] == '-' else IsHexChar(s[k])
  }

  /** The leftmost match at or after `i`, as `url.match` finds it. */
  function FirstUuidFrom(s: string, i: nat): (r: Option<nat>)
    requires i <= |s|
    ensures r.Some? ==> i <= r.value && IsUuidAt(s, r.value)
    ensures forall j :: i <= j <= |s| && (r.None? || j < r.value) ==> !IsUuidAt(s, j)
    decreases |s| - i
  {
    if i + UUID_LENGTH > |s| then None
    else if IsUuidAt(s, i) then Some(i)
    else FirstUuidFrom(s, i + 1)
  }

  /** `extractEntityId(url, response)`: the first UUID in the url, else a
      truthy `response.id`, else `undefined`. */
  function ExtractEntityId(url: string, response: Json): (id: Json)
    ensures (exists i :: 0 <= i <= |url| && IsUuidAt(url, i)) ==>
      exists i :: 0 <= i <= |url| && IsUuidAt(url, i) && id == Str(url[i..i + UUID_LENGTH])
        && forall j :: 0 <= j < i ==> !IsUuidAt(url, j)
    ensures (forall i :: 0 <= i <= |url| ==> !IsUuidAt(url, i)) ==>
      id == if Truthy(Prop(response, "id")) then Prop(response, "id") else Undefined
  {
    match FirstUuidFrom(url, 0)
    case Some(i) => Str(url[i..i + UUID_LENGTH])
    case None => if Truthy(Prop(response, "id")) then Prop(response, "id") else Undefined
  }

  // ------------------------------------------------------------ redaction

  /** The request redactor's terms: the entity list without `pin`. */
  const REQUEST_SENSITIVE_FIELDS: seq<string> :=
    ["password", "token", "secret", "apiKey", "creditCard", "ssn", "socialSecurityNumber"]

  /** The inner `sanitize(obj)`: primitives unchanged, arrays element-wise,
      objects key by key with sensitive keys redacted and object values
      sanitized in turn. */
  function Redacted(v: Json): (r: Json)
    ensures v.Arr? <==> r.Arr?
    ensures v.Arr? ==> |r.items| == |v.items|
    ensures v.Obj? <==> r.Obj?
    ensures v.Obj? ==> Keys(r.fields) == Keys(v.fields)
    ensures !v.Arr? && !v.Obj? ==> r == v
    decreases v
  {
    match v
    case Arr(items) => Arr(seq(|items|, i requires 0 <= i < |items| => Redacted(items[i])))
    case Obj(fs) => Obj(seq(|fs|, i requires 0 <= i < |fs| => RedactedEntry(fs[i])))
    case _ => v
  }

  /** One `[key, value]` entry of the object loop. */
  function RedactedEntry(f: Field): (g: Field)
    ensures g.key == f.key
    decreases f
  {
    Field(f.key,
      if IsSensitive(f.key, REQUEST_SENSITIVE_FIELDS) then Str(REDACTED)
      else if IsObjectType(f.value) then Redacted(f.value)
      else f.value)
  }

  /** `sanitizeData(data)`: `null` for a falsy value. */
  function SanitizedData(data: Json): (r: Json)
    ensures Clean(r)
    ensures r == Null <==> !Truthy(data)
    ensures Truthy(data) ==> r == Redacted(data)
  {
    if Truthy(data) then RedactedIsClean(data); Redacted(data) else Null
  }

  /** No sensitive key at any depth carries anything but the marker. */
  predicate Clean(v: Json)
    decreases v
  {
    match v
    case Arr(items) => forall i :: 0 <= i < |items| ==> Clean(items[i])
    case Obj(fs) => forall i :: 0 <= i < |fs| ==> CleanEntry(fs[i])
    case _ => true
  }

  predicate CleanEntry(f: Field)
    decreases f
  {
    if IsSensitive(f.key, REQUEST_SENSITIVE_FIELDS) then f.value == Str(REDACTED) else Clean(f.value)
  }

  /** Whatever the request carried, the recorded tree holds no secret at any depth. */
  lemma {:induction false} RedactedIsClean(v: Json)
    ensures Clean(Redacted(v))
    decreases v
  {
    match v
    case Arr(items) =>
      forall i | 0 <= i < |items|
        ensures Clean(Redacted(v).items[i])
      {
        RedactedIsClean(items[i]);
      }
    case Obj(fs) =>
      forall i | 0 <= i < |fs|
        ensures CleanEntry(Redacted(v).fields[i])
      {
        if !IsSensitive(fs[i].key, REQUEST_SENSITIVE_FIELDS) && IsObjectType(fs[i].value) {
          RedactedIsClean(fs[i].value);
        }
      }
    case _ =>
  }

  /** A tree without secrets goes through the redactor unchanged. */
  lemma {:induction false} RedactedKeepsClean(v: Json)
    requires Clean(v)
    ensures Redacted(v) == v
    decreases v
  {
    match v
    case Arr(items) =>
      forall i | 0 <= i < |items|
        ensures Redacted(items[i]) == items[i]
      {
        RedactedKeepsClean(items[i]);
      }
      assert Redacted(v).items == items;
    case Obj(fs) =>
      forall i | 0 <= i < |fs|
        ensures RedactedEntry(fs[i]) == fs[i]
      {
        assert CleanEntry(fs[i]);
        if !IsSensitive(fs[i].key, REQUEST_SENSITIVE_FIELDS) && IsObjectType(fs[i].value) {
          RedactedKeepsClean(fs[i].value);
        }
      }
      assert Redacted(v).fields == fs;
    case _ =>
  }

  /** The redactor is idempotent, and its fixed points are exactly the clean trees. */
  lemma RedactedIdempotent(v: Json)
    ensures Redacted(Redacted(v)) == Redacted(v)
    ensures Redacted(v) == v <==> Clean(v)
  {
    RedactedIsClean(v);
    RedactedKeepsClean(Redacted(v));
    if Clean(v) {
      RedactedKeepsClean(v);
    }
  }

  /** A field whose name merely contains `pin` (such as `pinCode`) is not
      redacted on this path, unlike on the entity path. */
  lemma PinIsNotRedacted(value: string)
    ensures Redacted(Obj([Field("pin", Str(value))])) == Obj([Field("pin", Str(value))])
  {
    var k := "pin";
    if IsSensitive(k, REQUEST_SENSITIVE_FIELDS) {
      var i :| 0 <= i < |REQUEST_SENSITIVE_FIELDS| && Contains(Lower(k), Lower(REQUEST_SENSITIVE_FIELDS[i]));
      assert Lower(k) == "pin";
      ContainsShorter(Lower(k), Lower(REQUEST_SENSITIVE_FIELDS[i]), i);
    }
    assert Redacted(Obj([Field("pin", Str(value))])).fields == [Field("pin", Str(value))];
  }

  /** `"pin"` contains none of the request terms. */
  lemma ContainsShorter(s: string, sub: string, i: nat)
    requires s == "pin" && i < |REQUEST_SENSITIVE_FIELDS| && sub == Lower(REQUEST_SENSITIVE_FIELDS[i])
    ensures !Contains(s, sub)
  {
    if i == 5 {
      assert sub == "ssn";
      NotPrefixAt(s, sub, 0);
      ContainsLonger(s[1..], sub);
    } else {
      assert |sub| > 3;
      ContainsLonger(s, sub);
    }
  }

  lemma {:induction false} ContainsLonger(s: string, sub: string)
    requires |sub| > |s|
    ensures !Contains(s, sub)
  {
    if |s| > 0 {
      ContainsLonger(s[1..], sub);
    }
  }

  /** `sanitize` as a loop over the array or the object's entries. */
  method SanitizeTree(v: Json) returns (r: Json)
    ensures r == Redacted(v)
    decreases v
  {
    match v {
      case Arr(items) =>
        var out: seq<Json> := [];
        for i := 0 to |items|
          invariant |out| == i && forall j :: 0 <= j < i ==> out[j] == Redacted(items[j])
        {
          var x := SanitizeTree(items[i]);
          out := out + [x];
        }
        r := Arr(out);
      case Obj(fs) =>
        var sanitized: seq<Field> := [];
        for i := 0 to |fs|
          invariant |sanitized| == i && forall j :: 0 <= j < i ==> sanitized[j] == RedactedEntry(fs[j])
        {
          var key, value := fs[i].key, fs[i].value;
          if IsSensitive(key, REQUEST_SENSITIVE_FIELDS) {
            sanitized := sanitized + [Field(key, Str(REDACTED))];
          } else if IsObjectType(value) {
            var x := SanitizeTree(value);
            sanitized := sanitized + [Field(key, x)];
          } else {
            sanitized := sanitized + [Field(key, value)];
          }
        }
        r := Obj(sanitized);
      case _ =>
        r := v;
    }
  }

  /** `sanitizeData` */
  method SanitizeData(data: Json) returns (r: Json)
    ensures r == SanitizedData(data)
  {
    if !Truthy(data) {
      return Null;
    }
    r := SanitizeTree(data);
  }

  // -------------------------------------------------------------- records

  /** The context `intercept` writes onto the request: no `'unknown'`
      address fallback and no session id. */
  function InterceptorContext(user: Option<seq<Field>>, ip: Option<string>, remoteAddress: Option<string>,
                              headers: map<string, string>, generated: GeneratedId): (ctx: AuditContext)
    ensures ctx.userId != "" && ctx.userAgent != "" && ctx.requestId != ""
    ensures ctx.sessionId == None
    ensures ip.Some? && ip.value != "" ==> ctx.ipAddress == ip
    ensures ip.None? || ip == Some("") ==> ctx.ipAddress == remoteAddress
    ensures UserId(user).Some? && UserId(user).value != "" ==> ctx.userId == UserId(user).value
    ensures UserId(user).None? || UserId(user) == Some("") ==> ctx.userId == "anonymous"
    ensures USER_AGENT in headers && headers[USER_AGENT] != "" ==> ctx.userAgent == headers[USER_AGENT]
    ensures USER_AGENT !in headers || headers[USER_AGENT] == "" ==> ctx.userAgent == "unknown"
    ensures X_REQUEST_ID in headers && headers[X_REQUEST_ID] != "" ==> ctx.requestId == headers[X_REQUEST_ID]
    ensures X_REQUEST_ID !in headers || headers[X_REQUEST_ID] == "" ==> ctx.requestId == generated
  {
    AuditContext(
      OrElse(UserId(user), "anonymous"),
      OrOption(ip, remoteAddress),
      OrElse(Header(headers, USER_AGENT), "unknown"),
      OrElse(Header(headers, X_REQUEST_ID), generated),
      None)
  }

  /** Behind the middleware, the interceptor's context keeps the middleware's
      user, user agent and request id (the middleware wrote the id back into
      the headers), but drops the session id and the `'unknown'` address. */
  lemma InterceptorAgreesWithMiddleware(user: Option<seq<Field>>, ip: Option<string>, remoteAddress: Option<string>,
                                        headers: map<string, string>, sessionId: Option<string>,
                                        first: GeneratedId, second: GeneratedId)
    ensures var m := RequestContextMiddleware.CaptureContext(user, ip, remoteAddress, headers, sessionId, first);
      var c := InterceptorContext(user, ip, remoteAddress, headers[X_REQUEST_ID := m.requestId], second);
      && c.userId == m.userId && c.userAgent == m.userAgent && c.requestId == m.requestId
      && c.sessionId == None
      && (c.ipAddress == m.ipAddress || ((c.ipAddress.None? || c.ipAddress == Some("")) && m.ipAddress == Some("unknown")))
  {
    assert USER_AGENT != X_REQUEST_ID;
  }

  /** The row of a request the handler answered. */
  function SuccessEntry(httpMethod: string, url: string, body: Json, sessionId: Option<string>,
                        ctx: AuditContext, response: Json, executionTime: int): AuditEntry {
    AuditEntry(
      OperationLabel(httpMethod, url), ExtractEntityType(url), ExtractEntityId(url, response),
      ctx.userId, ctx.ipAddress, Some(ctx.userAgent),
      Undefined, Undefined, SanitizedData(if httpMethod == "POST" then body else response),
      Some("success"), None, Some(executionTime), Some(ctx.requestId), sessionId)
  }

  /** What the handler threw; `message` is `error.message`. */
  datatype HandlerError = HandlerError(message: Option<string>)

  /** The row of a request whose handler threw. */
  function ErrorEntry(httpMethod: string, url: string, sessionId: Option<string>, ctx: AuditContext,
                      error: HandlerError, executionTime: int): AuditEntry {
    AuditEntry(
      OperationLabel(httpMethod, url), ExtractEntityType(url), Undefined,
      ctx.userId, ctx.ipAddress, Some(ctx.userAgent),
      Undefined, Undefined, Undefined,
      Some("error"), Some(OrElse(error.message, "Unknown error")), Some(executionTime), Some(ctx.requestId), sessionId)
  }

  /** The two row shapes: a success row carries the redacted payload and the
      entity id, an error row the message (never empty) and neither. */
  lemma EntryShapes(httpMethod: string, url: string, body: Json, sessionId: Option<string>, ctx: AuditContext,
                    response: Json, error: HandlerError, executionTime: int)
    ensures var s := SuccessEntry(httpMethod, url, body, sessionId, ctx, response, executionTime);
      && s.status == Some("success") && s.errorMessage == None
      && s.newValues == SanitizedData(if httpMethod == "POST" then body else response)
      && Clean(s.newValues)
      && (httpMethod == "POST" && Truthy(body) ==> s.newValues == Redacted(body))
      && (httpMethod == "POST" && !Truthy(body) ==> s.newValues == Null)
      && (httpMethod != "POST" && Truthy(response) ==> s.newValues == Redacted(response))
      && (httpMethod != "POST" && !Truthy(response) ==> s.newValues == Null)
    ensures var e := ErrorEntry(httpMethod, url, sessionId, ctx, error, executionTime);
      && e.status == Some("error") && e.errorMessage.Some? && e.errorMessage.value != ""
      && (error.message.None? || error.message == Some("") ==> e.errorMessage == Some("Unknown error"))
      && e.newValues == Undefined && e.entityId == Undefined
      && e.operation == SuccessEntry(httpMethod, url, body, sessionId, ctx, response, executionTime).operation
  {
  }

  // ------------------------------------------------------------- emission

  /** How the handler finished. */
  datatype HandlerOutcome = Responded(response: Json) | Threw(error: HandlerError)

  /** What the returned observable delivers to the framework. */
  datatype Emission =
    | Next(value: Json)
    | Error(error: HandlerError)
    /** A `throwError` observable delivered as an ordinary value. */
    | NextErrorObservable(error: HandlerError)

  /** The error path as written: `catchError(async error => { ...; return
      throwError(() => error); })`. The async callback returns a promise,
      which `catchError` subscribes to as its replacement source; the promise
      resolves to the observable object, so that object is emitted as a
      value and the stream completes instead of failing. */
  function ErrorEmissionAsWritten(error: HandlerError): (e: Emission)
    ensures !e.Error?
  {
    NextErrorObservable(error)
  }

  /** The error path as intended: the original error is re-thrown. */
  function ErrorEmission(error: HandlerError): (e: Emission)
    ensures e.Error? && e.error == error
  {
    Error(error)
  }

  /** The written error path never re-throws, for any error. */
  lemma AsWrittenErrorIsNotRethrown(error: HandlerError)
    ensures ErrorEmissionAsWritten(error) != ErrorEmission(error)
    ensures ErrorEmissionAsWritten(error).NextErrorObservable?
  {
  }

  class AuditInterceptor {
    const auditLogService: AuditLogService

    constructor (auditLogService: AuditLogService)
      ensures this.auditLogService == auditLogService
    {
      this.auditLogService := auditLogService;
    }

    /** `intercept`: `startTime`/`endTime` are the two `Date.now()`
        readings, `now` the store's clock when the row is written,
        `generated` the id `generateRequestId` would return, `saveOk`
        whether the write succeeds (a failure is logged and swallowed). */
    method Intercept(request: HttpRequest, outcome: HandlerOutcome, startTime: int, endTime: int, now: int,
                     generated: GeneratedId, auditGetRequests: Option<string>, saveOk: bool)
      returns (emitted: Emission)
      requires auditLogService.Valid()
      modifies request, auditLogService
      ensures auditLogService.Valid()
      ensures var ctx := InterceptorContext(request.user, request.ip, request.remoteAddress, request.headers, generated);
        && request.auditContext == Some(ctx)
        && request.headers == old(request.headers) && request.queryRunner == old(request.queryRunner)
        && match outcome
           case Responded(response) =>
             && emitted == Next(response)
             && auditLogService.records == old(auditLogService.records) +
                  (if ShouldAudit(request.httpMethod, request.url, auditGetRequests) && saveOk
                   then [AuditLog(old(auditLogService.nextId), now,
                          SuccessEntry(request.httpMethod, request.url, request.body, request.sessionId, ctx,
                                       response, endTime - startTime))]
                   else [])
           case Threw(error) =>
             && emitted == ErrorEmission(error)
             && auditLogService.records == old(auditLogService.records) +
                  (if saveOk
                   then [AuditLog(old(auditLogService.nextId), now,
                          ErrorEntry(request.httpMethod, request.url, request.sessionId, ctx, error, endTime - startTime))]
                   else [])
    {
      var ctx := InterceptorContext(request.user, request.ip, request.remoteAddress, request.headers, generated);
      request.auditContext := Some(ctx);
      var executionTime := endTime - startTime;
      match outcome {
        case Responded(response) =>
          if ShouldAudit(request.httpMethod, request.url, auditGetRequests) && saveOk {
            var newValues := SanitizeData(if request.httpMethod == "POST" then request.body else response);
            var _ := auditLogService.Create(
              AuditEntry(OperationLabel(request.httpMethod, request.url), ExtractEntityType(request.url),
                         ExtractEntityId(request.url, response), ctx.userId, ctx.ipAddress, Some(ctx.userAgent),
                         Undefined, Undefined, newValues, Some("success"), None, Some(executionTime),
                         Some(ctx.requestId), request.sessionId),
              now);
          }
          emitted := Next(response);
        case Threw(error) =>
          if saveOk {
            var _ := auditLogService.Create(ErrorEntry(request.httpMethod, request.url, request.sessionId, ctx, error, executionTime), now);
          }
          emitted := ErrorEmission(error);
      }
    }
  }
}
