/** `AuditSubscriber`: the TypeORM entity hooks that stamp the actor onto an
    audited entity and append one audit record per insert, update, soft
    removal and removal. An entity snapshot is the ordered list of its own
    properties; a JavaScript object never holds one key twice, so writing a
    key the loop has not seen yet appends it. */
module EntityAuditing {
  import opened Wrappers
  import opened Text
  import opened JsonValues
  import opened Http
  import opened Redaction
  import opened AuditLogs

  /** The entity redactor's terms; unlike the request redactor's, they include `pin`. */
  const ENTITY_SENSITIVE_FIELDS: seq<string> :=
    ["password", "token", "secret", "apiKey", "creditCard", "ssn", "socialSecurityNumber", "pin"]

  /** Keys neither the redactor nor the diff ever copies. */
  predicate Skipped(key: string) {
    StartsWith(key, "_") || key == "constructor"
  }

  // ------------------------------------------------------------ redaction

  function RedactedField(f: Field): Field {
    Field(f.key, if IsSensitive(f.key, ENTITY_SENSITIVE_FIELDS) then Str(REDACTED) else f.value)
  }

  /** The object `sanitizeEntity` has built after visiting the entries `fs`. */
  function Sanitized(fs: seq<Field>): (r: seq<Field>)
    ensures |r| <= |fs|
    ensures forall i :: 0 <= i < |r| ==> !Skipped(r[i].key)
    ensures forall i :: 0 <= i < |r| && IsSensitive(r[i].key, ENTITY_SENSITIVE_FIELDS) ==> r[i].value == Str(REDACTED)
  {
    if fs == [] then []
    else
      var init := Sanitized(fs[..|fs| - 1]);
      var f := fs[|fs| - 1];
      if Skipped(f.key) then init else init + [RedactedField(f)]
  }

  /** `sanitizeEntity(entity)`: `null` for a missing entity, else the redacted copy. */
  function SanitizedEntity(entity: Option<seq<Field>>): (r: Json)
    ensures r == Null <==> entity.None?
    ensures entity.Some? ==> r.Obj? && |r.fields| <= |entity.value|
    ensures r.Obj? ==> forall i :: 0 <= i < |r.fields| ==>
      !Skipped(r.fields[i].key) &&
      (IsSensitive(r.fields[i].key, ENTITY_SENSITIVE_FIELDS) ==> r.fields[i].value == Str(REDACTED))
  {
    match entity
    case None => Null
    case Some(fs) => Obj(Sanitized(fs))
  }

  /** Reading a key of the redacted copy: skipped keys are gone, sensitive
      keys read as the marker, every other key reads as in the entity. */
  lemma {:induction false} SanitizedLookup(fs: seq<Field>, k: string)
    ensures HasKey(Sanitized(fs), k) <==> HasKey(fs, k) && !Skipped(k)
    ensures Lookup(Sanitized(fs), k) ==
      if Skipped(k) || !HasKey(fs, k) then Undefined
      else if IsSensitive(k, ENTITY_SENSITIVE_FIELDS) then Str(REDACTED)
      else Lookup(fs, k)
  {
    if fs != [] {
      var init, f := fs[..|fs| - 1], fs[|fs| - 1];
      assert fs == init + [f];
      SanitizedLookup(init, k);
      LookupAppend(init, f, k);
      HasKeyAppend(init, f, k);
      if !Skipped(f.key) {
        LookupAppend(Sanitized(init), RedactedField(f), k);
        HasKeyAppend(Sanitized(init), RedactedField(f), k);
      }
    }
  }

  /** A key is redacted whatever its letter case, as soon as it contains a term. */
  lemma RedactsByCaseInsensitiveSubstring(fs: seq<Field>, k: string, i: nat, at: nat)
    requires HasKey(fs, k) && !Skipped(k)
    requires i < |ENTITY_SENSITIVE_FIELDS| && at + |ENTITY_SENSITIVE_FIELDS[i]| <= |k|
    requires Lower(k[at..at + |ENTITY_SENSITIVE_FIELDS[i]|]) == Lower(ENTITY_SENSITIVE_FIELDS[i])
    ensures Lookup(Sanitized(fs), k) == Str(REDACTED)
  {
    SensitiveByTerm(k, ENTITY_SENSITIVE_FIELDS, i, at);
    SanitizedLookup(fs, k);
  }

  // ----------------------------------------------------------------- diff

  /** One entry of the diff: the raw old and new values. */
  function ChangeRecord(from: Json, to: Json): Json {
    Obj([Field("from", from), Field("to", to)])
  }

  /** The diff `getChanges` has built after visiting the keys `ks` of `newer`. */
  function ChangesOver(older: seq<Field>, newer: seq<Field>, ks: seq<string>): seq<Field> {
    if ks == [] then []
    else
      var init := ChangesOver(older, newer, ks[..|ks| - 1]);
      var k := ks[|ks| - 1];
      if Skipped(k) || Lookup(older, k) == Lookup(newer, k) then init
      else init + [Field(k, ChangeRecord(Lookup(older, k), Lookup(newer, k)))]
  }

  /** `getChanges(old, new)`: `null` without both snapshots or without a difference. */
  function Changes(older: Option<seq<Field>>, newer: Option<seq<Field>>): (r: Json)
    ensures r == Null || (r.Obj? && r.fields != [])
    ensures older.None? || newer.None? ==> r == Null
  {
    if older.None? || newer.None? then Null
    else
      var c := ChangesOver(older.value, newer.value, Keys(newer.value));
      if c == [] then Null else Obj(c)
  }

  /** The diff has an entry for a key exactly when the key was visited, is
      not skipped and its value changed; the entry holds the raw values. */
  lemma {:induction false} ChangesOverLookup(older: seq<Field>, newer: seq<Field>, ks: seq<string>, k: string)
    ensures HasKey(ChangesOver(older, newer, ks), k) <==>
      k in ks && !Skipped(k) && Lookup(older, k) != Lookup(newer, k)
    ensures Lookup(ChangesOver(older, newer, ks), k) ==
      if k in ks && !Skipped(k) && Lookup(older, k) != Lookup(newer, k)
      then ChangeRecord(Lookup(older, k), Lookup(newer, k)) else Undefined
  {
    if ks != [] {
      var init, last := ks[..|ks| - 1], ks[|ks| - 1];
      assert ks == init + [last];
      ChangesOverLookup(older, newer, init, k);
      var c := ChangesOver(older, newer, init);
      if !(Skipped(last) || Lookup(older, last) == Lookup(newer, last)) {
        var f := Field(last, ChangeRecord(Lookup(older, last), Lookup(newer, last)));
        LookupAppend(c, f, k);
        HasKeyAppend(c, f, k);
      }
    }
  }

  lemma KeysHasKey(fs: seq<Field>, k: string)
    ensures k in Keys(fs) <==> HasKey(fs, k)
  {
    if k in Keys(fs) {
      var i :| 0 <= i < |Keys(fs)| && Keys(fs)[i] == k;
      assert fs[i].key == k;
    }
  }

  /** `getChanges` exactly: both snapshots present, and an entry for every
      key of the new snapshot that is not skipped and whose value differs. */
  lemma ChangesExact(older: seq<Field>, newer: seq<Field>, k: string)
    ensures Changes(Some(older), Some(newer)).Obj? ==>
      (Prop(Changes(Some(older), Some(newer)), k) ==
        if HasKey(newer, k) && !Skipped(k) && Lookup(older, k) != Lookup(newer, k)
        then ChangeRecord(Lookup(older, k), Lookup(newer, k)) else Undefined)
    ensures Changes(Some(older), Some(newer)) == Null ==>
      !(HasKey(newer, k) && !Skipped(k) && Lookup(older, k) != Lookup(newer, k))
  {
    ChangesOverLookup(older, newer, Keys(newer), k);
    KeysHasKey(newer, k);
  }

  lemma {:induction false} ChangesOverSame(x: seq<Field>, ks: seq<string>)
    ensures ChangesOver(x, x, ks) == []
  {
    if ks != [] {
      ChangesOverSame(x, ks[..|ks| - 1]);
    }
  }

  /** Comparing a snapshot with itself gives `null`, as does a missing snapshot. */
  lemma ChangesOfSameIsNull(x: Option<seq<Field>>, y: Option<seq<Field>>)
    ensures Changes(x, x) == Null
    ensures x.None? || y.None? ==> Changes(x, y) == Null
  {
    if x.Some? {
      ChangesOverSame(x.value, Keys(x.value));
    }
  }

  /** The diff is not redacted: changing a password records both passwords
      in clear, although the new snapshot shows the marker. */
  lemma ChangesKeepRawSecrets()
    ensures var older, newer := [Field("password", Str("old-secret"))], [Field("password", Str("new-secret"))];
      && Changes(Some(older), Some(newer)) == Obj([Field("password", ChangeRecord(Str("old-secret"), Str("new-secret")))])
      && SanitizedEntity(Some(newer)) == Obj([Field("password", Str(REDACTED))])
  {
    var newer := [Field("password", Str("new-secret"))];
    assert Lower("password") == "password";
    SensitiveByTerm("password", ENTITY_SENSITIVE_FIELDS, 0, 0);
    assert Keys(newer) == ["password"];
    assert "password"[..1][0] == 'p' && "_"[0] == '_';
    assert Sanitized(newer) == Sanitized(newer[..0]) + [RedactedField(newer[0])];
  }

  // -------------------------------------------------------------- actor

  /** `extractUserId`: the runner's user id, else `'system'`. */
  function ExtractUserId(data: Option<AuditContext>): (u: string)
    ensures u != ""
    ensures u == "system" || (data.Some? && u == data.value.userId)
  {
    if data.Some? && data.value.userId != "" then data.value.userId else "system"
  }

  /** `extractIpAddress`: the runner's address, else `null`. */
  function ExtractIpAddress(data: Option<AuditContext>): (ip: Option<string>)
    ensures ip.Some? ==> ip.value != "" && data.Some? && ip == data.value.ipAddress
  {
    if data.Some? && data.value.ipAddress.Some? && data.value.ipAddress.value != "" then data.value.ipAddress else None
  }

  /** `extractUserAgent`: the runner's user agent, else `null`. */
  function ExtractUserAgent(data: Option<AuditContext>): (ua: Option<string>)
    ensures ua.Some? ==> ua.value != "" && data.Some? && ua.value == data.value.userAgent
  {
    if data.Some? && data.value.userAgent != "" then Some(data.value.userAgent) else None
  }

  /** The runner context the middleware attaches is always read back in full. */
  lemma ExtractsMiddlewareContext(ctx: AuditContext)
    requires ctx.userId != "" && ctx.userAgent != "" && ctx.ipAddress.Some? && ctx.ipAddress.value != ""
    ensures ExtractUserId(Some(ctx)) == ctx.userId
    ensures ExtractIpAddress(Some(ctx)) == ctx.ipAddress
    ensures ExtractUserAgent(Some(ctx)) == Some(ctx.userAgent)
    ensures ExtractUserId(None) == "system" && ExtractIpAddress(None) == None && ExtractUserAgent(None) == None
  {
  }

  // --------------------------------------------------------------- hooks

  datatype Hook = Insert | Update | SoftRemove | Remove

  function OperationOf(h: Hook): string {
    match h
    case Insert => "INSERT"
    case Update => "UPDATE"
    case SoftRemove => "SOFT_DELETE"
    case Remove => "DELETE"
  }

  /** The entity's properties after the hook stamped the actor onto it. */
  function Stamped(h: Hook, props: seq<Field>, data: Option<AuditContext>): seq<Field> {
    var uid, ip, ua := Str(ExtractUserId(data)), StringOrNull(ExtractIpAddress(data)), StringOrNull(ExtractUserAgent(data));
    match h
    case Insert => SetField(SetField(SetField(props, "createdBy", uid), "ipAddress", ip), "userAgent", ua)
    case Update => SetField(SetField(SetField(props, "updatedBy", uid), "ipAddress", ip), "userAgent", ua)
    case SoftRemove => SetField(props, "deletedBy", uid)
    case Remove => props
  }

  /** What each hook writes onto the entity, and that it writes nothing else. */
  lemma StampedLookup(h: Hook, props: seq<Field>, data: Option<AuditContext>, k: string)
    ensures Lookup(Stamped(h, props, data), k) ==
      if h == Insert && k == "createdBy" then Str(ExtractUserId(data))
      else if h == Update && k == "updatedBy" then Str(ExtractUserId(data))
      else if h == SoftRemove && k == "deletedBy" then Str(ExtractUserId(data))
      else if h in {Insert, Update} && k == "ipAddress" then StringOrNull(ExtractIpAddress(data))
      else if h in {Insert, Update} && k == "userAgent" then StringOrNull(ExtractUserAgent(data))
      else Lookup(props, k)
  {
    var uid, ip, ua := Str(ExtractUserId(data)), StringOrNull(ExtractIpAddress(data)), StringOrNull(ExtractUserAgent(data));
    match h
    case Insert =>
      LookupSetField(SetField(SetField(props, "createdBy", uid), "ipAddress", ip), "userAgent", ua, k);
      LookupSetField(SetField(props, "createdBy", uid), "ipAddress", ip, k);
      LookupSetField(props, "createdBy", uid, k);
    case Update =>
      LookupSetField(SetField(SetField(props, "updatedBy", uid), "ipAddress", ip), "userAgent", ua, k);
      LookupSetField(SetField(props, "updatedBy", uid), "ipAddress", ip, k);
      LookupSetField(props, "updatedBy", uid, k);
    case SoftRemove =>
      LookupSetField(props, "deletedBy", uid, k);
    case Remove =>
  }

  /** The record a hook hands to `createAuditLog`, built from the entity as
      stamped (`props` are the properties before stamping). */
  function HookEntry(h: Hook, tableName: string, props: seq<Field>, databaseEntity: Option<seq<Field>>,
                     data: Option<AuditContext>): AuditEntry {
    var stamped := Stamped(h, props, data);
    AuditEntry(
      OperationOf(h),
      tableName,
      Lookup(stamped, "id"),
      ExtractUserId(data),
      ExtractIpAddress(data),
      if h in {Insert, Update} then ExtractUserAgent(data) else None,
      if h == Update then Changes(databaseEntity, Some(stamped)) else Undefined,
      match h
      case Insert => Undefined
      case Update => SanitizedEntity(databaseEntity)
      case _ => SanitizedEntity(Some(stamped)),
      if h in {Insert, Update} then SanitizedEntity(Some(stamped)) else Undefined,
      Some("success"),
      None, None, None, None)
  }

  /** The record shape per hook: its own label, `'success'`, the actor, the
      snapshots each hook records, and a diff only on update. */
  lemma HookEntryShape(h: Hook, tableName: string, props: seq<Field>, databaseEntity: Option<seq<Field>>,
                       data: Option<AuditContext>)
    ensures var e := HookEntry(h, tableName, props, databaseEntity, data);
      && e.status == Some("success") && e.errorMessage.None?
      && e.entityType == tableName && e.userId == ExtractUserId(data)
      && e.operation in {"INSERT", "UPDATE", "SOFT_DELETE", "DELETE"}
      && (e.operation == "UPDATE" <==> h == Update)
      && (h != Update ==> e.changes == Undefined)
      && (h == Insert <==> e.oldValues == Undefined)
      && (h in {Insert, Update} <==> e.newValues.Obj?)
      && e.userAgent == (if h in {Insert, Update} then ExtractUserAgent(data) else None)
      && (h == Update && databaseEntity.None? ==> e.oldValues == Null && e.changes == Null)
      && e.entityId == Lookup(props, "id")
  {
    StampedLookup(h, props, data, "id");
  }

  /** An update stamps the actor before diffing, so a new updater shows up
      in the recorded diff. */
  lemma UpdateDiffShowsNewUpdater(tableName: string, props: seq<Field>, older: seq<Field>, data: Option<AuditContext>)
    requires Lookup(older, "updatedBy") != Str(ExtractUserId(data))
    ensures Prop(HookEntry(Update, tableName, props, Some(older), data).changes, "updatedBy") ==
      ChangeRecord(Lookup(older, "updatedBy"), Str(ExtractUserId(data)))
  {
    var stamped := Stamped(Update, props, data);
    StampedLookup(Update, props, data, "updatedBy");
    assert HasKey(stamped, "updatedBy");
    assert "updatedBy"[..1][0] == 'u' && "_"[0] == '_';
    assert !Skipped("updatedBy");
    KeysHasKey(stamped, "updatedBy");
    ChangesOverLookup(older, stamped, Keys(stamped), "updatedBy");
    var c := ChangesOver(older, stamped, Keys(stamped));
    assert HasKey(c, "updatedBy");
    assert Changes(Some(older), Some(stamped)) == Obj(c);
    assert HookEntry(Update, tableName, props, Some(older), data).changes == Obj(c);
  }

  /** A mutated entity, updated in place by the hooks. */
  class EntityInstance {
    var props: seq<Field>

    constructor (props: seq<Field>)
      ensures this.props == props
    {
      this.props := props;
    }

    /** `entity[k] = v` */
    method Assign(k: string, v: Json)
      modifies this
      ensures props == SetField(old(props), k, v)
    {
      props := SetField(props, k, v);
    }
  }

  /** What a hook reads from its event: the entity (possibly absent), the
      stored row before an update, the table name and the runner's context. */
  datatype MutationEvent = MutationEvent(
    entity: EntityInstance?,
    databaseEntity: Option<seq<Field>>,
    tableName: string,
    runnerData: Option<AuditContext>)

  /** `sanitizeEntity`: the loop over `Object.entries`. */
  method SanitizeEntity(entity: Option<seq<Field>>) returns (r: Json)
    ensures r == SanitizedEntity(entity)
  {
    if entity.None? {
      return Null;
    }
    var fs := entity.value;
    var sanitized: seq<Field> := [];
    for i := 0 to |fs|
      invariant sanitized == Sanitized(fs[..i])
    {
      assert fs[..i + 1][..i] == fs[..i];
      var key, value := fs[i].key, fs[i].value;
      if Skipped(key) {
        continue;
      }
      if IsSensitive(key, ENTITY_SENSITIVE_FIELDS) {
        sanitized := sanitized + [Field(key, Str(REDACTED))];
      } else {
        sanitized := sanitized + [Field(key, value)];
      }
    }
    assert fs[..|fs|] == fs;
    r := Obj(sanitized);
  }

  /** `getChanges`: the loop over `Object.keys(newEntity)`. */
  method GetChanges(older: Option<seq<Field>>, newer: Option<seq<Field>>) returns (r: Json)
    ensures r == Changes(older, newer)
  {
    if older.None? || newer.None? {
      return Null;
    }
    var o, n := older.value, newer.value;
    var keys := Keys(n);
    var changes: seq<Field> := [];
    for i := 0 to |keys|
      invariant changes == ChangesOver(o, n, keys[..i])
    {
      assert keys[..i + 1][..i] == keys[..i];
      var key := keys[i];
      if Skipped(key) {
        continue;
      }
      if Lookup(o, key) != Lookup(n, key) {
        changes := changes + [Field(key, ChangeRecord(Lookup(o, key), Lookup(n, key)))];
      }
    }
    assert keys[..|keys|] == keys;
    r := if |changes| > 0 then Obj(changes) else Null;
  }

  class AuditSubscriber {
    const dataSource: AuditLogService

    constructor (dataSource: AuditLogService)
      ensures this.dataSource == dataSource
    {
      this.dataSource := dataSource;
    }

    /** `createAuditLog`: stamp the write time and save; a failed save
        (`saveOk` false) is logged and swallowed, leaving the store as it was. */
    method CreateAuditLog(entry: AuditEntry, now: int, saveOk: bool)
      requires dataSource.Valid()
      modifies dataSource
      ensures dataSource.Valid()
      ensures dataSource.records == old(dataSource.records) + (if saveOk then [AuditLog(old(dataSource.nextId), now, entry)] else [])
      ensures dataSource.nextId == old(dataSource.nextId) + (if saveOk then 1 else 0)
    {
      if saveOk {
        var _ := dataSource.Create(entry, now);
      }
    }

    /** `afterInsert` */
    method AfterInsert(event: MutationEvent, now: int, saveOk: bool)
      requires dataSource.Valid()
      modifies dataSource, event.entity
      ensures dataSource.Valid()
      ensures event.entity == null ==> dataSource.records == old(dataSource.records) && dataSource.nextId == old(dataSource.nextId)
      ensures event.entity != null ==>
        && event.entity.props == Stamped(Insert, old(event.entity.props), event.runnerData)
        && dataSource.records == old(dataSource.records) +
             (if saveOk then [AuditLog(old(dataSource.nextId), now,
                HookEntry(Insert, event.tableName, old(event.entity.props), event.databaseEntity, event.runnerData))] else [])
        && dataSource.nextId == old(dataSource.nextId) + (if saveOk then 1 else 0)
    {
      if event.entity == null {
        return;
      }
      var userId := ExtractUserId(event.runnerData);
      var ipAddress := ExtractIpAddress(event.runnerData);
      var userAgent := ExtractUserAgent(event.runnerData);
      event.entity.Assign("createdBy", Str(userId));
      event.entity.Assign("ipAddress", StringOrNull(ipAddress));
      event.entity.Assign("userAgent", StringOrNull(userAgent));
      var newValues := SanitizeEntity(Some(event.entity.props));
      CreateAuditLog(AuditEntry("INSERT", event.tableName, Lookup(event.entity.props, "id"), userId, ipAddress,
                                userAgent, Undefined, Undefined, newValues, Some("success"), None, None, None, None),
                     now, saveOk);
    }

    /** `afterUpdate`: the diff is taken against the entity as stamped. */
    method AfterUpdate(event: MutationEvent, now: int, saveOk: bool)
      requires dataSource.Valid()
      modifies dataSource, event.entity
      ensures dataSource.Valid()
      ensures event.entity == null ==> dataSource.records == old(dataSource.records) && dataSource.nextId == old(dataSource.nextId)
      ensures event.entity != null ==>
        && event.entity.props == Stamped(Update, old(event.entity.props), event.runnerData)
        && dataSource.records == old(dataSource.records) +
             (if saveOk then [AuditLog(old(dataSource.nextId), now,
                HookEntry(Update, event.tableName, old(event.entity.props), event.databaseEntity, event.runnerData))] else [])
        && dataSource.nextId == old(dataSource.nextId) + (if saveOk then 1 else 0)
    {
      if event.entity == null {
        return;
      }
      var userId := ExtractUserId(event.runnerData);
      var ipAddress := ExtractIpAddress(event.runnerData);
      var userAgent := ExtractUserAgent(event.runnerData);
      event.entity.Assign("updatedBy", Str(userId));
      event.entity.Assign("ipAddress", StringOrNull(ipAddress));
      event.entity.Assign("userAgent", StringOrNull(userAgent));
      var oldValues := SanitizeEntity(event.databaseEntity);
      var newValues := SanitizeEntity(Some(event.entity.props));
      var changes := GetChanges(event.databaseEntity, Some(event.entity.props));
      CreateAuditLog(AuditEntry("UPDATE", event.tableName, Lookup(event.entity.props, "id"), userId, ipAddress,
                                userAgent, changes, oldValues, newValues, Some("success"), None, None, None, None),
                     now, saveOk);
    }

    /** `afterSoftRemove`: only `deletedBy` is stamped; no user agent is recorded. */
    method AfterSoftRemove(event: MutationEvent, now: int, saveOk: bool)
      requires dataSource.Valid()
      modifies dataSource, event.entity
      ensures dataSource.Valid()
      ensures event.entity == null ==> dataSource.records == old(dataSource.records) && dataSource.nextId == old(dataSource.nextId)
      ensures event.entity != null ==>
        && event.entity.props == Stamped(SoftRemove, old(event.entity.props), event.runnerData)
        && dataSource.records == old(dataSource.records) +
             (if saveOk then [AuditLog(old(dataSource.nextId), now,
                HookEntry(SoftRemove, event.tableName, old(event.entity.props), event.databaseEntity, event.runnerData))] else [])
        && dataSource.nextId == old(dataSource.nextId) + (if saveOk then 1 else 0)
    {
      if event.entity == null {
        return;
      }
      var userId := ExtractUserId(event.runnerData);
      var ipAddress := ExtractIpAddress(event.runnerData);
      event.entity.Assign("deletedBy", Str(userId));
      var oldValues := SanitizeEntity(Some(event.entity.props));
      CreateAuditLog(AuditEntry("SOFT_DELETE", event.tableName, Lookup(event.entity.props, "id"), userId, ipAddress,
                                None, Undefined, oldValues, Undefined, Some("success"), None, None, None, None),
                     now, saveOk);
    }

    /** `afterRemove`: the entity is left untouched. */
    method AfterRemove(event: MutationEvent, now: int, saveOk: bool)
      requires dataSource.Valid()
      modifies dataSource
      ensures dataSource.Valid()
      ensures event.entity == null ==> dataSource.records == old(dataSource.records) && dataSource.nextId == old(dataSource.nextId)
      ensures event.entity != null ==>
        && dataSource.records == old(dataSource.records) +
             (if saveOk then [AuditLog(old(dataSource.nextId), now,
                HookEntry(Remove, event.tableName, event.entity.props, event.databaseEntity, event.runnerData))] else [])
        && dataSource.nextId == old(dataSource.nextId) + (if saveOk then 1 else 0)
    {
      if event.entity == null {
        return;
      }
      var userId := ExtractUserId(event.runnerData);
      var ipAddress := ExtractIpAddress(event.runnerData);
      var oldValues := SanitizeEntity(Some(event.entity.props));
      CreateAuditLog(AuditEntry("DELETE", event.tableName, Lookup(event.entity.props, "id"), userId, ipAddress,
                                None, Undefined, oldValues, Undefined, Some("success"), None, None, None, None),
                     now, saveOk);
    }
  }
}
