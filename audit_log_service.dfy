/** The audit trail: the `AuditLog` record (one row of `audit_logs`) and the
    service that appends, queries, summarises and purges the rows. The
    repository is an in-memory sequence of rows held by the service. */
module AuditLogs {
  import opened Wrappers
  import opened JsonValues

  /** What a caller hands to `create` (`CreateAuditLogDto`). The jsonb
      columns `changes`, `oldValues`, `newValues` and the nullable `entityId`
      hold `Undefined` or `Null` when they are empty. */
  datatype AuditEntry = AuditEntry(
    operation: string,
    entityType: string,
    entityId: Json,
    userId: string,
    ipAddress: Option<string>,
    userAgent: Option<string>,
    changes: Json,
    oldValues: Json,
    newValues: Json,
    status: Option<string>,
    errorMessage: Option<string>,
    executionTimeMs: Option<int>,
    requestId: Option<string>,
    sessionId: Option<string>)

  /** A stored row: the generated primary key, the write-time timestamp
      (milliseconds) and the caller's fields. */
  datatype AuditLog = AuditLog(id: nat, timestamp: int, entry: AuditEntry)

  /** The `status` column, whose default is `'success'`. */
  function Status(r: AuditLog): string {
    r.entry.status.GetOr("success")
  }

  const DEFAULT_LIMIT: nat := 100
  const DEFAULT_RETENTION_DAYS: int := 2555
  const MS_PER_DAY: int := 86400000

  // ---------------------------------------------------------------- queries

  /** The `where` clause of each finder. */
  datatype Query =
    | ByEntity(entityType: string, entityId: string)
    | ByUser(userId: string)
    | ByOperation(operation: string)
    | ByDateRange(start: int, end: int)

  predicate Matches(r: AuditLog, q: Query) {
    match q
    case ByEntity(t, id) => r.entry.entityType == t && r.entry.entityId == Str(id)
    case ByUser(u) => r.entry.userId == u
    case ByOperation(op) => r.entry.operation == op
    case ByDateRange(start, end) => start <= r.timestamp <= end
  }

  /** The rows matching `q`, in store order. */
  function Select(rs: seq<AuditLog>, q: Query): seq<AuditLog> {
    if rs == [] then []
    else (if Matches(rs[0], q) then [rs[0]] else []) + Select(rs[1..], q)
  }

  /** `Select` keeps exactly the matching rows, each as often as it occurs. */
  lemma {:induction false} SelectExact(rs: seq<AuditLog>, q: Query)
    ensures forall x :: x in Select(rs, q) <==> x in rs && Matches(x, q)
    ensures multiset(Select(rs, q)) <= multiset(rs)
    ensures forall x :: Matches(x, q) ==> multiset(Select(rs, q))[x] == multiset(rs)[x]
  {
    if rs != [] {
      SelectExact(rs[1..], q);
      assert rs == [rs[0]] + rs[1..];
    }
  }

  /** `order: { timestamp: 'DESC' }` */
  ghost predicate NewestFirst(rs: seq<AuditLog>) {
    forall i, j :: 0 <= i < j < |rs| ==> rs[i].timestamp >= rs[j].timestamp
  }

  function InsertNewestFirst(x: AuditLog, s: seq<AuditLog>): (r: seq<AuditLog>)
    ensures |r| == |s| + 1
    ensures r[0] == x || (s != [] && r[0] == s[0])
  {
    if s == [] || x.timestamp >= s[0].timestamp then [x] + s
    else [s[0]] + InsertNewestFirst(x, s[1..])
  }

  lemma {:induction false} InsertNewestFirstPermutes(x: AuditLog, s: seq<AuditLog>)
    ensures multiset(InsertNewestFirst(x, s)) == multiset(s) + multiset{x}
  {
    if s != [] && x.timestamp < s[0].timestamp {
      InsertNewestFirstPermutes(x, s[1..]);
      assert s == [s[0]] + s[1..];
    }
  }

  lemma {:induction false} InsertNewestFirstSorted(x: AuditLog, s: seq<AuditLog>)
    requires NewestFirst(s)
    ensures NewestFirst(InsertNewestFirst(x, s))
  {
    if s != [] && x.timestamp < s[0].timestamp {
      var rest := InsertNewestFirst(x, s[1..]);
      assert NewestFirst(s[1..]);
      InsertNewestFirstSorted(x, s[1..]);
      assert s[0].timestamp >= rest[0].timestamp by {
        if rest[0] != x {
          assert rest[0] == s[1];
        }
      }
      var r := [s[0]] + rest;
      forall i, j | 0 <= i < j < |r|
        ensures r[i].timestamp >= r[j].timestamp
      {
        if i == 0 {
          assert rest[0].timestamp >= rest[j - 1].timestamp;
        } else {
          assert r[i] == rest[i - 1] && r[j] == rest[j - 1];
        }
      }
    }
  }

  /** A stable sort, newest first: rows with equal timestamps keep store order. */
  function SortNewestFirst(rs: seq<AuditLog>): seq<AuditLog> {
    if rs == [] then [] else InsertNewestFirst(rs[0], SortNewestFirst(rs[1..]))
  }

  lemma {:induction false} SortNewestFirstCorrect(rs: seq<AuditLog>)
    ensures NewestFirst(SortNewestFirst(rs))
    ensures multiset(SortNewestFirst(rs)) == multiset(rs)
  {
    if rs != [] {
      SortNewestFirstCorrect(rs[1..]);
      InsertNewestFirstSorted(rs[0], SortNewestFirst(rs[1..]));
      InsertNewestFirstPermutes(rs[0], SortNewestFirst(rs[1..]));
      assert rs == [rs[0]] + rs[1..];
    }
  }

  /** `take: limit`; TypeORM emits no LIMIT for a falsy `take`, so 0 keeps everything. */
  function Take(rs: seq<AuditLog>, limit: nat): seq<AuditLog> {
    if limit == 0 || |rs| <= limit then rs else rs[..limit]
  }

  /** `find({ where, order: { timestamp: 'DESC' }, take: limit })` */
  function Find(rs: seq<AuditLog>, q: Query, limit: nat): seq<AuditLog> {
    Take(SortNewestFirst(Select(rs, q)), limit)
  }

  /** Truncating a newest-first list keeps its newest rows. */
  lemma TakeKeepsNewest(s: seq<AuditLog>, limit: nat)
    requires NewestFirst(s)
    ensures var r := Take(s, limit);
      && NewestFirst(r)
      && multiset(r) <= multiset(s)
      && (forall x, i :: x in s && x !in r && 0 <= i < |r| ==> x.timestamp <= r[i].timestamp)
  {
    var r := Take(s, limit);
    if r != s {
      assert s == r + s[limit..];
      assert multiset(s) == multiset(r) + multiset(s[limit..]);
    }
    assert forall k :: 0 <= k < |r| ==> r[k] == s[k];
    forall x, i | x in s && x !in r && 0 <= i < |r|
      ensures x.timestamp <= r[i].timestamp
    {
      var j :| 0 <= j < |s| && s[j] == x;
      assert i < j;
    }
  }

  /** What a limited finder returns: at most `limit` matching rows, newest
      first, and no matching row left out is newer than one returned. */
  lemma FindCorrect(rs: seq<AuditLog>, q: Query, limit: nat)
    ensures var r := Find(rs, q, limit);
      && |r| == (if limit == 0 || |Select(rs, q)| <= limit then |Select(rs, q)| else limit)
      && NewestFirst(r)
      && multiset(r) <= multiset(Select(rs, q))
      && (forall x :: x in r ==> x in rs && Matches(x, q))
      && (forall x, i :: x in rs && Matches(x, q) && x !in r && 0 <= i < |r| ==> x.timestamp <= r[i].timestamp)
  {
    var m := Select(rs, q);
    var s := SortNewestFirst(m);
    SelectExact(rs, q);
    SortNewestFirstCorrect(m);
    assert |s| == |multiset(s)| == |m|;
    TakeKeepsNewest(s, limit);
    var r := Take(s, limit);
    forall x | x in r
      ensures x in rs && Matches(x, q)
    {
      assert x in multiset(r);
      assert x in multiset(m);
    }
    forall x | x in m
      ensures x in s
    {
      assert x in multiset(s);
    }
  }

  /** An unlimited finder returns exactly the matching rows, newest first. */
  lemma FindAllCorrect(rs: seq<AuditLog>, q: Query)
    ensures NewestFirst(Find(rs, q, 0))
    ensures multiset(Find(rs, q, 0)) == multiset(Select(rs, q))
    ensures forall x :: x in Find(rs, q, 0) <==> x in rs && Matches(x, q)
  {
    SelectExact(rs, q);
    SortNewestFirstCorrect(Select(rs, q));
    forall x
      ensures x in Find(rs, q, 0) <==> x in Select(rs, q)
    {
      assert x in Find(rs, q, 0) <==> x in multiset(Find(rs, q, 0));
    }
  }

  // ------------------------------------------------------------- statistics

  /** One row of `SELECT key, COUNT(*) ... GROUP BY key`. */
  datatype Group = Group(key: string, count: nat)

  datatype Statistics = Statistics(total: nat, byOperation: seq<Group>, byStatus: seq<Group>)

  /** Count one more row with key `k`. */
  function Tally(gs: seq<Group>, k: string): seq<Group> {
    if gs == [] then [Group(k, 1)]
    else if gs[0].key == k then [Group(k, gs[0].count + 1)] + gs[1..]
    else [gs[0]] + Tally(gs[1..], k)
  }

  function GroupCounts(ks: seq<string>): seq<Group> {
    if ks == [] then [] else Tally(GroupCounts(ks[..|ks| - 1]), ks[|ks| - 1])
  }

  function Sum(gs: seq<Group>): nat {
    if gs == [] then 0 else gs[0].count + Sum(gs[1..])
  }

  /** The count reported for key `k`, 0 when no group has it. */
  function CountOf(gs: seq<Group>, k: string): nat {
    if gs == [] then 0 else if gs[0].key == k then gs[0].count else CountOf(gs[1..], k)
  }

  function Occurrences(ks: seq<string>, k: string): nat {
    if ks == [] then 0
    else Occurrences(ks[..|ks| - 1], k) + (if ks[|ks| - 1] == k then 1 else 0)
  }

  /** One group per key, none of them empty. */
  ghost predicate WellGrouped(gs: seq<Group>) {
    && (forall i :: 0 <= i < |gs| ==> gs[i].count > 0)
    && (forall i, j :: 0 <= i < j < |gs| ==> gs[i].key != gs[j].key)
  }

  /** Counting one more row adds one to the total and to the count of `k` only. */
  lemma {:induction false} TallyCorrect(gs: seq<Group>, k: string)
    ensures Sum(Tally(gs, k)) == Sum(gs) + 1
    ensures forall j :: CountOf(Tally(gs, k), j) == CountOf(gs, j) + (if j == k then 1 else 0)
    ensures WellGrouped(gs) ==> WellGrouped(Tally(gs, k))
  {
    if gs != [] && gs[0].key != k {
      TallyCorrect(gs[1..], k);
    } else if gs == [] {
      assert Tally(gs, k) == [Group(k, 1)];
    } else {
      assert Tally(gs, k)[1..] == gs[1..];
    }
    TallyKeys(gs, k);
  }

  /** Counting a row introduces no key but `k`, and keeps the groups one per key. */
  lemma {:induction false} TallyKeys(gs: seq<Group>, k: string)
    ensures forall i :: 0 <= i < |Tally(gs, k)| ==> Tally(gs, k)[i].key == k || exists i' :: 0 <= i' < |gs| && gs[i'].key == Tally(gs, k)[i].key
    ensures WellGrouped(gs) ==> WellGrouped(Tally(gs, k))
  {
    if gs != [] && gs[0].key != k {
      TallyKeys(gs[1..], k);
      var t := Tally(gs, k);
      forall i | 0 <= i < |t|
        ensures t[i].key == k || exists i' :: 0 <= i' < |gs| && gs[i'].key == t[i].key
      {
        if i > 0 && t[i].key != k {
          var i' :| 0 <= i' < |gs[1..]| && gs[1..][i'].key == t[i].key;
          assert gs[i' + 1].key == t[i].key;
        }
      }
      if WellGrouped(gs) {
        forall i, j | 0 <= i < j < |t|
          ensures t[i].key != t[j].key
        {
          if i == 0 && t[j].key != k {
            var j' :| 0 <= j' < |gs[1..]| && gs[1..][j'].key == t[j].key;
            assert gs[j' + 1].key == t[j].key;
          }
        }
      }
    } else if gs == [] {
      assert Tally(gs, k) == [Group(k, 1)];
    } else {
      assert Tally(gs, k)[1..] == gs[1..];
    }
  }

  /** `GROUP BY` counts: one positive count per distinct key, each equal to the
      number of rows with that key, together summing to the number of rows. */
  lemma {:induction false} GroupCountsCorrect(ks: seq<string>)
    ensures Sum(GroupCounts(ks)) == |ks|
    ensures forall k :: CountOf(GroupCounts(ks), k) == Occurrences(ks, k)
    ensures WellGrouped(GroupCounts(ks))
  {
    if ks != [] {
      GroupCountsCorrect(ks[..|ks| - 1]);
      TallyCorrect(GroupCounts(ks[..|ks| - 1]), ks[|ks| - 1]);
    }
  }

  function Operations(rs: seq<AuditLog>): (ks: seq<string>)
    ensures |ks| == |rs|
  {
    seq(|rs|, i requires 0 <= i < |rs| => rs[i].entry.operation)
  }

  function Statuses(rs: seq<AuditLog>): (ks: seq<string>)
    ensures |ks| == |rs|
  {
    seq(|rs|, i requires 0 <= i < |rs| => Status(rs[i]))
  }

  // ---------------------------------------------------------------- cleanup

  /** `cutoffDate.setDate(cutoffDate.getDate() - retentionDays)` on the clock value `now`. */
  function Cutoff(now: int, retentionDays: int): int {
    now - retentionDays * MS_PER_DAY
  }

  /** The rows `cleanup` keeps: not strictly older than the cutoff. */
  function Retained(rs: seq<AuditLog>, cutoff: int): seq<AuditLog> {
    if rs == [] then []
    else (if rs[0].timestamp >= cutoff then [rs[0]] else []) + Retained(rs[1..], cutoff)
  }

  /** The rows `DELETE ... WHERE timestamp < :cutoffDate` removes. */
  function Expired(rs: seq<AuditLog>, cutoff: int): seq<AuditLog> {
    if rs == [] then []
    else (if rs[0].timestamp < cutoff then [rs[0]] else []) + Expired(rs[1..], cutoff)
  }

  /** Purge splits the store: every row is either kept or deleted, a row
      exactly at the cutoff is kept, and kept rows stay in store order. */
  lemma {:induction false} PurgePartition(rs: seq<AuditLog>, cutoff: int)
    ensures |Retained(rs, cutoff)| + |Expired(rs, cutoff)| == |rs|
    ensures multiset(Retained(rs, cutoff)) + multiset(Expired(rs, cutoff)) == multiset(rs)
    ensures forall x :: x in Retained(rs, cutoff) <==> x in rs && x.timestamp >= cutoff
    ensures forall x :: x in Expired(rs, cutoff) <==> x in rs && x.timestamp < cutoff
  {
    if rs != [] {
      PurgePartition(rs[1..], cutoff);
      assert rs == [rs[0]] + rs[1..];
    }
  }

  ghost predicate IdsIncreasing(rs: seq<AuditLog>) {
    forall i, j :: 0 <= i < j < |rs| ==> rs[i].id < rs[j].id
  }

  lemma {:induction false} RetainedKeepsIdOrder(rs: seq<AuditLog>, cutoff: int)
    requires IdsIncreasing(rs)
    ensures IdsIncreasing(Retained(rs, cutoff))
  {
    if rs != [] {
      RetainedKeepsIdOrder(rs[1..], cutoff);
      PurgePartition(rs[1..], cutoff);
      var tail := Retained(rs[1..], cutoff);
      forall k | 0 <= k < |tail|
        ensures rs[0].id < tail[k].id
      {
        assert tail[k] in rs[1..];
      }
    }
  }

  // ---------------------------------------------------------------- service

  class AuditLogService {
    var records: seq<AuditLog>
    var nextId: nat

    /** Primary keys are unique: they increase along the store and stay below `nextId`. */
    ghost predicate Valid()
      reads this
    {
      && IdsIncreasing(records)
      && (forall i :: 0 <= i < |records| ==> records[i].id < nextId)
    }

    constructor ()
      ensures Valid() && records == [] && nextId == 0
    {
      records := [];
      nextId := 0;
    }

    /** `create`: append one row carrying every field of `entry`, stamped with
        the clock value `now`; nothing else changes. */
    method Create(entry: AuditEntry, now: int) returns (saved: AuditLog)
      requires Valid()
      modifies this
      ensures Valid()
      ensures saved == AuditLog(old(nextId), now, entry)
      ensures records == old(records) + [saved]
      ensures nextId == old(nextId) + 1
    {
      saved := AuditLog(nextId, now, entry);
      records := records + [saved];
      nextId := nextId + 1;
    }

    /** `findByEntity`: every row about that entity, newest first. */
    function FindByEntity(entityType: string, entityId: string): (r: seq<AuditLog>)
      reads this
      ensures NewestFirst(r)
      ensures multiset(r) == multiset(Select(records, ByEntity(entityType, entityId)))
      ensures forall x :: x in r <==> x in records && x.entry.entityType == entityType && x.entry.entityId == Str(entityId)
    {
      FindAllCorrect(records, ByEntity(entityType, entityId));
      Find(records, ByEntity(entityType, entityId), 0)
    }

    /** `findByUser`: that actor's newest `limit` rows, newest first. */
    function FindByUser(userId: string, limit: nat := DEFAULT_LIMIT): (r: seq<AuditLog>)
      reads this
      ensures limit > 0 ==> |r| <= limit
      ensures forall x :: x in r ==> x in records && x.entry.userId == userId
      ensures NewestFirst(r)
      ensures multiset(r) <= multiset(Select(records, ByUser(userId)))
      ensures forall x, i :: x in records && x.entry.userId == userId && x !in r && 0 <= i < |r| ==> x.timestamp <= r[i].timestamp
      ensures |r| == if limit == 0 || |Select(records, ByUser(userId))| <= limit then |Select(records, ByUser(userId))| else limit
    {
      var q := ByUser(userId);
      assert forall x :: Matches(x, q) <==> x.entry.userId == userId;
      FindCorrect(records, q, limit);
      Find(records, q, limit)
    }

    /** `findByOperation`: the newest `limit` rows with that operation label, newest first. */
    function FindByOperation(operation: string, limit: nat := DEFAULT_LIMIT): (r: seq<AuditLog>)
      reads this
      ensures limit > 0 ==> |r| <= limit
      ensures forall x :: x in r ==> x in records && x.entry.operation == operation
      ensures NewestFirst(r)
      ensures multiset(r) <= multiset(Select(records, ByOperation(operation)))
      ensures forall x, i :: x in records && x.entry.operation == operation && x !in r && 0 <= i < |r| ==> x.timestamp <= r[i].timestamp
      ensures |r| == if limit == 0 || |Select(records, ByOperation(operation))| <= limit then |Select(records, ByOperation(operation))| else limit
    {
      var q := ByOperation(operation);
      assert forall x :: Matches(x, q) <==> x.entry.operation == operation;
      FindCorrect(records, q, limit);
      Find(records, q, limit)
    }

    /** `findByDateRange`: every row with `startDate <= timestamp <= endDate`, newest first. */
    function FindByDateRange(startDate: int, endDate: int): (r: seq<AuditLog>)
      reads this
      ensures NewestFirst(r)
      ensures multiset(r) == multiset(Select(records, ByDateRange(startDate, endDate)))
      ensures forall x :: x in r <==> x in records && startDate <= x.timestamp <= endDate
    {
      FindAllCorrect(records, ByDateRange(startDate, endDate));
      Find(records, ByDateRange(startDate, endDate), 0)
    }

    /** `getStatistics`: the row count and the per-operation and per-status
        counts, each grouping covering every row exactly once. */
    function GetStatistics(): (s: Statistics)
      reads this
      ensures s.total == |records|
      ensures Sum(s.byOperation) == s.total && Sum(s.byStatus) == s.total
      ensures WellGrouped(s.byOperation) && WellGrouped(s.byStatus)
      ensures forall op :: CountOf(s.byOperation, op) == Occurrences(Operations(records), op)
      ensures forall st :: CountOf(s.byStatus, st) == Occurrences(Statuses(records), st)
    {
      GroupCountsCorrect(Operations(records));
      GroupCountsCorrect(Statuses(records));
      Statistics(|records|, GroupCounts(Operations(records)), GroupCounts(Statuses(records)))
    }

    /** `cleanup`: delete exactly the rows strictly older than `retentionDays`
        days before `now` and report how many went. */
    method Cleanup(now: int, retentionDays: int := DEFAULT_RETENTION_DAYS) returns (deleted: nat)
      requires Valid()
      modifies this
      ensures Valid()
      ensures records == Retained(old(records), Cutoff(now, retentionDays))
      ensures deleted == |Expired(old(records), Cutoff(now, retentionDays))|
      ensures deleted == |old(records)| - |records|
      ensures nextId == old(nextId)
    {
      var cutoff := Cutoff(now, retentionDays);
      var kept := Retained(records, cutoff);
      PurgePartition(records, cutoff);
      RetainedKeepsIdOrder(records, cutoff);
      forall x | x in kept
        ensures x.id < nextId
      {
      }
      deleted := |records| - |kept|;
      records := kept;
    }
  }
}
