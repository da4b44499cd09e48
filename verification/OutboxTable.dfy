/** The `message_outbox` table and its SQL statements (src/db.rs). Every statement is one
    atomic update: it selects rows by a condition and rewrites each selected row. */
module OutboxTable {
  import opened Wrappers
  import opened Outbox
  import DedupId

  const I32_MAX: nat := 0x7fff_ffff

  datatype Row = Row(
    subject: string,
    tenant: Option<Uuid>,
    key: seq<byte>,
    dedupId: string,
    payload: Json,
    createdAt: int,
    status: Status,
    attempts: int,
    availableAt: int,
    lastError: Option<string>,
    publishedAt: Option<int>,
    owner: Option<Uuid>,
    expiresAt: Option<int>)

  /** The table, keyed by its primary key. */
  type Rows = map<Uuid, Row>

  datatype Stmt =
    | Claim(ids: seq<Uuid>, owner: Uuid, ttl: int)
    | MarkPublished(id: Uuid, owner: Uuid, at: int)
    | MarkFailed(id: Uuid, owner: Uuid, error: string)
    | Reschedule(id: Uuid, owner: Uuid, error: string)
    | Release(owner: Uuid)

  /** A database call succeeds, fails without effect, or takes effect and loses its reply. */
  datatype Db = Fine | FailedBefore | FailedAfter

  function Power2(n: nat): nat { if n == 0 then 1 else 2 * Power2(n - 1) }

  function Min(a: int, b: int): int { if a < b then a else b }

  function Max(a: int, b: int): int { if a < b then b else a }

  function Backoff(attempts: int): int {
    Min(MAX_PUBLISH_BACKOFF, 1000 * Power2(Min(Max(attempts - 1, 0), 8)))
  }

  predicate Claimable(r: Row, now: int) {
    r.status.Pending? && r.availableAt <= now && (r.expiresAt.None? || r.expiresAt.value <= now)
  }

  predicate LiveLease(r: Row, owner: Uuid, now: int) {
    r.owner == Some(owner) && r.expiresAt.Some? && now < r.expiresAt.value
  }

  /** The WHERE clause. */
  predicate Selects(st: Stmt, id: Uuid, r: Row, now: int) {
    match st
    case Claim(ids, _, _) => id in ids && Claimable(r, now)
    case MarkPublished(target, owner, _) => id == target && r.owner == Some(owner)
    case MarkFailed(target, owner, _) => id == target && r.owner == Some(owner)
    case Reschedule(target, owner, _) => id == target && r.owner == Some(owner) && r.status.Pending?
    case Release(owner) => r.status.Pending? && r.owner == Some(owner)
  }

  /** The SET clause. */
  function Rewritten(st: Stmt, r: Row, now: int): Row {
    match st
    case Claim(_, owner, ttl) =>
      r.(attempts := r.attempts + 1, owner := Some(owner), expiresAt := Some(now + ttl))
    case MarkPublished(_, _, at) =>
      r.(status := Published, publishedAt := Some(at), lastError := None, owner := None, expiresAt := None)
    case MarkFailed(_, _, error) =>
      r.(status := Failed, lastError := Some(error), owner := None, expiresAt := None)
    case Reschedule(_, _, error) =>
      r.(lastError := Some(error), availableAt := now + Backoff(r.attempts), owner := None, expiresAt := None)
    case Release(_) =>
      r.(owner := None, expiresAt := None, attempts := Max(r.attempts - 1, 0))
  }

  function Updated(st: Stmt, id: Uuid, r: Row, now: int): Row {
    if Selects(st, id, r, now) then Rewritten(st, r, now) else r
  }

  function Effect(st: Stmt, rows: Rows, now: int): (rows': Rows)
    ensures rows'.Keys == rows.Keys
  {
    map id | id in rows :: Updated(st, id, rows[id], now)
  }

  function RowsAffected(st: Stmt, rows: Rows, now: int): nat {
    |set id | id in rows && Selects(st, id, rows[id], now)|
  }

  function StillHeld(rows: Rows, id: Uuid, owner: Uuid, now: int): bool {
    id in rows && LiveLease(rows[id], owner, now)
  }

  /** What a claim hands back for one row. */
  function Returned(id: Uuid, r: Row): OutboxRecord {
    OutboxRecord(id, r.subject, r.tenant, r.key, r.dedupId, r.payload, r.createdAt, r.status,
                 if r.attempts < 0 then 0 else r.attempts)
  }

  /** A choice the claiming subquery may make: at most `limit` distinct claimable rows, in
      order of creation. Rows locked by other sessions may be skipped, so any such choice
      is possible. */
  predicate ClaimChoice(rows: Rows, ids: seq<Uuid>, now: int, limit: int) {
    && |ids| <= limit
    && (forall i | 0 <= i < |ids| :: ids[i] in rows && Claimable(rows[ids[i]], now))
    && (forall i, j | 0 <= i < j < |ids| :: ids[i] != ids[j] && rows[ids[i]].createdAt <= rows[ids[j]].createdAt)
  }

  /** `record_failure`: park the row once its attempts are used up, else back off. */
  function FailureStmt(maxAttempts: int, owner: Uuid, rec: OutboxRecord, error: string): Stmt {
    if rec.attempts >= maxAttempts then MarkFailed(rec.id, owner, error) else Reschedule(rec.id, owner, error)
  }

  // ---- Staging --------------------------------------------------------------------

  /** The unique constraints: primary key, dedup id, and business key per tenant, the
      absent tenant being a namespace of its own. */
  predicate Conflicts(rows: Rows, rec: OutboxRecord) {
    || rec.id in rows
    || exists id | id in rows ::
         rows[id].dedupId == rec.dedupId || (rows[id].tenant == rec.tenant && rows[id].key == rec.key)
  }

  function Staged(rec: OutboxRecord, now: int): Row {
    Row(rec.subject, rec.tenant, rec.key, rec.dedupId, rec.payload, rec.createdAt, rec.status,
        Min(rec.attempts, I32_MAX), now, None, None, None, None)
  }

  function Insert(rows: Rows, rec: OutboxRecord, now: int): Rows {
    if Conflicts(rows, rec) then rows else rows[rec.id := Staged(rec, now)]
  }

  // ---- Retention ------------------------------------------------------------------

  predicate Purgeable(r: Row, now: int, age: int) {
    r.status.Published? && r.publishedAt.Some? && r.publishedAt.value < now - age
  }

  function Purge(rows: Rows, now: int, age: int): Rows {
    map id | id in rows && !Purgeable(rows[id], now, age) :: rows[id]
  }

  // ---- Lemmas ---------------------------------------------------------------------

  /** The five-minute cap never binds: the longest deferral is 256 seconds. */
  lemma {:induction false} BackoffBounds(attempts: int)
    ensures 1000 <= Backoff(attempts) <= 256_000
    ensures Backoff(attempts) == 1000 * Power2(Min(Max(attempts - 1, 0), 8))
    ensures attempts >= 9 ==> Backoff(attempts) == 256_000
  {
    var n := Min(Max(attempts - 1, 0), 8);
    PowerMonotone(n, 8);
    assert Power2(8) == 256;
  }

  lemma {:induction false} PowerMonotone(a: nat, b: nat)
    requires a <= b
    ensures 1 <= Power2(a) <= Power2(b)
  {
    if a < b {
      PowerMonotone(a, b - 1);
    } else if a > 0 {
      PowerMonotone(a - 1, b - 1);
    }
  }

  /** An owner-conditioned statement names its owner; rows of anybody else are out of its
      reach whatever their status or lease. */
  lemma {:induction false} ForeignRowsUntouched(st: Stmt, rows: Rows, id: Uuid, now: int)
    requires !st.Claim? && id in rows && rows[id].owner != Some(st.owner)
    ensures Effect(st, rows, now)[id] == rows[id]
  {
  }

  /** Retention takes exactly the published rows whose publication is dated and lies before the
      cutoff: never a pending or failed row, however old. */
  lemma {:induction false} PurgeTakes(rows: Rows, now: int, age: int, id: Uuid)
    requires id in rows
    ensures id !in Purge(rows, now, age)
       <==> rows[id].status == Published && rows[id].publishedAt != None && rows[id].publishedAt.value < now - age
    ensures id in Purge(rows, now, age) ==> Purge(rows, now, age)[id] == rows[id]
  {
  }

  // ---- Uniqueness -----------------------------------------------------------------

  predicate SameScope(a: Row, b: Row) { a.tenant == b.tenant && a.key == b.key }

  ghost predicate UniqueKeys(rows: Rows) {
    forall a, b | a in rows && b in rows && a != b :: rows[a].dedupId != rows[b].dedupId && !SameScope(rows[a], rows[b])
  }

  /** Every statement keeps the identity columns, and staging respects the constraints. */
  lemma {:induction false} UniqueKeysKept(rows: Rows, st: Stmt, rec: OutboxRecord, now: int, age: int)
    requires UniqueKeys(rows)
    ensures UniqueKeys(Effect(st, rows, now)) && UniqueKeys(Insert(rows, rec, now)) && UniqueKeys(Purge(rows, now, age))
  {
    var updated := Effect(st, rows, now);
    assert forall id | id in rows :: updated[id].dedupId == rows[id].dedupId && SameScope(updated[id], rows[id]);
  }

  /** A row as a record constructor builds it: its dedup id is derived from its scope. */
  predicate Derived(sha256: seq<byte> -> DedupId.Digest, r: Row) {
    |r.key| < DedupId.U64_LIMIT && r.dedupId == DedupId.TenantScopedDedupId(sha256, DedupId.Scope(r.tenant, r.key))
  }

  ghost predicate AllDerived(sha256: seq<byte> -> DedupId.Digest, rows: Rows) {
    forall id {:trigger rows[id]} | id in rows :: Derived(sha256, rows[id])
  }

  /** On derived rows the two uniqueness constraints are one: a record is refused exactly
      when its id or its tenant-scoped key is taken. */
  lemma {:induction false} ConflictIsScopeConflict(sha256: seq<byte> -> DedupId.Digest, rows: Rows, rec: OutboxRecord,
                                                   now: int)
    requires AllDerived(sha256, rows)
    requires Derived(sha256, Staged(rec, now))
    requires forall id | id in rows ::
               DedupId.NoCollision(sha256, DedupId.Scope(rows[id].tenant, rows[id].key),
                   DedupId.Scope(rec.tenant, rec.key))
    ensures Conflicts(rows, rec) <==> rec.id in rows || exists id | id in rows :: SameScope(rows[id], Staged(rec, now))
  {
    forall id | id in rows
      ensures rows[id].dedupId == rec.dedupId <==> SameScope(rows[id], Staged(rec, now))
    {
      DedupId.DedupIdIdentifiesScope(sha256, DedupId.Scope(rows[id].tenant, rows[id].key),
          DedupId.Scope(rec.tenant, rec.key));
    }
  }
}
