/** The message-id-keyed consumer inbox, table `message_inbox` (src/db.rs and migration 0002):
    claims over any interleaving of consumers, lost replies and retention purges. */
module InboxTable {
  import opened Wrappers
  import opened Outbox
  import opened OutboxTable

  datatype Claimed = Claimed(tenant: Option<Uuid>, key: seq<byte>, receivedAt: int, processedAt: Option<int>)

  /** The table, keyed by message id. */
  type Claims = map<Uuid, Claimed>

  datatype Attempt = Attempt(tenant: Option<Uuid>, messageId: Uuid, key: seq<byte>)

  datatype Event =
    | TryInsert(a: Attempt, at: int, db: Db)
    | MarkProcessed(messageId: Uuid, at: int, db: Db)
    | PurgeProcessed(now: int, age: int, db: Db)

  /** The unique constraints of the table: the message id, and the business key within one
      namespace, the absent tenant being a namespace of its own. */
  predicate Taken(rows: Claims, a: Attempt) {
    a.messageId in rows || exists id | id in rows :: rows[id].tenant == a.tenant && rows[id].key == a.key
  }

  function Inserted(rows: Claims, a: Attempt, at: int): Claims {
    if Taken(rows, a) then rows else rows[a.messageId := Claimed(a.tenant, a.key, at, None)]
  }

  function Marked(rows: Claims, messageId: Uuid, at: int): Claims {
    if messageId in rows then rows[messageId := rows[messageId].(processedAt := Some(at))] else rows
  }

  predicate Expired(c: Claimed, now: int, age: int) { c.processedAt.Some? && c.processedAt.value < now - age }

  function Purged(rows: Claims, now: int, age: int): Claims {
    map id | id in rows && !Expired(rows[id], now, age) :: rows[id]
  }

  function After(rows: Claims, e: Event): Claims {
    if e.db.FailedBefore? then rows
    else
      match e
      case TryInsert(a, at, _) => Inserted(rows, a, at)
      case MarkProcessed(id, at, _) => Marked(rows, id, at)
      case PurgeProcessed(now, age, _) => if age <= 0 then rows else Purged(rows, now, age)
  }

  /** What an attempt answers; no answer when the statement or its reply was lost. */
  function Answer(rows: Claims, e: Event): Option<bool>
    requires e.TryInsert?
  {
    if e.db.Fine? then Some(!Taken(rows, e.a)) else None
  }

  function Run(rows: Claims, events: seq<Event>): Claims {
    if events == [] then rows else After(Run(rows, events[..|events| - 1]), events[|events| - 1])
  }

  class Inbox {
    var rows: Claims

    constructor ()
      ensures rows == map[]
    {
      rows := map[];
    }

    /** `db` is the fate of the statement. */
    method TryInsert(tenant: Option<Uuid>, messageId: Uuid, key: seq<byte>, at: int, db: Db)
      returns (r: Result<bool, MessagingError>)
      modifies this
      ensures var e := Event.TryInsert(Attempt(tenant, messageId, key), at, db);
              && rows == After(old(rows), e)
              && r == match Answer(old(rows), e) case Some(b) => Success(b) case None => Failure(Database)
    {
      if db.FailedBefore? {
        return Failure(Database);
      }
      var a := Attempt(tenant, messageId, key);
      var rowsAffected := 0;
      if !Taken(rows, a) {
        rows := rows[messageId := Claimed(tenant, key, at, None)];
        rowsAffected := 1;
      }
      r := if db.FailedAfter? then Failure(Database) else Success(rowsAffected == 1);
    }

    /** A call that matches no claim changes nothing and still succeeds. */
    method MarkProcessed(messageId: Uuid, at: int, db: Db) returns (r: Result<(), MessagingError>)
      modifies this
      ensures rows == After(old(rows), Event.MarkProcessed(messageId, at, db))
      ensures r.Success? <==> db.Fine?
      ensures rows.Keys == old(rows).Keys && forall id | id in rows && id != messageId :: rows[id] == old(rows)[id]
      ensures r.Success? && messageId in rows ==> rows[messageId] == old(rows)[messageId].(processedAt := Some(at))
    {
      if db.FailedBefore? {
        return Failure(Database);
      }
      if messageId in rows {
        rows := rows[messageId := rows[messageId].(processedAt := Some(at))];
      }
      r := if db.FailedAfter? then Failure(Database) else Success(());
    }

    method PurgeProcessed(now: int, age: int, db: Db) returns (r: Result<nat, MessagingError>)
      modifies this
      ensures rows == After(old(rows), Event.PurgeProcessed(now, age, db))
      ensures r.Success? <==> age > 0 && db.Fine?
      ensures r.Success? ==> r.value == |old(rows)| - |rows|
      ensures r.Success? ==> forall id ::
                id in rows <==> id in old(rows) && (old(rows)[id].processedAt == None
                                                    || now - age <= old(rows)[id].processedAt.value)
    {
      if age <= 0 || db.FailedBefore? {
        return Failure(Database);
      }
      var gone := set id | id in rows && Expired(rows[id], now, age);
      ghost var was := rows;
      rows := map id | id in rows && id !in gone :: rows[id];
      assert was.Keys == rows.Keys + gone && rows.Keys !! gone;
      r := if db.FailedAfter? then Failure(Database) else Success(|gone|);
    }
  }

  // ---- At most once -----------------------------------------------------------------

  predicate Shares(a: Attempt, b: Attempt) {
    a.messageId == b.messageId || (a.tenant == b.tenant && a.key == b.key)
  }

  /** Event `i` is an attempt that stored its claim, whether or not its caller heard so. */
  ghost predicate Stored(rows: Claims, events: seq<Event>, i: nat)
    requires i < |events|
  {
    events[i].TryInsert? && !events[i].db.FailedBefore? && !Taken(Run(rows, events[..i]), events[i].a)
  }

  /** Event `i` is an attempt that answered true. */
  ghost predicate Won(rows: Claims, events: seq<Event>, i: nat)
    requires i < |events|
  {
    events[i].TryInsert? && Answer(Run(rows, events[..i]), events[i]) == Some(true)
  }

  /** Event `k` is a purge that removed the claim `id`, whose effect was recorded as done. */
  ghost predicate Removed(rows: Claims, events: seq<Event>, k: nat, id: Uuid)
    requires k < |events|
  {
    var before := Run(rows, events[..k]);
    && events[k].PurgeProcessed?
    && id in before && Expired(before[id], events[k].now, events[k].age)
    && id !in Run(rows, events[..k + 1])
  }

  predicate Holds(rows: Claims, a: Attempt) {
    a.messageId in rows && rows[a.messageId].tenant == a.tenant && rows[a.messageId].key == a.key
  }

  /** A stored claim stays until a purge removes it. */
  lemma {:induction false} ClaimStays(rows: Claims, events: seq<Event>, i: nat, j: nat)
    requires i < j <= |events| && Stored(rows, events, i)
    requires forall k | i < k < j :: !Removed(rows, events, k, events[i].a.messageId)
    ensures Holds(Run(rows, events[..j]), events[i].a)
  {
    assert events[..j][..j - 1] == events[..j - 1];
    if j > i + 1 {
      ClaimStays(rows, events, i, j - 1);
      assert !Removed(rows, events, j - 1, events[i].a.messageId);
    }
  }

  /** Two attempts that share a message id, or a key in one namespace, both answer true only
      when a purge in between removed the first one's claim, its effect already recorded as
      done. Without purges an effect is let through at most once. */
  lemma {:induction false} TrueAtMostOnce(rows: Claims, events: seq<Event>, i: nat, j: nat)
    requires i < j < |events| && Stored(rows, events, i) && Won(rows, events, j)
    requires Shares(events[i].a, events[j].a)
    ensures exists k | i < k < j :: Removed(rows, events, k, events[i].a.messageId)
  {
    if forall k | i < k < j :: !Removed(rows, events, k, events[i].a.messageId) {
      ClaimStays(rows, events, i, j);
    }
  }

  // ---- Only what was marked can be purged ---------------------------------------------

  /** Event `m` is a mark of message `id` that took effect. */
  predicate MarksIt(events: seq<Event>, m: nat, id: Uuid)
    requires m < |events|
  {
    events[m].MarkProcessed? && !events[m].db.FailedBefore? && events[m].messageId == id
  }

  /** The claim that event `i` stored is in the table after each event before `j`. */
  ghost predicate StaysUntil(rows: Claims, events: seq<Event>, i: nat, j: nat)
    requires i < j <= |events|
  {
    Stored(rows, events, i) && forall k | i < k <= j :: events[i].a.messageId in Run(rows, events[..k])
  }

  /** While a claim stays, it is dated only if a mark dated it. */
  lemma {:induction false} DatedByMark(rows: Claims, events: seq<Event>, i: nat, j: nat)
    requires i < j <= |events| && StaysUntil(rows, events, i, j)
    ensures var id, now := events[i].a.messageId, Run(rows, events[..j]);
            && Holds(now, events[i].a)
            && (now[id].processedAt.Some? ==>
                  exists m | i < m < j :: MarksIt(events, m, id) && now[id].processedAt == Some(events[m].at))
  {
    var id := events[i].a.messageId;
    assert events[..j][..j - 1] == events[..j - 1];
    if j > i + 1 {
      DatedByMark(rows, events, i, j - 1);
      var before, now := Run(rows, events[..j - 1]), Run(rows, events[..j]);
      if now[id].processedAt.Some? {
        if now[id] == before[id] {
          var m :| i < m < j - 1 && MarksIt(events, m, id) && before[id].processedAt == Some(events[m].at);
        } else {
          assert MarksIt(events, j - 1, id);
        }
      }
    }
  }

  /** A claim goes only to a purge, and only after a mark of its message that is older than the
      purge's age: an effect that was never recorded as done keeps its claim for good. */
  lemma {:induction false} GoneWasMarked(rows: Claims, events: seq<Event>, i: nat, k: nat)
    requires i < k < |events| && StaysUntil(rows, events, i, k)
    requires events[i].a.messageId !in Run(rows, events[..k + 1])
    ensures events[k].PurgeProcessed? && events[k].age > 0
    ensures exists m | i < m < k ::
              MarksIt(events, m, events[i].a.messageId) && events[m].at < events[k].now - events[k].age
  {
    DatedByMark(rows, events, i, k);
    assert events[..k + 1][..k] == events[..k];
  }

  /** Of two attempts that share a message id or a scoped key both answer true only if a mark of
      the first one's message and then a purge that found it old enough lie in between. */
  lemma {:induction false} TwiceNeedsMarkAndPurge(rows: Claims, events: seq<Event>, i: nat, j: nat)
    requires i < j < |events| && Stored(rows, events, i) && Won(rows, events, j)
    requires Shares(events[i].a, events[j].a)
    ensures exists m, k | i < m < k < j ::
              MarksIt(events, m, events[i].a.messageId)
              && events[k].PurgeProcessed? && events[m].at < events[k].now - events[k].age
  {
    var id := events[i].a.messageId;
    var k := FirstGone(rows, events, i, j);
    GoneWasMarked(rows, events, i, k);
    var m :| i < m < k && MarksIt(events, m, id) && events[m].at < events[k].now - events[k].age;
  }

  lemma {:induction false} FirstGone(rows: Claims, events: seq<Event>, i: nat, j: nat) returns (k: nat)
    requires i < j < |events| && Stored(rows, events, i) && Won(rows, events, j)
    requires Shares(events[i].a, events[j].a)
    ensures i < k < j && StaysUntil(rows, events, i, k) && events[i].a.messageId !in Run(rows, events[..k + 1])
  {
    var id := events[i].a.messageId;
    assert events[..i + 1][..i] == events[..i];
    k := i + 1;
    while k < j && id in Run(rows, events[..k + 1])
      invariant i < k <= j && StaysUntil(rows, events, i, k)
    {
      k := k + 1;
    }
    if k == j {
      DatedByMark(rows, events, i, j);
    }
  }

  /** So without a mark the effect is let through once, however many purges run. */
  lemma {:induction false} UnmarkedOnce(rows: Claims, events: seq<Event>, i: nat, j: nat)
    requires i < j < |events| && Stored(rows, events, i) && events[j].TryInsert? && Shares(events[i].a, events[j].a)
    requires forall m | i < m < j :: !MarksIt(events, m, events[i].a.messageId)
    ensures !Won(rows, events, j)
  {
    if Won(rows, events, j) {
      TwiceNeedsMarkAndPurge(rows, events, i, j);
    }
  }

  ghost predicate NoPurge(events: seq<Event>) { forall i | 0 <= i < |events| :: !events[i].PurgeProcessed? }

  /** Every claim in the table was stored by an attempt of the run. */
  lemma {:induction false} ClaimHasOrigin(events: seq<Event>, n: nat, id: Uuid) returns (i: nat)
    requires n <= |events| && id in Run(map[], events[..n])
    ensures i < n && Stored(map[], events, i) && events[i].a.messageId == id
    ensures Run(map[], events[..n])[id].tenant == events[i].a.tenant
        && Run(map[], events[..n])[id].key == events[i].a.key
  {
    assert n > 0;
    assert events[..n][..n - 1] == events[..n - 1];
    var before := Run(map[], events[..n - 1]);
    if id in before {
      i := ClaimHasOrigin(events, n - 1, id);
    } else {
      i := n - 1;
    }
  }

  /** Without purges, and started empty, an answered attempt answers false exactly when an
      earlier attempt that stored its claim shares its message id or its scoped key. An
      attempt that lost blocks nobody. */
  lemma {:induction false} FalseIffAnEarlierClaimShares(events: seq<Event>, j: nat)
    requires NoPurge(events) && j < |events| && events[j].TryInsert? && events[j].db.Fine?
    ensures Answer(Run(map[], events[..j]), events[j]) == Some(false)
        <==> exists i | 0 <= i < j :: Stored(map[], events, i) && Shares(events[i].a, events[j].a)
  {
    var rows, a := Run(map[], events[..j]), events[j].a;
    if Taken(rows, a) {
      var id :| id in rows && (id == a.messageId || (rows[id].tenant == a.tenant && rows[id].key == a.key));
      var i := ClaimHasOrigin(events, j, id);
    }
    forall i | 0 <= i < j && Stored(map[], events, i) && Shares(events[i].a, a) ensures Taken(rows, a) {
      ClaimStays(map[], events, i, j);
    }
  }

  // ---- Namespaces -------------------------------------------------------------------

  function OfTenant(rows: Claims, t: Option<Uuid>): Claims { map id | id in rows && rows[id].tenant == t :: rows[id] }

  /** The run as namespace `t` sees it: the attempts of other namespaces left out. */
  function Seen(events: seq<Event>, t: Option<Uuid>): seq<Event> {
    if events == [] then []
    else
      var last := events[|events| - 1];
      Seen(events[..|events| - 1], t) + (if last.TryInsert? && last.a.tenant != t then [] else [last])
  }

  /** Message ids are not shared between `t` and the other namespaces. */
  ghost predicate IdsApart(rows: Claims, events: seq<Event>, t: Option<Uuid>) {
    && (forall i, j | 0 <= i < |events| && 0 <= j < |events| && events[i].TryInsert? && events[j].TryInsert?
          && events[i].a.tenant == t && events[j].a.tenant != t :: events[i].a.messageId != events[j].a.messageId)
    && (forall i | 0 <= i < |events| && events[i].TryInsert? && events[i].a.messageId in rows ::
          rows[events[i].a.messageId].tenant == t <==> events[i].a.tenant == t)
  }

  /** Whether an id of the table belongs to `t` is as the run's attempts have it. */
  lemma {:induction false} OwnersKnown(rows: Claims, events: seq<Event>, t: Option<Uuid>, n: nat, i: nat)
    requires IdsApart(rows, events, t) && n <= |events| && i < |events| && events[i].TryInsert?
    ensures var now := Run(rows, events[..n]);
            events[i].a.messageId in now ==> (now[events[i].a.messageId].tenant == t <==> events[i].a.tenant == t)
  {
    if n > 0 {
      assert events[..n][..n - 1] == events[..n - 1];
      OwnersKnown(rows, events, t, n - 1, i);
    }
  }

  /** An event of another namespace leaves `t`'s claims alone; any other event acts on them
      as if they were the whole table. */
  lemma {:induction false} StepOfTenant(rows: Claims, e: Event, t: Option<Uuid>)
    requires e.TryInsert? && e.a.messageId in rows ==> (rows[e.a.messageId].tenant == t <==> e.a.tenant == t)
    ensures OfTenant(After(rows, e), t)
         == if e.TryInsert? && e.a.tenant != t then OfTenant(rows, t) else After(OfTenant(rows, t), e)
    ensures e.TryInsert? && e.a.tenant == t ==> Answer(rows, e) == Answer(OfTenant(rows, t), e)
  {
    var mine := OfTenant(rows, t);
    if e.TryInsert? && e.a.tenant == t {
      assert Taken(rows, e.a) <==> Taken(mine, e.a) by {
        if Taken(rows, e.a) && e.a.messageId !in rows {
          var id :| id in rows && rows[id].tenant == e.a.tenant && rows[id].key == e.a.key;
          assert id in mine && mine[id] == rows[id];
        }
        assert forall id | id in mine :: id in rows && mine[id] == rows[id];
      }
    }
  }

  /** Namespaces do not interfere: as long as message ids are not shared between them, the
      claims of a namespace, and every answer it gets, are those of the run in which the
      other namespaces made no attempt at all. */
  lemma {:induction false} NamespacesAreIndependent(rows: Claims, events: seq<Event>, t: Option<Uuid>, n: nat)
    requires IdsApart(rows, events, t) && n <= |events|
    ensures OfTenant(Run(rows, events[..n]), t) == Run(OfTenant(rows, t), Seen(events[..n], t))
    ensures n < |events| && events[n].TryInsert? && events[n].a.tenant == t
        ==> Answer(Run(rows, events[..n]), events[n]) == Answer(Run(OfTenant(rows, t), Seen(events[..n], t)), events[n])
  {
    if n > 0 {
      NamespacesAreIndependent(rows, events, t, n - 1);
      assert events[..n][..n - 1] == events[..n - 1];
      if events[n - 1].TryInsert? {
        OwnersKnown(rows, events, t, n - 1, n - 1);
      }
      StepOfTenant(Run(rows, events[..n - 1]), events[n - 1], t);
      var seen := Seen(events[..n - 1], t);
      assert (seen + [events[n - 1]])[..|seen|] == seen && seen + [] == seen;
    }
    if n < |events| && events[n].TryInsert? {
      OwnersKnown(rows, events, t, n, n);
      StepOfTenant(Run(rows, events[..n]), events[n], t);
    }
  }

  /** Two attempts that share nothing commute: either order leaves the same table and gives
      each the same answer. */
  lemma {:induction false} UnrelatedAttemptsCommute(rows: Claims, d: Event, e: Event)
    requires d.TryInsert? && e.TryInsert? && !Shares(d.a, e.a)
    ensures After(After(rows, d), e) == After(After(rows, e), d)
    ensures Answer(After(rows, d), e) == Answer(rows, e) && Answer(After(rows, e), d) == Answer(rows, d)
  {
    TakenElsewhere(rows, d, e.a);
    TakenElsewhere(rows, e, d.a);
  }

  lemma {:induction false} TakenElsewhere(rows: Claims, d: Event, b: Attempt)
    requires d.TryInsert? && !Shares(d.a, b)
    ensures Taken(After(rows, d), b) <==> Taken(rows, b)
  {
    var after := After(rows, d);
    assert forall id | id in rows :: id in after && after[id] == rows[id];
    assert forall id | id in after :: id in rows || id == d.a.messageId;
  }
}
