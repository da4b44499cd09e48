/** The invariants the owner-conditioned statements rely on without stating them, and the
    proof that every step of every relay keeps them. */
module PipelineInvariant {
  import opened Wrappers
  import opened Outbox
  import opened OutboxTable
  import opened Pipeline

  // ---- The invariant --------------------------------------------------------------

  predicate InQueue(w: Worker, id: Uuid) { exists i | 0 <= i < |w.queue| :: w.queue[i].rec.id == id }

  /** An owned row is pending, carries the expiry its whole claim shares, and is either
      still queued with its owner or left behind by a batch that reported success only
      after that expiry. */
  predicate OwnedOk(s: State, id: Uuid, o: Uuid)
    requires id in s.rows
  {
    var r := s.rows[id];
    && r.status.Pending? && 1 <= r.attempts
    && o in s.workers
    && r.expiresAt == Some(s.workers[o].claimedAt + s.workers[o].ttl)
    && (s.workers[o].pc == Finished(true) ==> s.workers[o].Expired(s.now))
    && (s.workers[o].Draining() ==> InQueue(s.workers[o], id))
  }

  predicate RowOk(s: State, id: Uuid)
    requires id in s.rows
  {
    var r := s.rows[id];
    && id in s.tickets && s.tickets[id] in s.ledger && s.ledger[s.tickets[id]].rec.id == id
    && 0 <= r.attempts
    && (r.owner.Some? <==> r.expiresAt.Some?)
    && (r.status.Pending? ==> r.availableAt <= s.now + 256_000)
    && (r.owner.Some? ==> OwnedOk(s, id, r.owner.value))
  }

  /** A queued record is still the owner's, unless the whole claim has expired; and while
      it is the owner's it is the row as claimed. */
  predicate ItemOk(s: State, o: Uuid, item: Item)
    requires o in s.workers
  {
    var w, id := s.workers[o], item.rec.id;
    var owns := id in s.rows && s.rows[id].owner == Some(o);
    && item.ticket in s.ledger
    && s.ledger[item.ticket].rec.id == id && s.ledger[item.ticket].rec.dedupId == item.rec.dedupId
    && o in s.ledger[item.ticket].claimedBy
    && (w.Draining() ==> owns || w.Expired(s.now))
    && (owns ==> id in s.tickets && s.tickets[id] == item.ticket && s.rows[id].attempts == item.rec.attempts)
  }

  predicate HeadReached(w: Worker) { w.pc.Marking? || w.pc.Failing? }

  /** Queue position `i`: records not yet reached were not offered by this batch, and a
      record about to be marked was acknowledged. */
  predicate PlaceOk(s: State, o: Uuid, i: nat)
    requires o in s.workers && i < |s.workers[o].queue|
  {
    var w, item := s.workers[o], s.workers[o].queue[i];
    && ItemOk(s, o, item)
    && (w.Draining() && (i > 0 || !HeadReached(w)) ==> o !in s.ledger[item.ticket].offeredBy)
    && (w.pc.Marking? && i == 0 ==> s.ledger[item.ticket].acked)
  }

  predicate WorkerOk(s: State, o: Uuid)
    requires o in s.workers
  {
    var w := s.workers[o];
    && w.claimedAt <= s.now && 0 < w.ttl
    && (w.pc.Offering? || HeadReached(w) ==> w.queue != [])
    && DistinctIds(w.queue)
    && (forall i {:trigger PlaceOk(s, o, i)} | 0 <= i < |w.queue| :: PlaceOk(s, o, i))
  }

  predicate DistinctIds(queue: seq<Item>) {
    forall i, j | 0 <= i < j < |queue| :: queue[i].rec.id != queue[j].rec.id
  }

  predicate HasCopy(copies: seq<Copy>, dedupId: string) { exists i | 0 <= i < |copies| :: copies[i].dedupId == dedupId }

  predicate SameIdentity(r: Row, rec: OutboxRecord) {
    && r.subject == rec.subject && r.tenant == rec.tenant && r.key == rec.key && r.dedupId == rec.dedupId
    && r.payload == rec.payload && r.createdAt == rec.createdAt
  }

  predicate Delivered(e: Entry) { e.marks == 1 && e.acked }

  predicate PresentOk(s: State, e: Entry, r: Row) {
    && SameIdentity(r, e.rec)
    && r.attempts + |e.releasedBy| == Min(e.rec.attempts, I32_MAX) + |e.claimedBy|
    && (r.owner.Some? ==> r.owner.value in e.claimedBy && r.owner.value !in e.releasedBy)
    && (e.rec.status.Pending? ==> if r.status.Published? then Delivered(e) else e.marks == 0)
    && (!e.rec.status.Pending? ==> r.status == e.rec.status && r.publishedAt.None? && e.marks == 0)
    && (e.rescheduledAt.Some? ==> r.availableAt <= e.rescheduledAt.value + 256_000)
  }

  predicate EntryOk(s: State, t: nat)
    requires t in s.ledger
  {
    var e := s.ledger[t];
    && t < s.next
    && e.claimedBy <= s.workers.Keys && e.releasedBy <= e.claimedBy && e.offeredBy <= e.claimedBy
    && e.offers == |e.offeredBy|
    && (e.acked ==> HasCopy(s.copies, e.rec.dedupId))
    && (e.purged <==> !Present(s, t))
    && (if Present(s, t) then PresentOk(s, e, RowOf(s, t)) else e.rec.status.Pending? && Delivered(e))
  }

  predicate CopyOk(s: State, c: Copy) {
    && c.owner in s.workers && s.workers[c.owner].claimedAt <= c.at <= s.now
    && c.ticket in s.ledger && s.ledger[c.ticket].rec.dedupId == c.dedupId
  }

  ghost predicate Inv(s: State) {
    && s.tickets.Keys == s.rows.Keys
    && (forall id {:trigger RowOk(s, id)} | id in s.rows :: RowOk(s, id))
    && (forall o {:trigger WorkerOk(s, o)} | o in s.workers :: WorkerOk(s, o))
    && (forall t {:trigger EntryOk(s, t)} | t in s.ledger :: EntryOk(s, t))
    && (forall i {:trigger CopyOk(s, s.copies[i])} | 0 <= i < |s.copies| :: CopyOk(s, s.copies[i]))
  }

  lemma {:induction false} CopiesKept(s: State, s': State)
    requires Inv(s) && s'.copies == s.copies && s.now <= s'.now
    requires forall o | o in s.workers :: o in s'.workers && s'.workers[o].claimedAt == s.workers[o].claimedAt
    requires forall t | t in s.ledger :: t in s'.ledger && s'.ledger[t].rec == s.ledger[t].rec
    ensures forall i {:trigger CopyOk(s', s'.copies[i])} | 0 <= i < |s'.copies| :: CopyOk(s', s'.copies[i])
  {
    forall i | 0 <= i < |s'.copies| ensures CopyOk(s', s'.copies[i]) {
      assert CopyOk(s, s.copies[i]);
    }
  }

  // ---- Steps that touch no worker -------------------------------------------------

  /** A worker and its queue look the same when the rows it owns and the history of its
      claims do. */
  predicate SameForWorkers(s: State, s': State) {
    && s'.workers == s.workers && s.now <= s'.now
    && (forall id {:trigger id in s'.rows} | id in s.rows && s.rows[id].owner.Some? ::
         id in s'.rows && s'.rows[id] == s.rows[id] && id in s.tickets && id in s'.tickets
             && s'.tickets[id] == s.tickets[id])
    && (forall id {:trigger id in s'.rows} | id in s'.rows && s'.rows[id].owner.Some? ::
         id in s.rows && s.rows[id] == s'.rows[id])
    && (forall t {:trigger t in s'.ledger} | t in s.ledger ::
         t in s'.ledger && s'.ledger[t] == s.ledger[t].(purged := s'.ledger[t].purged))
  }

  lemma {:induction false} WorkersKept(s: State, s': State)
    requires Inv(s) && SameForWorkers(s, s')
    ensures forall o {:trigger WorkerOk(s', o)} | o in s'.workers :: WorkerOk(s', o)
  {
    forall o | o in s'.workers ensures WorkerOk(s', o) {
      assert WorkerOk(s, o);
      forall i | 0 <= i < |s.workers[o].queue| ensures PlaceOk(s', o, i) {
        PlaceKept(s, s', o, i);
      }
    }
  }

  lemma {:induction false} PlaceKept(s: State, s': State, o: Uuid, i: nat)
    requires Inv(s) && SameForWorkers(s, s') && o in s.workers && i < |s.workers[o].queue|
    ensures PlaceOk(s', o, i)
  {
    assert WorkerOk(s, o);
    assert PlaceOk(s, o, i);
    var item := s.workers[o].queue[i];
    assert item.ticket in s'.ledger;
    assert item.rec.id in s.rows && s.rows[item.rec.id].owner.Some? ==> item.rec.id in s'.rows;
  }

  lemma {:induction false} FreshTicket(s: State)
    requires Inv(s)
    ensures s.next !in s.ledger
  {
    forall t | t in s.ledger ensures t < s.next {
      assert EntryOk(s, t);
    }
  }

  lemma {:induction false} EnqueueKeeps(s: State, rec: OutboxRecord, guarded: bool)
    requires Inv(s)
    ensures Inv(DoEnqueue(s, rec, guarded))
  {
    hide EntryOk, Publishable, RowOk;
    var s' := DoEnqueue(s, rec, guarded);
    if s' != s {
      FreshTicket(s);
      forall id | id in s'.rows ensures RowOk(s', id) {
        EnqueueKeepsRow(s, rec, guarded, id);
      }
      WorkersKept(s, s');
      forall t | t in s'.ledger ensures EntryOk(s', t) {
        EnqueueKeepsEntry(s, rec, guarded, t);
      }
      CopiesKept(s, s');
    }
  }

  lemma {:induction false} EnqueueKeepsRow(s: State, rec: OutboxRecord, guarded: bool, id: Uuid)
    requires Inv(s) && id in DoEnqueue(s, rec, guarded).rows && DoEnqueue(s, rec, guarded) != s
    ensures RowOk(DoEnqueue(s, rec, guarded), id)
  {
    FreshTicket(s);
    if id != rec.id { assert RowOk(s, id); }
  }

  lemma {:induction false} EnqueueKeepsEntry(s: State, rec: OutboxRecord, guarded: bool, t: nat)
    requires Inv(s) && DoEnqueue(s, rec, guarded) != s && t in DoEnqueue(s, rec, guarded).ledger
    ensures EntryOk(DoEnqueue(s, rec, guarded), t)
  {
    var s' := DoEnqueue(s, rec, guarded);
    FreshTicket(s);
    if t in s.ledger {
      assert EntryOk(s, t);
      assert Present(s', t) <==> Present(s, t);
    } else {
      assert Present(s', t) && RowOf(s', t) == Staged(rec, s.now);
    }
  }

  lemma {:induction false} TickKeeps(s: State, ms: nat)
    requires Inv(s)
    ensures Inv(Next(s, Tick(ms)))
  {
    var s' := Next(s, Tick(ms));
    forall id | id in s'.rows ensures RowOk(s', id) {
      assert RowOk(s, id);
    }
    WorkersKept(s, s');
    forall t | t in s'.ledger ensures EntryOk(s', t) {
      assert EntryOk(s, t);
      assert Present(s', t) <==> Present(s, t);
    }
    CopiesKept(s, s');
  }

  lemma {:induction false} PurgeKeeps(s: State, age: int)
    requires Inv(s)
    ensures Inv(DoPurge(s, age))
  {
    hide RowOk, EntryOk;
    var s' := DoPurge(s, age);
    if age > 0 {
      OwnedSurvivePurge(s, age);
      forall id | id in s'.rows ensures RowOk(s', id) {
        PurgeKeepsRow(s, age, id);
      }
      WorkersKept(s, s');
      forall t | t in s'.ledger ensures EntryOk(s', t) {
        PurgeKeepsEntry(s, age, t);
      }
      CopiesKept(s, s');
    }
  }

  lemma {:induction false} OwnedSurvivePurge(s: State, age: int)
    requires Inv(s)
    ensures forall id | id in s.rows :: s.rows[id].owner.Some? ==> id in DoPurge(s, age).rows
  {
    forall id | id in s.rows ensures s.rows[id].owner.Some? ==> id in DoPurge(s, age).rows {
      assert RowOk(s, id);
    }
  }

  lemma {:induction false} PurgeKeepsRow(s: State, age: int, id: Uuid)
    requires Inv(s) && age > 0 && id in DoPurge(s, age).rows
    ensures RowOk(DoPurge(s, age), id)
  {
    assert RowOk(s, id);
  }

  lemma {:induction false} PurgeKeepsEntry(s: State, age: int, t: nat)
    requires Inv(s) && age > 0 && t in s.ledger
    ensures EntryOk(DoPurge(s, age), t)
  {
    assert EntryOk(s, t);
  }

  // ---- Claims ---------------------------------------------------------------------

  lemma {:induction false} ClaimKeeps(s: State, o: Uuid, ids: seq<Uuid>, limit: int, ttl: int, maxAttempts: int,
                                      db: Db)
    requires Inv(s) && CanClaim(s, o, ids, limit, ttl) && !db.FailedBefore?
    ensures Inv(DoClaim(s, o, ids, limit, ttl, maxAttempts, db))
  {
    hide RowOk, WorkerOk, EntryOk, CopyOk, Effect;
    var s' := DoClaim(s, o, ids, limit, ttl, maxAttempts, db);
    var st := Claim(ids, o, ttl);
    ExecuteKeepsRecords(s, st);
    forall id | id in s'.rows ensures RowOk(s', id) {
      ClaimKeepsRow(s, s', st, id);
    }
    forall p | p in s'.workers ensures WorkerOk(s', p) {
      if p != o {
        ClaimLeavesWorker(s, s', st, p);
      } else {
        ClaimedWorkerOk(s, s', st, !db.Fine?);
      }
    }
    forall t | t in s'.ledger ensures EntryOk(s', t) {
      ClaimKeepsEntry(s, s', st, t);
    }
    CopiesKept(s, s');
  }

  /** No statement changes an admission's record. */
  lemma {:induction false} ExecuteKeepsRecords(s: State, st: Stmt)
    ensures var s' := Execute(s, st);
            && s'.rows.Keys == s.rows.Keys && s'.tickets == s.tickets && s'.copies == s.copies
            && s'.workers == s.workers && s'.now == s.now
            && s'.ledger.Keys == s.ledger.Keys && forall t | t in s.ledger :: s'.ledger[t].rec == s.ledger[t].rec
  {
    hide Effect, Selects;
  }

  predicate Queues(s: State, w: Worker, ids: seq<Uuid>) {
    |w.queue| == |ids| && forall i | 0 <= i < |ids| :: w.queue[i].rec.id == ids[i]
  }

  lemma {:induction false} ClaimKeepsRow(s: State, s': State, st: Stmt, id: Uuid)
    requires Inv(s) && st.Claim? && 0 < st.ttl && st.owner !in s.workers && id in s.rows
    requires st.owner in s'.workers && s' == SetWorker(Execute(s, st), st.owner, s'.workers[st.owner])
    requires var w := s'.workers[st.owner];
             w.claimedAt == s.now && w.ttl == st.ttl && w.pc != Finished(true) && Queues(s, w, st.ids)
    ensures RowOk(s', id)
  {
    assert RowOk(s, id);
    if Selects(st, id, s.rows[id], s.now) {
      var i :| 0 <= i < |st.ids| && st.ids[i] == id;
      assert s'.workers[st.owner].queue[i].rec.id == id;
    }
  }

  lemma {:induction false} ClaimLeavesWorker(s: State, s': State, st: Stmt, p: Uuid)
    requires Inv(s) && st.Claim? && p in s.workers && p != st.owner
    requires st.owner in s'.workers && s' == SetWorker(Execute(s, st), st.owner, s'.workers[st.owner])
    ensures WorkerOk(s', p)
  {
    assert WorkerOk(s, p);
    var w := s.workers[p];
    forall i | 0 <= i < |w.queue| ensures PlaceOk(s', p, i) {
      var id := w.queue[i].rec.id;
      assert PlaceOk(s, p, i);
      if id in s.rows { assert RowOk(s, id); }
    }
  }

  lemma {:induction false} ClaimedWorkerOk(s: State, s': State, st: Stmt, replyLost: bool)
    requires Inv(s) && st.Claim? && st.owner !in s.workers && 0 < st.ttl && ClaimChoice(s.rows, st.ids, s.now, |st.ids|)
    requires st.owner in s'.workers && s' == SetWorker(Execute(s, st), st.owner, s'.workers[st.owner])
    requires var w := s'.workers[st.owner];
             && w.pc == (if replyLost then Finished(false) else AtRow)
             && |w.queue| == |st.ids| && w.ttl == st.ttl && w.claimedAt == s.now
             && forall i | 0 <= i < |st.ids| ::
                  w.queue[i] == Item(Returned(st.ids[i], s'.rows[st.ids[i]]), TicketOf(s, st.ids[i]))
    ensures WorkerOk(s', st.owner)
  {
    var o, w := st.owner, s'.workers[st.owner];
    forall i | 0 <= i < |w.queue|
      ensures PlaceOk(s', o, i)
    {
      var id := st.ids[i];
      assert RowOk(s, id);
      var t := s.tickets[id];
      assert EntryOk(s, t);
      assert Present(s, t) && Selects(st, id, RowOf(s, t), s.now);
    }
  }

  lemma {:induction false} ClaimKeepsEntry(s: State, s': State, st: Stmt, t: nat)
    requires Inv(s) && st.Claim? && st.owner !in s.workers && t in s.ledger
    requires st.owner in s'.workers && s' == SetWorker(Execute(s, st), st.owner, s'.workers[st.owner])
    ensures EntryOk(s', t)
  {
    assert EntryOk(s, t);
    assert Present(s', t) <==> Present(s, t);
    if Present(s, t) {
      assert RowOk(s, s.ledger[t].rec.id);
    }
  }

  // ---- Steps of a running batch ---------------------------------------------------

  /** How a batch's own statement and its next position fit together. */
  predicate StatementMove(w: Worker, w': Worker, o: Uuid, st: Stmt, applied: bool) {
    && !st.Claim? && st.owner == o
    && w'.claimedAt == w.claimedAt && w'.ttl == w.ttl
    && !HeadReached(w') && !w'.pc.Offering?
    && (if w'.Draining() then
          && applied && w.Draining() && w.queue != [] && w'.queue == w.queue[1..]
          && !st.Release? && st.id == w.queue[0].rec.id
        else w'.queue == w.queue)
    && (w'.pc == Finished(true) ==> applied && st.Release?)
    && (st.MarkPublished? ==> w.pc.Marking? && w.queue != [] && st.id == w.queue[0].rec.id)
  }

  lemma {:induction false} StatementShape(w: Worker, o: Uuid, now: int, held: bool, answer: Answer, db: Db)
    requires Pipeline.Pending(w, o, now).Some?
    ensures StatementMove(w, Moved(w, held, answer, db), o, Pipeline.Pending(w, o, now).value, !db.FailedBefore?)
  {
  }

  function AfterStatement(s: State, o: Uuid, st: Stmt, applied: bool, w': Worker): State {
    SetWorker(if applied then Execute(s, st) else s, o, w')
  }

  lemma {:induction false} StatementKeeps(s: State, o: Uuid, st: Stmt, applied: bool, w': Worker)
    requires Inv(s) && o in s.workers && StatementMove(s.workers[o], w', o, st, applied)
    ensures Inv(AfterStatement(s, o, st, applied, w'))
  {
    hide RowOk, EntryOk, CopyOk, PlaceOk, Effect;
    var s' := AfterStatement(s, o, st, applied, w');
    ExecuteKeepsRecords(s, st);
    assert WorkerOk(s, o);
    forall id | id in s'.rows ensures RowOk(s', id) {
      assert RowOk(s, id);
      StatementKeepsRow(s, o, st, applied, w', id);
    }
    forall p | p in s'.workers ensures WorkerOk(s', p) {
      if p == o { StatementKeepsOwn(s, o, st, applied, w'); } else { StatementKeepsOthers(s, o, st, applied, w', p); }
    }
    forall t | t in s'.ledger ensures EntryOk(s', t) {
      StatementKeepsEntry(s, o, st, applied, w', t);
    }
    CopiesKept(s, s');
  }

  /** The statement's row afterwards: untouched, or rewritten and without an owner. */
  lemma {:induction false} StatementOnRow(st: Stmt, o: Uuid, id: Uuid, r: Row, now: int)
    requires !st.Claim? && st.owner == o && (r.status.Pending? || r.owner.None?)
    ensures var r' := Updated(st, id, r, now);
            && (if r.owner == Some(o) && (st.Release? || st.id == id)
                then r'.owner.None? && r'.expiresAt.None? else r' == r)
            && (r'.status.Pending? ==> r'.availableAt <= Max(r.availableAt, now + 256_000))
            && (0 <= r.attempts ==> 0 <= r'.attempts)
  {
    BackoffBounds(r.attempts);
  }

  lemma {:induction false} StatementKeepsRow(s: State, o: Uuid, st: Stmt, applied: bool, w': Worker, id: Uuid)
    requires o in s.workers && StatementMove(s.workers[o], w', o, st, applied) && id in s.rows && RowOk(s, id)
    ensures RowOk(AfterStatement(s, o, st, applied, w'), id)
  {
    var w, r := s.workers[o], s.rows[id];
    var s' := AfterStatement(s, o, st, applied, w');
    StatementOnRow(st, o, id, r, s.now);
    if s'.rows[id].owner.Some? {
      assert s'.rows[id] == r && OwnedOk(s, id, r.owner.value);
      if r.owner == Some(o) && w'.Draining() {
        var i :| 0 <= i < |w.queue| && w.queue[i].rec.id == id;
        assert w'.queue[i - 1] == w.queue[i];
      }
    }
  }

  /** Statements other than claims leave claims, offers and acknowledgements as they are,
      and change a row only when they take it from its owner. */
  lemma {:induction false} StatementKeepsPlace(s: State, o: Uuid, st: Stmt, applied: bool, w': Worker, p: Uuid,
                                               i: nat, j: nat)
    requires o in s.workers && StatementMove(s.workers[o], w', o, st, applied) && DistinctIds(s.workers[o].queue)
    requires p in s.workers && i < |s.workers[p].queue| && PlaceOk(s, p, i)
    requires var id := s.workers[p].queue[i].rec.id; id in s.rows ==> RowOk(s, id)
    requires var s' := AfterStatement(s, o, st, applied, w');
             && j < |s'.workers[p].queue| && s'.workers[p].queue[j] == s.workers[p].queue[i]
             && (p == o && w'.Draining() ==> i == j + 1) && (p != o || !w'.Draining() ==> i == j)
    ensures PlaceOk(AfterStatement(s, o, st, applied, w'), p, j)
  {
    var item := s.workers[p].queue[i];
    if item.rec.id in s.rows {
      StatementOnRow(st, o, item.rec.id, s.rows[item.rec.id], s.now);
    }
  }

  lemma {:induction false} StatementKeepsOthers(s: State, o: Uuid, st: Stmt, applied: bool, w': Worker, p: Uuid)
    requires Inv(s) && o in s.workers && StatementMove(s.workers[o], w', o, st, applied) && p in s.workers && p != o
    ensures WorkerOk(AfterStatement(s, o, st, applied, w'), p)
  {
    var s' := AfterStatement(s, o, st, applied, w');
    assert WorkerOk(s, p) && WorkerOk(s, o);
    forall i | 0 <= i < |s.workers[p].queue| ensures PlaceOk(s', p, i) {
      var item := s.workers[p].queue[i];
      assert PlaceOk(s, p, i);
      if item.rec.id in s.rows { assert RowOk(s, item.rec.id); }
      StatementKeepsPlace(s, o, st, applied, w', p, i, i);
    }
  }

  lemma {:induction false} StatementKeepsOwn(s: State, o: Uuid, st: Stmt, applied: bool, w': Worker)
    requires Inv(s) && o in s.workers && StatementMove(s.workers[o], w', o, st, applied)
    ensures WorkerOk(AfterStatement(s, o, st, applied, w'), o)
  {
    var s' := AfterStatement(s, o, st, applied, w');
    var w, d := s.workers[o], if w'.Draining() then 1 else 0;
    assert WorkerOk(s, o);
    forall i | 0 <= i < |w'.queue| ensures PlaceOk(s', o, i) {
      assert w'.queue[i] == w.queue[i + d];
      assert PlaceOk(s, o, i + d);
      if w'.queue[i].rec.id in s.rows { assert RowOk(s, w'.queue[i].rec.id); }
      StatementKeepsPlace(s, o, st, applied, w', o, i + d, i);
    }
  }

  lemma {:induction false} StatementKeepsEntry(s: State, o: Uuid, st: Stmt, applied: bool, w': Worker, t: nat)
    requires Inv(s) && o in s.workers && StatementMove(s.workers[o], w', o, st, applied) && t in s.ledger
    ensures EntryOk(AfterStatement(s, o, st, applied, w'), t)
  {
    var s' := AfterStatement(s, o, st, applied, w');
    var w, e := s.workers[o], s.ledger[t];
    assert EntryOk(s, t) && WorkerOk(s, o);
    assert Present(s', t) <==> Present(s, t);
    if Present(s, t) {
      var id := e.rec.id;
      assert RowOk(s, id);
      if st.MarkPublished? && Selects(st, id, RowOf(s, t), s.now) {
        assert PlaceOk(s, o, 0);
      }
      if applied && Selects(st, id, RowOf(s, t), s.now) {
        NotedKeeps(s, st, e, RowOf(s, t));
      }
    }
  }

  /** The history of a row that a statement takes from its owner stays in step with it. */
  lemma {:induction false} NotedKeeps(s: State, st: Stmt, e: Entry, r: Row)
    requires !st.Claim? && PresentOk(s, e, r) && r.owner == Some(st.owner) && r.status.Pending? && 1 <= r.attempts
    requires st.MarkPublished? ==> e.acked
    ensures PresentOk(s, Noted(st, e, s.now), Rewritten(st, r, s.now))
  {
    BackoffBounds(r.attempts);
  }

  /** A move of the batch that touches nothing else. */
  lemma {:induction false} MoveKeeps(s: State, o: Uuid, w': Worker)
    requires Inv(s) && o in s.workers
    requires var w := s.workers[o];
             && w' == w.(pc := w'.pc) && !HeadReached(w')
             && (w'.Draining() ==> w.Draining() && !HeadReached(w)) && (w'.pc.Offering? ==> w.queue != [])
             && (w'.pc == Finished(true) ==> w.Draining() && (w.queue == [] || w.Expired(s.now)))
    ensures Inv(SetWorker(s, o, w'))
  {
    var s' := SetWorker(s, o, w');
    forall id | id in s'.rows ensures RowOk(s', id) {
      assert RowOk(s, id);
      MoveKeepsRow(s, o, w', id);
    }
    forall p | p in s'.workers ensures WorkerOk(s', p) {
      assert WorkerOk(s, p);
      forall i | 0 <= i < |s'.workers[p].queue| ensures PlaceOk(s', p, i) {
        assert PlaceOk(s, p, i);
      }
    }
    forall t | t in s'.ledger ensures EntryOk(s', t) {
      assert EntryOk(s, t);
      assert Present(s', t) <==> Present(s, t);
    }
    CopiesKept(s, s');
  }

  lemma {:induction false} MoveKeepsRow(s: State, o: Uuid, w': Worker, id: Uuid)
    requires o in s.workers && id in s.rows && RowOk(s, id)
    requires var w := s.workers[o];
             && w' == w.(pc := w'.pc) && (w'.Draining() ==> w.Draining())
             && (w'.pc == Finished(true) ==> w.Draining() && (w.queue == [] || w.Expired(s.now)))
    ensures RowOk(SetWorker(s, o, w'), id)
  {
  }

  /** The broker call: `Offering` becomes `Marking` or `Failing`. */
  predicate OfferMove(w: Worker, w': Worker, answer: Answer) {
    w.pc.Offering? && w.queue != [] && w' == w.(pc := if answer.Acked? then Marking else Failing(answer.error))
  }

  function AfterOffer(s: State, o: Uuid, answer: Answer, w': Worker): State
    requires o in s.workers && s.workers[o].queue != []
  {
    SetWorker(Offer(s, o, s.workers[o].queue[0], answer), o, w')
  }

  lemma {:induction false} OfferKeeps(s: State, o: Uuid, answer: Answer, w': Worker)
    requires Inv(s) && o in s.workers && OfferMove(s.workers[o], w', answer)
    ensures Inv(AfterOffer(s, o, answer, w'))
  {
    var s' := AfterOffer(s, o, answer, w');
    forall id | id in s'.rows ensures RowOk(s', id) {
      assert RowOk(s, id);
      OfferKeepsRow(s, o, answer, w', id);
    }
    forall p | p in s'.workers ensures WorkerOk(s', p) {
      OfferKeepsWorker(s, o, answer, w', p);
    }
    forall t | t in s'.ledger ensures EntryOk(s', t) {
      OfferKeepsEntry(s, o, answer, w', t);
    }
    assert WorkerOk(s, o);
    assert PlaceOk(s, o, 0);
    forall i | 0 <= i < |s'.copies| ensures CopyOk(s', s'.copies[i]) {
      if i < |s.copies| { assert CopyOk(s, s.copies[i]); }
    }
  }

  lemma {:induction false} OfferKeepsRow(s: State, o: Uuid, answer: Answer, w': Worker, id: Uuid)
    requires o in s.workers && OfferMove(s.workers[o], w', answer) && id in s.rows && RowOk(s, id)
    ensures RowOk(AfterOffer(s, o, answer, w'), id)
  {
  }

  lemma {:induction false} OfferKeepsEntry(s: State, o: Uuid, answer: Answer, w': Worker, t: nat)
    requires Inv(s) && o in s.workers && OfferMove(s.workers[o], w', answer) && t in s.ledger
    ensures EntryOk(AfterOffer(s, o, answer, w'), t)
  {
    var s' := AfterOffer(s, o, answer, w');
    var item := s.workers[o].queue[0];
    assert WorkerOk(s, o);
    assert PlaceOk(s, o, 0);
    assert EntryOk(s, t);
    DepositKeepsCopies(s.copies, Copy(item.rec.dedupId, s.now, o, item.ticket), s.window);
    assert Present(s', t) <==> Present(s, t);
  }

  lemma {:induction false} OfferKeepsWorker(s: State, o: Uuid, answer: Answer, w': Worker, p: Uuid)
    requires Inv(s) && o in s.workers && OfferMove(s.workers[o], w', answer) && p in s.workers
    ensures WorkerOk(AfterOffer(s, o, answer, w'), p)
  {
    var s' := AfterOffer(s, o, answer, w');
    assert WorkerOk(s, p) && WorkerOk(s, o);
    forall i | 0 <= i < |s'.workers[p].queue| ensures PlaceOk(s', p, i) {
      assert PlaceOk(s, p, i) && PlaceOk(s, o, 0);
    }
  }

  lemma {:induction false} DepositKeepsCopies(copies: seq<Copy>, c: Copy, window: nat)
    ensures copies <= Deposit(copies, c, window)
    ensures HasCopy(Deposit(copies, c, window), c.dedupId)
    ensures forall d {:trigger HasCopy(Deposit(copies, c, window), d)} ::
              HasCopy(copies, d) ==> HasCopy(Deposit(copies, c, window), d)
  {
    var after := Deposit(copies, c, window);
    if after != copies {
      assert after[|copies|] == c;
    }
    forall d | HasCopy(copies, d) ensures HasCopy(after, d) {
      var i :| 0 <= i < |copies| && copies[i].dedupId == d;
      assert after[i].dedupId == d;
    }
  }

  /** What a step without a statement does to the batch: end of queue, lease check, broker
      call, or nothing. */
  lemma {:induction false} QuietShape(w: Worker, o: Uuid, now: int, held: bool, answer: Answer, db: Db)
    requires Pipeline.Pending(w, o, now).None?
    ensures var w' := Moved(w, held, answer, db);
            || w' == w
            || OfferMove(w, w', answer)
            || (w.pc.AtRow? && w' == w.(pc := w'.pc)
                && (w'.pc.Erring? || (w'.pc.Offering? && w.queue != [])
                    || (w'.pc == Finished(true) && (w.queue == [] || !held))))
  {
  }

  lemma {:induction false} AdvanceKeeps(s: State, o: Uuid, answer: Answer, db: Db)
    requires Inv(s)
    ensures Inv(DoAdvance(s, o, answer, db))
  {
    hide Publishable, Prepare, ErrorText, Deposit, Rewritten;
    if o in s.workers {
      var w, held := s.workers[o], HeadHeld(s, o, s.workers[o]);
      var w' := Moved(w, held, answer, db);
      match Pipeline.Pending(w, o, s.now)
      case Some(st) =>
        StatementShape(w, o, s.now, held, answer, db);
        StatementKeeps(s, o, st, !db.FailedBefore?, w');
      case None =>
        QuietShape(w, o, s.now, held, answer, db);
        if OfferMove(w, w', answer) {
          OfferKeeps(s, o, answer, w');
        } else if w' == w {
          assert DoAdvance(s, o, answer, db) == s;
        } else {
          if w.queue != [] { LapsedHeadMeansExpired(s, o); }
          MoveKeeps(s, o, w');
        }
    }
  }

  /** A head that is no longer held means the whole claim has expired. */
  lemma {:induction false} LapsedHeadMeansExpired(s: State, o: Uuid)
    requires Inv(s) && o in s.workers && s.workers[o].Draining() && s.workers[o].queue != []
    ensures HeadHeld(s, o, s.workers[o]) || s.workers[o].Expired(s.now)
  {
    assert WorkerOk(s, o);
    assert PlaceOk(s, o, 0);
    var id := s.workers[o].queue[0].rec.id;
    if id in s.rows { assert RowOk(s, id); }
  }

  lemma {:induction false} CrashKeeps(s: State, o: Uuid)
    requires Inv(s)
    ensures Inv(Next(s, Crash(o)))
  {
    if o in s.workers && !s.workers[o].pc.Finished? {
      MoveKeeps(s, o, s.workers[o].(pc := Crashed));
    }
  }

  lemma {:induction false} NextKeeps(s: State, step: Step)
    requires Inv(s)
    ensures Inv(Next(s, step))
  {
    match step
    case Enqueue(rec, guarded) => EnqueueKeeps(s, rec, guarded);
    case Tick(ms) => TickKeeps(s, ms);
    case PurgePublished(age) => PurgeKeeps(s, age);
    case ClaimBatch(o, ids, limit, ttl, maxAttempts, db) =>
      if CanClaim(s, o, ids, limit, ttl) && !db.FailedBefore? {
        ClaimKeeps(s, o, ids, limit, ttl, maxAttempts, db);
      }
    case Advance(o, answer, db) => AdvanceKeeps(s, o, answer, db);
    case Crash(o) => CrashKeeps(s, o);
  }

  lemma {:induction false} RunKeeps(s: State, steps: seq<Step>)
    requires Inv(s)
    ensures Inv(Run(s, steps))
  {
    if steps != [] {
      RunKeeps(s, steps[..|steps| - 1]);
      NextKeeps(Run(s, steps[..|steps| - 1]), steps[|steps| - 1]);
    }
  }

  /** Every reachable state satisfies the invariant. */
  lemma {:induction false} Reachable(now: int, window: nat, steps: seq<Step>)
    ensures Inv(Run(Init(now, window), steps))
  {
    assert Inv(Init(now, window));
    RunKeeps(Init(now, window), steps);
  }
}
