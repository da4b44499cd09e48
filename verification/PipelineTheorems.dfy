/** What holds of every run of the relays: conservation, fencing, batch exit, attempt
    accounting, no stranded row, and one copy per message under a verified window. */
module PipelineTheorems {
  import opened Wrappers
  import opened Outbox
  import opened OutboxTable
  import opened Pipeline
  import opened PipelineInvariant

  // ---- One step, one row ----------------------------------------------------------

  /** The statement a step executes on the table, if it executes one. */
  function StepStmt(s: State, step: Step): Option<Stmt> {
    match step
    case ClaimBatch(o, ids, limit, ttl, _, db) =>
      if CanClaim(s, o, ids, limit, ttl) && !db.FailedBefore? then Some(Claim(ids, o, ttl)) else None
    case Advance(o, _, db) =>
      if o in s.workers && !db.FailedBefore? then Pipeline.Pending(s.workers[o], o, s.now) else None
    case _ => None
  }

  /** What one step may do to an admission, given the statement it executes. */
  predicate RowFollows(s: State, s': State, t: nat, stmt: Option<Stmt>)
    requires t in s.ledger
  {
    && t in s'.ledger && s'.ledger[t].rec == s.ledger[t].rec
    && (Present(s', t) <==> Present(s, t))
    && (Present(s, t) ==>
         RowOf(s', t) == match stmt
           case None => RowOf(s, t)
           case Some(st) => Updated(st, s.ledger[t].rec.id, RowOf(s, t), s.now))
  }

  lemma {:induction false} ExecuteFollows(s: State, st: Stmt, t: nat)
    requires t in s.ledger
    ensures RowFollows(s, Execute(s, st), t, Some(st))
  {
    var s' := Execute(s, st);
    assert s'.ledger[t].rec == s.ledger[t].rec;
    assert Present(s', t) <==> Present(s, t);
  }

  lemma {:induction false} EnqueueFollows(s: State, rec: OutboxRecord, guarded: bool, t: nat)
    requires Inv(s) && t in s.ledger
    ensures RowFollows(s, DoEnqueue(s, rec, guarded), t, None)
  {
    assert EntryOk(s, t);
  }

  lemma {:induction false} AdvanceFollows(s: State, o: Uuid, answer: Answer, db: Db, t: nat)
    requires t in s.ledger
    ensures RowFollows(s, DoAdvance(s, o, answer, db), t, StepStmt(s, Advance(o, answer, db)))
  {
    hide Publishable, Prepare, ErrorText, Deposit, Moved, Rewritten, Selects, StillHeld, FailureStmt;
    if o in s.workers && Pipeline.Pending(s.workers[o], o, s.now).Some? {
      ExecuteFollows(s, Pipeline.Pending(s.workers[o], o, s.now).value, t);
    }
  }

  lemma {:induction false} StepRows(s: State, step: Step)
    requires !step.Enqueue? && !step.PurgePublished?
    ensures Next(s, step).rows == match StepStmt(s, step) case Some(st) => Effect(st, s.rows, s.now) case None => s.rows
  {
    hide Publishable, Prepare, ErrorText, Moved, Deposit, Effect, Noted, Selects;
  }

  /** An admitted row is changed only by the statement of the step, and goes away only when
      a purge finds it published and old enough. */
  lemma {:induction false} StepOnRow(s: State, step: Step, t: nat)
    requires Inv(s) && t in s.ledger
    ensures var s' := Next(s, step);
            if step.PurgePublished? && 0 < step.age && Present(s, t) && Purgeable(RowOf(s, t), s.now, step.age)
            then t in s'.ledger && s'.ledger[t].rec == s.ledger[t].rec && !Present(s', t)
            else RowFollows(s, s', t, StepStmt(s, step))
  {
    match step
    case Enqueue(rec, guarded) => EnqueueFollows(s, rec, guarded, t);
    case Tick(_) =>
    case PurgePublished(_) =>
    case ClaimBatch(o, ids, limit, ttl, _, _) =>
      if CanClaim(s, o, ids, limit, ttl) { ExecuteFollows(s, Claim(ids, o, ttl), t); }
    case Advance(o, answer, db) => AdvanceFollows(s, o, answer, db, t);
    case Crash(_) =>
  }

  /** Owners are drawn fresh, so an owner that no longer holds a row never holds it again. */
  lemma {:induction false} NotOwnedStays(s: State, step: Step, o: Uuid, t: nat)
    requires Inv(s) && o in s.workers && t in s.ledger
    requires Present(s, t) ==> RowOf(s, t).owner != Some(o)
    ensures o in Next(s, step).workers && t in Next(s, step).ledger
    ensures Present(Next(s, step), t) ==> RowOf(Next(s, step), t).owner != Some(o)
  {
    hide Publishable, Prepare, ErrorText, Deposit, Moved, Conflicts;
    StepOnRow(s, step, t);
  }

  // ---- Fencing --------------------------------------------------------------------

  lemma {:induction false} NeverOwnedAgain(s: State, steps: seq<Step>, o: Uuid, t: nat)
    requires Inv(s) && o in s.workers && Present(s, t) && RowOf(s, t).owner != Some(o)
    ensures var s' := Run(s, steps);
            o in s'.workers && t in s'.ledger && (Present(s', t) ==> RowOf(s', t).owner != Some(o))
  {
    if steps != [] {
      var before := steps[..|steps| - 1];
      NeverOwnedAgain(s, before, o, t);
      RunKeeps(s, before);
      NotOwnedStays(Run(s, before), steps[|steps| - 1], o, t);
    }
  }

  /** Once a row has left an owner, nothing that owner does at any later point of any run
      changes it: not a mark, a park, a reschedule or a release, whatever the row's status. */
  lemma {:induction false} StaleOwnerFenced(s: State, steps: seq<Step>, o: Uuid, t: nat, answer: Answer, db: Db)
    requires Inv(s) && o in s.workers && Present(s, t) && RowOf(s, t).owner != Some(o)
    requires Present(Run(s, steps), t)
    ensures var s' := Run(s, steps);
            Present(Next(s', Advance(o, answer, db)), t) && RowOf(Next(s', Advance(o, answer, db)), t) == RowOf(s', t)
  {
    NeverOwnedAgain(s, steps, o, t);
    RunKeeps(s, steps);
    var s' := Run(s, steps);
    StepOnRow(s', Advance(o, answer, db), t);
    var w := s'.workers[o];
    if Pipeline.Pending(w, o, s'.now).Some? {
      StatementShape(w, o, s'.now, false, answer, db);
      ForeignRowsUntouched(Pipeline.Pending(w, o, s'.now).value, s'.rows, s'.ledger[t].rec.id, s'.now);
    }
  }

  /** An admission keeps its record, and a row that went does not come back. */
  lemma {:induction false} TicketsStay(s: State, steps: seq<Step>, t: nat)
    requires Inv(s) && t in s.ledger
    ensures t in Run(s, steps).ledger && Run(s, steps).ledger[t].rec == s.ledger[t].rec
    ensures Present(Run(s, steps), t) ==> Present(s, t)
  {
    if steps != [] {
      var before := steps[..|steps| - 1];
      TicketsStay(s, before, t);
      RunKeeps(s, before);
      StepOnRow(Run(s, before), steps[|steps| - 1], t);
    }
  }

  /** A terminal row never changes again; it can only be purged, and only if published. */
  lemma {:induction false} TerminalForever(s: State, steps: seq<Step>, t: nat)
    requires Inv(s) && Present(s, t) && !RowOf(s, t).status.Pending?
    ensures var s' := Run(s, steps);
            if Present(s', t) then RowOf(s', t) == RowOf(s, t) else RowOf(s, t).status.Published?
  {
    if steps != [] {
      var before, last := steps[..|steps| - 1], steps[|steps| - 1];
      TerminalForever(s, before, t);
      RunKeeps(s, before);
      TicketsStay(s, before, t);
      var mid := Run(s, before);
      StepOnRow(mid, last, t);
      if Present(mid, t) { assert RowOk(mid, mid.ledger[t].rec.id); }
    }
  }

  // ---- Conservation ---------------------------------------------------------------

  datatype Fate = Waiting | Dead | Sent | Gone

  function FateOf(s: State, t: nat): Fate {
    if !Present(s, t) then Gone
    else match RowOf(s, t).status
      case Pending => Waiting
      case Failed => Dead
      case Published => Sent
  }

  /** No silent loss. An enqueue accepted at some point of a run is from then on exactly
      one of pending, failed, published or purged, with its content unchanged while its row
      exists; if it is published or purged then the broker acknowledged it, a copy with its
      dedup id was stored, and exactly one `mark_published` ever took effect on it; if it is
      pending or failed then none did. Whether the copy is the message's own is another
      matter, which `BrokerCopies` settles. */
  lemma {:induction false} Conservation(now: int, window: nat, before: seq<Step>, after: seq<Step>, t: nat)
    requires t in Run(Init(now, window), before).ledger
    requires Run(Init(now, window), before).ledger[t].rec.status.Pending?
    ensures var rec, s := Run(Init(now, window), before).ledger[t].rec, Run(Init(now, window), before + after);
            && t in s.ledger && s.ledger[t].rec == rec
            && (FateOf(s, t).Gone? <==> s.ledger[t].purged)
            && (!FateOf(s, t).Gone? ==>
                  rec.id in s.rows && s.rows[rec.id] == RowOf(s, t) && SameIdentity(RowOf(s, t), rec))
            && (if FateOf(s, t).Sent? || FateOf(s, t).Gone? then
                  s.ledger[t].acked && HasCopy(s.copies, rec.dedupId) && s.ledger[t].marks == 1
                else s.ledger[t].marks == 0)
  {
    Reachable(now, window, before);
    Reachable(now, window, before + after);
    RunConcat(Init(now, window), before, after);
    TicketsStay(Run(Init(now, window), before), after, t);
    assert EntryOk(Run(Init(now, window), before + after), t);
  }

  // ---- Batch exit -----------------------------------------------------------------

  /** A batch that returns Ok leaves nothing under a live lease of its owner, on each of
      the three exits of the loop and however other relays interleave. */
  lemma {:induction false} BatchExit(now: int, window: nat, steps: seq<Step>, o: Uuid)
    ensures var s := Run(Init(now, window), steps);
            o in s.workers && s.workers[o].pc == Finished(true) ==>
              forall id | id in s.rows :: !LiveLease(s.rows[id], o, s.now)
  {
    Reachable(now, window, steps);
    var s := Run(Init(now, window), steps);
    forall id | id in s.rows && o in s.workers && s.workers[o].pc == Finished(true)
      ensures !LiveLease(s.rows[id], o, s.now)
    {
      assert RowOk(s, id);
    }
  }

  /** After a database error the final release, if it takes effect, leaves the batch
      nothing at all. */
  lemma {:induction false} ErrorExit(now: int, window: nat, steps: seq<Step>, o: Uuid, answer: Answer, db: Db)
    requires var s := Run(Init(now, window), steps); o in s.workers && s.workers[o].pc.Erring?
    requires !db.FailedBefore?
    ensures var s' := Next(Run(Init(now, window), steps), Advance(o, answer, db));
            s'.workers[o].pc == Finished(false) && forall id | id in s'.rows :: s'.rows[id].owner != Some(o)
  {
    Reachable(now, window, steps);
    var s := Run(Init(now, window), steps);
    var s' := Next(s, Advance(o, answer, db));
    forall id | id in s'.rows ensures s'.rows[id].owner != Some(o) {
      assert RowOk(s, id);
    }
  }

  // ---- Attempts -------------------------------------------------------------------

  /** Every claim counts one attempt and every release takes one back; a release never
      meets the floor at zero. */
  lemma {:induction false} AttemptAccounting(now: int, window: nat, steps: seq<Step>, t: nat)
    requires Present(Run(Init(now, window), steps), t)
    ensures var s := Run(Init(now, window), steps); var e, r := s.ledger[t], RowOf(s, t);
            && r.attempts + |e.releasedBy| == Min(e.rec.attempts, I32_MAX) + |e.claimedBy|
            && forall o :: r.owner == Some(o) ==> Rewritten(Release(o), r, s.now).attempts == r.attempts - 1
  {
    Reachable(now, window, steps);
    var s := Run(Init(now, window), steps);
    assert EntryOk(s, t);
    assert RowOk(s, s.ledger[t].rec.id);
  }

  /** A row is parked for a failed broker call only after `max_attempts` claims that were
      not given back (less the attempts it was staged with). */
  lemma {:induction false} TransportParkNeedsAttempts(now: int, window: nat, steps: seq<Step>, o: Uuid,
                                                      answer: Answer, db: Db, t: nat)
    requires var s := Run(Init(now, window), steps);
             o in s.workers && s.workers[o].pc.Failing? && Present(s, t) && RowOf(s, t).status.Pending?
    requires var s' := Next(Run(Init(now, window), steps), Advance(o, answer, db));
             Present(s', t) && RowOf(s', t).status.Failed?
    ensures var s := Run(Init(now, window), steps); var e := s.ledger[t];
            |e.claimedBy| - |e.releasedBy| + Min(e.rec.attempts, I32_MAX) >= s.workers[o].maxAttempts
  {
    Reachable(now, window, steps);
    var s := Run(Init(now, window), steps);
    StepOnRow(s, Advance(o, answer, db), t);
    assert EntryOk(s, t);
    assert WorkerOk(s, o);
    assert PlaceOk(s, o, 0);
  }

  /** A run in which no database call fails. */
  predicate NoDbErrors(steps: seq<Step>) {
    forall k | 0 <= k < |steps| ::
      (steps[k].Advance? ==> steps[k].db.Fine?) && (steps[k].ClaimBatch? ==> steps[k].db.Fine?)
  }

  predicate CalmWorker(w: Worker) { !w.pc.Erring? && w.pc != Finished(false) }

  predicate CalmRelease(s: State, t: nat, o: Uuid)
    requires t in s.ledger
  {
    o in s.ledger[t].releasedBy ==> o !in s.ledger[t].offeredBy && o in s.workers && s.workers[o].pc == Finished(true)
  }

  ghost predicate Calm(s: State) {
    && (forall o {:trigger CalmWorker(s.workers[o])} | o in s.workers :: CalmWorker(s.workers[o]))
    && (forall t, o {:trigger CalmRelease(s, t, o)} | t in s.ledger :: CalmRelease(s, t, o))
  }

  /** A release after a failed broker call gives back only rows the batch never offered. */
  lemma {:induction false} ReleaseMissesOffered(s: State, o: Uuid, t: nat)
    requires Inv(s) && o in s.workers && s.workers[o].pc.Releasing?
    requires Present(s, t) && Selects(Release(o), s.ledger[t].rec.id, RowOf(s, t), s.now)
    ensures o !in s.ledger[t].offeredBy
  {
    var id, w := s.ledger[t].rec.id, s.workers[o];
    assert RowOk(s, id);
    var i :| 0 <= i < |w.queue| && w.queue[i].rec.id == id;
    assert WorkerOk(s, o);
    assert PlaceOk(s, o, i);
  }

  /** Only the releasing batch itself adds to the releases, and only the offering one to
      the offers. */
  lemma {:induction false} AdvanceHistory(s: State, p: Uuid, answer: Answer, db: Db, t: nat, o: Uuid)
    requires p in s.workers && t in s.ledger
    ensures var w := s.workers[p]; var e, e' := s.ledger[t], Acted(s, p, w, answer, db).ledger[t];
            && (o in e'.releasedBy && o !in e.releasedBy ==>
                 p == o && (w.pc.Releasing? || w.pc.Erring?) && Present(s, t)
                     && Selects(Release(o), e.rec.id, RowOf(s, t), s.now))
            && (o in e'.offeredBy && o !in e.offeredBy ==> p == o && w.pc.Offering?)
  {
    hide Selects, Deposit, Effect;
    var w := s.workers[p];
    match Pipeline.Pending(w, p, s.now)
    case Some(st) =>
      PendingRelease(w, p, s.now);
      ExecuteHistory(s, st, t, o);
    case None =>
  }

  lemma {:induction false} PendingRelease(w: Worker, p: Uuid, now: int)
    ensures var st := Pipeline.Pending(w, p, now);
            st.Some? && st.value.Release? ==> st == Some(Release(p)) && (w.pc.Releasing? || w.pc.Erring?)
  {
    hide Publishable, Prepare, ErrorText;
  }

  lemma {:induction false} ExecuteHistory(s: State, st: Stmt, t: nat, o: Uuid)
    requires t in s.ledger
    ensures var e, e' := s.ledger[t], Execute(s, st).ledger[t];
            && e'.offeredBy == e.offeredBy
            && (o in e'.releasedBy && o !in e.releasedBy ==>
                 st == Release(o) && Present(s, t) && Selects(st, e.rec.id, RowOf(s, t), s.now))
  {
    hide Selects, Effect;
  }

  lemma {:induction false} HistoryStep(s: State, step: Step, t: nat, o: Uuid)
    requires Inv(s) && t in s.ledger && t in Next(s, step).ledger
    ensures o in Next(s, step).ledger[t].releasedBy && o !in s.ledger[t].releasedBy ==>
              step.Advance? && step.owner == o && o in s.workers
              && (s.workers[o].pc.Releasing? || s.workers[o].pc.Erring?)
              && Present(s, t) && Selects(Release(o), s.ledger[t].rec.id, RowOf(s, t), s.now)
    ensures o in Next(s, step).ledger[t].offeredBy && o !in s.ledger[t].offeredBy ==>
              step.Advance? && step.owner == o && o in s.workers && s.workers[o].pc.Offering?
  {
    match step
    case Enqueue(rec, guarded) => assert EntryOk(s, t);
    case Tick(_) =>
    case PurgePublished(_) =>
    case ClaimBatch(_, _, _, _, _, _) =>
    case Advance(p, answer, db) => if p in s.workers { AdvanceHistory(s, p, answer, db, t, o); }
    case Crash(_) =>
  }

  lemma {:induction false} NewEntry(s: State, step: Step, t: nat)
    requires t in Next(s, step).ledger && t !in s.ledger
    ensures var e := Next(s, step).ledger[t];
            step.Enqueue? && e.rec == step.rec && e.releasedBy == {} == e.offeredBy && e.offers == 0
  {
    hide Publishable, Prepare, ErrorText, Effect, Purge, Conflicts, ClaimChoice, Deposit, HeadHeld, Moved;
  }

  /** Program positions along one step of a run without database errors. */
  lemma {:induction false} PositionStep(s: State, step: Step, o: Uuid)
    requires NoDbErrors([step]) && o in Next(s, step).workers
    ensures var w' := Next(s, step).workers[o];
            if o !in s.workers then w'.pc.AtRow?
            else var w := s.workers[o];
              && (w.pc == Finished(true) ==> w'.pc == w.pc)
              && (CalmWorker(w) ==> CalmWorker(w'))
              && (step.Advance? && step.owner == o && w.pc.Releasing? ==> w'.pc == Finished(true))
  {
    assert [step][0] == step;
  }

  lemma {:induction false} CalmStep(s: State, step: Step)
    requires Inv(s) && Calm(s) && NoDbErrors([step])
    ensures Calm(Next(s, step))
  {
    var s' := Next(s, step);
    forall o | o in s'.workers ensures CalmWorker(s'.workers[o]) {
      PositionStep(s, step, o);
      assert o in s.workers ==> CalmWorker(s.workers[o]);
    }
    forall t, o | t in s'.ledger ensures CalmRelease(s', t, o) {
      CalmReleaseStep(s, step, t, o);
    }
  }

  lemma {:induction false} CalmReleaseStep(s: State, step: Step, t: nat, o: Uuid)
    requires Inv(s) && Calm(s) && NoDbErrors([step]) && t in Next(s, step).ledger
    ensures CalmRelease(Next(s, step), t, o)
  {
    if t !in s.ledger {
      NewEntry(s, step, t);
    } else {
      HistoryStep(s, step, t, o);
      assert EntryOk(s, t);
      assert CalmRelease(s, t, o);
      WorkersStay(s, step, o);
      if o in s.workers {
        PositionStep(s, step, o);
        assert CalmWorker(s.workers[o]);
        if s.workers[o].pc.Releasing? && Present(s, t) && Selects(Release(o), s.ledger[t].rec.id, RowOf(s, t), s.now) {
          ReleaseMissesOffered(s, o, t);
        }
      }
    }
  }

  lemma {:induction false} WorkersStay(s: State, step: Step, o: Uuid)
    ensures o in s.workers ==> o in Next(s, step).workers
  {
  }

  lemma {:induction false} CalmRun(s: State, steps: seq<Step>)
    requires Inv(s) && Calm(s) && NoDbErrors(steps)
    ensures Calm(Run(s, steps))
  {
    if steps != [] {
      var before, last := steps[..|steps| - 1], steps[|steps| - 1];
      assert NoDbErrors([last]) by { assert [last][0] == steps[|steps| - 1]; }
      CalmRun(s, before);
      RunKeeps(s, before);
      CalmStep(Run(s, before), last);
    }
  }

  lemma {:induction false} DisjointSize(a: set<Uuid>, b: set<Uuid>, c: set<Uuid>)
    requires a <= c && b <= c && a !! b
    ensures |a| + |b| <= |c|
  {
    assert |a + b| == |a| + |b|;
    SubsetSize(a + b, c);
  }

  lemma {:induction false} SubsetSize(a: set<Uuid>, b: set<Uuid>)
    requires a <= b
    ensures |a| <= |b|
  {
    if a != {} {
      var x :| x in a;
      SubsetSize(a - {x}, b - {x});
    }
  }

  /** Without database errors a released claim was never offered, so the broker is called
      at most once per attempt that still counts. */
  lemma {:induction false} OffersWithinAttempts(now: int, window: nat, steps: seq<Step>, t: nat)
    requires NoDbErrors(steps) && t in Run(Init(now, window), steps).ledger
    ensures var s := Run(Init(now, window), steps); var e := s.ledger[t];
            && e.offeredBy !! e.releasedBy
            && e.offers + |e.releasedBy| <= |e.claimedBy|
            && (Present(s, t) ==> e.offers <= RowOf(s, t).attempts - Min(e.rec.attempts, I32_MAX))
  {
    Reachable(now, window, steps);
    assert Inv(Init(now, window));
    CalmRun(Init(now, window), steps);
    var s := Run(Init(now, window), steps);
    assert EntryOk(s, t);
    var e := s.ledger[t];
    forall o | o in e.releasedBy ensures o !in e.offeredBy {
      assert CalmRelease(s, t, o);
    }
    DisjointSize(e.offeredBy, e.releasedBy, e.claimedBy);
  }

  // ---- No stranded row ------------------------------------------------------------

  /** A pending row that is due is either claimable or under one owner's live lease, never
      both; and left alone, any pending row is claimable once 256 seconds and the lease of
      its current owner have gone by. */
  lemma {:induction false} NoStrandedRow(now: int, window: nat, steps: seq<Step>, id: Uuid, wait: nat)
    requires id in Run(Init(now, window), steps).rows
    requires Run(Init(now, window), steps).rows[id].status.Pending?
    ensures var s := Run(Init(now, window), steps); var r := s.rows[id];
            && (r.availableAt <= s.now ==>
                  (Claimable(r, s.now) <==> !exists o | o in s.workers :: LiveLease(r, o, s.now)))
            && (forall o, p :: LiveLease(r, o, s.now) && LiveLease(r, p, s.now) ==> o == p)
            && (256_000 <= wait && (forall o | o in s.workers :: r.owner == Some(o) ==> s.workers[o].ttl <= wait) ==>
                 Claimable(Next(s, Tick(wait)).rows[id], s.now + wait))
  {
    Reachable(now, window, steps);
    var s := Run(Init(now, window), steps);
    assert RowOk(s, id);
    if s.rows[id].owner.Some? {
      assert WorkerOk(s, s.rows[id].owner.value);
    }
  }
}
