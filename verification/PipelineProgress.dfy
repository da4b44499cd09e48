/** Progress of any number of overlapping relays: a measure no step but an enqueue can raise,
    and what it bounds in runs without lapses, crashes and database errors. */
module PipelineProgress {
  import opened Wrappers
  import opened Outbox
  import opened OutboxTable
  import opened Pipeline
  import opened PipelineInvariant
  import opened PipelineTheorems
  import DrainerTheorems

  // ---- The measure ------------------------------------------------------------------

  /** The attempts of a row that a settled batch has used: the one an owner has just been
      charged is still open. */
  function Used(r: Row): int { r.attempts - if r.owner.Some? then 1 else 0 }

  function RowWork(max: int, r: Row): nat { if r.status.Pending? then 1 + Max(0, max - Used(r)) else 0 }

  function WorkOf(max: int): Row -> nat { r => RowWork(max, r) }

  ghost function Work(rows: Rows, max: int): nat { DrainerTheorems.Sum(rows, WorkOf(max)) }

  ghost predicate Limited(s: State, max: int) { forall o | o in s.workers :: s.workers[o].maxAttempts <= max }

  predicate Settling(st: Stmt) { st.MarkPublished? || st.MarkFailed? || st.Reschedule? }

  /** The step marks, parks or reschedules a row, and takes effect on it. */
  predicate Settles(s: State, step: Step) {
    var st := StepStmt(s, step);
    st.Some? && Settling(st.value) && st.value.id in s.rows
        && Selects(st.value, st.value.id, s.rows[st.value.id], s.now)
  }

  /** Claiming and giving back leave a row's work as it is, or lower it when the claim takes
      over a lapsed lease; settling it lowers it. */
  lemma {:induction false} StmtWork(st: Stmt, id: Uuid, r: Row, now: int, max: int)
    requires r.owner.Some? ==> r.status.Pending? && 1 <= r.attempts
    requires st.Reschedule? && Selects(st, id, r, now) ==> r.attempts < max
    ensures RowWork(max, Updated(st, id, r, now))
        + (if Settling(st) && Selects(st, id, r, now) then 1 else 0) <= RowWork(max, r)
    ensures (st.Claim? && r.owner.None?) || st.Release? ==> RowWork(max, Updated(st, id, r, now)) == RowWork(max, r)
  {
    hide Backoff;
  }

  /** A batch reschedules only rows that have an attempt left. */
  lemma {:induction false} RescheduleNeedsRoom(s: State, step: Step, max: int)
    requires Inv(s) && Limited(s, max)
    requires StepStmt(s, step).Some? && StepStmt(s, step).value.Reschedule?
    requires var st := StepStmt(s, step).value; st.id in s.rows && s.rows[st.id].owner == Some(st.owner)
    ensures s.rows[StepStmt(s, step).value.id].attempts < max
  {
    hide Publishable, Prepare, ErrorText;
    var o := step.owner;
    assert WorkerOk(s, o);
    assert PlaceOk(s, o, 0);
  }

  lemma {:induction false} RowAfter(s: State, step: Step, st: Stmt, id: Uuid, max: int)
    requires Inv(s) && Limited(s, max) && StepStmt(s, step) == Some(st) && id in s.rows
    ensures RowWork(max, Updated(st, id, s.rows[id], s.now))
          + (if Settles(s, step) && id == st.id then 1 else 0) <= RowWork(max, s.rows[id])
  {
    hide StepStmt, RowWork, Updated;
    assert RowOk(s, id);
    if st.Reschedule? && Selects(st, id, s.rows[id], s.now) {
      RescheduleNeedsRoom(s, step, max);
    }
    StmtWork(st, id, s.rows[id], s.now, max);
  }

  lemma {:induction false} PurgeWithout(rows: Rows, now: int, age: int, id: Uuid)
    requires id in rows
    ensures Purge(rows - {id}, now, age) == Purge(rows, now, age) - {id}
    ensures id in Purge(rows, now, age) <==> !Purgeable(rows[id], now, age)
    ensures id in Purge(rows, now, age) ==> Purge(rows, now, age)[id] == rows[id]
  {
    hide Purgeable;
  }

  lemma {:induction false} PurgeWork(rows: Rows, now: int, age: int, max: int)
    ensures Work(Purge(rows, now, age), max) == Work(rows, max)
    decreases |rows|
  {
    hide Purgeable, RowWork, Purge;
    if rows == map[] {
      NothingToPurge(now, age);
    } else {
      var id :| id in rows;
      var f, left := WorkOf(max), Purge(rows, now, age);
      DrainerTheorems.SumPick(rows, f, id);
      PurgeWork(rows - {id}, now, age, max);
      PurgeWithout(rows, now, age, id);
      if id in left {
        DrainerTheorems.SumPick(left, f, id);
      } else {
        PurgeableIsDone(rows[id], now, age, max);
        assert left - {id} == left;
      }
    }
  }

  lemma {:induction false} NothingToPurge(now: int, age: int)
    ensures Purge(map[], now, age) == map[]
  {
  }

  lemma {:induction false} PurgeableIsDone(r: Row, now: int, age: int, max: int)
    requires Purgeable(r, now, age)
    ensures RowWork(max, r) == 0
  {
  }

  /** No step but an enqueue raises the work left, and every settling step lowers it. */
  lemma {:induction false} StepWork(s: State, step: Step, max: int)
    requires Inv(s) && Limited(s, max) && !step.Enqueue?
    ensures Work(Next(s, step).rows, max) + (if Settles(s, step) then 1 else 0) <= Work(s.rows, max)
  {
    hide StepStmt, RowWork, Effect, Selects, Updated, Inv, Limited, Purge;
    if step.PurgePublished? {
      PurgeWork(s.rows, s.now, step.age, max);
      assert !Settles(s, step) by { PurgeHasNoStmt(s, step); }
    } else {
      StepRows(s, step);
      match StepStmt(s, step)
      case None =>
      case Some(st) =>
        EffectRows(st, s.rows, s.now);
        var hit := if Settles(s, step) then {st.id} else {};
        forall id | id in s.rows
          ensures WorkOf(max)(Effect(st, s.rows, s.now)[id]) + (if id in hit then 1 else 0) <= WorkOf(max)(s.rows[id])
        {
          RowAfter(s, step, st, id, max);
        }
        DrainerTheorems.SumMonotone(s.rows, Effect(st, s.rows, s.now), WorkOf(max), hit);
    }
  }

  lemma {:induction false} EffectRows(st: Stmt, rows: Rows, now: int)
    ensures forall id | id in rows :: Effect(st, rows, now)[id] == Updated(st, id, rows[id], now)
  {
  }

  lemma {:induction false} PurgeHasNoStmt(s: State, step: Step)
    requires step.PurgePublished?
    ensures StepStmt(s, step).None?
  {
  }

  // ---- Runs without enqueues ----------------------------------------------------------

  predicate WithinLimit(step: Step, max: int) { step.ClaimBatch? ==> step.maxAttempts <= max }

  predicate NoEnqueue(steps: seq<Step>, max: int) {
    forall k | 0 <= k < |steps| :: !steps[k].Enqueue? && WithinLimit(steps[k], max)
  }

  function Settlements(s: State, steps: seq<Step>): nat {
    if steps == [] then 0
    else
      Settlements(s, steps[..|steps| - 1])
      + if Settles(Run(s, steps[..|steps| - 1]), steps[|steps| - 1]) then 1 else 0
  }

  lemma {:induction false} StaysLimited(s: State, step: Step, max: int)
    requires Limited(s, max) && WithinLimit(step, max)
    ensures Limited(Next(s, step), max)
  {
    hide Publishable, Prepare, ErrorText, Effect, Purge, Conflicts, ClaimChoice, Deposit, HeadHeld;
  }

  /** However many relays overlap, crash, lapse or lose replies: until something is enqueued,
      at most as many statements settle a row as there is work left. */
  lemma {:induction false} SettlementsBounded(s: State, steps: seq<Step>, max: int)
    requires Inv(s) && Limited(s, max) && NoEnqueue(steps, max)
    ensures var s' := Run(s, steps);
            && Inv(s') && Limited(s', max)
            && Work(s'.rows, max) + Settlements(s, steps) <= Work(s.rows, max)
  {
    hide Inv, Limited, Next, Settles, Work;
    if steps != [] {
      var before, last := steps[..|steps| - 1], steps[|steps| - 1];
      SettlementsBounded(s, before, max);
      NextKeeps(Run(s, before), last);
      StaysLimited(Run(s, before), last, max);
      StepWork(Run(s, before), last, max);
    }
  }

  // ---- Undisturbed runs ---------------------------------------------------------------

  /** No crash, no lost lease, no database error: statements succeed, a lease is alive when its
      batch looks, and claims find no lapsed owner. Relays may still overlap freely. */
  predicate Undisturbed(s: State, step: Step, max: int) {
    && !step.Crash?
    && (step.Enqueue? ==> step.rec.attempts < max)
    && (step.Advance? ==>
          step.db.Fine? && (step.owner in s.workers ==> LeaseAlive(s, step.owner, s.workers[step.owner])))
    && (step.ClaimBatch? ==> step.db.Fine? && step.maxAttempts <= max
                             && forall i | 0 <= i < |step.ids| && step.ids[i] in s.rows ::
                                  s.rows[step.ids[i]].owner.None?)
  }

  predicate LeaseAlive(s: State, o: Uuid, w: Worker) {
    w.pc.AtRow? && w.queue != [] && Publishable(w.queue[0].rec) ==> HeadHeld(s, o, w)
  }

  predicate UndisturbedRun(s: State, steps: seq<Step>, max: int) {
    forall k | 0 <= k < |steps| :: Undisturbed(Run(s, steps[..k]), steps[k], max)
  }

  predicate Active(w: Worker) { w.pc.AtRow? || w.pc.Offering? || HeadReached(w) }

  predicate Owns(s: State, o: Uuid, item: Item) { item.rec.id in s.rows && s.rows[item.rec.id].owner == Some(o) }

  /** A batch at work owns every row it has queued. */
  predicate OwnsQueue(s: State, o: Uuid)
    requires o in s.workers
  {
    var w := s.workers[o];
    && (Active(w) ==> forall i | 0 <= i < |w.queue| :: Owns(s, o, w.queue[i]))
    && (Active(w) || w.pc.Releasing? || w.pc.Finished?)
  }

  ghost predicate AllOwnQueues(s: State) { forall o {:trigger OwnsQueue(s, o)} | o in s.workers :: OwnsQueue(s, o) }

  /** Another batch's step takes no owned row away. */
  lemma {:induction false} OwnedStays(s: State, step: Step, max: int, o: Uuid, item: Item)
    requires Inv(s) && Undisturbed(s, step, max) && Owns(s, o, item)
    requires step.Advance? ==> step.owner != o
    ensures Owns(Next(s, step), o, item)
  {
    hide Publishable, Prepare, ErrorText, Deposit, Moved, Noted, HeadHeld, LeaseAlive;
    var id := item.rec.id;
    assert RowOk(s, id);
    if step.Advance? && step.owner in s.workers && Pipeline.Pending(s.workers[step.owner], step.owner, s.now).Some? {
      StatementShape(s.workers[step.owner], step.owner, s.now, false, step.answer, step.db);
      ForeignRowsUntouched(Pipeline.Pending(s.workers[step.owner], step.owner, s.now).value, s.rows, id, s.now);
    }
  }

  /** Nor does a batch's own step, except for the row it settles. */
  lemma {:induction false} OwnStepKeepsRest(s: State, o: Uuid, answer: Answer, i: nat)
    requires Inv(s) && o in s.workers && Active(s.workers[o]) && i < |s.workers[o].queue|
        && Owns(s, o, s.workers[o].queue[i])
    requires i > 0 || Pipeline.Pending(s.workers[o], o, s.now).None?
    ensures Owns(Next(s, Advance(o, answer, Fine)), o, s.workers[o].queue[i])
  {
    hide Publishable, Prepare, ErrorText, Deposit, Moved, Noted, HeadHeld;
    var w := s.workers[o];
    assert WorkerOk(s, o);
    assert w.queue[0].rec.id == w.queue[i].rec.id ==> i == 0;
  }

  /** Where an undisturbed batch goes: it settles its head and pops it, or moves on with its
      queue as it is. */
  lemma {:induction false} OwnMove(s: State, o: Uuid, answer: Answer)
    requires o in s.workers && OwnsQueue(s, o) && LeaseAlive(s, o, s.workers[o])
    ensures var w, w' := s.workers[o], Next(s, Advance(o, answer, Fine)).workers[o];
            && (Active(w') || w'.pc.Releasing? || w'.pc.Finished?)
            && (Active(w') ==> Active(w))
            && (Active(w) && Pipeline.Pending(w, o, s.now).None? ==>
                  w'.queue == w.queue && (w.queue != [] ==> Active(w')))
            && (Active(w) && Pipeline.Pending(w, o, s.now).Some? ==>
                  w.queue != [] && w'.queue == w.queue[1..] && Settling(Pipeline.Pending(w, o, s.now).value)
                  && Pipeline.Pending(w, o, s.now).value.id == w.queue[0].rec.id
                  && Pipeline.Pending(w, o, s.now).value.owner == o)
  {
    hide Prepare, ErrorText, Deposit, Execute, HeadHeld;
  }

  lemma {:induction false} AdvanceOwns(s: State, o: Uuid, answer: Answer)
    requires Inv(s) && o in s.workers && OwnsQueue(s, o) && LeaseAlive(s, o, s.workers[o])
    ensures OwnsQueue(Next(s, Advance(o, answer, Fine)), o)
  {
    hide Next, Inv, Owns, LeaseAlive, Active;
    var s' := Next(s, Advance(o, answer, Fine));
    WorkersStay(s, Advance(o, answer, Fine), o);
    var w, w' := s.workers[o], s'.workers[o];
    OwnMove(s, o, answer);
    if Active(w') {
      var d := if Pipeline.Pending(w, o, s.now).Some? then 1 else 0;
      forall i | 0 <= i < |w'.queue| ensures Owns(s', o, w'.queue[i]) {
        assert w'.queue[i] == w.queue[i + d];
        OwnStepKeepsRest(s, o, answer, i + d);
      }
    }
  }

  lemma {:induction false} ClaimOwns(s: State, step: Step)
    requires step.ClaimBatch? && CanClaim(s, step.owner, step.ids, step.limit, step.ttl) && !step.db.FailedBefore?
    ensures OwnsQueue(Next(s, step), step.owner)
    ensures step.db.Fine? ==>
              Next(s, step).workers[step.owner].pc.AtRow? && |Next(s, step).workers[step.owner].queue| == |step.ids|
  {
    hide Noted;
    var s' := Next(s, step);
    forall i | 0 <= i < |step.ids| ensures Owns(s', step.owner, s'.workers[step.owner].queue[i]) {
      assert Selects(Claim(step.ids, step.owner, step.ttl), step.ids[i], s.rows[step.ids[i]], s.now);
    }
  }

  lemma {:induction false} OtherWorkers(s: State, step: Step, o: Uuid)
    requires o in s.workers && (step.Advance? || step.Crash? ==> step.owner != o)
    ensures o in Next(s, step).workers && Next(s, step).workers[o] == s.workers[o]
  {
    hide Publishable, Prepare, ErrorText, Effect, Purge, Conflicts, ClaimChoice, Deposit, HeadHeld, Moved;
  }

  lemma {:induction false} NewWorker(s: State, step: Step, o: Uuid)
    requires o !in s.workers && o in Next(s, step).workers
    ensures step.ClaimBatch? && step.owner == o && CanClaim(s, o, step.ids, step.limit, step.ttl)
        && !step.db.FailedBefore?
  {
    hide Publishable, Prepare, ErrorText, Effect, Purge, Conflicts, ClaimChoice, Deposit, HeadHeld, Moved;
  }

  lemma {:induction false} QueuesStayOwned(s: State, step: Step, max: int)
    requires Inv(s) && AllOwnQueues(s) && Undisturbed(s, step, max)
    ensures AllOwnQueues(Next(s, step))
  {
    hide Next, Inv, Owns, CanClaim, LeaseAlive;
    var s' := Next(s, step);
    forall o | o in s'.workers ensures OwnsQueue(s', o) {
      if o !in s.workers {
        NewWorker(s, step, o);
        ClaimOwns(s, step);
      } else if step.Advance? && step.owner == o {
        assert OwnsQueue(s, o);
        AdvanceOwns(s, o, step.answer);
      } else {
        OtherWorkers(s, step, o);
        assert OwnsQueue(s, o);
        var w := s.workers[o];
        forall i | 0 <= i < |w.queue| && Active(w) ensures Owns(s', o, w.queue[i]) {
          OwnedStays(s, step, max, o, w.queue[i]);
        }
      }
    }
  }

  // ---- The attempt limit --------------------------------------------------------------

  predicate RowWithinLimit(r: Row, max: int) { if r.status.Pending? then Used(r) < max else r.attempts <= max }

  ghost predicate RowsWithinLimit(s: State, max: int) {
    forall id {:trigger RowWithinLimit(s.rows[id], max)} | id in s.rows :: RowWithinLimit(s.rows[id], max)
  }

  lemma {:induction false} StmtWithinLimit(st: Stmt, id: Uuid, r: Row, now: int, max: int)
    requires RowWithinLimit(r, max) && 0 < max
    requires r.owner.Some? ==> r.status.Pending? && 1 <= r.attempts
    requires st.Reschedule? && Selects(st, id, r, now) ==> r.attempts < max
    requires st.Claim? && Selects(st, id, r, now) ==> r.owner.None?
    ensures RowWithinLimit(Updated(st, id, r, now), max)
  {
    hide Backoff;
  }

  lemma {:induction false} StaysWithinLimit(s: State, step: Step, max: int)
    requires Inv(s) && Limited(s, max) && RowsWithinLimit(s, max) && Undisturbed(s, step, max) && 0 < max
    ensures RowsWithinLimit(Next(s, step), max)
  {
    hide RowWithinLimit, StepStmt, Limited, LeaseAlive;
    var s' := Next(s, step);
    forall id | id in s'.rows ensures RowWithinLimit(s'.rows[id], max) {
      RowStaysWithinLimit(s, step, max, id);
    }
  }

  lemma {:induction false} RowStaysWithinLimit(s: State, step: Step, max: int, id: Uuid)
    requires Inv(s) && Limited(s, max) && RowsWithinLimit(s, max) && Undisturbed(s, step, max) && 0 < max
        && id in Next(s, step).rows
    ensures RowWithinLimit(Next(s, step).rows[id], max)
  {
    hide Limited, LeaseAlive, Effect, Updated, Publishable, Prepare, ErrorText, Inv;
    if step.Enqueue? || step.PurgePublished? {
      if id in s.rows { assert RowWithinLimit(s.rows[id], max); }
    } else {
      StepRows(s, step);
      assert id in s.rows && RowWithinLimit(s.rows[id], max);
      var stmt := StepStmt(s, step);
      if stmt.Some? { StmtStaysWithinLimit(s, step, stmt.value, max, id); }
    }
  }

  lemma {:induction false} StmtStaysWithinLimit(s: State, step: Step, st: Stmt, max: int, id: Uuid)
    requires Inv(s) && Limited(s, max) && RowsWithinLimit(s, max) && Undisturbed(s, step, max) && 0 < max
        && id in s.rows
    requires StepStmt(s, step) == Some(st)
    ensures RowWithinLimit(Effect(st, s.rows, s.now)[id], max)
  {
    hide Limited, LeaseAlive, Updated, Publishable, Prepare, ErrorText, RowWithinLimit;
    assert RowOk(s, id);
    assert RowWithinLimit(s.rows[id], max);
    if st.Reschedule? && Selects(st, id, s.rows[id], s.now) { RescheduleNeedsRoom(s, step, max); }
    if st.Claim? && Selects(st, id, s.rows[id], s.now) { ClaimFindsNoOwner(s, step, st, max, id); }
    StmtWithinLimit(st, id, s.rows[id], s.now, max);
  }

  lemma {:induction false} ClaimFindsNoOwner(s: State, step: Step, st: Stmt, max: int, id: Uuid)
    requires StepStmt(s, step) == Some(st) && st.Claim? && Undisturbed(s, step, max) && id in s.rows && id in st.ids
    ensures s.rows[id].owner.None?
  {
    hide Publishable, Prepare, ErrorText, LeaseAlive;
    assert step.ClaimBatch? && st.ids == step.ids;
  }

  // ---- Whole undisturbed runs -------------------------------------------------------------

  ghost predicate Steady(s: State, max: int) {
    Inv(s) && Limited(s, max) && AllOwnQueues(s) && RowsWithinLimit(s, max)
  }

  lemma {:induction false} SteadyStart(now: int, window: nat, max: int)
    ensures Steady(Init(now, window), max)
  {
    Reachable(now, window, []);
  }

  lemma {:induction false} SteadyStep(s: State, step: Step, max: int)
    requires Steady(s, max) && Undisturbed(s, step, max) && 0 < max
    ensures Steady(Next(s, step), max)
  {
    hide Inv, Limited, AllOwnQueues, RowsWithinLimit, Next;
    NextKeeps(s, step);
    StaysLimited(s, step, max);
    QueuesStayOwned(s, step, max);
    StaysWithinLimit(s, step, max);
  }

  lemma {:induction false} PrefixUndisturbed(s: State, steps: seq<Step>, n: nat, max: int)
    requires UndisturbedRun(s, steps, max) && n <= |steps|
    ensures UndisturbedRun(s, steps[..n], max)
  {
    hide Undisturbed, Run;
    forall k | 0 <= k < n ensures Undisturbed(Run(s, steps[..n][..k]), steps[..n][k], max) {
      assert steps[..n][..k] == steps[..k];
      assert Undisturbed(Run(s, steps[..k]), steps[k], max);
    }
  }

  lemma {:induction false} SteadyRun(now: int, window: nat, steps: seq<Step>, max: int)
    requires UndisturbedRun(Init(now, window), steps, max) && 0 < max
    ensures Steady(Run(Init(now, window), steps), max)
  {
    hide Steady, Undisturbed, Next;
    SteadyStart(now, window, max);
    if steps != [] {
      var s0, n := Init(now, window), |steps| - 1;
      PrefixUndisturbed(s0, steps, n, max);
      SteadyRun(now, window, steps[..n], max);
      assert Undisturbed(Run(s0, steps[..n]), steps[n], max);
      SteadyStep(Run(s0, steps[..n]), steps[n], max);
    }
  }

  lemma {:induction false} NoErrors(s: State, steps: seq<Step>, max: int)
    requires UndisturbedRun(s, steps, max)
    ensures NoDbErrors(steps)
  {
    hide Run, LeaseAlive;
    forall k | 0 <= k < |steps|
      ensures (steps[k].Advance? ==> steps[k].db.Fine?) && (steps[k].ClaimBatch? ==> steps[k].db.Fine?)
    {
      assert Undisturbed(Run(s, steps[..k]), steps[k], max);
    }
  }

  /** What a step can add to the offers of an admission: one, when its row is offered by the
      batch that owns it. */
  lemma {:induction false} OffersStep(s: State, step: Step, t: nat)
    requires Inv(s) && AllOwnQueues(s) && t in s.ledger && t in Next(s, step).ledger
    ensures Next(s, step).ledger[t].offers == s.ledger[t].offers || Present(Next(s, step), t)
  {
    hide Publishable, Prepare, ErrorText, Acted, Moved, HeadHeld, Effect, Selects, Purge, Conflicts, CanClaim;
    if step.Advance? && step.owner in s.workers {
      AdvanceOffers(s, step.owner, step.answer, step.db, t);
    } else if step.Enqueue? {
      assert EntryOk(s, t);
    }
  }

  lemma {:induction false} AdvanceOffers(s: State, o: Uuid, answer: Answer, db: Db, t: nat)
    requires Inv(s) && AllOwnQueues(s) && t in s.ledger && o in s.workers && t in DoAdvance(s, o, answer, db).ledger
    ensures var s' := DoAdvance(s, o, answer, db); s'.ledger[t].offers == s.ledger[t].offers || Present(s', t)
  {
    hide Publishable, Prepare, ErrorText, Deposit, Moved, Effect, Selects;
    var w := s.workers[o];
    assert OwnsQueue(s, o) && WorkerOk(s, o);
    if w.queue != [] { assert PlaceOk(s, o, 0); }
  }

  /** In every undisturbed run of any number of overlapping relays, a message gets at most
      `max` broker calls, less the attempts it was staged with. */
  lemma {:induction false} OffersWithinLimit(now: int, window: nat, steps: seq<Step>, max: int, t: nat)
    requires UndisturbedRun(Init(now, window), steps, max) && 0 < max
    requires t in Run(Init(now, window), steps).ledger
    ensures var e := Run(Init(now, window), steps).ledger[t]; e.offers + Min(e.rec.attempts, I32_MAX) <= max
  {
    hide Undisturbed, Next, Steady;
    if steps != [] {
      var s0, n := Init(now, window), |steps| - 1;
      var s, step := Run(s0, steps[..n]), steps[n];
      var s' := Next(s, step);
      assert Run(s0, steps) == s';
      assert Undisturbed(s, step, max);
      PrefixUndisturbed(s0, steps, n, max);
      SteadyRun(now, window, steps[..n], max);
      SteadyRun(now, window, steps, max);
      if t in s.ledger {
        OffersWithinLimit(now, window, steps[..n], max, t);
        SteadyParts(s, max);
        OffersStep(s, step, t);
        StepOnRow(s, step, t);
        if s'.ledger[t].offers != s.ledger[t].offers {
          NoErrors(s0, steps, max);
          OffersWithinAttempts(now, window, steps, t);
          PresentWithinLimit(s', t, max);
        }
      } else {
        NewEntry(s, step, t);
        StagedBelowLimit(s, step, max);
      }
    }
  }

  lemma {:induction false} SteadyParts(s: State, max: int)
    requires Steady(s, max)
    ensures Inv(s) && Limited(s, max) && AllOwnQueues(s) && RowsWithinLimit(s, max)
  {
  }

  lemma {:induction false} StagedBelowLimit(s: State, step: Step, max: int)
    requires step.Enqueue? && Undisturbed(s, step, max)
    ensures step.rec.attempts < max
  {
  }

  lemma {:induction false} PresentWithinLimit(s: State, t: nat, max: int)
    requires Steady(s, max) && Present(s, t)
    ensures RowOf(s, t).attempts <= max
  {
    var id := s.ledger[t].rec.id;
    assert RowOk(s, id) && RowWithinLimit(s.rows[id], max);
  }

  // ---- Finished batches -----------------------------------------------------------------

  /** The batches that settled a row. */
  function Settlers(s: State, steps: seq<Step>): set<Uuid> {
    if steps == [] then {}
    else
      var before, last := steps[..|steps| - 1], steps[|steps| - 1];
      Settlers(s, before) + if Settles(Run(s, before), last) && last.Advance? then {last.owner} else {}
  }

  lemma {:induction false} SettlersCount(s: State, steps: seq<Step>)
    ensures |Settlers(s, steps)| <= Settlements(s, steps)
  {
    hide Settles, Run;
    if steps != [] {
      SettlersCount(s, steps[..|steps| - 1]);
    }
  }

  predicate Claimed(s: State, o: Uuid) { exists t | t in s.ledger :: o in s.ledger[t].claimedBy }

  /** A batch that claimed something has settled a row, or still has all of it queued. */
  predicate Accounted(s: State, o: Uuid, settlers: set<Uuid>)
    requires o in s.workers
  {
    o in settlers || !Claimed(s, o) || (Active(s.workers[o]) && s.workers[o].queue != [])
  }

  lemma {:induction false} ExecuteClaims(s: State, st: Stmt, t: nat)
    requires t in s.ledger
    ensures Execute(s, st).ledger[t].claimedBy
         == s.ledger[t].claimedBy
          + if st.Claim? && Present(s, t) && Selects(st, s.ledger[t].rec.id, RowOf(s, t), s.now) then {st.owner} else {}
  {
    hide Selects, Effect;
  }

  lemma {:induction false} AdvanceClaims(s: State, o: Uuid, answer: Answer, db: Db, t: nat)
    requires t in s.ledger && o in s.workers
    ensures t in DoAdvance(s, o, answer, db).ledger
        && DoAdvance(s, o, answer, db).ledger[t].claimedBy == s.ledger[t].claimedBy
  {
    hide Selects, Deposit, Effect, Moved, Execute, Publishable, Prepare, ErrorText;
    match Pipeline.Pending(s.workers[o], o, s.now)
    case Some(st) =>
      StatementShape(s.workers[o], o, s.now, false, answer, db);
      ExecuteClaims(s, st, t);
      ExecuteFollows(s, st, t);
    case None =>
  }

  /** Only a claim of something adds to the claims. */
  lemma {:induction false} ClaimedStep(s: State, step: Step, o: Uuid)
    requires Claimed(Next(s, step), o)
    ensures Claimed(s, o)
         || (step.ClaimBatch? && step.owner == o && CanClaim(s, o, step.ids, step.limit, step.ttl) && step.ids != [])
  {
    hide Publishable, Prepare, ErrorText, Acted, Moved, HeadHeld, Effect, ClaimChoice, Conflicts, Purge;
    var s' := Next(s, step);
    var t :| t in s'.ledger && o in s'.ledger[t].claimedBy;
    if t !in s.ledger {
      NewEntryIsUnclaimed(s, step, t);
    } else if step.ClaimBatch? && CanClaim(s, step.owner, step.ids, step.limit, step.ttl) {
      ExecuteClaims(s, Claim(step.ids, step.owner, step.ttl), t);
    } else if step.Advance? && step.owner in s.workers {
      AdvanceClaims(s, step.owner, step.answer, step.db, t);
    }
  }

  lemma {:induction false} NewEntryIsUnclaimed(s: State, step: Step, t: nat)
    requires t in Next(s, step).ledger && t !in s.ledger
    ensures Next(s, step).ledger[t].claimedBy == {}
  {
    hide Publishable, Prepare, ErrorText, Effect, Purge, Conflicts, ClaimChoice, Deposit, HeadHeld, Moved;
  }

  lemma {:induction false} HeadIsSettled(s: State, o: Uuid, answer: Answer)
    requires Inv(s) && o in s.workers && OwnsQueue(s, o) && Active(s.workers[o]) && LeaseAlive(s, o, s.workers[o])
    requires Pipeline.Pending(s.workers[o], o, s.now).Some?
    ensures Settles(s, Advance(o, answer, Fine))
  {
    hide Publishable, Prepare, ErrorText, Next, LeaseAlive;
    OwnMove(s, o, answer);
    var w := s.workers[o];
    assert Owns(s, o, w.queue[0]);
    assert RowOk(s, w.queue[0].rec.id);
  }

  lemma {:induction false} AccountedStep(s: State, step: Step, max: int, o: Uuid, settlers: set<Uuid>)
    requires Steady(s, max) && Undisturbed(s, step, max)
    requires o in s.workers ==> Accounted(s, o, settlers)
    requires o !in s.workers ==> !Claimed(s, o)
    requires o in Next(s, step).workers
    ensures Accounted(Next(s, step), o, settlers + if Settles(s, step) && step.Advance? then {step.owner} else {})
  {
    hide Inv, Limited, RowsWithinLimit, Next, Settles, Claimed, Active, CanClaim;
    if Claimed(Next(s, step), o) { ClaimedStep(s, step, o); }
    if o !in s.workers {
      NewWorker(s, step, o);
      ClaimOwns(s, step);
      assert Active(Next(s, step).workers[o]) by { AtRowIsActive(Next(s, step).workers[o]); }
    } else if step.Advance? && step.owner == o {
      assert OwnsQueue(s, o);
      OwnMove(s, o, step.answer);
      if Active(s.workers[o]) && Pipeline.Pending(s.workers[o], o, s.now).Some? {
        HeadIsSettled(s, o, step.answer);
      }
    } else {
      OtherWorkers(s, step, o);
      NotTwice(s, step, o);
    }
  }

  lemma {:induction false} AtRowIsActive(w: Worker)
    requires w.pc.AtRow?
    ensures Active(w)
  {
  }

  lemma {:induction false} NotTwice(s: State, step: Step, o: Uuid)
    requires o in s.workers
    ensures step.ClaimBatch? && step.owner == o ==> !CanClaim(s, o, step.ids, step.limit, step.ttl)
  {
  }

  lemma {:induction false} UnknownClaimedNothing(s: State, o: Uuid)
    requires Inv(s) && o !in s.workers
    ensures !Claimed(s, o)
  {
    forall t | t in s.ledger ensures o !in s.ledger[t].claimedBy {
      assert EntryOk(s, t);
    }
  }

  /** Undisturbed from `Init` on, a batch that appeared after `s` is accounted for. */
  lemma {:induction false} AccountedRun(s: State, steps: seq<Step>, max: int, o: Uuid)
    requires Steady(s, max) && UndisturbedRun(s, steps, max) && 0 < max && o !in s.workers
    ensures var s' := Run(s, steps); Steady(s', max) && (o in s'.workers ==> Accounted(s', o, Settlers(s, steps)))
  {
    hide Steady, Undisturbed, Next, Accounted, Settles;
    if steps != [] {
      var n := |steps| - 1;
      var mid, last := Run(s, steps[..n]), steps[n];
      PrefixUndisturbed(s, steps, n, max);
      AccountedRun(s, steps[..n], max, o);
      assert Undisturbed(mid, last, max);
      SteadyStep(mid, last, max);
      if o in Next(mid, last).workers {
        if o !in mid.workers {
          SteadyParts(mid, max);
          UnknownClaimedNothing(mid, o);
        }
        AccountedStep(mid, last, max, o, Settlers(s, steps[..n]));
      }
    }
  }

  /** The batches that appeared since `s`, claimed something and are finished. */
  ghost function FinishedSince(s: State, s': State): set<Uuid> {
    set o | o in s'.workers && o !in s.workers && s'.workers[o].pc.Finished? && Claimed(s', o)
  }

  /** While nothing is enqueued, undisturbed relays finish at most as many non-empty batches as
      there is work left, however they overlap: every one of them settles a row. */
  lemma {:induction false} FinitelyManyFinished(now: int, window: nat, before: seq<Step>, after: seq<Step>, max: int)
    requires UndisturbedRun(Init(now, window), before, max) && 0 < max
    requires UndisturbedRun(Run(Init(now, window), before), after, max) && NoEnqueue(after, max)
    ensures var s, s' := Run(Init(now, window), before), Run(Run(Init(now, window), before), after);
            |FinishedSince(s, s')| + Work(s'.rows, max) <= Work(s.rows, max)
  {
    hide Steady, UndisturbedRun, Run, Claimed, NoEnqueue, Work;
    var s := Run(Init(now, window), before);
    var s' := Run(s, after);
    SteadyRun(now, window, before, max);
    SteadyParts(s, max);
    SettlementsBounded(s, after, max);
    SettlersCount(s, after);
    forall o | o in FinishedSince(s, s') ensures o in Settlers(s, after) {
      AccountedRun(s, after, max, o);
    }
    SubsetSize(FinishedSince(s, s'), Settlers(s, after));
  }

  /** The work left is zero exactly when every row is published or failed. */
  lemma {:induction false} NoWork(rows: Rows, max: int)
    ensures Work(rows, max) == 0 <==> forall id | id in rows :: !rows[id].status.Pending?
    decreases |rows|
  {
    if rows != map[] {
      var id :| id in rows;
      DrainerTheorems.SumPick(rows, WorkOf(max), id);
      NoWork(rows - {id}, max);
      assert forall j | j in rows :: j == id || j in rows - {id};
    }
  }
}
