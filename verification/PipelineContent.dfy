/** What the relays offer, when and in which order, over all runs: only the content that was
    enqueued and passes the guard, after a lease check, oldest first, and not before a deferral
    has run out. */
module PipelineContent {
  import opened Wrappers
  import opened Outbox
  import opened OutboxTable
  import opened Pipeline
  import opened PipelineInvariant
  import opened PipelineTheorems
  import PipelineProgress
  import Subjects

  // ---- Content and order --------------------------------------------------------------

  predicate SameContent(a: OutboxRecord, b: OutboxRecord) {
    && a.id == b.id && a.subject == b.subject && a.payload == b.payload && a.dedupId == b.dedupId
    && a.tenant == b.tenant && a.key == b.key && a.createdAt == b.createdAt
  }

  /** What a batch has queued is what was enqueued, oldest first; and what it offers has passed
      the guard. */
  predicate Faithful(s: State, o: Uuid)
    requires o in s.workers
  {
    var w := s.workers[o];
    && (forall i | 0 <= i < |w.queue| ::
          w.queue[i].ticket in s.ledger && SameContent(w.queue[i].rec, s.ledger[w.queue[i].ticket].rec))
    && (forall i, j | 0 <= i < j < |w.queue| :: w.queue[i].rec.createdAt <= w.queue[j].rec.createdAt)
    && (w.queue != [] && (w.pc.Offering? || HeadReached(w)) ==> Publishable(w.queue[0].rec))
  }

  ghost predicate AllFaithful(s: State) { forall o {:trigger Faithful(s, o)} | o in s.workers :: Faithful(s, o) }

  lemma {:induction false} RecordsAfter(s: State, step: Step)
    requires Inv(s)
    ensures forall t | t in s.ledger :: t in Next(s, step).ledger && Next(s, step).ledger[t].rec == s.ledger[t].rec
  {
    hide Next, Inv;
    forall t | t in s.ledger ensures t in Next(s, step).ledger && Next(s, step).ledger[t].rec == s.ledger[t].rec {
      StepOnRow(s, step, t);
    }
  }

  lemma {:induction false} ClaimedItem(s: State, step: Step, i: nat)
    requires Inv(s) && step.ClaimBatch? && CanClaim(s, step.owner, step.ids, step.limit, step.ttl)
        && !step.db.FailedBefore?
    requires i < |step.ids|
    ensures var w := Next(s, step).workers[step.owner];
            && |w.queue| == |step.ids| && w.queue[i].ticket in s.ledger
            && SameContent(w.queue[i].rec, s.ledger[w.queue[i].ticket].rec)
            && w.queue[i].rec.createdAt == s.rows[step.ids[i]].createdAt
            && !w.pc.Offering? && !HeadReached(w)
  {
    hide Publishable, Noted, Selects, ClaimChoice;
    assert step.ids[i] in s.rows by { ClaimedIsThere(s, step, i); }
    assert RowOk(s, step.ids[i]);
    assert EntryOk(s, s.tickets[step.ids[i]]);
  }

  lemma {:induction false} ClaimedIsThere(s: State, step: Step, i: nat)
    requires step.ClaimBatch? && CanClaim(s, step.owner, step.ids, step.limit, step.ttl) && i < |step.ids|
    ensures step.ids[i] in s.rows
  {
  }

  lemma {:induction false} ClaimIsFaithful(s: State, step: Step)
    requires Inv(s) && step.ClaimBatch? && CanClaim(s, step.owner, step.ids, step.limit, step.ttl)
        && !step.db.FailedBefore?
    ensures Faithful(Next(s, step), step.owner) && |Next(s, step).workers[step.owner].queue| <= step.limit
  {
    hide Next, SameContent, Publishable, Inv;
    RecordsAfter(s, step);
    BatchJoins(s, step);
    var s' := Next(s, step);
    var w := s'.workers[step.owner];
    if step.ids != [] { ClaimedItem(s, step, 0); } else { NothingClaimed(s, step); }
    forall i | 0 <= i < |w.queue|
      ensures w.queue[i].ticket in s'.ledger && SameContent(w.queue[i].rec, s'.ledger[w.queue[i].ticket].rec)
      ensures w.queue[i].rec.createdAt == s.rows[step.ids[i]].createdAt
    {
      ClaimedItem(s, step, i);
    }
  }

  lemma {:induction false} BatchJoins(s: State, step: Step)
    requires step.ClaimBatch? && CanClaim(s, step.owner, step.ids, step.limit, step.ttl) && !step.db.FailedBefore?
    ensures step.owner in Next(s, step).workers && |Next(s, step).workers[step.owner].queue| == |step.ids| <= step.limit
  {
    hide Effect, Noted;
  }

  lemma {:induction false} NothingClaimed(s: State, step: Step)
    requires step.ClaimBatch? && CanClaim(s, step.owner, step.ids, step.limit, step.ttl) && !step.db.FailedBefore?
    requires step.ids == []
    ensures Next(s, step).workers[step.owner].queue == []
  {
    hide Effect, Noted;
  }

  lemma {:induction false} AdvanceIsFaithful(s: State, o: Uuid, answer: Answer, db: Db)
    requires Inv(s) && o in s.workers && Faithful(s, o)
    ensures o in Next(s, Advance(o, answer, db)).workers && Faithful(Next(s, Advance(o, answer, db)), o)
  {
    hide Prepare, ErrorText, Deposit, Execute, Acted, HeadHeld, Inv;
    RecordsAfter(s, Advance(o, answer, db));
    var s' := Next(s, Advance(o, answer, db));
    var w, w' := s.workers[o], s'.workers[o];
    assert w'.queue == w.queue || (w.queue != [] && w'.queue == w.queue[1..]);
    var d := if w'.queue == w.queue then 0 else 1;
    assert forall i | 0 <= i < |w'.queue| :: w'.queue[i] == w.queue[i + d];
  }

  lemma {:induction false} StaysFaithful(s: State, step: Step)
    requires Inv(s) && AllFaithful(s)
    ensures AllFaithful(Next(s, step))
  {
    hide Next, Inv, CanClaim, SameContent, Publishable;
    var s' := Next(s, step);
    RecordsAfter(s, step);
    forall o | o in s'.workers ensures Faithful(s', o) {
      if o !in s.workers {
        PipelineProgress.NewWorker(s, step, o);
        ClaimIsFaithful(s, step);
      } else {
        assert Faithful(s, o);
        if step.Advance? && step.owner == o {
          AdvanceIsFaithful(s, o, step.answer, step.db);
        } else if step.Crash? && step.owner == o {
          CrashIsFaithful(s, o);
        } else {
          PipelineProgress.OtherWorkers(s, step, o);
        }
      }
    }
  }

  lemma {:induction false} CrashIsFaithful(s: State, o: Uuid)
    requires o in s.workers && Faithful(s, o)
    ensures o in Next(s, Crash(o)).workers && Faithful(Next(s, Crash(o)), o)
  {
    hide SameContent, Publishable;
  }

  lemma {:induction false} FaithfulRun(now: int, window: nat, steps: seq<Step>)
    ensures AllFaithful(Run(Init(now, window), steps))
  {
    hide Next, AllFaithful;
    if steps == [] {
      FaithfulStart(now, window);
    } else {
      var before := steps[..|steps| - 1];
      FaithfulRun(now, window, before);
      Reachable(now, window, before);
      StaysFaithful(Run(Init(now, window), before), steps[|steps| - 1]);
    }
  }

  lemma {:induction false} FaithfulStart(now: int, window: nat)
    ensures AllFaithful(Init(now, window))
  {
  }

  /** The broker is only ever offered what was enqueued, with the subject, payload and dedup id of
      that very enqueue, and only if the subject is canonical and the payload serializes to no
      more than 1 MiB: neither rows staged before the guard nor any fault lets anything else
      through. */
  lemma {:induction false} OffersWhatWasEnqueued(now: int, window: nat, steps: seq<Step>, o: Uuid)
    requires var s := Run(Init(now, window), steps);
             o in s.workers && s.workers[o].pc.Offering? && s.workers[o].queue != []
    ensures var s := Run(Init(now, window), steps);
            var item := s.workers[o].queue[0];
            && item.ticket in s.ledger && SameContent(item.rec, s.ledger[item.ticket].rec)
            && Subjects.Parse(item.rec.subject).Success?
            && item.rec.payload.encoding.Success? && |item.rec.payload.encoding.value| <= 1_048_576
  {
    hide Run;
    FaithfulRun(now, window, steps);
    assert Faithful(Run(Init(now, window), steps), o);
  }

  /** Batches work in order of creation. */
  lemma {:induction false} OldestFirst(now: int, window: nat, steps: seq<Step>, o: Uuid, i: nat, j: nat)
    requires var s := Run(Init(now, window), steps); o in s.workers && i < j < |s.workers[o].queue|
    ensures var queue := Run(Init(now, window),
        steps).workers[o].queue; queue[i].rec.createdAt <= queue[j].rec.createdAt
  {
    hide Run;
    FaithfulRun(now, window, steps);
    assert Faithful(Run(Init(now, window), steps), o);
  }

  // ---- Lease checks ---------------------------------------------------------------------

  /** At step `k` the batch looked at the head it still has, and its lease was alive. */
  predicate LookedAt(s0: State, steps: seq<Step>, o: Uuid, k: nat, item: Item)
    requires k < |steps|
  {
    var s := Run(s0, steps[..k]);
    && steps[k].Advance? && steps[k].owner == o && steps[k].db.Fine?
    && o in s.workers && s.workers[o].pc.AtRow? && s.workers[o].queue != [] && s.workers[o].queue[0] == item
    && item.rec.id in s.rows && s.rows[item.rec.id].owner == Some(o)
    && s.rows[item.rec.id].expiresAt.Some? && s.now < s.rows[item.rec.id].expiresAt.value
  }

  lemma {:induction false} LookMovesOn(s: State, o: Uuid, answer: Answer, db: Db)
    requires o in s.workers && Next(s, Advance(o, answer, db)).workers[o].pc.Offering?
    ensures var w, w' := s.workers[o], Next(s, Advance(o, answer, db)).workers[o];
            w'.queue == w.queue && (w == w' || (w.pc.AtRow? && w.queue != [] && db.Fine? && HeadHeld(s, o, w)))
  {
    hide Publishable, Prepare, ErrorText, Acted, HeadHeld;
  }

  /** No broker call without a lease check: a batch that stands before a call has seen its lease
      on that very row alive, in its last step. */
  lemma {:induction false} LeaseSeenBeforeCall(now: int, window: nat, steps: seq<Step>, o: Uuid) returns (k: nat)
    requires var s := Run(Init(now, window), steps);
             o in s.workers && s.workers[o].pc.Offering? && s.workers[o].queue != []
    ensures k < |steps| && LookedAt(Init(now, window), steps, o, k, Run(Init(now, window), steps).workers[o].queue[0])
  {
    hide Next, Publishable;
    var s0, n := Init(now, window), |steps| - 1;
    assert steps != [];
    var before, last := Run(s0, steps[..n]), steps[n];
    if o !in before.workers {
      PipelineProgress.NewWorker(before, last, o);
      NewIsAtRow(before, last);
    } else if last.Advance? && last.owner == o {
      LookMovesOn(before, o, last.answer, last.db);
      if before.workers[o] == Run(s0, steps).workers[o] {
        k := LeaseSeenBeforeCall(now, window, steps[..n], o);
        LookedEarlier(s0, steps, n, o, k, before.workers[o].queue[0]);
      } else {
        k := n;
      }
    } else {
      assert !(last.Crash? && last.owner == o) by { CrashIsNoOffer(before, last, o); }
      PipelineProgress.OtherWorkers(before, last, o);
      k := LeaseSeenBeforeCall(now, window, steps[..n], o);
      LookedEarlier(s0, steps, n, o, k, before.workers[o].queue[0]);
    }
  }

  lemma {:induction false} NewIsAtRow(s: State, step: Step)
    requires step.ClaimBatch? && CanClaim(s, step.owner, step.ids, step.limit, step.ttl) && !step.db.FailedBefore?
    ensures !Next(s, step).workers[step.owner].pc.Offering?
  {
    hide Noted, Effect;
  }

  lemma {:induction false} CrashIsNoOffer(s: State, step: Step, o: Uuid)
    requires o in s.workers && o in Next(s, step).workers && Next(s, step).workers[o].pc.Offering?
    ensures !(step.Crash? && step.owner == o)
  {
  }

  lemma {:induction false} LookedEarlier(s0: State, steps: seq<Step>, n: nat, o: Uuid, k: nat, item: Item)
    requires k < n <= |steps| && LookedAt(s0, steps[..n], o, k, item)
    ensures LookedAt(s0, steps, o, k, item)
  {
    hide Run;
    assert steps[..n][..k] == steps[..k];
  }

  // ---- Deferrals ------------------------------------------------------------------------

  /** A deferred row is due no sooner than a second after the refusal. */
  predicate Deferred(s: State, t: nat)
    requires t in s.ledger
  {
    Present(s, t) && s.ledger[t].rescheduledAt.Some? ==>
      s.ledger[t].rescheduledAt.value + 1000 <= RowOf(s, t).availableAt
  }

  lemma {:induction false} RefusalNoted(s: State, step: Step, t: nat)
    requires t in s.ledger && t in Next(s, step).ledger
    ensures var e, e' := s.ledger[t], Next(s, step).ledger[t]; var st := StepStmt(s, step);
            if st.Some? && st.value.Reschedule? && Present(s, t) && Selects(st.value, e.rec.id, RowOf(s, t), s.now)
            then e'.rescheduledAt == Some(s.now) else e'.rescheduledAt == e.rescheduledAt || step.Enqueue?
  {
    hide Publishable, Prepare, ErrorText, Effect, Deposit, Moved, Purge, Conflicts, ClaimChoice, HeadHeld, Selects;
  }

  lemma {:induction false} StaysDeferred(s: State, step: Step, t: nat)
    requires Inv(s) && t in Next(s, step).ledger && (t in s.ledger ==> Deferred(s, t))
    ensures Deferred(Next(s, step), t)
  {
    hide Next, Inv, StepStmt, Backoff;
    if t in s.ledger {
      StepOnRow(s, step, t);
      RefusalNoted(s, step, t);
      if step.Enqueue? { EnqueueKeepsHistory(s, step, t); }
      if Present(s, t) { BackoffBounds(RowOf(s, t).attempts); }
    } else {
      NewHasNoHistory(s, step, t);
    }
  }

  lemma {:induction false} EnqueueKeepsHistory(s: State, step: Step, t: nat)
    requires Inv(s) && step.Enqueue? && t in s.ledger
    ensures t in Next(s, step).ledger && Next(s, step).ledger[t] == s.ledger[t]
  {
    hide Publishable, Conflicts, Insert;
    assert EntryOk(s, t);
  }

  lemma {:induction false} NewHasNoHistory(s: State, step: Step, t: nat)
    requires t !in s.ledger && t in Next(s, step).ledger
    ensures Next(s, step).ledger[t].rescheduledAt.None?
  {
    hide Publishable, Prepare, ErrorText, Effect, Purge, Conflicts, ClaimChoice, Deposit, HeadHeld, Moved;
  }

  lemma {:induction false} DeferredRun(now: int, window: nat, steps: seq<Step>, t: nat)
    requires t in Run(Init(now, window), steps).ledger
    ensures Deferred(Run(Init(now, window), steps), t)
  {
    hide Next, Deferred;
    if steps != [] {
      var before := steps[..|steps| - 1];
      Reachable(now, window, before);
      if t in Run(Init(now, window), before).ledger { DeferredRun(now, window, before, t); }
      StaysDeferred(Run(Init(now, window), before), steps[|steps| - 1], t);
    }
  }

  /** A refused row is left in peace: no relay claims it again until it is due, a second or more
      after the refusal, however many relays there are. */
  lemma {:induction false} NoEarlyRetry(now: int, window: nat, steps: seq<Step>, step: Step, t: nat)
    requires var s := Run(Init(now, window), steps);
             && t in s.ledger && Present(s, t) && s.ledger[t].rescheduledAt.Some?
             && t in Next(s, step).ledger && Present(Next(s, step), t)
             && RowOf(Next(s, step), t).owner != RowOf(s, t).owner && RowOf(Next(s, step), t).owner.Some?
    ensures var s := Run(Init(now, window), steps);
            RowOf(s, t).availableAt <= s.now && s.ledger[t].rescheduledAt.value + 1000 <= s.now
  {
    hide Run, Next;
    Reachable(now, window, steps);
    DeferredRun(now, window, steps, t);
    var s := Run(Init(now, window), steps);
    StepOnRow(s, step, t);
    ClaimsTakeDueRows(s, step, t);
  }

  lemma {:induction false} ClaimsTakeDueRows(s: State, step: Step, t: nat)
    requires Present(s, t) && StepStmt(s, step).Some?
    requires var r' := Updated(StepStmt(s, step).value, s.ledger[t].rec.id, RowOf(s, t), s.now);
             r'.owner.Some? && r'.owner != RowOf(s, t).owner
    ensures RowOf(s, t).status.Pending? && RowOf(s, t).availableAt <= s.now
  {
    hide Backoff, StepStmt;
  }
}
