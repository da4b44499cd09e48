/** What the stream stores: the exact conditions under which a message gets a first copy and
    under which it gets a second one, and what rules out the one failure and the other. */
module BrokerCopies {
  import opened Wrappers
  import opened Outbox
  import opened OutboxTable
  import opened Pipeline
  import opened PipelineInvariant
  import opened PipelineTheorems

  // ---- Broker calls -------------------------------------------------------------------

  /** The step is a broker call that reaches the stream, acknowledged or not. */
  predicate Reaches(s: State, step: Step) {
    && step.Advance? && step.owner in s.workers
    && s.workers[step.owner].pc.Offering? && s.workers[step.owner].queue != []
    && (step.answer.Acked? || step.answer.stored)
  }

  function Offered(s: State, step: Step): Item
    requires Reaches(s, step)
  {
    s.workers[step.owner].queue[0]
  }

  /** The copy the stream stores if it stores the call's message. */
  function NewCopy(s: State, step: Step): Copy
    requires Reaches(s, step)
  {
    Copy(Offered(s, step).rec.dedupId, s.now, step.owner, Offered(s, step).ticket)
  }

  lemma {:induction false} CopiesAfter(s: State, step: Step)
    ensures Next(s, step).copies == if Reaches(s, step) then Deposit(s.copies, NewCopy(s, step), s.window) else s.copies
  {
    hide Publishable, Prepare, ErrorText, Effect, Moved, Purge, Conflicts, ClaimChoice, Deposit, HeadHeld;
  }

  // ---- A second copy ------------------------------------------------------------------

  /** Copies can be counted per dedup id or per message; an id outlives its message when the
      row is purged and the key is used again. */
  datatype Grain = PerId | PerMessage

  predicate Same(g: Grain, a: Copy, b: Copy) { if g.PerId? then a.dedupId == b.dedupId else a.ticket == b.ticket }

  predicate Twice(g: Grain, s: State) { exists i, j | 0 <= i < j < |s.copies| :: Same(g, s.copies[i], s.copies[j]) }

  /** The call reaches the stream when that has a copy already, and all copies under the call's
      id are a window or more old. */
  predicate Late(g: Grain, s: State, step: Step) {
    && Reaches(s, step)
    && (exists i | 0 <= i < |s.copies| :: Same(g, s.copies[i], NewCopy(s, step)))
    && Stores(s.copies, NewCopy(s, step).dedupId, s.now, s.window)
  }

  lemma {:induction false} TwiceAfter(g: Grain, s: State, step: Step)
    ensures Twice(g, Next(s, step)) <==> Twice(g, s) || Late(g, s, step)
  {
    hide Next, Same;
    CopiesAfter(s, step);
    var s' := Next(s, step);
    if Reaches(s, step) && Stores(s.copies, NewCopy(s, step).dedupId, s.now, s.window) {
      assert s'.copies == s.copies + [NewCopy(s, step)];
      if i :| 0 <= i < |s.copies| && Same(g, s.copies[i], NewCopy(s, step)) {
        assert Same(g, s'.copies[i], s'.copies[|s.copies|]);
      }
    }
    if Twice(g, s) {
      var i, j :| 0 <= i < j < |s.copies| && Same(g, s.copies[i], s.copies[j]);
      assert s'.copies[i] == s.copies[i] && s'.copies[j] == s.copies[j];
    }
  }

  /** The exact condition, per id and per message: a run stores nothing twice if and only if none
      of its broker calls is late. */
  lemma {:induction false} OneCopyExactly(g: Grain, s: State, steps: seq<Step>)
    requires !Twice(g, s)
    ensures !Twice(g, Run(s, steps)) <==> forall k | 0 <= k < |steps| :: !Late(g, Run(s, steps[..k]), steps[k])
  {
    hide Next, Twice, Late;
    if steps != [] {
      var before, last := steps[..|steps| - 1], steps[|steps| - 1];
      OneCopyExactly(g, s, before);
      TwiceAfter(g, Run(s, before), last);
      forall k | 0 <= k < |before| ensures steps[..k] == before[..k] && steps[k] == before[k] {}
    }
  }

  // ---- A first copy -------------------------------------------------------------------

  /** The stream stored a copy of this very admission, not of another one under its id. */
  predicate OwnCopy(s: State, t: nat) { exists i :: 0 <= i < |s.copies| && s.copies[i].ticket == t }

  predicate ReachesFor(s: State, step: Step, t: nat) { Reaches(s, step) && Offered(s, step).ticket == t }

  /** The call falls inside the window of a copy of another admission under its id, so the
      stream takes its message for that one. */
  predicate Shadowed(s: State, step: Step)
    requires Reaches(s, step)
  {
    var c := NewCopy(s, step);
    exists i | 0 <= i < |s.copies| ::
      s.copies[i].dedupId == c.dedupId && s.now - s.copies[i].at < s.window && s.copies[i].ticket != c.ticket
  }

  lemma {:induction false} OwnCopyAfter(s: State, step: Step, t: nat)
    ensures OwnCopy(Next(s, step), t) <==> OwnCopy(s, t) || (ReachesFor(s, step, t) && !Shadowed(s, step))
  {
    hide Next;
    CopiesAfter(s, step);
    var s' := Next(s, step);
    if OwnCopy(s, t) {
      var i :| 0 <= i < |s.copies| && s.copies[i].ticket == t;
      assert s'.copies[i] == s.copies[i];
    }
    if Reaches(s, step) && Stores(s.copies, NewCopy(s, step).dedupId, s.now, s.window) {
      assert s'.copies == s.copies + [NewCopy(s, step)];
      assert s'.copies[|s.copies|] == NewCopy(s, step);
    }
  }

  /** Step `k` of a run is a call for `t` that reaches the stream outside the window of every
      other admission's copy under its id. */
  predicate GetsThrough(s: State, steps: seq<Step>, t: nat, k: nat)
    requires k < |steps|
  {
    ReachesFor(Run(s, steps[..k]), steps[k], t) && !Shadowed(Run(s, steps[..k]), steps[k])
  }

  /** The exact condition: an admission gets its own copy if and only if one of its calls gets
      through. It is lost, acknowledged or not, exactly when every call of its that reaches the
      stream falls inside the window of another admission's copy. */
  lemma {:induction false} OwnCopyExactly(s: State, steps: seq<Step>, t: nat)
    requires !OwnCopy(s, t)
    ensures OwnCopy(Run(s, steps), t) <==> exists k | 0 <= k < |steps| :: GetsThrough(s, steps, t, k)
  {
    hide Next, OwnCopy, Shadowed;
    if steps != [] {
      var n := |steps| - 1;
      OwnCopyExactly(s, steps[..n], t);
      OwnCopyAfter(Run(s, steps[..n]), steps[n], t);
      forall k | 0 <= k < n ensures GetsThrough(s, steps[..n], t, k) <==> GetsThrough(s, steps, t, k) {
        assert steps[..n][..k] == steps[..k];
      }
      assert GetsThrough(s, steps, t, n)
        <==> ReachesFor(Run(s, steps[..n]), steps[n], t) && !Shadowed(Run(s, steps[..n]), steps[n]);
    }
  }

  // ---- Retention ----------------------------------------------------------------------

  /** A purge leaves published rows alone for at least a window, and no relay calls the broker
      for a row that another batch has taken over. */
  predicate Retentive(s: State, step: Step) {
    && (step.PurgePublished? && 0 < step.age ==> s.window <= step.age)
    && (Reaches(s, step) ==> var id := Offered(s, step).rec.id; id in s.rows && s.rows[id].owner == Some(step.owner))
  }

  predicate RetentiveRun(s: State, steps: seq<Step>) {
    forall k | 0 <= k < |steps| :: Retentive(Run(s, steps[..k]), steps[k])
  }

  /** A copy is no younger than its row's publication, and a window old once the row is gone. */
  predicate CopySpaced(s: State, c: Copy) {
    if Present(s, c.ticket) then RowOf(s, c.ticket).publishedAt.Some? ==> c.at <= RowOf(s, c.ticket).publishedAt.value
    else s.window <= s.now - c.at
  }

  ghost predicate Spaced(s: State) {
    && UniqueKeys(s.rows)
    && (forall id {:trigger s.rows[id]} | id in s.rows :: s.rows[id].status.Pending? ==> s.rows[id].publishedAt.None?)
    && (forall i {:trigger CopySpaced(s, s.copies[i])} | 0 <= i < |s.copies| :: CopySpaced(s, s.copies[i]))
    && (forall t {:trigger OwnCopy(s, t)} | t in s.ledger && s.ledger[t].acked :: OwnCopy(s, t))
  }

  /** The dedup ids and scoped keys of the rows are unique in every run. */
  lemma {:induction false} UniqueAfter(s: State, step: Step)
    requires UniqueKeys(s.rows)
    ensures UniqueKeys(Next(s, step).rows)
  {
    hide UniqueKeys, Effect, Purge, Insert, Conflicts, StepStmt, Publishable, Prepare, ErrorText;
    match step
    case Enqueue(rec, _) => UniqueKeysKept(s.rows, Release(0), rec, s.now, 0);
    case PurgePublished(age) => UniqueKeysKept(s.rows, Release(0), NoRecord(), s.now, age);
    case _ =>
      StepRows(s, step);
      if StepStmt(s, step).Some? {
        UniqueKeysKept(s.rows, StepStmt(s, step).value, NoRecord(), s.now, 0);
      }
  }

  function NoRecord(): OutboxRecord { OutboxRecord(0, "", None, [], "", Json(Success([])), 0, Pending, 0) }

  lemma {:induction false} MarkIsNow(s: State, step: Step)
    ensures var st := StepStmt(s, step); st.Some? && st.value.MarkPublished? ==> st.value.at == s.now
  {
    hide Publishable, Prepare, ErrorText;
  }

  lemma {:induction false} DatesAfter(s: State, step: Step, id: Uuid)
    requires forall j {:trigger s.rows[j]} | j in s.rows :: s.rows[j].status.Pending? ==> s.rows[j].publishedAt.None?
    requires id in Next(s, step).rows
    ensures var r := Next(s, step).rows[id]; r.status.Pending? ==> r.publishedAt.None?
  {
    hide Publishable, Prepare, ErrorText, Conflicts, StepStmt, Acted, Moved, ClaimChoice, Backoff;
    if !step.Enqueue? && !step.PurgePublished? {
      StepRows(s, step);
    }
  }

  lemma {:induction false} ClockAfter(s: State, step: Step)
    ensures Next(s, step).window == s.window && s.now <= Next(s, step).now
  {
    hide Publishable, Prepare, ErrorText, Effect, Moved, Purge, Conflicts, ClaimChoice, Deposit, HeadHeld;
  }

  lemma {:induction false} SpacedAfter(s: State, step: Step, c: Copy)
    requires Inv(s) && CopyOk(s, c) && CopySpaced(s, c) && Retentive(s, step)
    ensures CopySpaced(Next(s, step), c)
  {
    hide Next, StepStmt, Inv;
    StepOnRow(s, step, c.ticket);
    ClockAfter(s, step);
    MarkIsNow(s, step);
  }

  /** The row of a call that reaches the stream is there, pending, and its admission's. */
  lemma {:induction false} OfferedRow(s: State, step: Step)
    requires Inv(s) && Retentive(s, step) && Reaches(s, step)
    ensures var item := Offered(s, step);
            && Present(s, item.ticket) && s.ledger[item.ticket].rec.dedupId == item.rec.dedupId
            && RowOf(s, item.ticket).status.Pending? && RowOf(s, item.ticket).dedupId == item.rec.dedupId
  {
    var o, item := step.owner, Offered(s, step);
    assert WorkerOk(s, o);
    assert PlaceOk(s, o, 0);
    assert RowOk(s, item.rec.id);
    assert EntryOk(s, item.ticket);
  }

  lemma {:induction false} NewCopySpaced(s: State, step: Step)
    requires Inv(s) && Spaced(s) && Retentive(s, step) && Reaches(s, step)
    ensures CopySpaced(Next(s, step), NewCopy(s, step))
  {
    hide Inv;
    OfferedRow(s, step);
    CallKeepsRows(s, step);
  }

  lemma {:induction false} CallKeepsRows(s: State, step: Step)
    requires Reaches(s, step) && Offered(s, step).ticket in s.ledger
    ensures var t, s' := Offered(s, step).ticket, Next(s, step);
            && s'.rows == s.rows && s'.tickets == s.tickets && t in s'.ledger && s'.ledger[t].rec == s.ledger[t].rec
  {
  }

  /** In a spaced state nothing shadows a call for a row the batch still owns. */
  lemma {:induction false} NotShadowed(s: State, step: Step)
    requires Inv(s) && Spaced(s) && Retentive(s, step) && Reaches(s, step)
    ensures !Shadowed(s, step)
  {
    OfferedRow(s, step);
    var c := NewCopy(s, step);
    forall i | 0 <= i < |s.copies| && s.copies[i].dedupId == c.dedupId && s.now - s.copies[i].at < s.window
      ensures s.copies[i].ticket == c.ticket
    {
      var d := s.copies[i];
      assert CopyOk(s, d) && CopySpaced(s, d);
      assert EntryOk(s, d.ticket) && EntryOk(s, c.ticket);
    }
  }

  lemma {:induction false} AckedAfter(s: State, step: Step, t: nat)
    requires t in Next(s, step).ledger && Next(s, step).ledger[t].acked
    ensures (t in s.ledger && s.ledger[t].acked) || ReachesFor(s, step, t)
  {
    hide Publishable, Prepare, ErrorText, Effect, Moved, Purge, Conflicts, ClaimChoice, Deposit, HeadHeld, Selects;
  }

  lemma {:induction false} SpacedStep(s: State, step: Step)
    requires Inv(s) && Spaced(s) && Retentive(s, step)
    ensures Spaced(Next(s, step))
  {
    hide Next, Inv, CopySpaced, Retentive, OwnCopy, Shadowed, Deposit, CopyOk;
    var s' := Next(s, step);
    UniqueAfter(s, step);
    forall id | id in s'.rows ensures s'.rows[id].status.Pending? ==> s'.rows[id].publishedAt.None? {
      DatesAfter(s, step, id);
    }
    CopiesAre(s, step);
    forall i | 0 <= i < |s'.copies| ensures CopySpaced(s', s'.copies[i]) {
      if i < |s.copies| {
        CopyFits(s, i);
        SpacedAfter(s, step, s.copies[i]);
      } else {
        NewCopySpaced(s, step);
      }
    }
    forall t | t in s'.ledger && s'.ledger[t].acked ensures OwnCopy(s', t) {
      AckedAfter(s, step, t);
      OwnCopyAfter(s, step, t);
      if Reaches(s, step) { NotShadowed(s, step); }
    }
  }

  lemma {:induction false} CopyFits(s: State, i: nat)
    requires Inv(s) && i < |s.copies|
    ensures CopyOk(s, s.copies[i])
  {
  }

  lemma {:induction false} CopiesAre(s: State, step: Step)
    ensures Next(s, step).copies == s.copies
         || (Reaches(s, step) && Next(s, step).copies == s.copies + [NewCopy(s, step)])
  {
    hide Next;
    CopiesAfter(s, step);
  }

  lemma {:induction false} SpacedStart(now: int, window: nat)
    ensures Spaced(Init(now, window))
  {
  }

  lemma {:induction false} SpacedRun(now: int, window: nat, steps: seq<Step>)
    requires RetentiveRun(Init(now, window), steps)
    ensures Spaced(Run(Init(now, window), steps))
  {
    hide Next, Spaced, Retentive;
    if steps == [] {
      SpacedStart(now, window);
    } else {
      var s0, n := Init(now, window), |steps| - 1;
      forall k | 0 <= k < n ensures Retentive(Run(s0, steps[..n][..k]), steps[..n][k]) {
        assert steps[..n][..k] == steps[..k];
      }
      SpacedRun(now, window, steps[..n]);
      Reachable(now, window, steps[..n]);
      assert Retentive(Run(s0, steps[..n]), steps[n]);
      SpacedStep(Run(s0, steps[..n]), steps[n]);
    }
  }

  predicate Delivered(s: State, t: nat)
    requires t in s.ledger
  {
    s.ledger[t].rec.status.Pending? && (FateOf(s, t).Sent? || FateOf(s, t).Gone?)
  }

  /** No acknowledged message is lost to another one's id: if purges wait out the window and
      broker calls are for rows still owned, every published or purged admission has a copy of
      its own in the stream, however often its key is used again. */
  lemma {:induction false} PublishedHasOwnCopy(now: int, window: nat, steps: seq<Step>, t: nat)
    requires RetentiveRun(Init(now, window), steps)
    requires t in Run(Init(now, window), steps).ledger && Delivered(Run(Init(now, window), steps), t)
    ensures OwnCopy(Run(Init(now, window), steps), t)
  {
    hide Run, RetentiveRun;
    SpacedRun(now, window, steps);
    Reachable(now, window, steps);
    assert EntryOk(Run(Init(now, window), steps), t);
  }

  // ---- Promptness ---------------------------------------------------------------------

  /** The broker call comes soon enough after each copy already stored. Crash branch: the row is
      offered again less than the maximal backoff after the lease of the claim that stored the
      copy ran out. Lost-acknowledgement branch: recording the failure and claiming the due row
      again take less than the slack a deferral of at most 256 s leaves. */
  predicate PromptOffer(g: Grain, s: State, step: Step)
    requires Reaches(s, step)
  {
    forall i | 0 <= i < |s.copies| && Same(g, s.copies[i], NewCopy(s, step)) && s.copies[i].owner in s.workers ::
      PromptAfter(s, s.copies[i], s.workers[s.copies[i].owner], Offered(s, step).ticket)
  }

  predicate PromptAfter(s: State, c: Copy, w: Worker, t: nat) {
    || s.now - (w.claimedAt + w.ttl) < MAX_PUBLISH_BACKOFF
    || (&& Present(s, t) && s.ledger[t].rescheduledAt.Some?
        && (s.ledger[t].rescheduledAt.value - c.at) + (s.now - RowOf(s, t).availableAt)
             < w.ttl + MAX_PUBLISH_BACKOFF - 256_000)
  }

  predicate Prompt(g: Grain, s: State, step: Step) {
    && (step.ClaimBatch? && 0 < step.ttl ==> VerifyDuplicateWindow(s.window, step.ttl).Success?)
    && (Reaches(s, step) ==> PromptOffer(g, s, step))
  }

  predicate PromptRun(g: Grain, s: State, steps: seq<Step>) {
    forall k | 0 <= k < |steps| :: Prompt(g, Run(s, steps[..k]), steps[k])
  }

  /** Every batch runs under a lease for which the stream's window was verified. */
  predicate WindowVerified(s: State) {
    forall o | o in s.workers :: s.workers[o].ttl + MAX_PUBLISH_BACKOFF <= s.window
  }

  /** Lease times and the backoff bound put a prompt broker call inside the window of every
      earlier copy. */
  lemma {:induction false} PromptIsNotLate(g: Grain, s: State, step: Step)
    requires Inv(s) && WindowVerified(s) && Prompt(g, s, step)
    ensures !Late(g, s, step)
  {
    if Reaches(s, step) {
      var item := Offered(s, step);
      assert WorkerOk(s, step.owner) && PlaceOk(s, step.owner, 0);
      if i :| 0 <= i < |s.copies| && Same(g, s.copies[i], NewCopy(s, step)) {
        var c := s.copies[i];
        assert CopyOk(s, c);
        assert PromptAfter(s, c, s.workers[c.owner], item.ticket);
        if Present(s, item.ticket) { assert EntryOk(s, item.ticket); }
        assert s.now - c.at < s.window && c.dedupId == item.rec.dedupId;
      }
    }
  }

  lemma {:induction false} WindowStaysVerified(g: Grain, s: State, step: Step)
    requires WindowVerified(s) && Prompt(g, s, step)
    ensures WindowVerified(Next(s, step))
  {
    hide Publishable, Prepare, ErrorText, Effect, Purge, Conflicts, ClaimChoice, Deposit, HeadHeld, PromptOffer;
  }

  lemma {:induction false} PromptRunStaysVerified(g: Grain, now: int, window: nat, steps: seq<Step>)
    requires PromptRun(g, Init(now, window), steps)
    ensures WindowVerified(Run(Init(now, window), steps))
  {
    hide Prompt, Next, WindowVerified;
    if steps != [] {
      var before := steps[..|steps| - 1];
      forall k | 0 <= k < |before| ensures Prompt(g, Run(Init(now, window), before[..k]), before[k]) {
        assert before[..k] == steps[..k];
      }
      PromptRunStaysVerified(g, now, window, before);
      assert Prompt(g, Run(Init(now, window), steps[..|steps| - 1]), steps[|steps| - 1]);
      WindowStaysVerified(g, Run(Init(now, window), before), steps[|steps| - 1]);
    } else {
      NoBatchYet(g, now, window);
    }
  }

  lemma {:induction false} NoBatchYet(g: Grain, now: int, window: nat)
    ensures WindowVerified(Init(now, window)) && !Twice(g, Init(now, window))
  {
  }

  /** So in every run of relays that verified the stream's window and recover promptly, no call
      is late and nothing is stored twice: per id if they are prompt after every copy under the
      id, per message if they are prompt after the message's own. */
  lemma {:induction false} PromptStoresOnce(g: Grain, now: int, window: nat, steps: seq<Step>)
    requires PromptRun(g, Init(now, window), steps)
    ensures !Twice(g, Run(Init(now, window), steps))
  {
    hide Prompt, Late, Next, Twice, WindowVerified;
    var s0 := Init(now, window);
    forall k | 0 <= k < |steps| ensures !Late(g, Run(s0, steps[..k]), steps[k]) {
      forall j | 0 <= j < k ensures Prompt(g, Run(s0, steps[..k][..j]), steps[..k][j]) {
        assert steps[..k][..j] == steps[..j];
      }
      PromptRunStaysVerified(g, now, window, steps[..k]);
      Reachable(now, window, steps[..k]);
      PromptIsNotLate(g, Run(s0, steps[..k]), steps[k]);
    }
    NoBatchYet(g, now, window);
    OneCopyExactly(g, s0, steps);
  }

  /** One copy per message: with a verified window, prompt recovery, purges that wait out the
      window and calls for rows still owned, the stream holds exactly one copy of every
      published or purged message, its own. */
  lemma {:induction false} OneCopyPerMessage(now: int, window: nat, steps: seq<Step>, t: nat)
    requires PromptRun(PerMessage, Init(now, window), steps) && RetentiveRun(Init(now, window), steps)
    requires t in Run(Init(now, window), steps).ledger && Delivered(Run(Init(now, window), steps), t)
    ensures var copies := Run(Init(now, window), steps).copies;
            && (exists i :: 0 <= i < |copies| && copies[i].ticket == t)
            && forall i, j | 0 <= i < j < |copies| :: copies[i].ticket != t || copies[j].ticket != t
  {
    hide Run, RetentiveRun, PromptRun, Delivered;
    PublishedHasOwnCopy(now, window, steps, t);
    PromptStoresOnce(PerMessage, now, window, steps);
    var s := Run(Init(now, window), steps);
    forall i, j | 0 <= i < j < |s.copies| ensures s.copies[i].ticket != t || s.copies[j].ticket != t {
      assert !Same(PerMessage, s.copies[i], s.copies[j]);
    }
  }
}
