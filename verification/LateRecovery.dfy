/** Where promptness ends: after a crash between acknowledgement and mark, the outage from
    which the broker holds the message twice. */
module LateRecovery {
  import opened Wrappers
  import opened Outbox
  import opened OutboxTable
  import opened Pipeline
  import opened BrokerCopies
  import PipelineTheorems
  import Subjects

  function Message(): OutboxRecord {
    var subject := Subjects.AsString(Subjects.Subject("jobs", "done", 1));
    OutboxRecord(1, subject, None, [], "v1-x", Json(Success([])), 0, Pending, 0)
  }

  lemma {:induction false} MessageIsPublishable()
    ensures Publishable(Message())
  {
    var s := Subjects.Subject("jobs", "done", 1);
    assert Subjects.ValidateToken("jobs").Success?;
    assert Subjects.ValidateToken("done").Success?;
    Subjects.ParsePrint(Subjects.AsString(s), s);
  }

  lemma {:induction false} Extend(s: State, steps: seq<Step>, step: Step)
    ensures Run(s, steps + [step]) == Next(Run(s, steps), step)
  {
    assert (steps + [step])[..|steps|] == steps;
  }

  // ---- One row at work ----------------------------------------------------------------

  /** The surroundings of the one row of the table, which stands for admission `ticket`. */
  datatype Scene = Scene(window: nat, used: set<Uuid>, copies: seq<Copy>, now: int, ticket: nat)

  predicate Shows(s: State, c: Scene) {
    && s.window == c.window && s.workers.Keys == c.used && s.copies == c.copies && s.now == c.now
    && s.rows.Keys == {1} == s.tickets.Keys && s.tickets[1] == c.ticket && s.next == c.ticket + 1
    && c.ticket in s.ledger && s.ledger[c.ticket].rec.id == 1
  }

  /** The message's record, up to content the broker does not look at. */
  predicate SameMessage(rec: OutboxRecord) {
    && rec.id == 1 && rec.subject == Message().subject && rec.dedupId == "v1-x"
    && rec.payload.encoding.Success? && |rec.payload.encoding.value| <= 1
  }

  lemma {:induction false} SameMessageIsPublishable(rec: OutboxRecord)
    requires SameMessage(rec)
    ensures Publishable(rec)
  {
    MessageIsPublishable();
  }

  /** The row is waiting and claimable. */
  predicate Ready(s: State, c: Scene) {
    && Shows(s, c)
    && Claimable(s.rows[1], s.now) && s.rows[1].attempts >= 0 && SameMessage(Returned(1, s.rows[1]))
  }

  /** `o` holds the row under a live lease and stands at `pc`. */
  predicate Held(s: State, c: Scene, o: Uuid, ttl: int, pc: Pc) {
    && Shows(s, c) && SameMessage(Returned(1, s.rows[1])) && s.rows[1].attempts >= 0
    && s.rows[1].status.Pending? && s.rows[1].availableAt <= c.now
    && s.rows[1].owner == Some(o) && s.rows[1].expiresAt.Some? && c.now < s.rows[1].expiresAt.value <= c.now + ttl
    && o in s.workers && s.workers[o].pc == pc && |s.workers[o].queue| == 1
    && SameMessage(s.workers[o].queue[0].rec) && s.workers[o].queue[0].ticket == c.ticket
  }

  function Joined(c: Scene, o: Uuid): Scene { c.(used := c.used + {o}) }

  /** The scene after `o` has joined and been acknowledged. */
  function Served(c: Scene, o: Uuid): Scene {
    c.(used := c.used + {o}, copies := Deposit(c.copies, Copy("v1-x", c.now, o, c.ticket), c.window))
  }

  lemma {:induction false} Claims(s: State, c: Scene, o: Uuid, ttl: int)
    requires Ready(s, c) && o !in c.used && 0 < ttl
    ensures Held(Next(s, ClaimBatch(o, [1], 1, ttl, 8, Fine)), Joined(c, o), o, ttl, AtRow)
  {
    hide Publishable, Prepare, ErrorText;
    assert CanClaim(s, o, [1], 1, ttl);
    var s' := Next(s, ClaimBatch(o, [1], 1, ttl, 8, Fine));
    assert s'.rows[1] == Updated(Claim([1], o, ttl), 1, s.rows[1], c.now);
    assert Selects(Claim([1], o, ttl), 1, s.rows[1], c.now);
    assert s'.workers[o].queue[0].rec == Returned(1, s'.rows[1]);
  }

  lemma {:induction false} LooksAtLease(s: State, o: Uuid)
    requires o in s.workers && s.workers[o].pc.AtRow? && HeadHeld(s, o, s.workers[o])
        && Publishable(s.workers[o].queue[0].rec)
    ensures Next(s, Advance(o, Acked, Fine)) == SetWorker(s, o, s.workers[o].(pc := Offering))
  {
    hide Publishable;
  }

  lemma {:induction false} Checks(s: State, c: Scene, o: Uuid, ttl: int)
    requires Held(s, c, o, ttl, AtRow)
    ensures Held(Next(s, Advance(o, Acked, Fine)), c, o, ttl, Offering)
  {
    hide Next, Publishable;
    SameMessageIsPublishable(s.workers[o].queue[0].rec);
    LooksAtLease(s, o);
  }

  lemma {:induction false} Offers(s: State, c: Scene, o: Uuid, ttl: int)
    requires Held(s, c, o, ttl, Offering) && o in c.used
    ensures Held(Next(s, Advance(o, Acked, Fine)), Served(c, o), o, ttl, Marking)
  {
    hide Publishable, Prepare, ErrorText, Deposit;
  }

  function Batch(o: Uuid, ttl: nat): seq<Step> {
    [ClaimBatch(o, [1], 1, ttl, 8, Fine)] + [Advance(o, Acked, Fine)] + [Advance(o, Acked, Fine)]
  }

  /** One relay claims the message and gets it acknowledged. */
  lemma {:induction false} RunBatch(s: State, steps: seq<Step>, c: Scene, o: Uuid, ttl: nat)
    requires Ready(Run(s, steps), c) && o !in c.used && 0 < ttl
    ensures Held(Run(s, steps + Batch(o, ttl)), Served(c, o), o, ttl, Marking)
  {
    hide Held, Ready, Next, Run;
    var claim, go := ClaimBatch(o, [1], 1, ttl, 8, Fine), Advance(o, Acked, Fine);
    var s1, s2 := steps + [claim], steps + [claim] + [go];
    Extend(s, steps, claim);
    Claims(Run(s, steps), c, o, ttl);
    Extend(s, s1, go);
    Checks(Run(s, s1), Joined(c, o), o, ttl);
    Extend(s, s2, go);
    Offers(Run(s, s2), Joined(c, o), o, ttl);
    assert s2 + [go] == steps + Batch(o, ttl);
    assert Served(Joined(c, o), o) == Served(c, o);
  }

  /** It dies before the mark, and nobody looks for `ms` milliseconds. */
  lemma {:induction false} RunOutage(s: State, steps: seq<Step>, c: Scene, o: Uuid, ttl: int, ms: nat)
    requires Held(Run(s, steps), c, o, ttl, Marking) && ttl <= ms
    ensures Ready(Run(s, steps + [Crash(o)] + [Tick(ms)]), c.(now := c.now + ms))
  {
    Extend(s, steps, Crash(o));
    Extend(s, steps + [Crash(o)], Tick(ms));
  }

  lemma {:induction false} Stages(window: nat)
    ensures Ready(Run(Init(0, window), [Enqueue(Message(), true)]), Scene(window, {}, [], 0, 0))
  {
    MessageIsPublishable();
    var s0 := Init(0, window);
    Extend(s0, [], Enqueue(Message(), true));
    assert [] + [Enqueue(Message(), true)] == [Enqueue(Message(), true)];
    assert !Conflicts(s0.rows, Message());
    assert Next(s0, Enqueue(Message(), true)).rows[1] == Staged(Message(), 0);
  }

  // ---- The threshold ------------------------------------------------------------------

  /** `a`, then a batch that dies unmarked, an outage of `ms` milliseconds, and a second
      batch. */
  function LateRun(a: seq<Step>, ms: nat, ttl: nat): seq<Step> {
    a + Batch(10, ttl) + [Crash(10)] + [Tick(ms)] + Batch(11, ttl)
  }

  lemma {:induction false} LateRunIsOrderly(ms: nat, ttl: nat)
    ensures var steps := LateRun([Enqueue(Message(), true)], ms, ttl);
            && PipelineTheorems.NoDbErrors(steps)
            && forall k | 0 <= k < |steps| && steps[k].ClaimBatch? :: steps[k].ttl == ttl
  {
  }

  function Once(): Copy { Copy("v1-x", 0, 10, 0) }

  lemma {:induction false} SecondCopy(window: nat, c: Copy)
    requires c.dedupId == "v1-x"
    ensures Deposit([], Once(), window) == [Once()]
    ensures Deposit([Once()], c, window) == if window <= c.at then [Once(), c] else [Once()]
  {
    assert [Once()][0] == Once();
  }

  lemma {:induction false} LateRunCopies(s: State, a: seq<Step>, window: nat, ms: nat, ttl: nat)
    requires Ready(Run(s, a), Scene(window, {}, [], 0, 0)) && 0 < ttl <= ms
    ensures Run(s, LateRun(a, ms, ttl)).copies == if window <= ms then [Once(), Copy("v1-x", ms, 11, 0)] else [Once()]
  {
    hide Ready, Run;
    var c := Scene(window, {}, [], 0, 0);
    SecondCopy(window, Copy("v1-x", ms, 11, 0));
    RunBatch(s, a, c, 10, ttl);
    RunOutage(s, a + Batch(10, ttl), Served(c, 10), 10, ttl, ms);
    var b := a + Batch(10, ttl) + [Crash(10)] + [Tick(ms)];
    RunBatch(s, b, Served(c, 10).(now := ms), 11, ttl);
  }

  /** A relay dies between the acknowledgement and the mark, and no relay returns for `ms`
      milliseconds. For every window, lease and outage at least as long as the lease: the
      broker ends with two copies of the message exactly if the outage is at least the window.
      Passing `verify_duplicate_window` plays no part in it; `LateRunIsOrderly` says that
      every claim of the run uses that lease and that no database call fails. */
  lemma {:induction false} LateRecoveryThreshold(window: nat, ms: nat, ttl: nat)
    requires 0 < ttl <= ms
    ensures var s := Run(Init(0, window), LateRun([Enqueue(Message(), true)], ms, ttl));
            && s.copies == (if window <= ms then [Once(), Copy("v1-x", ms, 11, 0)] else [Once()])
            && (Twice(PerMessage, s) <==> window <= ms)
  {
    Stages(window);
    LateRunCopies(Init(0, window), [Enqueue(Message(), true)], window, ms, ttl);
    var s := Run(Init(0, window), LateRun([Enqueue(Message(), true)], ms, ttl));
    if window <= ms {
      assert Same(PerMessage, s.copies[0], s.copies[1]);
    }
  }
}
