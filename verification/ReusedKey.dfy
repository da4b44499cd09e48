/** Where retention ends: a key used again after its row was purged, the gap below which the
    stream takes the new message for the old one, and a stalled relay that does the same. */
module ReusedKey {
  import opened Wrappers
  import opened Outbox
  import opened OutboxTable
  import opened Pipeline
  import PipelineInvariant
  import PipelineProgress
  import opened PipelineTheorems
  import opened BrokerCopies
  import opened LateRecovery

  /** Another message under the same key. */
  function Changed(): OutboxRecord { Message().(payload := Json(Success([7]))) }

  predicate IsPublished(s: State, c: Scene) {
    Shows(s, c) && s.rows[1].status.Published? && s.rows[1].publishedAt == Some(c.now)
  }

  lemma {:induction false} Marks(s: State, c: Scene, o: Uuid, ttl: int)
    requires Held(s, c, o, ttl, Marking)
    ensures IsPublished(Next(s, Advance(o, Acked, Fine)), c)
  {
    hide Publishable, Prepare, ErrorText, Deposit;
    var st := MarkPublished(1, o, s.now);
    assert Pipeline.Pending(s.workers[o], o, s.now) == Some(st);
    assert Selects(st, 1, s.rows[1], s.now);
  }

  /** A batch that goes well. */
  function FullBatch(o: Uuid, ttl: nat): seq<Step> { Batch(o, ttl) + [Advance(o, Acked, Fine)] }

  lemma {:induction false} RunFullBatch(s: State, steps: seq<Step>, c: Scene, o: Uuid, ttl: nat)
    requires Ready(Run(s, steps), c) && o !in c.used && 0 < ttl
    ensures IsPublished(Run(s, steps + FullBatch(o, ttl)), Served(c, o))
  {
    hide Held, Ready, IsPublished, Next, Run;
    RunBatch(s, steps, c, o, ttl);
    var b := steps + Batch(o, ttl);
    Extend(s, b, Advance(o, Acked, Fine));
    Marks(Run(s, b), Served(c, o), o, ttl);
    assert b + [Advance(o, Acked, Fine)] == steps + FullBatch(o, ttl);
  }

  /** `ms` milliseconds later the row is purged and the key staged again. */
  function Reuse(ms: nat, age: int): seq<Step> { [Tick(ms)] + [PurgePublished(age)] + [Enqueue(Changed(), true)] }

  lemma {:induction false} ChangedIsPublishable()
    ensures Publishable(Changed())
  {
    MessageIsPublishable();
  }

  lemma {:induction false} Purges(s: State, c: Scene, ms: nat, age: int)
    requires IsPublished(s, c) && 0 < age < ms
    ensures var s' := Next(Next(s, Tick(ms)), PurgePublished(age));
            && s'.rows == map[] && s'.tickets == map[] && s'.ledger.Keys == s.ledger.Keys && s'.next == s.next
            && s'.window == s.window && s'.workers == s.workers && s'.copies == s.copies && s'.now == c.now + ms
  {
    assert Purgeable(s.rows[1], c.now + ms, age);
  }

  lemma {:induction false} StagesFirst(s: State, rec: OutboxRecord)
    requires s.rows == map[] && s.tickets == map[] && Publishable(rec)
    ensures var s' := Next(s, Enqueue(rec, true));
            && s'.rows == map[rec.id := Staged(rec, s.now)] && s'.tickets == map[rec.id := s.next]
            && s'.next == s.next + 1 && s.next in s'.ledger && s'.ledger[s.next].rec == rec
            && s'.window == s.window && s'.workers == s.workers && s'.copies == s.copies && s'.now == s.now
  {
    hide Publishable, Staged;
    assert !Conflicts(s.rows, rec);
  }

  lemma {:induction false} Restages(s: State, c: Scene, ms: nat, age: int)
    requires IsPublished(s, c) && 0 < age < ms && c.ticket + 1 !in s.ledger
    ensures var s' := Next(Next(Next(s, Tick(ms)), PurgePublished(age)), Enqueue(Changed(), true));
            Ready(s', c.(now := c.now + ms, ticket := c.ticket + 1))
            && c.ticket + 1 in s'.ledger && s'.ledger[c.ticket + 1].rec == Changed()
  {
    hide Publishable, Prepare, ErrorText, Next;
    ChangedIsPublishable();
    Purges(s, c, ms, age);
    StagesFirst(Next(Next(s, Tick(ms)), PurgePublished(age)), Changed());
  }

  lemma {:induction false} RunReuse(s: State, steps: seq<Step>, c: Scene, ms: nat, age: int)
    requires IsPublished(Run(s, steps), c) && 0 < age < ms && c.ticket + 1 !in Run(s, steps).ledger
    ensures var s' := Run(s, steps + Reuse(ms, age));
            Ready(s', c.(now := c.now + ms, ticket := c.ticket + 1))
            && c.ticket + 1 in s'.ledger && s'.ledger[c.ticket + 1].rec == Changed()
  {
    hide Ready, IsPublished, Next, Run;
    var s1, s2 := steps + [Tick(ms)], steps + [Tick(ms)] + [PurgePublished(age)];
    Extend(s, steps, Tick(ms));
    Extend(s, s1, PurgePublished(age));
    Extend(s, s2, Enqueue(Changed(), true));
    Restages(Run(s, steps), c, ms, age);
    assert s2 + [Enqueue(Changed(), true)] == steps + Reuse(ms, age);
  }

  function ReuseRun(ms: nat, age: int, ttl: nat): seq<Step> {
    [Enqueue(Message(), true)] + FullBatch(10, ttl) + Reuse(ms, age) + FullBatch(11, ttl)
  }

  /** In that run no database call fails, no lease lapses, and every claim uses the lease. */
  lemma {:induction false} ReuseRunIsOrderly(ms: nat, age: int, ttl: nat)
    ensures var steps := ReuseRun(ms, age, ttl);
            NoDbErrors(steps) && forall k | 0 <= k < |steps| ::
              !steps[k].Crash? && (steps[k].ClaimBatch? ==> steps[k].ttl == ttl)
  {
  }

  lemma {:induction false} OnlyOneTicket(now: int, window: nat, steps: seq<Step>, c: Scene)
    requires Shows(Run(Init(now, window), steps), c)
    ensures c.ticket + 1 !in Run(Init(now, window), steps).ledger
  {
    hide Run;
    PipelineInvariant.Reachable(now, window, steps);
    PipelineInvariant.FreshTicket(Run(Init(now, window), steps));
  }

  lemma {:induction false} RecordStays(s0: State, a: seq<Step>, b: seq<Step>, now: int, window: nat)
    requires s0 == Init(now, window) && 1 in Run(s0, a).ledger
    ensures 1 in Run(s0, a + b).ledger && Run(s0, a + b).ledger[1].rec == Run(s0, a).ledger[1].rec
  {
    hide Run;
    PipelineInvariant.Reachable(now, window, a);
    RunConcat(s0, a, b);
    TicketsStay(Run(s0, a), b, 1);
  }

  /** A message is published, its row purged `age` or more after that, and another message
      staged under its key `ms` milliseconds after the first was stored; relays do their work
      without error, crash or lapse. The second message ends up published in every case, but
      the stream stores it exactly if the gap is at least the window. Below that it is lost:
      the relay is told it was delivered, and the stream holds only the first one's copy. */
  lemma {:induction false} ReuseThreshold(window: nat, ms: nat, age: int, ttl: nat)
    requires 0 < age < ms && 0 < ttl
    ensures var s := Run(Init(0, window), ReuseRun(ms, age, ttl));
            && 1 in s.ledger && s.ledger[1].rec == Changed() && FateOf(s, 1).Sent?
            && s.copies == (if window <= ms then [Once(), Copy("v1-x", ms, 11, 1)] else [Once()])
            && (OwnCopy(s, 1) <==> window <= ms)
  {
    hide Ready, Next, Run;
    var s0, a := Init(0, window), [Enqueue(Message(), true)];
    var c := Scene(window, {}, [], 0, 0);
    SecondCopy(window, Copy("v1-x", ms, 11, 1));
    Stages(window);
    RunFullBatch(s0, a, c, 10, ttl);
    var b := a + FullBatch(10, ttl);
    OnlyOneTicket(0, window, b, Served(c, 10));
    RunReuse(s0, b, Served(c, 10), ms, age);
    var d := Served(c, 10).(now := ms, ticket := 1);
    RunFullBatch(s0, b + Reuse(ms, age), d, 11, ttl);
    RecordStays(s0, b + Reuse(ms, age), FullBatch(11, ttl), 0, window);
    var s := Run(s0, ReuseRun(ms, age, ttl));
    assert Served(d, 11).copies == s.copies;
    if window <= ms {
      assert s.copies[1].ticket == 1;
    }
  }

  // ---- A call for a row no longer owned -------------------------------------------------

  /** `o` has seen its lease alive and stands before the broker call for admission 0. */
  predicate Stalled(s: State, o: Uuid) {
    && o in s.workers && s.workers[o].pc.Offering? && s.workers[o].queue != []
    && s.workers[o].queue[0].rec.dedupId == "v1-x" && s.workers[o].queue[0].ticket == 0
  }

  function Stall(ttl: nat): seq<Step> {
    [ClaimBatch(10, [1], 1, ttl, 8, Fine)] + [Advance(10, Acked, Fine)] + [Tick(ttl)]
  }

  lemma {:induction false} LeaseRunsOut(s: State, c: Scene, o: Uuid, ttl: nat)
    requires Held(s, c, o, ttl, Offering) && c.ticket == 0
    ensures var s' := Next(s, Tick(ttl)); Ready(s', c.(now := c.now + ttl)) && Stalled(s', o)
  {
  }

  lemma {:induction false} RunStall(s: State, steps: seq<Step>, c: Scene, ttl: nat)
    requires Ready(Run(s, steps), c) && 10 !in c.used && 0 < ttl && c.ticket == 0
    ensures var s' := Run(s, steps + Stall(ttl)); Ready(s', Joined(c, 10).(now := c.now + ttl)) && Stalled(s', 10)
  {
    hide Held, Ready, Stalled, Next, Run;
    var claim, go := ClaimBatch(10, [1], 1, ttl, 8, Fine), Advance(10, Acked, Fine);
    var s1, s2 := steps + [claim], steps + [claim] + [go];
    Extend(s, steps, claim);
    Claims(Run(s, steps), c, 10, ttl);
    Extend(s, s1, go);
    Checks(Run(s, s1), Joined(c, 10), 10, ttl);
    Extend(s, s2, Tick(ttl));
    LeaseRunsOut(Run(s, s2), Joined(c, 10), 10, ttl);
    assert s2 + [Tick(ttl)] == steps + Stall(ttl);
  }

  predicate LeavesAlone(steps: seq<Step>, o: Uuid) {
    forall k | 0 <= k < |steps| :: steps[k].Advance? || steps[k].Crash? ==> steps[k].owner != o
  }

  lemma {:induction false} StaysStalled(s: State, steps: seq<Step>, o: Uuid)
    requires Stalled(s, o) && LeavesAlone(steps, o)
    ensures Stalled(Run(s, steps), o)
  {
    hide Next;
    if steps != [] {
      StaysStalled(s, steps[..|steps| - 1], o);
      PipelineProgress.OtherWorkers(Run(s, steps[..|steps| - 1]), steps[|steps| - 1], o);
    }
  }

  /** The late call stores the first message again and changes no row. */
  lemma {:induction false} LateCall(s: State, c: Scene, o: Uuid)
    requires Ready(s, c) && Stalled(s, o)
    ensures var copies := Deposit(c.copies, Copy("v1-x", c.now, o, 0), c.window);
            Ready(Next(s, Advance(o, Acked, Fine)), c.(copies := copies))
  {
    hide Publishable, Prepare, ErrorText, Deposit, Execute;
  }

  function StalledRun(ms: nat, age: int, ttl: nat): seq<Step> {
    [Enqueue(Message(), true)] + Stall(ttl) + FullBatch(11, ttl) + Reuse(ms, age) + [Advance(10, Acked, Fine)]
    + FullBatch(12, ttl)
  }

  /** What the three calls of that run leave in the stream: the second message is taken for the
      first, stored again at the same moment. */
  lemma {:induction false} StalledCopies(window: nat, ms: nat, ttl: nat)
    requires 0 < window < ms
    ensures var one, two := Copy("v1-x", ttl, 11, 0), Copy("v1-x", ttl + ms, 10, 0);
            && Deposit([], one, window) == [one] && Deposit([one], two, window) == [one, two]
            && Deposit([one, two], Copy("v1-x", ttl + ms, 12, 1), window) == [one, two]
  {
    var one, two := Copy("v1-x", ttl, 11, 0), Copy("v1-x", ttl + ms, 10, 0);
    assert [one, two][1] == two;
  }

  /** The guard on retention alone does not do: whatever the window, and with purges that wait it
      out, a relay that stalls between its lease check and its call until another one has
      published the row, and the key is in use again, makes the next message's call miss. */
  lemma {:induction false} StalledCallShadows(window: nat, ms: nat, age: int, ttl: nat)
    requires 0 < window <= age < ms && 0 < ttl
    ensures var s := Run(Init(0, window), StalledRun(ms, age, ttl));
            1 in s.ledger && s.ledger[1].rec == Changed() && FateOf(s, 1).Sent? && !OwnCopy(s, 1)
  {
    hide Ready, Stalled, Next, Run;
    var s0, a := Init(0, window), [Enqueue(Message(), true)];
    var c := Scene(window, {}, [], 0, 0);
    StalledCopies(window, ms, ttl);
    Stages(window);
    RunStall(s0, a, c, ttl);
    var c1 := Joined(c, 10).(now := ttl);
    var b1 := a + Stall(ttl);
    RunFullBatch(s0, b1, c1, 11, ttl);
    var b2 := b1 + FullBatch(11, ttl);
    OnlyOneTicket(0, window, b2, Served(c1, 11));
    RunReuse(s0, b2, Served(c1, 11), ms, age);
    var c2 := Served(c1, 11).(now := ttl + ms, ticket := 1);
    var b3 := b2 + Reuse(ms, age);
    assert b3 == b1 + (FullBatch(11, ttl) + Reuse(ms, age));
    RunConcat(s0, b1, FullBatch(11, ttl) + Reuse(ms, age));
    StaysStalled(Run(s0, b1), FullBatch(11, ttl) + Reuse(ms, age), 10);
    Extend(s0, b3, Advance(10, Acked, Fine));
    LateCall(Run(s0, b3), c2, 10);
    var c3 := c2.(copies := Deposit(c2.copies, Copy("v1-x", c2.now, 10, 0), window));
    var b4 := b3 + [Advance(10, Acked, Fine)];
    RunFullBatch(s0, b4, c3, 12, ttl);
    assert StalledRun(ms, age, ttl) == b3 + ([Advance(10, Acked, Fine)] + FullBatch(12, ttl));
    assert b4 + FullBatch(12, ttl) == StalledRun(ms, age, ttl);
    RecordStays(s0, b3, [Advance(10, Acked, Fine)] + FullBatch(12, ttl), 0, window);
    assert Run(s0, StalledRun(ms, age, ttl)).copies == Served(c3, 12).copies;
  }
}
