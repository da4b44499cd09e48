/** The two conditions under which the drainers do less than one would think, met by concrete
    tables: a dead broker costs a row its lapsed owner, and the two drainers part over a row
    refused on its last attempt. */
module LimitCases {
  import opened Wrappers
  import opened Outbox
  import opened OutboxTable
  import opened Pipeline
  import opened LateRecovery
  import opened Drainer
  import opened DrainerOutcome
  import opened DrainerTheorems
  import opened Compat
  import opened Refinement

  // ---- A lapsed owner behind a publishable row ---------------------------------------

  function Second(): OutboxRecord { Message().(id := 2, key := [1], dedupId := "v1-y") }

  /** Two messages are staged; a relay claims the second one and dies; its lease runs out. */
  function Lapse(ttl: nat): seq<Step> {
    [Enqueue(Message(), true)] + [Enqueue(Second(), true)] + [ClaimBatch(10, [2], 1, ttl, 8, Fine)] + [Crash(10)]
        + [Tick(ttl)]
  }

  function LapsedRows(ttl: nat): Rows {
    map[1 := Staged(Message(), 0), 2 := ClaimedRow(Staged(Second(), 0), 10, ttl)]
  }

  lemma {:induction false} BothStaged(window: nat)
    ensures var s := Run(Init(0, window), [Enqueue(Message(), true)] + [Enqueue(Second(), true)]);
            s.rows == map[1 := Staged(Message(), 0), 2 := Staged(Second(), 0)] && s.now == 0 && s.workers == map[]
  {
    MessageIsPublishable();
    hide Publishable, Staged;
    SecondIsPublishable();
    var s0, first := Init(0, window), Enqueue(Message(), true);
    Extend(s0, [], first);
    assert [] + [first] == [first];
    var s1 := Next(s0, first);
    assert s1.rows == map[1 := Staged(Message(), 0)] && s1.workers == map[];
    Extend(s0, [first], Enqueue(Second(), true));
    NoConflict();
  }

  lemma {:induction false} SecondIsPublishable()
    ensures Publishable(Second())
  {
    MessageIsPublishable();
  }

  lemma {:induction false} NoConflict()
    ensures !Conflicts(map[1 := Staged(Message(), 0)], Second())
  {
    assert Second().key != Message().key && "v1-x"[3] != "v1-y"[3];
  }

  lemma {:induction false} ClaimSecond(s: State, ttl: nat)
    requires s.rows == map[1 := Staged(Message(), 0), 2 := Staged(Second(), 0)] && s.now == 0 && s.workers == map[]
        && 0 < ttl
    ensures var s' := Next(s, ClaimBatch(10, [2], 1, ttl, 8, Fine));
            s'.rows == LapsedRows(ttl) && s'.now == 0 && 10 in s'.workers && s'.workers[10].pc.AtRow?
  {
    hide Publishable, Prepare, ErrorText;
    assert CanClaim(s, 10, [2], 1, ttl);
    var st := Claim([2], 10, ttl);
    assert Selects(st, 2, s.rows[2], 0) && !Selects(st, 1, s.rows[1], 0);
    assert Effect(st, s.rows, 0) == LapsedRows(ttl);
  }

  /** That state is reached. */
  lemma {:induction false} LapseIsReached(window: nat, ttl: nat)
    requires 0 < ttl
    ensures var s := Run(Init(0, window), Lapse(ttl)); s.rows == LapsedRows(ttl) && s.now == ttl
  {
    hide LapsedRows, Next, Run;
    var s0, a := Init(0, window), [Enqueue(Message(), true)] + [Enqueue(Second(), true)];
    BothStaged(window);
    var claim := ClaimBatch(10, [2], 1, ttl, 8, Fine);
    Extend(s0, a, claim);
    ClaimSecond(Run(s0, a), ttl);
    Extend(s0, a + [claim], Crash(10));
    Extend(s0, a + [claim] + [Crash(10)], Tick(ttl));
    LapseEnds(Run(s0, a + [claim]), ttl);
  }

  lemma {:induction false} LapseEnds(s: State, ttl: nat)
    ensures var s' := Next(Next(s, Crash(10)), Tick(ttl)); s'.rows == s.rows && s'.now == s.now + ttl
  {
  }

  function DeadEnv(): Env { Env(_ => 0, _ => Fine, _ => Some("down")) }

  lemma {:induction false} DeadEnvIsDead()
    ensures DeadBroker(DeadEnv()) && NoFaults(DeadEnv()) && Still(DeadEnv())
  {
  }

  /** A dead broker does not restore every row: run a batch over both rows of that reachable
      table. It is undisturbed, the row behind the refused one was never offered, and yet it
      loses the lapsed owner it had before the claim. */
  lemma {:induction false} DeadBrokerCostsLapsedOwner(window: nat, ttl: nat)
    requires 0 < ttl
    ensures var s := Run(Init(0, window), Lapse(ttl)); s.rows == LapsedRows(ttl) && s.now == ttl
    ensures var w, cfg := World(LapsedRows(ttl), ttl, 0, []), Drainer.Config.Config(2, 8, ttl);
            && DeadBroker(DeadEnv()) && Orderly(DeadEnv(), cfg, w, 11, [1, 2])
            && FirstPublishable(Records(w.rows, [1, 2])) == 0
            && w.rows[2].owner == Some(10)
            && var w' := BatchPublished(DeadEnv(), w, cfg, 11, [1, 2]).0;
               2 in w'.rows && w'.rows[2] != w.rows[2] && w'.rows[2].owner.None?
  {
    hide BatchPublished, Run, FirstPublishable;
    LapseIsReached(window, ttl);
    DeadEnvIsDead();
    var w, cfg, pick := World(LapsedRows(ttl), ttl, 0, []), Drainer.Config.Config(2, 8, ttl), [1, 2];
    assert pick[0] == 1 && pick[1] == 2;
    StillBatch(DeadEnv(), cfg, w, 11, pick);
    LapseIsClaimable(ttl);
    assert Orderly(DeadEnv(), cfg, w, 11, pick);
    FrontIsFirst(w.rows, pick);
    DeadBrokerBatch(DeadEnv(), cfg, w, 11, pick, 1);
  }

  lemma {:induction false} LapseIsClaimable(ttl: nat)
    requires 0 < ttl
    ensures var rows := LapsedRows(ttl);
            Fresh(rows, 11) && ClaimChoice(rows, [1, 2], ttl, 2) && rows[1].subject == Message().subject
                && rows[1].payload == Message().payload
  {
  }

  lemma {:induction false} FrontIsFirst(rows: Rows, pick: seq<Uuid>)
    requires pick != [] && (forall i | 0 <= i < |pick| :: pick[i] in rows)
    requires rows[pick[0]].subject == Message().subject && rows[pick[0]].payload == Message().payload
    ensures FirstPublishable(Records(rows, pick)) == 0
  {
    MessageIsPublishable();
    hide Prepare;
    assert Publishable(Records(rows, pick)[0]);
  }

  // ---- A refusal on the last attempt ---------------------------------------------------

  function LastRow(max: nat): Row
    requires 0 < max
  {
    Staged(Message(), 0).(attempts := max - 1)
  }

  function LastTwin(max: nat): CompatRow
    requires 0 < max
  {
    CompatRow(Message().subject, [], 0, max - 1, 0, None, None)
  }

  lemma {:induction false} LastBatchIsFair(max: nat, ttl: nat)
    requires 0 < max && 0 < ttl
    ensures FairBatch(DeadEnv(), Drainer.Config.Config(1, max, ttl), World(map[1 := LastRow(max)], 0, 0, []),
                      CompatWorld(map[1 := LastTwin(max)], 0, 0, []), 11, [1])
  {
    MessageIsPublishable();
    hide BatchPublished, Prepare;
    var w, cfg := World(map[1 := LastRow(max)], 0, 0, []), Drainer.Config.Config(1, max, ttl);
    assert [1][0] == 1;
    DeadEnvIsDead();
    StillBatch(DeadEnv(), cfg, w, 11, [1]);
    assert Twin(LastRow(max), LastTwin(max));
  }

  /** The drainers do part: for every attempt limit there are twin tables of one valid row,
      and a batch both can run, after which they are twins no more. */
  lemma {:induction false} RefusalOnLastAttemptParts(max: nat, ttl: nat)
    requires 0 < max && 0 < ttl
    ensures var w, cw := World(map[1 := LastRow(max)], 0, 0, []), CompatWorld(map[1 := LastTwin(max)], 0, 0, []);
            var cfg := Drainer.Config.Config(1, max, ttl);
            && FairBatch(DeadEnv(), cfg, w, cw, 11, [1])
            && RefusedOnLastAttempt(DeadEnv(), cfg, w, [1], 0)
            && !Twins(BatchPublished(DeadEnv(), w, cfg, 11, [1]).0.rows, CompatBatch(DeadEnv(), cw, [1]).0.rows)
  {
    hide BatchPublished, CompatBatch, Prepare, Records, Fates, FirstPublishable, Twin;
    var w, cw := World(map[1 := LastRow(max)], 0, 0, []), CompatWorld(map[1 := LastTwin(max)], 0, 0, []);
    var cfg, pick := Drainer.Config.Config(1, max, ttl), [1];
    assert pick[0] == 1;
    DeadEnvIsDead();
    LastBatchIsFair(max, ttl);
    FrontIsFirst(w.rows, pick);
    RecordIds(w.rows, pick);
    DeadFateAt(DeadEnv(), Wires(w.calls), Records(w.rows, pick), 0);
    LeasedRefinesLocking(DeadEnv(), cfg, w, cw, 11, pick);
    assert RefusedOnLastAttempt(DeadEnv(), cfg, w, pick, 0);
  }
}
