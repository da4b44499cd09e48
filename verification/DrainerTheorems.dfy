/** What follows for whole batches and sequences of batches of one relay: progress towards
    a table without pending rows, a bound on broker calls, and the cost of an outage. */
module DrainerTheorems {
  import opened Wrappers
  import opened Outbox
  import opened OutboxTable
  import opened Drainer
  import opened DrainerOutcome

  // ---- One batch ------------------------------------------------------------------

  /** No row belongs to the batch's owner yet, and no attempt count is negative. */
  predicate Fresh(rows: Rows, owner: Uuid) {
    forall id | id in rows :: rows[id].owner != Some(owner) && 0 <= rows[id].attempts
  }

  /** A batch that runs undisturbed: its choice of rows is one the claim can make, its
      owner is fresh, and it ends before its lease does. */
  ghost predicate Orderly(env: Env, cfg: Config, w: World, owner: Uuid, pick: seq<Uuid>) {
    && NoFaults(env) && 0 < cfg.batchSize && 0 < cfg.claimTtl
    && Fresh(w.rows, owner)
    && ClaimChoice(w.rows, pick, CallTime(env, w), cfg.batchSize)
    && BatchPublished(env, w, cfg, owner, pick).0.now < CallTime(env, w) + cfg.claimTtl
  }

  function Claimed(env: Env, cfg: Config, w: World, owner: Uuid, pick: seq<Uuid>): World {
    Executed(env, w, Claim(pick, owner, cfg.claimTtl)).0
  }

  function BatchFates(env: Env, w: World, pick: seq<Uuid>): (f: seq<Fate>)
    requires forall i | 0 <= i < |pick| :: pick[i] in w.rows
    ensures |f| == |pick|
  {
    Fates(env.answer, Wires(w.calls), Records(w.rows, pick))
  }

  /** Where one row of the batch ends up, seen from the row before the claim. */
  predicate RowSettled(fate: Fate, max: int, r: Row, r': Row, from: int, to: int) {
    exists at | from <= at <= to :: r' == SettledRow(fate, max, Charged(r), at)
  }

  function Charged(r: Row): Row { r.(attempts := r.attempts + 1) }

  function ClaimedRow(r: Row, owner: Uuid, lease: int): Row {
    r.(attempts := r.attempts + 1, owner := Some(owner), expiresAt := Some(lease))
  }

  ghost predicate PickSettled(env: Env, cfg: Config, w: World, w': World, owner: Uuid, pick: seq<Uuid>, i: nat)
    requires i < |pick| && forall j | 0 <= j < |pick| :: pick[j] in w.rows
  {
    && pick[i] in w'.rows
    && RowSettled(BatchFates(env, w, pick)[i], cfg.maxAttempts, w.rows[pick[i]], w'.rows[pick[i]], w.now, w'.now)
  }

  /** Fates are decided by content and answers; claiming changes neither. */
  lemma {:induction false} FatesIgnoreAttempts(answer: seq<Wire> -> Option<string>, wires: seq<Wire>,
                                               a: seq<OutboxRecord>, b: seq<OutboxRecord>)
    requires |a| == |b|
    requires forall i | 0 <= i < |a| :: a[i].subject == b[i].subject && a[i].payload == b[i].payload
    ensures Fates(answer, wires, a) == Fates(answer, wires, b)
    decreases |a|
  {
    if a != [] {
      match Prepare(a[0].subject, a[0].payload)
      case Failure(_) => FatesIgnoreAttempts(answer, wires, a[1..], b[1..]);
      case Success(body) =>
        FatesIgnoreAttempts(answer, wires + [Wire(a[0].subject, body)], a[1..], b[1..]);
    }
  }

  lemma {:induction false} ClaimHolds(env: Env, cfg: Config, w: World, owner: Uuid, pick: seq<Uuid>)
    requires Orderly(env, cfg, w, owner, pick)
    ensures var w1 := Claimed(env, cfg, w, owner, pick);
            && w1.rows.Keys == w.rows.Keys && w.now <= w1.now && w1.calls == w.calls
            && Holds(w1.rows, owner, w1.now + cfg.claimTtl, Records(w1.rows, pick))
            && (forall i | 0 <= i < |pick| ::
                 w1.rows[pick[i]] == ClaimedRow(w.rows[pick[i]], owner, w1.now + cfg.claimTtl))
            && (forall id | id in w.rows && id !in pick :: w1.rows[id] == w.rows[id])
  {
    hide BatchPublished, Drained, HeldRow, InIds, Fresh, Claimable, Returned, Records;
    var w1 := Claimed(env, cfg, w, owner, pick);
    var queue := Records(w1.rows, pick);
    var lease := w1.now + cfg.claimTtl;
    RecordIds(w1.rows, pick);
    forall i | 0 <= i < |queue| ensures HeldRow(w1.rows, owner, lease, queue[i]) {
      ClaimedIsHeld(env, cfg, w, owner, pick, i);
    }
    forall id | id in w1.rows && w1.rows[id].owner == Some(owner) ensures InIds(queue, id) {
      assert id in pick by { UnclaimedIsForeign(env, cfg, w, owner, pick, id); }
      var i :| 0 <= i < |pick| && pick[i] == id;
      AtIndex(queue, i);
    }
  }

  lemma {:induction false} RecordIds(rows: Rows, pick: seq<Uuid>)
    requires forall i | 0 <= i < |pick| :: pick[i] in rows
    ensures |Records(rows, pick)| == |pick|
    ensures forall i | 0 <= i < |pick| ::
              Records(rows, pick)[i] == Returned(pick[i], rows[pick[i]]) && Records(rows, pick)[i].id == pick[i]
  {
  }

  lemma {:induction false} AtIndex(queue: seq<OutboxRecord>, i: nat)
    requires i < |queue|
    ensures InIds(queue, queue[i].id)
  {
  }

  lemma {:induction false} ClaimedIsHeld(env: Env, cfg: Config, w: World, owner: Uuid, pick: seq<Uuid>, i: nat)
    requires Orderly(env, cfg, w, owner, pick) && i < |pick|
    ensures var w1 := Claimed(env, cfg, w, owner, pick);
            && pick[i] in w1.rows && w1.rows[pick[i]] == ClaimedRow(w.rows[pick[i]], owner, w1.now + cfg.claimTtl)
            && HeldRow(w1.rows, owner, w1.now + cfg.claimTtl, Returned(pick[i], w1.rows[pick[i]]))
  {
    hide BatchPublished;
    assert Claimable(w.rows[pick[i]], CallTime(env, w));
  }

  lemma {:induction false} UnclaimedIsForeign(env: Env, cfg: Config, w: World, owner: Uuid, pick: seq<Uuid>, id: Uuid)
    requires Orderly(env, cfg, w, owner, pick) && id in w.rows
        && Claimed(env, cfg, w, owner, pick).rows[id].owner == Some(owner)
    ensures id in pick
  {
    hide BatchPublished;
  }

  /** The contract of an undisturbed batch, against the rows as they were before the claim:
      every chosen row has its fate, no other row changes, the broker sees exactly the calls
      the fates say, and the owner is left with nothing. */
  ghost predicate BatchDid(env: Env, cfg: Config, w: World, w': World, owner: Uuid, pick: seq<Uuid>)
    requires forall i | 0 <= i < |pick| :: pick[i] in w.rows
  {
    && w'.rows.Keys == w.rows.Keys && w.now <= w'.now
    && w'.calls == w.calls + CallsOf(BatchFates(env, w, pick), Records(w.rows, pick))
    && (forall i {:trigger PickSettled(env, cfg, w, w', owner, pick, i)} | 0 <= i < |pick| ::
         PickSettled(env, cfg, w, w', owner, pick, i))
    && (forall id {:trigger w'.rows[id]} | id in w.rows && id !in pick :: w'.rows[id] == w.rows[id])
    && (forall id {:trigger w'.rows[id]} | id in w'.rows :: w'.rows[id].owner != Some(owner))
  }

  lemma {:induction false} BatchOutcome(env: Env, cfg: Config, w: World, owner: Uuid, pick: seq<Uuid>)
    requires Orderly(env, cfg, w, owner, pick)
    ensures var (w', r) := BatchPublished(env, w, cfg, owner, pick);
            BatchDid(env, cfg, w, w', owner, pick) && r == Success(SentCount(BatchFates(env, w, pick)))
  {
    hide Drained, Fates, Holds, CallsOf, SentCount, RowsSettled, PickSettled;
    var w1 := Claimed(env, cfg, w, owner, pick);
    var queue := Records(w1.rows, pick);
    ClaimHolds(env, cfg, w, owner, pick);
    DrainOutcome(env, w1, cfg.maxAttempts, owner, w1.now + cfg.claimTtl, queue, 0);
    FatesIgnoreAttempts(env.answer, Wires(w.calls), queue, Records(w.rows, pick));
    CallsIgnoreAttempts(BatchFates(env, w, pick), queue, Records(w.rows, pick));
    var (w', r) := BatchPublished(env, w, cfg, owner, pick);
    forall i | 0 <= i < |pick| ensures PickSettled(env, cfg, w, w', owner, pick, i) {
      PickSettledBy(env, cfg, w, w1, w', owner, pick, i);
    }
    forall id | id in w.rows && id !in pick ensures w'.rows[id] == w.rows[id] {
      OthersUntouched(env, cfg, w1, w', pick, BatchFates(env, w, pick), id);
    }
  }

  /** On a clock that stands still a batch takes no time. */
  lemma {:induction false} StillBatch(env: Env, cfg: Config, w: World, owner: Uuid, pick: seq<Uuid>)
    requires Still(env) && forall i | 0 <= i < |pick| :: pick[i] in w.rows
    ensures CallTime(env, w) == w.now && BatchPublished(env, w, cfg, owner, pick).0.now == w.now
  {
    hide Drained;
    assert env.delay(w.ops) == 0;
    if 0 < cfg.batchSize && 0 < cfg.claimTtl {
      var w1 := Claimed(env, cfg, w, owner, pick);
      TimeMovesOn(env, w1, cfg.maxAttempts, owner, Records(w1.rows, pick), 0);
    }
  }

  lemma {:induction false} OthersUntouched(env: Env, cfg: Config, w1: World, w': World, pick: seq<Uuid>,
                                           fates: seq<Fate>, id: Uuid)
    requires forall j | 0 <= j < |pick| :: pick[j] in w1.rows
    requires |fates| == |pick| && RowsSettled(w1, w', cfg.maxAttempts, Records(w1.rows, pick), fates) && id in w1.rows
        && id !in pick
    ensures id in w'.rows && w'.rows[id] == w1.rows[id]
  {
    var queue := Records(w1.rows, pick);
    forall i | 0 <= i < |queue| ensures queue[i].id != id {
      assert queue[i].id == pick[i];
    }
    assert !InIds(queue, id);
  }

  lemma {:induction false} PickSettledBy(env: Env, cfg: Config, w: World, w1: World, w': World, owner: Uuid,
                                         pick: seq<Uuid>, i: nat)
    requires i < |pick| && forall j | 0 <= j < |pick| :: pick[j] in w.rows && pick[j] in w1.rows
    requires w1.rows[pick[i]] == ClaimedRow(w.rows[pick[i]], owner, w1.now + cfg.claimTtl) && w.now <= w1.now
    requires RowsSettled(w1, w', cfg.maxAttempts, Records(w1.rows, pick), BatchFates(env, w, pick))
    ensures PickSettled(env, cfg, w, w', owner, pick, i)
  {
    var fate := BatchFates(env, w, pick)[i];
    assert RecordSettled(w1, w', cfg.maxAttempts, Records(w1.rows, pick)[i], fate);
    var max, r := cfg.maxAttempts, w1.rows[pick[i]];
    assert forall at :: SettledRow(fate, max, r, at) == SettledRow(fate, max, Charged(w.rows[pick[i]]), at);
    var at :| w1.now <= at <= w'.now && w'.rows[pick[i]] == SettledRow(fate, cfg.maxAttempts, w1.rows[pick[i]], at);
  }

  lemma {:induction false} CallsIgnoreAttempts(fates: seq<Fate>, a: seq<OutboxRecord>, b: seq<OutboxRecord>)
    requires |fates| == |a| == |b|
    requires forall i | 0 <= i < |a| ::
               a[i].subject == b[i].subject && a[i].payload == b[i].payload && a[i].dedupId == b[i].dedupId
    ensures CallsOf(fates, a) == CallsOf(fates, b)
  {
    if a != [] {
      CallsIgnoreAttempts(fates[1..], a[1..], b[1..]);
    }
  }

  // ---- Sums over the table --------------------------------------------------------

  ghost function Sum(rows: Rows, f: Row -> nat): nat {
    if rows == map[] then 0
    else var id :| id in rows; f(rows[id]) + Sum(rows - {id}, f)
  }

  lemma {:induction false} SumPick(rows: Rows, f: Row -> nat, id: Uuid)
    requires id in rows
    ensures Sum(rows, f) == f(rows[id]) + Sum(rows - {id}, f)
    decreases |rows|
  {
    var c :| c in rows && Sum(rows, f) == f(rows[c]) + Sum(rows - {c}, f);
    if c != id {
      SumPick(rows - {c}, f, id);
      SumPick(rows - {id}, f, c);
      assert rows - {c} - {id} == rows - {id} - {c};
    }
  }

  /** Pointwise smaller tables have smaller sums, and one strict place makes it strict. */
  lemma {:induction false} SumMonotone(rows: Rows, rows': Rows, f: Row -> nat, strict: set<Uuid>)
    requires rows'.Keys == rows.Keys && strict <= rows.Keys
    requires forall id | id in rows :: f(rows'[id]) + (if id in strict then 1 else 0) <= f(rows[id])
    ensures Sum(rows', f) + |strict| <= Sum(rows, f)
    decreases |rows|
  {
    if rows != map[] {
      var id :| id in rows;
      SumPick(rows, f, id);
      SumPick(rows', f, id);
      SumMonotone(rows - {id}, rows' - {id}, f, strict - {id});
    }
  }

  // ---- Progress -------------------------------------------------------------------

  function Term(max: int, r: Row): nat {
    if r.status.Pending? then 1 + Max(0, max - r.attempts) else 0
  }

  function TermOf(max: int): Row -> nat { r => Term(max, r) }

  /** The work left: each pending row counts one, and one more for every attempt it still has. */
  ghost function WorkLeft(rows: Rows, max: int): nat { Sum(rows, TermOf(max)) }

  lemma {:induction false} NoWorkLeft(rows: Rows, max: int)
    ensures WorkLeft(rows, max) == 0 <==> forall id | id in rows :: !rows[id].status.Pending?
  {
    if id :| id in rows && rows[id].status.Pending? {
      SumPick(rows, TermOf(max), id);
    } else {
      SumZero(rows, max);
    }
  }

  lemma {:induction false} SumZero(rows: Rows, max: int)
    requires forall id | id in rows :: !rows[id].status.Pending?
    ensures WorkLeft(rows, max) == 0
    decreases |rows|
  {
    if rows != map[] {
      var id :| id in rows;
      SumPick(rows, TermOf(max), id);
      SumZero(rows - {id}, max);
    }
  }

  lemma {:induction false} SettledTerm(fate: Fate, max: int, r: Row, r': Row, from: int, to: int)
    requires r.status.Pending? && 0 <= r.attempts && RowSettled(fate, max, r, r', from, to)
    ensures Term(max, r') + (if fate.Unreached? then 0 else 1) <= Term(max, r)
    ensures r'.attempts == r.attempts + if fate.Unreached? then 0 else 1
  {
  }

  lemma {:induction false} FirstIsReached(answer: seq<Wire> -> Option<string>, wires: seq<Wire>,
                                          queue: seq<OutboxRecord>)
    requires queue != []
    ensures !Fates(answer, wires, queue)[0].Unreached?
  {
  }

  /** Every non-empty undisturbed batch strictly decreases the work left. */
  lemma {:induction false} BatchProgress(env: Env, cfg: Config, w: World, owner: Uuid, pick: seq<Uuid>)
    requires Orderly(env, cfg, w, owner, pick) && pick != []
    ensures WorkLeft(BatchPublished(env, w, cfg, owner, pick).0.rows, cfg.maxAttempts)
          < WorkLeft(w.rows, cfg.maxAttempts)
  {
    hide BatchPublished, Fates, CallsOf, Records, CallTime, Drained;
    BatchOutcome(env, cfg, w, owner, pick);
    var w' := BatchPublished(env, w, cfg, owner, pick).0;
    FirstIsReached(env.answer, Wires(w.calls), Records(w.rows, pick));
    var f := TermOf(cfg.maxAttempts);
    forall id | id in w.rows ensures f(w'.rows[id]) + (if id in {pick[0]} then 1 else 0) <= f(w.rows[id]) {
      if id in pick {
        var i :| 0 <= i < |pick| && pick[i] == id && (id == pick[0] ==> i == 0);
        assert PickSettled(env, cfg, w, w', owner, pick, i);
        SettledTerm(BatchFates(env, w, pick)[i], cfg.maxAttempts, w.rows[id], w'.rows[id], w.now, w'.now);
      }
    }
    SumMonotone(w.rows, w'.rows, f, {pick[0]});
  }

  // ---- Sequences of batches -------------------------------------------------------

  /** Wait, then run one batch. */
  datatype Round = Round(wait: nat, owner: Uuid, pick: seq<Uuid>)

  function Waited(w: World, round: Round): World { w.(now := w.now + round.wait) }

  function AfterRound(env: Env, cfg: Config, w: World, round: Round): World {
    if exists i | 0 <= i < |round.pick| :: round.pick[i] !in w.rows then w
    else BatchPublished(env, Waited(w, round), cfg, round.owner, round.pick).0
  }

  function AfterRounds(env: Env, cfg: Config, w: World, rounds: seq<Round>): World
    decreases |rounds|
  {
    if rounds == [] then w else AfterRounds(env, cfg, AfterRound(env, cfg, w, rounds[0]), rounds[1..])
  }

  ghost predicate OrderlyRounds(env: Env, cfg: Config, w: World, rounds: seq<Round>)
    decreases |rounds|
  {
    rounds == [] ||
    (Orderly(env, cfg, Waited(w, rounds[0]), rounds[0].owner, rounds[0].pick)
     && OrderlyRounds(env, cfg, AfterRound(env, cfg, w, rounds[0]), rounds[1..]))
  }

  /** There are at most as many non-empty batches as there is work, so any finite table is
      drained by finitely many of them. */
  lemma {:induction false} FinitelyManyBatches(env: Env, cfg: Config, w: World, rounds: seq<Round>)
    requires OrderlyRounds(env, cfg, w, rounds)
    requires forall k | 0 <= k < |rounds| :: rounds[k].pick != []
    ensures |rounds| + WorkLeft(AfterRounds(env, cfg, w, rounds).rows, cfg.maxAttempts)
         <= WorkLeft(w.rows, cfg.maxAttempts)
    decreases |rounds|
  {
    if rounds != [] {
      BatchProgress(env, cfg, Waited(w, rounds[0]), rounds[0].owner, rounds[0].pick);
      FinitelyManyBatches(env, cfg, AfterRound(env, cfg, w, rounds[0]), rounds[1..]);
    }
  }

  /** And while a row is pending there is a next one: after a long enough wait it can be
      claimed. */
  lemma {:induction false} PendingRowGivesBatch(w: World, id: Uuid, wait: nat)
    requires id in w.rows && w.rows[id].status.Pending?
    requires w.rows[id].availableAt <= w.now + wait
    requires w.rows[id].expiresAt.Some? ==> w.rows[id].expiresAt.value <= w.now + wait
    ensures ClaimChoice(w.rows, [id], w.now + wait, 1)
  {
  }

  // ---- Broker calls per row -------------------------------------------------------

  function CallsTo(calls: seq<Call>, dedupId: string): nat {
    if calls == [] then 0
    else CallsTo(calls[..|calls| - 1], dedupId) + if calls[|calls| - 1].msgId == Digest(dedupId) then 1 else 0
  }

  lemma {:induction false} CallsToAppend(a: seq<Call>, b: seq<Call>, dedupId: string)
    ensures CallsTo(a + b, dedupId) == CallsTo(a, dedupId) + CallsTo(b, dedupId)
  {
    if b == [] {
      assert a + b == a;
    } else {
      CallsToAppend(a, b[..|b| - 1], dedupId);
      assert (a + b)[..|a + b| - 1] == a + b[..|b| - 1];
    }
  }

  lemma {:induction false} NoCallsTo(fates: seq<Fate>, queue: seq<OutboxRecord>, dedupId: string)
    requires |fates| == |queue| && forall i | 0 <= i < |queue| :: queue[i].dedupId != dedupId
    ensures CallsTo(CallsOf(fates, queue), dedupId) == 0
  {
    if queue != [] {
      NoCallsTo(fates[1..], queue[1..], dedupId);
      var head := if fates[0].Sent? || fates[0].Refused? then [CallFor(queue[0], Body(queue[0]))] else [];
      CallsToAppend(head, CallsOf(fates[1..], queue[1..]), dedupId);
      CallsToOne(head, dedupId);
    }
  }

  lemma {:induction false} CallsToOne(calls: seq<Call>, dedupId: string)
    requires |calls| <= 1
    ensures CallsTo(calls, dedupId) == if |calls| == 1 && calls[0].msgId == Digest(dedupId) then 1 else 0
  {
    if |calls| == 1 { assert calls[..0] == []; }
  }

  /** Where dedup ids are distinct, a batch calls the broker for a record at most once, and
      only if it reached the record. */
  lemma {:induction false} OneCallPerRecord(fates: seq<Fate>, queue: seq<OutboxRecord>, k: nat)
    requires |fates| == |queue| && k < |queue|
    requires forall i, j | 0 <= i < j < |queue| :: queue[i].dedupId != queue[j].dedupId
    ensures CallsTo(CallsOf(fates, queue), queue[k].dedupId) == if fates[k].Sent? || fates[k].Refused? then 1 else 0
  {
    hide CallsTo, Body;
    var d := queue[k].dedupId;
    var head := if fates[0].Sent? || fates[0].Refused? then [CallFor(queue[0], Body(queue[0]))] else [];
    CallsToAppend(head, CallsOf(fates[1..], queue[1..]), d);
    CallsToOne(head, d);
    if k == 0 {
      NoCallsTo(fates[1..], queue[1..], d);
    } else {
      OneCallPerRecord(fates[1..], queue[1..], k - 1);
    }
  }

  /** A row below its attempt limit while it waits. */
  predicate WithinLimit(max: int, r: Row) { r.attempts <= max && (r.status.Pending? ==> r.attempts < max) }

  lemma {:induction false} SettledWithinLimit(fate: Fate, max: int, r: Row, r': Row, from: int, to: int)
    requires r.status.Pending? && 0 <= r.attempts && WithinLimit(max, r) && RowSettled(fate, max, r, r', from, to)
    ensures WithinLimit(max, r') && r'.dedupId == r.dedupId && r'.tenant == r.tenant && r'.key == r.key
  {
  }

  lemma {:induction false} DistinctDedupIds(rows: Rows, pick: seq<Uuid>)
    requires UniqueKeys(rows) && forall i | 0 <= i < |pick| :: pick[i] in rows
    requires forall i, j | 0 <= i < j < |pick| :: pick[i] != pick[j]
    ensures forall i, j | 0 <= i < j < |pick| :: Records(rows, pick)[i].dedupId != Records(rows, pick)[j].dedupId
  {
  }

  lemma {:induction false} NotInPick(rows: Rows, pick: seq<Uuid>, id: Uuid)
    requires UniqueKeys(rows) && id in rows && id !in pick && forall i | 0 <= i < |pick| :: pick[i] in rows
    ensures forall i | 0 <= i < |pick| :: Records(rows, pick)[i].dedupId != rows[id].dedupId
  {
  }

  lemma {:induction false} BatchCallsWithinAttempts(env: Env, cfg: Config, w: World, owner: Uuid, pick: seq<Uuid>,
                                                    id: Uuid)
    requires Orderly(env, cfg, w, owner, pick) && UniqueKeys(w.rows) && id in w.rows
        && WithinLimit(cfg.maxAttempts, w.rows[id])
    ensures var w' := BatchPublished(env, w, cfg, owner, pick).0; var d := w.rows[id].dedupId;
            && id in w'.rows && w'.rows[id].dedupId == d && WithinLimit(cfg.maxAttempts, w'.rows[id])
            && CallsTo(w'.calls, d) - CallsTo(w.calls, d) <= w'.rows[id].attempts - w.rows[id].attempts
  {
    hide BatchPublished, Fates, CallsOf, CallsTo, Records, CallTime, UniqueKeys, RowSettled;
    BatchOutcome(env, cfg, w, owner, pick);
    var w' := BatchPublished(env, w, cfg, owner, pick).0;
    var fates, queue, d := BatchFates(env, w, pick), Records(w.rows, pick), w.rows[id].dedupId;
    CallsToAppend(w.calls, CallsOf(fates, queue), d);
    if id in pick {
      var i :| 0 <= i < |pick| && pick[i] == id;
      assert PickSettled(env, cfg, w, w', owner, pick, i);
      SettledTerm(fates[i], cfg.maxAttempts, w.rows[id], w'.rows[id], w.now, w'.now);
      SettledWithinLimit(fates[i], cfg.maxAttempts, w.rows[id], w'.rows[id], w.now, w'.now);
      RecordIds(w.rows, pick);
      DistinctDedupIds(w.rows, pick);
      OneCallPerRecord(fates, queue, i);
    } else {
      NotInPick(w.rows, pick, id);
      NoCallsTo(fates, queue, d);
    }
  }

  lemma {:induction false} UniqueKeysAfterBatch(env: Env, cfg: Config, w: World, owner: Uuid, pick: seq<Uuid>)
    requires Orderly(env, cfg, w, owner, pick) && UniqueKeys(w.rows)
    ensures UniqueKeys(BatchPublished(env, w, cfg, owner, pick).0.rows)
  {
    hide BatchPublished, Fates, CallsOf, Records, CallTime, Drained, PickSettled;
    BatchOutcome(env, cfg, w, owner, pick);
    var w' := BatchPublished(env, w, cfg, owner, pick).0;
    forall id | id in w.rows ensures KeepsKeys(w.rows[id], w'.rows[id]) {
      if id in pick {
        var i :| 0 <= i < |pick| && pick[i] == id;
        PickKeepsIdentity(env, cfg, w, w', owner, pick, i);
      }
    }
    SameIdentitiesStayUnique(w.rows, w'.rows);
  }

  ghost predicate KeepsKeys(a: Row, b: Row) { a.dedupId == b.dedupId && SameScope(a, b) }

  lemma {:induction false} PickKeepsIdentity(env: Env, cfg: Config, w: World, w': World, owner: Uuid, pick: seq<Uuid>,
                                             i: nat)
    requires i < |pick| && (forall j | 0 <= j < |pick| :: pick[j] in w.rows)
    requires PickSettled(env, cfg, w, w', owner, pick, i)
    ensures KeepsKeys(w.rows[pick[i]], w'.rows[pick[i]])
  {
    hide Fates, Records, Backoff;
  }

  lemma {:induction false} SameIdentitiesStayUnique(a: Rows, b: Rows)
    requires UniqueKeys(a) && a.Keys == b.Keys && forall id | id in a :: KeepsKeys(a[id], b[id])
    ensures UniqueKeys(b)
  {
    forall x, y | x in b && y in b && x != y ensures b[x].dedupId != b[y].dedupId && !SameScope(b[x], b[y]) {
      assert KeepsKeys(a[x], b[x]) && KeepsKeys(a[y], b[y]);
    }
  }

  /** A row staged with no attempts gets at most `max_attempts` broker calls, over any
      number of undisturbed batches. */
  lemma {:induction false} BoundedBrokerCalls(env: Env, cfg: Config, w: World, rounds: seq<Round>, id: Uuid)
    requires OrderlyRounds(env, cfg, w, rounds) && UniqueKeys(w.rows) && id in w.rows
        && WithinLimit(cfg.maxAttempts, w.rows[id])
    ensures var w' := AfterRounds(env, cfg, w, rounds); var d := w.rows[id].dedupId;
            && id in w'.rows && w'.rows[id].attempts <= cfg.maxAttempts
            && CallsTo(w'.calls, d) - CallsTo(w.calls, d) <= w'.rows[id].attempts - w.rows[id].attempts
            && (w.rows[id].attempts == 0 ==> CallsTo(w'.calls, d) <= CallsTo(w.calls, d) + cfg.maxAttempts)
    decreases |rounds|
  {
    if rounds != [] {
      var w0 := Waited(w, rounds[0]);
      BatchCallsWithinAttempts(env, cfg, w0, rounds[0].owner, rounds[0].pick, id);
      UniqueKeysAfterBatch(env, cfg, w0, rounds[0].owner, rounds[0].pick);
      BoundedBrokerCalls(env, cfg, AfterRound(env, cfg, w, rounds[0]), rounds[1..], id);
    }
  }

  // ---- A dead broker --------------------------------------------------------------

  ghost predicate DeadBroker(env: Env) { forall calls {:trigger env.answer(calls)} :: env.answer(calls).Some? }

  /** The position of the first publishable record. */
  function FirstPublishable(queue: seq<OutboxRecord>): (k: nat)
    ensures k <= |queue|
    ensures forall i | 0 <= i < k :: !Publishable(queue[i])
    ensures k < |queue| ==> Publishable(queue[k])
  {
    if queue == [] then 0 else if Publishable(queue[0]) then 0 else 1 + FirstPublishable(queue[1..])
  }

  predicate DeadFate(fate: Fate, i: nat, k: nat) {
    if i < k then fate.Parked? else if i == k then fate.Refused? else fate.Unreached?
  }

  lemma {:induction false} DeadFateAt(env: Env, wires: seq<Wire>, queue: seq<OutboxRecord>, i: nat)
    requires DeadBroker(env) && i < |queue|
    ensures DeadFate(Fates(env.answer, wires, queue)[i], i, FirstPublishable(queue))
    decreases i
  {
    match Prepare(queue[0].subject, queue[0].payload)
    case Failure(_) =>
      assert !Publishable(queue[0]);
      if i > 0 {
        DeadFateAt(env, wires, queue[1..], i - 1);
        assert Fates(env.answer, wires, queue)[i] == Fates(env.answer, wires, queue[1..])[i - 1];
      }
    case Success(body) =>
      assert Publishable(queue[0]);
      assert env.answer(wires + [Wire(queue[0].subject, body)]).Some?;
  }

  /** What a dead broker leaves of row `r` at queue position `i`, `k` being the first
      publishable position. */
  predicate DeadRow(max: int, r: Row, r': Row, i: nat, k: nat, now: int) {
    && r'.subject == r.subject && r'.payload == r.payload
    && (i < k ==> r'.status.Failed? && !Prepare(r.subject, r.payload).Success?)
    && (i == k ==> r'.attempts == r.attempts + 1 && r'.owner.None?
                   && (if r.attempts + 1 >= max then r'.status.Failed? else r'.status.Pending? && r'.availableAt > now))
    && (i > k ==> r' == r.(owner := None, expiresAt := None))
  }

  lemma {:induction false} DeadRowSettled(fate: Fate, max: int, r: Row, r': Row, i: nat, k: nat, from: int, to: int)
    requires r.status.Pending? && 0 <= r.attempts && RowSettled(fate, max, r, r', from, to)
    requires DeadFate(fate, i, k) && (i < k ==> !Prepare(r.subject, r.payload).Success?)
    ensures DeadRow(max, r, r', i, k, from)
  {
    BackoffBounds(r.attempts + 1);
  }

  /** While the broker is down a batch parks the unpublishable records in front, charges one
      attempt to the first publishable one (parking it when that was its last), and gives
      every later row back as it was but without an owner. So a later row is restored
      exactly if nobody had left a lapsed lease on it. */
  lemma {:induction false} DeadBrokerBatch(env: Env, cfg: Config, w: World, owner: Uuid, pick: seq<Uuid>, i: nat)
    requires Orderly(env, cfg, w, owner, pick) && DeadBroker(env) && i < |pick|
    ensures var w' := BatchPublished(env, w, cfg, owner, pick).0; var k := FirstPublishable(Records(w.rows, pick));
            && pick[i] in w'.rows
            && DeadRow(cfg.maxAttempts, w.rows[pick[i]], w'.rows[pick[i]], i, k, w.now)
            && (i > k ==> (w'.rows[pick[i]] == w.rows[pick[i]] 
                         <==> w.rows[pick[i]].owner.None? && w.rows[pick[i]].expiresAt.None?))
  {
    hide BatchPublished, Fates, CallsOf, Records, CallTime, Drained, RowSettled, Prepare;
    BatchOutcome(env, cfg, w, owner, pick);
    var w' := BatchPublished(env, w, cfg, owner, pick).0;
    var queue := Records(w.rows, pick);
    DeadFateAt(env, Wires(w.calls), queue, i);
    RecordIds(w.rows, pick);
    assert PickSettled(env, cfg, w, w', owner, pick, i);
    var k := FirstPublishable(queue);
    assert i < k ==> !Publishable(queue[i]);
    DeadRowSettled(BatchFates(env, w, pick)[i], cfg.maxAttempts, w.rows[pick[i]], w'.rows[pick[i]], i, k, w.now,
        w'.now);
  }

  /** Attempts counted on publishable rows only. */
  function Charge(r: Row): nat {
    if Prepare(r.subject, r.payload).Success? then Max(0, r.attempts) else 0
  }

  function ChargeOf(): Row -> nat { r => Charge(r) }

  lemma {:induction false} DeadBrokerCharge(env: Env, cfg: Config, w: World, owner: Uuid, pick: seq<Uuid>, id: Uuid)
    requires Orderly(env, cfg, w, owner, pick) && DeadBroker(env) && id in w.rows
    ensures var w' := BatchPublished(env, w, cfg, owner, pick).0; var k := FirstPublishable(Records(w.rows, pick));
            id in w'.rows && Charge(w'.rows[id]) <= Charge(w.rows[id]) + if k < |pick| && id == pick[k] then 1 else 0
  {
    hide BatchPublished, Fates, CallsOf, Records, CallTime, Drained, RowSettled, Prepare, PickSettled;
    BatchOutcome(env, cfg, w, owner, pick);
    if id in pick {
      var i :| 0 <= i < |pick| && pick[i] == id;
      DeadBrokerBatch(env, cfg, w, owner, pick, i);
    }
  }

  /** An outage of any number of batches charges the publishable rows of the whole table at
      most one attempt per batch. */
  lemma {:induction false} OutageChargesOnePerBatch(env: Env, cfg: Config, w: World, rounds: seq<Round>)
    requires OrderlyRounds(env, cfg, w, rounds) && DeadBroker(env)
    ensures Sum(AfterRounds(env, cfg, w, rounds).rows, ChargeOf()) <= Sum(w.rows, ChargeOf()) + |rounds|
    decreases |rounds|
  {
    hide BatchPublished, Fates, CallsOf, Records, CallTime, Drained;
    if rounds != [] {
      var w0, w' := Waited(w, rounds[0]), AfterRound(env, cfg, w, rounds[0]);
      BatchOutcome(env, cfg, w0, rounds[0].owner, rounds[0].pick);
      var k := FirstPublishable(Records(w0.rows, rounds[0].pick));
      var charged := if k < |rounds[0].pick| then {rounds[0].pick[k]} else {};
      forall id | id in w0.rows
        ensures ChargeOf()(w'.rows[id]) <= ChargeOf()(w0.rows[id]) + if id in charged then 1 else 0
      {
        DeadBrokerCharge(env, cfg, w0, rounds[0].owner, rounds[0].pick, id);
      }
      SumBounded(w0.rows, w'.rows, ChargeOf(), charged);
      OutageChargesOnePerBatch(env, cfg, w', rounds[1..]);
    }
  }

  lemma {:induction false} SumBounded(rows: Rows, rows': Rows, f: Row -> nat, more: set<Uuid>)
    requires rows'.Keys == rows.Keys && more <= rows.Keys
    requires forall id | id in rows :: f(rows'[id]) <= f(rows[id]) + if id in more then 1 else 0
    ensures Sum(rows', f) <= Sum(rows, f) + |more|
    decreases |rows|
  {
    if rows != map[] {
      var id :| id in rows;
      SumPick(rows, f, id);
      SumPick(rows', f, id);
      SumBounded(rows - {id}, rows' - {id}, f, more - {id});
    }
  }
}
