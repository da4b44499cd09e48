/** The leased drainer does what the locking drainer did: on twin tables an undisturbed batch
    of valid rows makes the same broker calls, headers aside, and leaves twin tables. */
module Refinement {
  import opened Wrappers
  import opened Outbox
  import opened OutboxTable
  import opened Drainer
  import opened DrainerOutcome
  import opened DrainerTheorems
  import opened Compat
  import opened CompatOutcome

  const PREFIX: string := "transport error: "

  /** The texts differ by the prefix the transport error adds on the leased path. */
  predicate SameError(l: Option<string>, c: Option<string>) {
    match c case None => l.None? case Some(text) => l == Some(PREFIX + text)
  }

  predicate Twin(l: Row, c: CompatRow) {
    && l.subject == c.subject && l.payload.encoding == Success(c.envelope) && l.createdAt == c.createdAt
    && l.attempts == c.attempts && l.availableAt == c.availableAt && SameError(l.lastError, c.lastError)
    && (if c.publishedAt.Some? then l.status.Published? else l.status.Pending?)
  }

  predicate Twins(rows: Rows, crows: CompatRows) {
    rows.Keys == crows.Keys && forall id {:trigger Twin(rows[id], crows[id])} | id in rows :: Twin(rows[id], crows[id])
  }

  /** Counting the attempt at the claim or at the outcome defers a row by the same time. */
  lemma {:induction false} SameBackoff(attempts: nat)
    ensures Backoff(attempts + 1) == CompatBackoff(attempts)
  {
  }

  // ---- Same fates -----------------------------------------------------------------

  predicate SameFate(l: Fate, c: Fate) {
    match c
    case Parked(_) => false
    case Sent => l.Sent?
    case Refused(text) => l == Refused(PREFIX + text)
    case Unreached => l.Unreached?
  }

  predicate Matches(rec: OutboxRecord, c: CompatRow) {
    rec.subject == c.subject && rec.payload.encoding == Success(c.envelope) && Publishable(rec)
  }

  predicate AllMatch(recs: seq<OutboxRecord>, queue: seq<CompatRow>) {
    |recs| == |queue| && forall i | 0 <= i < |queue| :: Matches(recs[i], queue[i])
  }

  lemma {:induction false} UnreachedWires(ids: seq<Uuid>, recs: seq<OutboxRecord>, queue: seq<CompatRow>)
    requires |ids| == |recs| == |queue|
    ensures var fates := seq(|recs|, _ => Unreached); CallsOf(fates, recs) == [] == CompatCalls(fates, ids, queue)
  {
    UnreachedCalls(recs, |recs|);
    NoCalls(ids, queue);
  }

  /** What matching records and rows share: fates up to the error prefix, and calls up to
      headers. */
  ghost predicate Alike(fates: seq<Fate>, cfates: seq<Fate>, ids: seq<Uuid>, recs: seq<OutboxRecord>,
                        queue: seq<CompatRow>) {
    && |fates| == |cfates| == |ids| == |recs| == |queue|
    && (forall i {:trigger fates[i]} | 0 <= i < |fates| :: SameFate(fates[i], cfates[i]))
    && Wires(CallsOf(fates, recs)) == Wires(CompatCalls(cfates, ids, queue))
    && SentCount(fates) == SentCount(cfates)
  }

  lemma {:induction false} AlikeCons(l: Fate, c: Fate, fates: seq<Fate>, cfates: seq<Fate>, ids: seq<Uuid>,
                                     recs: seq<OutboxRecord>, queue: seq<CompatRow>)
    requires ids != [] && |ids| == |recs| == |queue| && Matches(recs[0], queue[0])
    requires SameFate(l, c) && Alike(fates, cfates, ids[1..], recs[1..], queue[1..])
    ensures Alike([l] + fates, [c] + cfates, ids, recs, queue)
  {
    hide Wires, SentCount, CallsOf, CompatCalls, Matches;
    SentCons(l, fates);
    SentCons(c, cfates);
    CallsCons(l, fates, recs);
    var mine := if l.Sent? || l.Refused? then [CallFor(recs[0], Body(recs[0]))] else [];
    var theirs := HeadCalls(c, ids[0], queue[0]);
    CompatCallsCons(c, cfates, ids, queue);
    WiresConcat(mine, CallsOf(fates, recs[1..]));
    WiresConcat(theirs, CompatCalls(cfates, ids[1..], queue[1..]));
    SameHead(recs[0], queue[0], ids[0]);
    forall i | 0 <= i < |ids| ensures SameFate(([l] + fates)[i], ([c] + cfates)[i]) {
      if i > 0 { assert SameFate(fates[i - 1], cfates[i - 1]); }
    }
    assert Wires(mine) == Wires(theirs) by { NoWires(); }
  }

  lemma {:induction false} CompatCallsCons(c: Fate, cfates: seq<Fate>, ids: seq<Uuid>, queue: seq<CompatRow>)
    requires ids != [] && |ids| == |queue| == |cfates| + 1
    ensures CompatCalls([c] + cfates, ids, queue) == HeadCalls(c, ids[0], queue[0])
        + CompatCalls(cfates, ids[1..], queue[1..])
  {
  }

  lemma {:induction false} NoWires()
    ensures Wires([]) == []
  {
  }

  lemma {:induction false} SameHead(rec: OutboxRecord, r: CompatRow, id: Uuid)
    requires Matches(rec, r)
    ensures Body(rec) == r.envelope
    ensures Wires([CallFor(rec, Body(rec))]) == Wires([Call(r.subject, MessageId(id), r.envelope)])
  {
  }

  lemma {:induction false} WiresConcat(a: seq<Call>, b: seq<Call>)
    ensures Wires(a + b) == Wires(a) + Wires(b)
  {
  }

  /** The stricter guard lets a matching row through on both paths, so the broker's answers
      alone decide. */
  lemma {:induction false} SameFates(answer: seq<Wire> -> Option<string>, wires: seq<Wire>, ids: seq<Uuid>,
                                     recs: seq<OutboxRecord>, queue: seq<CompatRow>)
    requires AllMatch(recs, queue) && |ids| == |queue|
    ensures Alike(Fates(answer, wires, recs), CompatFates(answer, wires, queue), ids, recs, queue)
    decreases |queue|
  {
    hide Alike, SameFate, Matches;
    if queue == [] {
      NothingAlike();
    } else {
      var after := HeadPasses(answer, wires, recs, queue);
      match answer(after)
      case None =>
        SameFates(answer, after, ids[1..], recs[1..], queue[1..]);
        assert SameFate(Sent, Sent) by { SentAlike(); }
        AlikeCons(Sent, Sent, Fates(answer, after, recs[1..]), CompatFates(answer, after, queue[1..]), ids, recs,
            queue);
      case Some(text) =>
        var rest := seq(|queue| - 1, _ => Unreached);
        UnreachedAlike(ids[1..], recs[1..], queue[1..]);
        assert SameFate(Refused(ErrorText(Transport(text))), Refused(text)) by { RefusedAlike(text); }
        AlikeCons(Refused(ErrorText(Transport(text))), Refused(text), rest, rest, ids, recs, queue);
    }
  }

  lemma {:induction false} HeadPasses(answer: seq<Wire> -> Option<string>, wires: seq<Wire>, recs: seq<OutboxRecord>,
                                      queue: seq<CompatRow>)
    returns (after: seq<Wire>)
    requires AllMatch(recs, queue) && queue != []
    ensures AllMatch(recs[1..], queue[1..]) && Matches(recs[0], queue[0])
    ensures Fates(answer, wires, recs)
         == match answer(after)
            case None => [Sent] + Fates(answer, after, recs[1..])
            case Some(text) => [Refused(ErrorText(Transport(text)))] + seq(|queue| - 1, _ => Unreached)
    ensures CompatFates(answer, wires, queue)
         == match answer(after)
            case None => [Sent] + CompatFates(answer, after, queue[1..])
            case Some(text) => [Refused(text)] + seq(|queue| - 1, _ => Unreached)
  {
    hide ErrorText, ValidateForPublish;
    assert Matches(recs[0], queue[0]);
    CanonicalGuardIsStricter(queue[0].subject, |queue[0].envelope|);
    after := wires + [Wire(queue[0].subject, queue[0].envelope)];
  }

  lemma {:induction false} SentAlike()
    ensures SameFate(Sent, Sent)
  {
  }

  lemma {:induction false} RefusedAlike(text: string)
    ensures SameFate(Refused(ErrorText(Transport(text))), Refused(text))
  {
  }

  lemma {:induction false} NothingAlike()
    ensures Alike([], [], [], [], [])
  {
  }

  lemma {:induction false} UnreachedAlike(ids: seq<Uuid>, recs: seq<OutboxRecord>, queue: seq<CompatRow>)
    requires |ids| == |recs| == |queue|
    ensures var fates := seq(|queue|, _ => Unreached); Alike(fates, fates, ids, recs, queue)
  {
    UnreachedWires(ids, recs, queue);
  }

  // ---- Refinement -----------------------------------------------------------------

  /** A fate leaves twins unless it is a refusal on the last attempt: there the leased
      drainer parks the row and the locking one keeps retrying. */
  lemma {:induction false} TwinSettled(fate: Fate, cfate: Fate, max: int, l: Row, l': Row, c: CompatRow, now: int)
    requires Twin(l, c) && l.status.Pending? && SameFate(fate, cfate) && RowSettled(fate, max, l, l', now, now)
    ensures Twin(l', CompatSettled(cfate, c, now)) <==> !(fate.Refused? && l.attempts + 1 >= max)
  {
    SameBackoff(c.attempts);
    BackoffBounds(l.attempts + 1);
  }

  /** A batch both drainers can be asked to run: valid rows, on a clock that stands still. */
  ghost predicate FairBatch(env: Env, cfg: Config, w: World, cw: CompatWorld, owner: Uuid, pick: seq<Uuid>) {
    && Orderly(env, cfg, w, owner, pick) && Still(env)
    && Twins(w.rows, cw.rows) && cw.now == w.now && Wires(cw.calls) == Wires(w.calls)
    && (forall i | 0 <= i < |pick| :: Prepare(w.rows[pick[i]].subject, w.rows[pick[i]].payload).Success?)
  }

  lemma {:induction false} FairBatchMatches(env: Env, cfg: Config, w: World, cw: CompatWorld, owner: Uuid,
                                            pick: seq<Uuid>)
    requires FairBatch(env, cfg, w, cw, owner, pick)
    ensures Pickable(cw.rows, pick) && AllMatch(Records(w.rows, pick), Picked(cw.rows, pick))
    ensures CompatChoice(cw.rows, pick, cw.now, cfg.batchSize)
  {
    hide BatchPublished, Prepare;
    forall i | 0 <= i < |pick|
      ensures pick[i] in cw.rows && Matches(Records(w.rows, pick)[i], cw.rows[pick[i]]) && Due(cw.rows[pick[i]], cw.now)
      ensures cw.rows[pick[i]].createdAt == w.rows[pick[i]].createdAt
    {
      assert Twin(w.rows[pick[i]], cw.rows[pick[i]]);
      assert Claimable(w.rows[pick[i]], w.now);
    }
  }

  /** The broker refuses record `i`, whose attempts the batch has used up. */
  ghost predicate RefusedOnLastAttempt(env: Env, cfg: Config, w: World, pick: seq<Uuid>, i: nat)
    requires i < |pick| && forall j | 0 <= j < |pick| :: pick[j] in w.rows
  {
    BatchFates(env, w, pick)[i].Refused? && w.rows[pick[i]].attempts + 1 >= cfg.maxAttempts
  }

  /** The same sequence of subject and payload reaches the broker and the same number of rows
      is reported. The two tables agree on attempts, due time, last error and publication
      of every row, except of a row refused on its last attempt, on which they differ. */
  lemma {:induction false} LeasedRefinesLocking(env: Env, cfg: Config, w: World, cw: CompatWorld, owner: Uuid,
                                                pick: seq<Uuid>)
    requires FairBatch(env, cfg, w, cw, owner, pick)
    ensures Pickable(cw.rows, pick)
    ensures var (w', r) := BatchPublished(env, w, cfg, owner, pick); var (cw', cr) := CompatBatch(env, cw, pick);
            && cr == r && r.Success?
            && Wires(cw'.calls) == Wires(w'.calls)
            && cw'.now == w'.now
            && (Twins(w'.rows, cw'.rows) <==> forall i | 0 <= i < |pick| :: !RefusedOnLastAttempt(env, cfg, w, pick, i))
  {
    hide BatchPublished, CompatBatch, Fates, CompatFates, Wires, CallsOf, CompatCalls, SentCount, Records, Picked,
         Prepare, RowSettled, CompatSettled, Twin;
    FairBatchMatches(env, cfg, w, cw, owner, pick);
    BatchOutcome(env, cfg, w, owner, pick);
    StillBatch(env, cfg, w, owner, pick);
    CompatBatchOutcome(env, cw, pick);
    assert env.delay(cw.ops) == 0 && cw.(now := cw.now + 0) == cw;
    var fates, recs, queue := BatchFates(env, w, pick), Records(w.rows, pick), Picked(cw.rows, pick);
    var cfates := CompatFates(env.answer, Wires(w.calls), queue);
    SameFates(env.answer, Wires(w.calls), pick, recs, queue);
    var w', cw' := BatchPublished(env, w, cfg, owner, pick).0, CompatBatch(env, cw, pick).0;
    WiresConcat(w.calls, CallsOf(fates, recs));
    WiresConcat(cw.calls, CompatCalls(cfates, pick, queue));
    forall i | 0 <= i < |pick|
      ensures Twin(w'.rows[pick[i]], cw'.rows[pick[i]]) <==> !RefusedOnLastAttempt(env, cfg, w, pick, i)
    {
      assert Twin(w.rows[pick[i]], cw.rows[pick[i]]);
      assert PickSettled(env, cfg, w, w', owner, pick, i);
      assert PlaceSettled(cw, cw', pick[i], cfates[i]);
      assert SameFate(fates[i], cfates[i]);
      TwinSettled(fates[i], cfates[i], cfg.maxAttempts, w.rows[pick[i]], w'.rows[pick[i]], cw.rows[pick[i]], w.now);
    }
    forall id | id in w'.rows && id !in pick ensures Twin(w'.rows[id], cw'.rows[id]) {
      assert Twin(w.rows[id], cw.rows[id]);
    }
  }
}
