/** What one fault-free batch of the locking drainer does, said without running it: a fate for
    every selected row, valid or not, read off the rows and the broker's answers alone. */
module CompatOutcome {
  import opened Wrappers
  import opened Outbox
  import opened Drainer
  import opened DrainerOutcome
  import opened Compat

  function Picked(rows: CompatRows, ids: seq<Uuid>): seq<CompatRow>
    requires forall i | 0 <= i < |ids| :: ids[i] in rows
  {
    seq(|ids|, i requires 0 <= i < |ids| => rows[ids[i]])
  }

  /** `Parked` is a row set aside for its defect, which here means deferred; the loop goes on
      after it and stops after a refusal. */
  function CompatFates(answer: seq<Wire> -> Option<string>, wires: seq<Wire>, queue: seq<CompatRow>): (f: seq<Fate>)
    ensures |f| == |queue|
    decreases |queue|
  {
    if queue == [] then []
    else match ValidateCompatPublish(queue[0].subject, |queue[0].envelope|)
      case Failure(defect) => [Parked(ErrorText(defect))] + CompatFates(answer, wires, queue[1..])
      case Success(_) =>
        var after := wires + [Wire(queue[0].subject, queue[0].envelope)];
        match answer(after)
        case None => [Sent] + CompatFates(answer, after, queue[1..])
        case Some(text) => [Refused(text)] + seq(|queue| - 1, _ => Unreached)
  }

  /** The calls the fates stand for, each under its row's message id. */
  function CompatCalls(fates: seq<Fate>, ids: seq<Uuid>, queue: seq<CompatRow>): seq<Call>
    requires |fates| == |ids| == |queue|
  {
    if queue == [] then []
    else HeadCalls(fates[0], ids[0], queue[0]) + CompatCalls(fates[1..], ids[1..], queue[1..])
  }

  function HeadCalls(fate: Fate, id: Uuid, r: CompatRow): seq<Call> {
    if fate.Sent? || fate.Refused? then [Call(r.subject, MessageId(id), r.envelope)] else []
  }

  function CompatSettled(fate: Fate, r: CompatRow, now: int): CompatRow {
    match fate
    case Parked(defect) => Deferred(r, defect, now)
    case Sent => Marked(r, now)
    case Refused(text) => Deferred(r, text, now)
    case Unreached => r
  }

  predicate PlaceSettled(w: CompatWorld, w': CompatWorld, id: Uuid, fate: Fate) {
    id in w.rows && id in w'.rows && w'.rows[id] == CompatSettled(fate, w.rows[id], w.now)
  }

  predicate Pickable(rows: CompatRows, ids: seq<Uuid>) {
    && (forall i, j | 0 <= i < j < |ids| :: ids[i] != ids[j])
    && (forall i | 0 <= i < |ids| :: ids[i] in rows)
  }

  /** The whole effect of the loop from `w` to `w'`, given everybody's fate. */
  ghost predicate CompatDid(w: CompatWorld, w': CompatWorld, ids: seq<Uuid>, fates: seq<Fate>)
    requires Pickable(w.rows, ids)
  {
    && |fates| == |ids|
    && w'.rows.Keys == w.rows.Keys && w'.now == w.now
    && w'.calls == w.calls + CompatCalls(fates, ids, Picked(w.rows, ids))
    && (forall i {:trigger PlaceSettled(w, w', ids[i], fates[i])} | 0 <= i < |ids| ::
         PlaceSettled(w, w', ids[i], fates[i]))
    && (forall id | id in w.rows && id !in ids :: w'.rows[id] == w.rows[id])
  }

  /** One call settles the head and touches no other row. */
  ghost predicate HeadDid(w: CompatWorld, w1: CompatWorld, ids: seq<Uuid>, fate: Fate) {
    && ids != [] && Pickable(w.rows, ids)
    && w1.rows.Keys == w.rows.Keys && w1.now == w.now
    && w1.calls == w.calls + HeadCalls(fate, ids[0], w.rows[ids[0]])
    && PlaceSettled(w, w1, ids[0], fate)
    && (forall id | id in w.rows && id != ids[0] :: w1.rows[id] == w.rows[id])
  }

  lemma {:induction false} RestIsPicked(w: CompatWorld, w1: CompatWorld, ids: seq<Uuid>, fate: Fate)
    requires HeadDid(w, w1, ids, fate)
    ensures Pickable(w1.rows, ids[1..]) && ids[0] !in ids[1..]
    ensures Picked(w.rows, ids)[0] == w.rows[ids[0]] && Picked(w1.rows, ids[1..]) == Picked(w.rows, ids)[1..]
  {
    hide CompatSettled, HeadCalls;
  }

  lemma {:induction false} CompatCons(w: CompatWorld, w1: CompatWorld, w': CompatWorld, ids: seq<Uuid>, fate: Fate,
                                      rest: seq<Fate>)
    requires HeadDid(w, w1, ids, fate) && Pickable(w1.rows, ids[1..]) && CompatDid(w1, w', ids[1..], rest)
    ensures CompatDid(w, w', ids, [fate] + rest)
  {
    hide PlaceSettled, Picked, CompatSettled;
    RestIsPicked(w, w1, ids, fate);
    var fates := [fate] + rest;
    forall i | 0 <= i < |ids| ensures PlaceSettled(w, w', ids[i], fates[i]) {
      if i > 0 {
        assert PlaceSettled(w1, w', ids[1..][i - 1], rest[i - 1]);
        assert ids[i] in w.rows && ids[i] != ids[0];
        PlaceLater(w, w1, w', ids[i], fates[i]);
      } else {
        PlaceEarlier(w, w1, w', ids[0], fate);
      }
    }
    forall id | id in w.rows && id !in ids ensures w'.rows[id] == w.rows[id] {
      assert id !in ids[1..] && id != ids[0];
    }
    CallsFollow(w, w1, w', ids, fate, rest);
  }

  lemma {:induction false} CallsFollow(w: CompatWorld, w1: CompatWorld, w': CompatWorld, ids: seq<Uuid>, fate: Fate,
                                       rest: seq<Fate>)
    requires HeadDid(w, w1, ids, fate) && Pickable(w1.rows, ids[1..]) && |rest| == |ids| - 1
    requires w'.calls == w1.calls + CompatCalls(rest, ids[1..], Picked(w1.rows, ids[1..]))
    ensures w'.calls == w.calls + CompatCalls([fate] + rest, ids, Picked(w.rows, ids))
  {
    hide PlaceSettled, HeadCalls;
    RestIsPicked(w, w1, ids, fate);
    var fates := [fate] + rest;
    assert fates[0] == fate && fates[1..] == rest;
  }

  lemma {:induction false} PlaceLater(w: CompatWorld, w1: CompatWorld, w': CompatWorld, id: Uuid, fate: Fate)
    requires PlaceSettled(w1, w', id, fate) && w1.now == w.now && id in w.rows && w1.rows[id] == w.rows[id]
    ensures PlaceSettled(w, w', id, fate)
  {
  }

  lemma {:induction false} PlaceEarlier(w: CompatWorld, w1: CompatWorld, w': CompatWorld, id: Uuid, fate: Fate)
    requires PlaceSettled(w, w1, id, fate) && id in w'.rows && w'.rows[id] == w1.rows[id]
    ensures PlaceSettled(w, w', id, fate)
  {
  }

  /** The fates of the rows behind a refused one. */
  function Behind(ids: seq<Uuid>): seq<Fate>
    requires ids != []
  {
    seq(|ids| - 1, _ => Unreached)
  }

  lemma {:induction false} Untouched(w: CompatWorld, ids: seq<Uuid>)
    requires ids != [] && Pickable(w.rows, ids[1..])
    ensures CompatDid(w, w, ids[1..], Behind(ids)) && SentCount(Behind(ids)) == 0
  {
    var rest, fates := ids[1..], Behind(ids);
    NoCalls(rest, Picked(w.rows, rest));
    assert fates == seq(|rest|, _ => Unreached);
    forall i | 0 <= i < |rest| ensures PlaceSettled(w, w, rest[i], fates[i]) {
    }
  }

  lemma {:induction false} NoCalls(ids: seq<Uuid>, queue: seq<CompatRow>)
    requires |ids| == |queue|
    ensures var fates := seq(|ids|, _ => Unreached); CompatCalls(fates, ids, queue) == [] && SentCount(fates) == 0
  {
    if ids != [] {
      NoCalls(ids[1..], queue[1..]);
      assert seq(|ids|, _ => Unreached)[1..] == seq(|ids| - 1, _ => Unreached);
    }
  }

  /** The head is settled by one call of the transaction. */
  lemma {:induction false} CompatHead(env: Env, w: CompatWorld, ids: seq<Uuid>,
                                      published: nat)
    returns (w1: CompatWorld, fate: Fate)
    requires env.fate(w.ops).Fine? && ids != [] && Pickable(w.rows, ids)
    ensures w1.ops == w.ops + 1
    ensures HeadDid(w, w1, ids, fate) && !fate.Unreached?
    ensures CompatDrained(env, w, ids, published)
         == if fate.Refused? then (w1, Success(published))
            else CompatDrained(env, w1, ids[1..], published + if fate.Sent? then 1 else 0)
    ensures CompatFates(env.answer, Wires(w.calls), Picked(w.rows, ids))
         == [fate] + if fate.Refused? then Behind(ids)
             else CompatFates(env.answer, Wires(w1.calls), Picked(w.rows, ids)[1..])
  {
    hide ValidateCompatPublish, ErrorText, Deferred, Marked;
    var r := w.rows[ids[0]];
    match ValidateCompatPublish(r.subject, |r.envelope|)
    case Failure(defect) =>
      fate := Parked(ErrorText(defect));
      w1 := Stepped(w, w.rows[ids[0] := Deferred(r, ErrorText(defect), w.now)]);
    case Success(_) =>
      var call := Call(r.subject, MessageId(ids[0]), r.envelope);
      WiresAppend(w.calls, call);
      match env.answer(Wires(w.calls + [call]))
      case None =>
        fate := Sent;
        w1 := Stepped(w.(calls := w.calls + [call]), w.rows[ids[0] := Marked(r, w.now)]);
      case Some(text) =>
        fate := Refused(text);
        w1 := Stepped(w.(calls := w.calls + [call]), w.rows[ids[0] := Deferred(r, text, w.now)]);
  }

  lemma {:induction false} SentCons(fate: Fate, rest: seq<Fate>)
    ensures SentCount([fate] + rest) == (if fate.Sent? then 1 else 0) + SentCount(rest)
  {
  }

  /** How many rows the loop reaches; it makes one database call for each. */
  function Reached(fates: seq<Fate>): nat {
    if fates == [] then 0 else (if fates[0].Unreached? then 0 else 1) + Reached(fates[1..])
  }

  lemma {:induction false} ReachedCons(fate: Fate, rest: seq<Fate>)
    ensures Reached([fate] + rest) == (if fate.Unreached? then 0 else 1) + Reached(rest)
  {
  }

  lemma {:induction false} BehindUnreached(ids: seq<Uuid>)
    requires ids != []
    ensures Reached(Behind(ids)) == 0
  {
    NoneReached(|ids| - 1);
  }

  lemma {:induction false} NoneReached(n: nat)
    ensures Reached(seq(n, _ => Unreached)) == 0
  {
    if n > 0 {
      NoneReached(n - 1);
      assert seq(n, _ => Unreached)[1..] == seq(n - 1, _ => Unreached);
    }
  }

  /** A faulty call ends the loop with an error; the broker has heard a first part of the calls
      the fates stand for, the one for the faulty row included. */
  ghost predicate LoopDid(env: Env, w: CompatWorld, w': CompatWorld, r: Result<nat, MessagingError>, ids: seq<Uuid>,
                          fates: seq<Fate>, published: nat)
    requires Pickable(w.rows, ids) && |fates| == |ids|
  {
    && w'.now == w.now
    && w.calls <= w'.calls <= w.calls + CompatCalls(fates, ids, Picked(w.rows, ids))
    && (if r.Success? then
          CompatDid(w, w', ids, fates) && r == Success(published + SentCount(fates)) && w'.ops == w.ops + Reached(fates)
        else w.ops < w'.ops <= w.ops + Reached(fates) && !env.fate(w'.ops - 1).Fine?)
    && ((forall n | w.ops <= n < w.ops + Reached(fates) :: env.fate(n).Fine?) ==> r.Success?)
  }

  lemma {:induction false} FaultyHead(env: Env, w: CompatWorld, ids: seq<Uuid>, published: nat)
    requires !env.fate(w.ops).Fine? && ids != [] && Pickable(w.rows, ids)
    ensures var (w', r) := CompatDrained(env, w, ids, published);
            var queue := Picked(w.rows, ids);
            var fates := CompatFates(env.answer, Wires(w.calls), queue);
            && r.Failure? && w'.ops == w.ops + 1 && w'.now == w.now && !fates[0].Unreached?
            && w'.calls == w.calls + HeadCalls(fates[0], ids[0], queue[0])
  {
    hide ValidateCompatPublish, ErrorText, Deferred, Marked;
    var r := w.rows[ids[0]];
    if ValidateCompatPublish(r.subject, |r.envelope|).Success? {
      WiresAppend(w.calls, Call(r.subject, MessageId(ids[0]), r.envelope));
    }
  }

  /** The loop under any faults. */
  lemma {:induction false} CompatLoopOutcome(env: Env, w: CompatWorld, ids: seq<Uuid>, published: nat)
    requires Pickable(w.rows, ids)
    ensures var (w', r) := CompatDrained(env, w, ids, published);
            LoopDid(env, w, w', r, ids, CompatFates(env.answer, Wires(w.calls), Picked(w.rows, ids)), published)
    decreases |ids|
  {
    hide CompatDid, HeadDid, PlaceSettled, SentCount, Wires, Picked, CompatDrained, CompatFates, Behind, Reached;
    var fates := CompatFates(env.answer, Wires(w.calls), Picked(w.rows, ids));
    if ids == [] {
      NothingPicked(env, w, published);
      ReachedNone();
      NoCalls([], []);
      PickedNone(w.rows);
    } else if !env.fate(w.ops).Fine? {
      FaultyHead(env, w, ids, published);
      PickedHead(w.rows, ids);
      CallsHead(fates, ids, Picked(w.rows, ids));
      ReachedCons(fates[0], fates[1..]);
      assert [fates[0]] + fates[1..] == fates;
    } else {
      var w1, fate := CompatHead(env, w, ids, published);
      RestIsPicked(w, w1, ids, fate);
      if fate.Refused? {
        Untouched(w1, ids);
        CompatCons(w, w1, w1, ids, fate, Behind(ids));
        SentCons(fate, Behind(ids));
        ReachedCons(fate, Behind(ids));
        BehindUnreached(ids);
        CompatCallsOf(w, w1, ids, fates);
      } else {
        var n := published + if fate.Sent? then 1 else 0;
        CompatLoopOutcome(env, w1, ids[1..], n);
        LoopCons(env, w, w1, ids, fate, published);
      }
    }
  }

  lemma {:induction false} ReachedNone()
    ensures Reached([]) == 0
  {
  }

  lemma {:induction false} PickedNone(rows: CompatRows)
    ensures Picked(rows, []) == []
  {
  }

  lemma {:induction false} PickedHead(rows: CompatRows, ids: seq<Uuid>)
    requires Pickable(rows, ids)
    ensures |Picked(rows, ids)| == |ids| && (ids != [] ==> Picked(rows, ids)[0] == rows[ids[0]])
  {
  }

  lemma {:induction false} CallsHead(fates: seq<Fate>, ids: seq<Uuid>, queue: seq<CompatRow>)
    requires |fates| == |ids| == |queue| && ids != []
    ensures HeadCalls(fates[0], ids[0], queue[0]) <= CompatCalls(fates, ids, queue)
  {
  }

  lemma {:induction false} CompatCallsOf(w: CompatWorld, w': CompatWorld, ids: seq<Uuid>, fates: seq<Fate>)
    requires Pickable(w.rows, ids) && CompatDid(w, w', ids, fates)
    ensures w'.now == w.now && w'.calls == w.calls + CompatCalls(fates, ids, Picked(w.rows, ids))
  {
  }

  lemma {:induction false} LoopCons(env: Env, w: CompatWorld, w1: CompatWorld, ids: seq<Uuid>, fate: Fate,
                                    published: nat)
    requires HeadDid(w, w1, ids, fate) && Pickable(w1.rows, ids[1..]) && w1.ops == w.ops + 1 && env.fate(w.ops).Fine?
    requires !fate.Unreached? && !fate.Refused?
    requires var rest := CompatFates(env.answer, Wires(w1.calls), Picked(w1.rows, ids[1..]));
             var n := published + if fate.Sent? then 1 else 0;
             var (w', r) := CompatDrained(env, w1, ids[1..], n);
             LoopDid(env, w1, w', r, ids[1..], rest, n)
    ensures var rest := CompatFates(env.answer, Wires(w1.calls), Picked(w1.rows, ids[1..]));
            var (w', r) := CompatDrained(env, w1, ids[1..], published + if fate.Sent? then 1 else 0);
            LoopDid(env, w, w', r, ids, [fate] + rest, published)
  {
    hide CompatDid, PlaceSettled, SentCount, Wires, Picked, CompatDrained, CompatFates, Reached, CompatCalls, HeadCalls;
    var rest := CompatFates(env.answer, Wires(w1.calls), Picked(w1.rows, ids[1..]));
    var (w', r) := CompatDrained(env, w1, ids[1..], published + if fate.Sent? then 1 else 0);
    ReachedCons(fate, rest);
    SentCons(fate, rest);
    RestIsPicked(w, w1, ids, fate);
    PickedHead(w1.rows, ids[1..]);
    PickedCallsCons(w, ids, fate, rest);
    if r.Success? {
      CompatCons(w, w1, w', ids, fate, rest);
    }
  }

  lemma {:induction false} PickedCallsCons(w: CompatWorld, ids: seq<Uuid>, fate: Fate, rest: seq<Fate>)
    requires ids != [] && Pickable(w.rows, ids) && |rest| == |ids| - 1
    ensures CompatCalls([fate] + rest, ids, Picked(w.rows, ids))
         == HeadCalls(fate, ids[0], w.rows[ids[0]]) + CompatCalls(rest, ids[1..], Picked(w.rows, ids)[1..])
  {
    hide HeadCalls;
  }

  lemma {:induction false} NothingPicked(env: Env, w: CompatWorld, published: nat)
    ensures CompatDrained(env, w, [], published) == (w, Success(published))
    ensures var fates := CompatFates(env.answer, Wires(w.calls), Picked(w.rows, []));
            fates == [] && CompatDid(w, w, [], fates) && SentCount(fates) == 0
  {
  }

  /** The transaction at the time of its first call. */
  function Begun(env: Env, w: CompatWorld): CompatWorld { w.(now := w.now + env.delay(w.ops)) }

  /** The transaction is atomic. Under any faults of any of its database calls the table is either
      as it was, or as the fates of the whole batch say: an invalid row deferred with its
      defect, a refused one deferred and the rows behind it left alone. Success means the
      latter; an error means the former, unless it is the reply to a commit that took effect
      that was lost. Broker calls are not taken back: what was heard, on success all of the
      calls and on an error a first part of them, stays heard. */
  lemma {:induction false} CompatAtomic(env: Env, w: CompatWorld, pick: seq<Uuid>)
    requires Pickable(w.rows, pick)
    ensures var (w', r) := CompatBatch(env, w, pick);
            var fates := CompatFates(env.answer, Wires(w.calls), Picked(w.rows, pick));
            var all := CompatDid(Begun(env, w), w', pick, fates);
            var commitReplyLost := w'.ops == w.ops + 3 + Reached(fates) && env.fate(w'.ops - 1).FailedAfter?;
            && (w'.rows == w.rows || all)
            && (r.Success? ==> all && r == Success(SentCount(fates)))
            && (r.Failure? ==> r == Failure(Database) && (w'.rows == w.rows || (commitReplyLost && all)))
            && w.calls <= w'.calls <= w.calls + CompatCalls(fates, pick, Picked(w.rows, pick))
            && w'.now == w.now + env.delay(w.ops)
            && ((forall n | w.ops <= n < w.ops + 3 + Reached(fates) :: env.fate(n).Fine?) ==> r.Success?)
  {
    hide CompatDrained, CompatFates, Wires, CompatCalls, SentCount, CompatSettled, Picked, Reached, PlaceSettled;
    var begun := Begun(env, w);
    var selected := begun.(ops := w.ops + 2);
    OnlyDatabaseFails(env, selected, pick, 0);
    CompatLoopOutcome(env, selected, pick, 0);
    var (staged, s) := CompatDrained(env, selected, pick, 0);
    var w' := CompatBatch(env, w, pick).0;
    var fates := CompatFates(env.answer, Wires(w.calls), Picked(w.rows, pick));
    if s.Success? && w'.rows == staged.rows {
      forall i | 0 <= i < |pick| ensures PlaceSettled(begun, w', pick[i], fates[i]) {
        assert PlaceSettled(selected, staged, pick[i], fates[i]);
        PlaceMoved(selected, staged, begun, w', pick[i], fates[i]);
      }
    }
  }

  lemma {:induction false} PlaceMoved(a: CompatWorld, a': CompatWorld, b: CompatWorld, b': CompatWorld, id: Uuid,
                                      fate: Fate)
    requires PlaceSettled(a, a', id, fate) && a.rows == b.rows && a'.rows == b'.rows && a.now == b.now
    ensures PlaceSettled(b, b', id, fate)
  {
  }

  lemma {:induction false} OnlyDatabaseFails(env: Env, w: CompatWorld, ids: seq<Uuid>, published: nat)
    requires forall i | 0 <= i < |ids| :: ids[i] in w.rows
    ensures var r := CompatDrained(env, w, ids, published).1; r.Failure? ==> r == Failure(Database)
    decreases |ids|
  {
    hide ValidateCompatPublish, ErrorText, Deferred, Marked, Wires;
    if ids != [] && env.fate(w.ops).Fine? {
      var id, r := ids[0], w.rows[ids[0]];
      match ValidateCompatPublish(r.subject, |r.envelope|)
      case Failure(defect) =>
        OnlyDatabaseFails(env, Stepped(w, w.rows[id := Deferred(r, ErrorText(defect), w.now)]), ids[1..], published);
      case Success(_) =>
        var calls := w.calls + [Call(r.subject, MessageId(id), r.envelope)];
        OnlyDatabaseFails(env, Stepped(w.(calls := calls), w.rows[id := Marked(r, w.now)]), ids[1..], published + 1);
    }
  }

  /** A fault-free transaction commits what its loop did. */
  lemma {:induction false} CompatBatchOutcome(env: Env, w: CompatWorld, pick: seq<Uuid>)
    requires NoFaults(env) && Pickable(w.rows, pick)
    ensures var (w', r) := CompatBatch(env, w, pick);
            var fates := CompatFates(env.answer, Wires(w.calls), Picked(w.rows, pick));
            CompatDid(Begun(env, w), w', pick, fates) && r == Success(SentCount(fates))
  {
    hide CompatBatch, CompatFates, CompatDid, SentCount, Picked, Reached;
    CompatAtomic(env, w, pick);
  }
}
