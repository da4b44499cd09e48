/** The pure relay (src/outbox.rs) over a publisher that dedups on the dedup id
    (src/publisher.rs): drain outcomes and crash replay. */
module RelayDrain {
  import opened Wrappers
  import opened Outbox
  import Subjects

  datatype Message = Message(subject: string, dedupId: string, payload: seq<byte>)

  /** The recorder's state: what it stored, in order, and every dedup id it has seen. */
  datatype Store = Store(published: seq<Message>, seen: set<string>)

  /** How a publisher answers, given every call made to it so far, the present one last.
      The recorder never refuses; a failing double may refuse whenever it likes. */
  type Refusals = seq<Message> -> Option<MessagingError>

  const NEVER: Refusals := _ => None

  function Accept(s: Store, m: Message): Store {
    if m.dedupId in s.seen then s else Store(s.published + [m], s.seen + {m.dedupId})
  }

  function AcceptAll(s: Store, ms: seq<Message>): Store {
    if ms == [] then s else Accept(AcceptAll(s, ms[..|ms| - 1]), ms[|ms| - 1])
  }

  /** Ids are stored once, and the seen set is what is stored. */
  ghost predicate Consistent(s: Store) {
    && (forall i, j | 0 <= i < j < |s.published| :: s.published[i].dedupId != s.published[j].dedupId)
    && s.seen == set m | m in s.published :: m.dedupId
  }

  class Publisher {
    const refuses: Refusals
    var calls: seq<Message>
    var published: seq<Message>
    var seen: set<string>

    constructor (refuses: Refusals)
      ensures this.refuses == refuses && calls == [] && published == [] && seen == {}
    {
      this.refuses, calls, published, seen := refuses, [], [], {};
    }

    ghost function Stored(): Store
      reads this
    {
      Store(published, seen)
    }

    method Publish(subject: string, dedupId: string, payload: seq<byte>) returns (r: Result<(), MessagingError>)
      modifies this
      ensures calls == old(calls) + [Message(subject, dedupId, payload)]
      ensures r.Failure? <==> refuses(calls).Some?
      ensures r.Failure? ==> r.error == refuses(calls).value && Stored() == old(Stored())
      ensures r.Success? ==> Stored() == Accept(old(Stored()), Message(subject, dedupId, payload))
    {
      var m := Message(subject, dedupId, payload);
      calls := calls + [m];
      match refuses(calls) {
        case Some(e) => return Failure(e);
        case None =>
      }
      if dedupId in seen {
        return Success(());
      }
      seen := seen + {dedupId};
      published := published + [m];
      return Success(());
    }
  }

  // ---- Drain --------------------------------------------------------------------

  datatype Outcome = Outcome(published: seq<Uuid>, failed: seq<(Uuid, string)>)

  /** The publisher call a record leads to: none when it fails before the publisher. */
  function Calls(rec: OutboxRecord): seq<Message> {
    match Prepare(rec.subject, rec.payload)
    case Failure(_) => []
    case Success(bytes) => [Message(rec.subject, rec.dedupId, bytes)]
  }

  function AllCalls(batch: seq<OutboxRecord>): seq<Message> {
    if batch == [] then [] else AllCalls(batch[..|batch| - 1]) + Calls(batch[|batch| - 1])
  }

  /** The error of record `i` of a batch, if any, when `before` calls preceded the drain. */
  function Error(refuses: Refusals, before: seq<Message>, batch: seq<OutboxRecord>, i: nat): Option<MessagingError>
    requires i < |batch|
  {
    match Prepare(batch[i].subject, batch[i].payload)
    case Failure(e) => Some(e)
    case Success(_) => refuses(before + AllCalls(batch[..i + 1]))
  }

  function PublishedOf(refuses: Refusals, before: seq<Message>, batch: seq<OutboxRecord>, n: nat): seq<Uuid>
    requires n <= |batch|
  {
    if n == 0 then []
    else
      PublishedOf(refuses, before, batch, n - 1)
      + (if Error(refuses, before, batch, n - 1).None? then [batch[n - 1].id] else [])
  }

  function FailedOf(refuses: Refusals, before: seq<Message>, batch: seq<OutboxRecord>, n: nat): seq<(Uuid, string)>
    requires n <= |batch|
  {
    if n == 0 then []
    else
      FailedOf(refuses, before, batch, n - 1)
      + match Error(refuses, before, batch, n - 1)
        case None => []
        case Some(e) => [(batch[n - 1].id, ErrorText(e))]
  }

  /** The calls of the first `n` records that the publisher acknowledged. */
  function Acknowledged(refuses: Refusals, before: seq<Message>, batch: seq<OutboxRecord>, n: nat): seq<Message>
    requires n <= |batch|
  {
    if n == 0 then []
    else
      Acknowledged(refuses, before, batch, n - 1)
      + (if Error(refuses, before, batch, n - 1).None? then Calls(batch[n - 1]) else [])
  }

  lemma {:induction false} CallsStep(batch: seq<OutboxRecord>, i: nat)
    requires i < |batch|
    ensures AllCalls(batch[..i + 1]) == AllCalls(batch[..i]) + Calls(batch[i])
  {
    assert batch[..i + 1][..i] == batch[..i];
  }

  lemma {:induction false} NoCalls()
    ensures AllCalls([]) == []
  {
  }

  lemma {:induction false} AcceptNone(s: Store)
    ensures AcceptAll(s, []) == s
  {
  }

  lemma {:induction false} AcceptOne(s: Store, ms: seq<Message>, m: Message)
    ensures AcceptAll(s, ms + [m]) == Accept(AcceptAll(s, ms), m)
  {
    assert (ms + [m])[..|ms|] == ms;
  }

  class Relay {
    const publisher: Publisher

    constructor (publisher: Publisher)
      ensures this.publisher == publisher
    {
      this.publisher := publisher;
    }

    method Drain(batch: seq<OutboxRecord>) returns (outcome: Outcome)
      modifies publisher
      ensures publisher.calls == old(publisher.calls) + AllCalls(batch)
      ensures outcome.published == PublishedOf(publisher.refuses, old(publisher.calls), batch, |batch|)
      ensures outcome.failed == FailedOf(publisher.refuses, old(publisher.calls), batch, |batch|)
      ensures publisher.Stored()
           == AcceptAll(old(publisher.Stored()), Acknowledged(publisher.refuses, old(publisher.calls), batch, |batch|))
    {
      hide ValidateForPublish, AcceptAll, Accept, Subjects.Decimal, AllCalls;
      NoCalls();
      var published: seq<Uuid>, failed: seq<(Uuid, string)> := [], [];
      AcceptNone(publisher.Stored());
      ghost var refuses, before, start := publisher.refuses, publisher.calls, publisher.Stored();
      for i := 0 to |batch|
        invariant publisher.calls == before + AllCalls(batch[..i])
        invariant published == PublishedOf(refuses, before, batch, i)
        invariant failed == FailedOf(refuses, before, batch, i)
        invariant publisher.Stored() == AcceptAll(start, Acknowledged(refuses, before, batch, i))
      {
        var rec := batch[i];
        ghost var acks := Acknowledged(refuses, before, batch, i);
        CallsStep(batch, i);
        assert acks + [] == acks;
        match rec.payload.encoding {
          case Failure(text) =>
            failed := failed + [(rec.id, text)];
            continue;
          case Success(bytes) =>
            match ValidateForPublish(rec.subject, |bytes|) {
              case Failure(e) =>
                failed := failed + [(rec.id, ErrorText(e))];
                continue;
              case Success(_) =>
                var r := publisher.Publish(rec.subject, rec.dedupId, bytes);
                AcceptOne(start, acks, Message(rec.subject, rec.dedupId, bytes));
                match r {
                  case Success(_) => published := published + [rec.id];
                  case Failure(e) => failed := failed + [(rec.id, ErrorText(e))];
                }
            }
        }
      }
      assert batch[..|batch|] == batch;
      outcome := Outcome(published, failed);
    }
  }

  // ---- Any publisher: the outcome is an order-preserving partition ---------------

  /** Deals `left` and `right` out in the order the mask dictates. */
  function Weave<T>(mask: seq<bool>, left: seq<T>, right: seq<T>): (w: seq<T>)
    requires Count(mask, true) == |left| && Count(mask, false) == |right|
    ensures |w| == |mask|
  {
    if mask == [] then []
    else if mask[|mask| - 1] then Weave(mask[..|mask| - 1], left[..|left| - 1], right) + [left[|left| - 1]]
    else Weave(mask[..|mask| - 1], left, right[..|right| - 1]) + [right[|right| - 1]]
  }

  function Count(mask: seq<bool>, b: bool): nat {
    if mask == [] then 0 else Count(mask[..|mask| - 1], b) + if mask[|mask| - 1] == b then 1 else 0
  }

  function Ids(batch: seq<OutboxRecord>): seq<Uuid> { seq(|batch|, i requires 0 <= i < |batch| => batch[i].id) }

  function FailedIds(failed: seq<(Uuid, string)>): seq<Uuid> {
    seq(|failed|, i requires 0 <= i < |failed| => failed[i].0)
  }

  ghost function Mask(refuses: Refusals, before: seq<Message>, batch: seq<OutboxRecord>, n: nat): seq<bool>
    requires n <= |batch|
  {
    seq(n, i requires 0 <= i < n => Error(refuses, before, batch, i).None?)
  }

  lemma {:induction false} Dealt(refuses: Refusals, before: seq<Message>, batch: seq<OutboxRecord>, n: nat)
    requires n <= |batch|
    ensures Count(Mask(refuses, before, batch, n), true) == |PublishedOf(refuses, before, batch, n)|
    ensures Count(Mask(refuses, before, batch, n), false) == |FailedOf(refuses, before, batch, n)|
    ensures Weave(Mask(refuses, before, batch, n), PublishedOf(refuses, before, batch, n),
                  FailedIds(FailedOf(refuses, before, batch, n))) == Ids(batch[..n])
  {
    hide Error, ErrorText, Weave;
    if n == 0 {
      assert Ids(batch[..0]) == [] == FailedIds([]);
      assert Mask(refuses, before, batch, 0) == [];
      WeaveNone<Uuid>();
    } else {
      Dealt(refuses, before, batch, n - 1);
      var mask := Mask(refuses, before, batch, n - 1);
      var p, f := PublishedOf(refuses, before, batch, n - 1), FailedOf(refuses, before, batch, n - 1);
      var acked := Error(refuses, before, batch, n - 1).None?;
      assert Mask(refuses, before, batch, n) == mask + [acked];
      IdsSnoc(batch, n - 1);
      CountSnoc(mask, acked);
      WeaveSnoc(mask, p, FailedIds(f), acked, batch[n - 1].id);
      if acked {
        assert PublishedOf(refuses, before, batch, n) == p + [batch[n - 1].id]
            && FailedOf(refuses, before, batch, n) == f;
      } else {
        var failure := (batch[n - 1].id, ErrorText(Error(refuses, before, batch, n - 1).value));
        assert PublishedOf(refuses, before, batch, n) == p && FailedOf(refuses, before, batch, n) == f + [failure];
        FailedIdsSnoc(f, failure);
      }
    }
  }

  lemma {:induction false} IdsSnoc(batch: seq<OutboxRecord>, i: nat)
    requires i < |batch|
    ensures Ids(batch[..i + 1]) == Ids(batch[..i]) + [batch[i].id]
  {
  }

  lemma {:induction false} FailedIdsSnoc(failed: seq<(Uuid, string)>, f: (Uuid, string))
    ensures FailedIds(failed + [f]) == FailedIds(failed) + [f.0]
  {
  }

  lemma {:induction false} CountSnoc(mask: seq<bool>, b: bool)
    ensures forall v :: Count(mask + [b], v) == Count(mask, v) + if b == v then 1 else 0
  {
    assert (mask + [b])[..|mask|] == mask;
  }

  lemma {:induction false} WeaveNone<T>()
    ensures Weave<T>([], [], []) == []
  {
  }

  lemma {:induction false} WeaveSnoc<T>(mask: seq<bool>, left: seq<T>, right: seq<T>, b: bool, x: T)
    requires Count(mask, true) == |left| && Count(mask, false) == |right|
    ensures Count(mask + [b], true) == |left| + (if b then 1 else 0)
    ensures Count(mask + [b], false) == |right| + (if b then 0 else 1)
    ensures (if b then Weave(mask + [b], left + [x], right) else Weave(mask + [b], left, right + [x]))
        == Weave(mask, left, right) + [x]
  {
    CountSnoc(mask, b);
    assert (mask + [b])[..|mask|] == mask;
    if b {
      assert (left + [x])[..|left|] == left;
    } else {
      assert (right + [x])[..|right|] == right;
    }
  }

  /** Whatever the publisher does, the two halves of the outcome, dealt out in batch order,
      are the batch: every record is counted once, and neither half is reordered. A record
      is on the published side exactly when it is well-formed and its call was acknowledged. */
  lemma {:induction false} OutcomeIsPartition(refuses: Refusals, before: seq<Message>, batch: seq<OutboxRecord>)
    ensures var published := PublishedOf(refuses, before, batch, |batch|);
            var failed := FailedIds(FailedOf(refuses, before, batch, |batch|));
            |published| + |failed| == |batch| && IsPartition(refuses, before, batch, published, failed)
  {
    Dealt(refuses, before, batch, |batch|);
    CountBoth(Mask(refuses, before, batch, |batch|));
    assert batch[..|batch|] == batch;
  }

  ghost predicate IsPartition(refuses: Refusals, before: seq<Message>, batch: seq<OutboxRecord>,
                              published: seq<Uuid>, failed: seq<Uuid>)
  {
    exists mask: seq<bool> | |mask| == |batch| && Count(mask, true) == |published| && Count(mask, false) == |failed| ::
      && Weave(mask, published, failed) == Ids(batch)
      && forall i | 0 <= i < |batch| :: mask[i] <==> Error(refuses, before, batch, i).None?
  }

  lemma {:induction false} CountBoth(mask: seq<bool>)
    ensures Count(mask, true) + Count(mask, false) == |mask|
  {
    if mask != [] {
      CountBoth(mask[..|mask| - 1]);
    }
  }

  // ---- What a store keeps ---------------------------------------------------------

  lemma {:induction false} AcceptAllAppend(s: Store, x: seq<Message>, y: seq<Message>)
    ensures AcceptAll(s, x + y) == AcceptAll(AcceptAll(s, x), y)
  {
    if y == [] {
      assert x + y == x;
    } else {
      AcceptAllAppend(s, x, y[..|y| - 1]);
      assert (x + y)[..|x + y| - 1] == x + y[..|y| - 1];
    }
  }

  lemma {:induction false} AcceptAllKeeps(s: Store, ms: seq<Message>)
    ensures var t := AcceptAll(s, ms);
            && s.published <= t.published
            && t.seen == s.seen + (set m | m in ms :: m.dedupId)
            && (Consistent(s) ==> Consistent(t))
  {
    if ms != [] {
      var init, last := ms[..|ms| - 1], ms[|ms| - 1];
      AcceptAllKeeps(s, init);
      assert ms == init + [last];
      AcceptKeeps(AcceptAll(s, init), last);
    }
  }

  lemma {:induction false} AcceptKeeps(s: Store, m: Message)
    ensures var t := Accept(s, m);
            && s.published <= t.published
            && t.seen == s.seen + {m.dedupId}
            && (Consistent(s) ==> Consistent(t))
  {
  }

  /** Whether message `k` is the first under an id the store has not seen. */
  ghost predicate FirstUnder(s: Store, ms: seq<Message>, k: nat)
    requires k < |ms|
  {
    ms[k].dedupId !in s.seen && forall j | 0 <= j < k :: ms[j].dedupId != ms[k].dedupId
  }

  /** Those messages, in order. */
  ghost function Firsts(s: Store, ms: seq<Message>, n: nat): seq<Message>
    requires n <= |ms|
  {
    if n == 0 then []
    else Firsts(s, ms, n - 1) + if FirstUnder(s, ms, n - 1) then [ms[n - 1]] else []
  }

  /** The first payload under an id wins and order is kept: a store takes in exactly the
      messages whose id is new at their turn. */
  lemma {:induction false} FirstPayloadWins(s: Store, ms: seq<Message>, n: nat)
    requires n <= |ms|
    ensures AcceptAll(s, ms[..n]).published == s.published + Firsts(s, ms, n)
  {
    if n > 0 {
      FirstPayloadWins(s, ms, n - 1);
      AcceptAllKeeps(s, ms[..n - 1]);
      assert ms[..n] == ms[..n - 1] + [ms[n - 1]];
      AcceptOne(s, ms[..n - 1], ms[n - 1]);
      assert ms[n - 1].dedupId in AcceptAll(s, ms[..n - 1]).seen <==> !FirstUnder(s, ms, n - 1);
    }
  }

  /** A message whose id was seen leaves the store as it is. */
  lemma {:induction false} SeenIsNoOp(s: Store, ms: seq<Message>)
    requires forall m | m in ms :: m.dedupId in s.seen
    ensures AcceptAll(s, ms) == s
  {
    if ms != [] {
      SeenIsNoOp(s, ms[..|ms| - 1]);
    }
  }

  lemma {:induction false} AllCallsAppend(x: seq<OutboxRecord>, y: seq<OutboxRecord>)
    ensures AllCalls(x + y) == AllCalls(x) + AllCalls(y)
  {
    hide Calls;
    if y == [] {
      assert x + y == x;
    } else {
      AllCallsAppend(x, y[..|y| - 1]);
      assert (x + y)[..|x + y| - 1] == x + y[..|y| - 1];
    }
  }

  // ---- Crash replay ---------------------------------------------------------------

  /** What one drain makes of the recorder. */
  function Recorded(s: Store, batch: seq<OutboxRecord>): Store { AcceptAll(s, AllCalls(batch)) }

  /** The recorder acknowledges every call, so a drain records every well-formed record. */
  lemma {:induction false} RecorderDrain(before: seq<Message>, batch: seq<OutboxRecord>, n: nat)
    requires n <= |batch|
    ensures Acknowledged(NEVER, before, batch, n) == AllCalls(batch[..n])
  {
    if n > 0 {
      RecorderDrain(before, batch, n - 1);
      assert batch[..n][..n - 1] == batch[..n - 1];
    }
  }

  /** The recorder after drains that crashed after `cuts[0]`, `cuts[1]`, ... records. */
  function Replayed(s: Store, batch: seq<OutboxRecord>, cuts: seq<nat>): Store
    requires forall i | 0 <= i < |cuts| :: cuts[i] <= |batch|
  {
    if cuts == [] then s
    else Recorded(Replayed(s, batch, cuts[..|cuts| - 1]), batch[..cuts[|cuts| - 1]])
  }

  function Furthest(cuts: seq<nat>): nat {
    if cuts == [] then 0
    else var f := Furthest(cuts[..|cuts| - 1]); if f < cuts[|cuts| - 1] then cuts[|cuts| - 1] else f
  }

  lemma {:induction false} FurthestIsMost(cuts: seq<nat>)
    ensures forall i | 0 <= i < |cuts| :: cuts[i] <= Furthest(cuts)
    ensures cuts == [] || exists i :: 0 <= i < |cuts| && cuts[i] == Furthest(cuts)
  {
    if cuts != [] {
      var init := cuts[..|cuts| - 1];
      FurthestIsMost(init);
      forall i | 0 <= i < |cuts| ensures cuts[i] <= Furthest(cuts) {
        if i < |init| { assert cuts[i] == init[i]; }
      }
      if Furthest(cuts) == cuts[|cuts| - 1] {
        assert cuts[|cuts| - 1] == Furthest(cuts);
      } else {
        assert Furthest(cuts) == Furthest(init) && Furthest([]) == 0;
        assert init != [];
        var i :| 0 <= i < |init| && init[i] == Furthest(init);
        assert cuts[i] == init[i];
      }
    }
  }

  /** Draining a batch after part of it, or part of it after the batch, is draining the longer. */
  lemma {:induction false} Absorbed(s: Store, batch: seq<OutboxRecord>, m: nat, n: nat)
    requires m <= n <= |batch|
    ensures Recorded(Recorded(s, batch[..m]), batch[..n]) == Recorded(s, batch[..n])
    ensures Recorded(Recorded(s, batch[..n]), batch[..m]) == Recorded(s, batch[..n])
  {
    var x, y := AllCalls(batch[..m]), AllCalls(batch[m..n]);
    assert batch[..n] == batch[..m] + batch[m..n];
    AllCallsAppend(batch[..m], batch[m..n]);
    AcceptAllKeeps(s, x);
    AcceptAllKeeps(s, x + y);
    AcceptAllAppend(s, x, y);
    AcceptAllAppend(AcceptAll(s, x), x, y);
    SeenIsNoOp(AcceptAll(s, x), x);
    SeenIsNoOp(AcceptAll(s, x + y), x);
  }

  /** Any number of crashed drains of a batch amounts to the one that got furthest. */
  lemma {:induction false} ReplayIsFurthest(s: Store, batch: seq<OutboxRecord>, cuts: seq<nat>)
    requires forall i | 0 <= i < |cuts| :: cuts[i] <= |batch|
    ensures Furthest(cuts) <= |batch|
    ensures Replayed(s, batch, cuts) == Recorded(s, batch[..Furthest(cuts)])
  {
    FurthestIsMost(cuts);
    if cuts != [] {
      var init, last := cuts[..|cuts| - 1], cuts[|cuts| - 1];
      ReplayIsFurthest(s, batch, init);
      if Furthest(init) < last {
        Absorbed(s, batch, Furthest(init), last);
      } else {
        Absorbed(s, batch, last, Furthest(init));
      }
    }
  }

  /** Crash replay is invisible: whatever prefixes were drained first, draining the whole
      batch leaves the recorder as one drain of it would, order and payloads included. */
  lemma {:induction false} CrashReplayIsInvisible(s: Store, batch: seq<OutboxRecord>, cuts: seq<nat>)
    requires forall i | 0 <= i < |cuts| :: cuts[i] <= |batch|
    ensures Recorded(Replayed(s, batch, cuts), batch) == Recorded(s, batch)
  {
    ReplayIsFurthest(s, batch, cuts);
    Absorbed(s, batch, Furthest(cuts), |batch|);
    assert batch[..|batch|] == batch;
  }

  /** The dedup ids of the acknowledged records among the first `n`. */
  ghost function AckedIds(refuses: Refusals, before: seq<Message>, batch: seq<OutboxRecord>, n: nat): set<string>
    requires n <= |batch|
  {
    set i | 0 <= i < n && Error(refuses, before, batch, i).None? :: batch[i].dedupId
  }

  lemma {:induction false} AckedIdsStep(refuses: Refusals, before: seq<Message>, batch: seq<OutboxRecord>, n: nat)
    requires n < |batch|
    ensures AckedIds(refuses, before, batch, n + 1)
         == AckedIds(refuses, before, batch, n)
          + if Error(refuses, before, batch, n).None? then {batch[n].dedupId} else {}
  {
    hide Error;
  }

  /** With a publisher that also refuses, the records on the published side of the outcome
      are in the store, and those on the failed side added nothing. */
  lemma {:induction false} AcknowledgedIsStored(refuses: Refusals, s: Store, before: seq<Message>,
                                                batch: seq<OutboxRecord>, n: nat)
    requires n <= |batch|
    ensures AcceptAll(s, Acknowledged(refuses, before, batch, n)).seen == s.seen + AckedIds(refuses, before, batch, n)
  {
    hide AcceptAll, AckedIds, ValidateForPublish;
    if n == 0 {
      AcceptNone(s);
      assert AckedIds(refuses, before, batch, 0) == {} by { NoneAcked(refuses, before, batch); }
    } else {
      AcknowledgedIsStored(refuses, s, before, batch, n - 1);
      AckedIdsStep(refuses, before, batch, n - 1);
      var init := Acknowledged(refuses, before, batch, n - 1);
      if Error(refuses, before, batch, n - 1).None? {
        var m := Message(batch[n - 1].subject, batch[n - 1].dedupId, batch[n - 1].payload.encoding.value);
        assert Acknowledged(refuses, before, batch, n) == init + [m];
        AcceptOne(s, init, m);
      } else {
        assert Acknowledged(refuses, before, batch, n) == init;
      }
    }
  }

  lemma {:induction false} NoneAcked(refuses: Refusals, before: seq<Message>, batch: seq<OutboxRecord>)
    ensures AckedIds(refuses, before, batch, 0) == {}
  {
  }

  // ---- What is sent -----------------------------------------------------------------

  /** Nothing malformed reaches a publisher: every call has a canonical subject and no more than
      1 MiB of payload, and comes from a record of the batch with that subject, dedup id and
      serialized payload. */
  lemma {:induction false} OnlyWellFormedCalls(batch: seq<OutboxRecord>, k: nat) returns (i: nat)
    requires k < |AllCalls(batch)|
    ensures i < |batch|
    ensures var m := AllCalls(batch)[k];
            && m.subject == batch[i].subject && m.dedupId == batch[i].dedupId
            && batch[i].payload == Json(Success(m.payload))
            && Subjects.Parse(m.subject).Success? && |m.payload| <= 1_048_576
  {
    hide Subjects.Parse;
    assert batch != [];
    var n := |batch| - 1;
    var before := AllCalls(batch[..n]);
    if k < |before| {
      i := OnlyWellFormedCalls(batch[..n], k);
    } else {
      i := n;
    }
  }

  /** The messages of the first `n` records, word for word. */
  function Verbatim(batch: seq<OutboxRecord>, bodies: seq<seq<byte>>, n: nat): seq<Message>
    requires n <= |batch| == |bodies|
  {
    seq(n, i requires 0 <= i < n => Message(batch[i].subject, batch[i].dedupId, bodies[i]))
  }

  predicate WellFormed(rec: OutboxRecord, body: seq<byte>) {
    rec.payload == Json(Success(body)) && |body| <= 1_048_576 && Subjects.Parse(rec.subject).Success?
  }

  lemma {:induction false} CallsAreVerbatim(batch: seq<OutboxRecord>, bodies: seq<seq<byte>>, n: nat)
    requires n <= |batch| == |bodies| && forall i | 0 <= i < |batch| :: WellFormed(batch[i], bodies[i])
    ensures AllCalls(batch[..n]) == Verbatim(batch, bodies, n)
  {
    hide Subjects.Parse;
    if n > 0 {
      CallsAreVerbatim(batch, bodies, n - 1);
      CallsStep(batch, n - 1);
      assert WellFormed(batch[n - 1], bodies[n - 1]);
    }
  }

  lemma {:induction false} FreshMessagesAreStored(s: Store, ms: seq<Message>)
    requires forall i | 0 <= i < |ms| :: ms[i].dedupId !in s.seen
    requires forall i, j | 0 <= i < j < |ms| :: ms[i].dedupId != ms[j].dedupId
    ensures AcceptAll(s, ms).published == s.published + ms
  {
    if ms != [] {
      var init, last := ms[..|ms| - 1], ms[|ms| - 1];
      FreshMessagesAreStored(s, init);
      AcceptAllKeeps(s, init);
      assert ms == init + [last];
    }
  }

  /** A batch of well-formed records under new ids is stored verbatim, in order. */
  lemma {:induction false} FreshBatchIsStored(s: Store, batch: seq<OutboxRecord>, bodies: seq<seq<byte>>)
    requires |batch| == |bodies| && forall i | 0 <= i < |batch| :: WellFormed(batch[i], bodies[i])
    requires forall i | 0 <= i < |batch| :: batch[i].dedupId !in s.seen
    requires forall i, j | 0 <= i < j < |batch| :: batch[i].dedupId != batch[j].dedupId
    ensures Recorded(s, batch).published == s.published + Verbatim(batch, bodies, |batch|)
  {
    hide WellFormed;
    CallsAreVerbatim(batch, bodies, |batch|);
    assert batch[..|batch|] == batch;
    FreshMessagesAreStored(s, Verbatim(batch, bodies, |batch|));
  }
}
