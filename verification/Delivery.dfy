/** From the record constructor to the stream: what holds of every message a producer builds,
    without anything assumed about its row. */
module Delivery {
  import opened Wrappers
  import opened Outbox
  import opened OutboxTable
  import opened Pipeline
  import opened PipelineInvariant
  import opened PipelineTheorems
  import opened BrokerCopies
  import opened StagedKeys
  import PipelineProgress
  import Drainer
  import DrainerOutcome
  import DrainerTheorems
  import DedupId

  // ---- Over all runs --------------------------------------------------------------------

  lemma {:induction false} ConstructedIsPending(sha256: seq<byte> -> DedupId.Digest, rec: OutboxRecord)
    requires Constructed(sha256, rec)
    ensures rec.status.Pending? && rec.attempts == 0
  {
  }

  lemma {:induction false} PrefixConstructed(sha256: seq<byte> -> DedupId.Digest, before: seq<Step>, after: seq<Step>)
    requires ConstructedOnly(sha256, before + after)
    ensures ConstructedOnly(sha256, before)
  {
    hide Constructed;
    assert forall k | 0 <= k < |before| :: (before + after)[k] == before[k];
  }

  /** No silent loss, of any accepted enqueue of any run: it is at all times exactly one of pending,
      failed, published or purged; published or purged only after the broker acknowledged it and
      one mark took effect, and otherwise unmarked. */
  lemma {:induction false} EveryMessageIsAccountedFor(sha256: seq<byte> -> DedupId.Digest, now: int, window: nat,
                                                      before: seq<Step>, after: seq<Step>, t: nat)
    requires ConstructedOnly(sha256, before + after) && t in Run(Init(now, window), before).ledger
    ensures var rec, s := Run(Init(now, window), before).ledger[t].rec, Run(Init(now, window), before + after);
            && t in s.ledger && s.ledger[t].rec == rec
            && (FateOf(s, t).Gone? <==> s.ledger[t].purged)
            && (!FateOf(s, t).Gone? ==>
                  rec.id in s.rows && s.rows[rec.id] == RowOf(s, t) && SameIdentity(RowOf(s, t), rec))
            && (if FateOf(s, t).Sent? || FateOf(s, t).Gone? then
                  s.ledger[t].acked && HasCopy(s.copies, rec.dedupId) && s.ledger[t].marks == 1
                else s.ledger[t].marks == 0)
  {
    hide Run, Constructed, ConstructedOnly;
    PrefixConstructed(sha256, before, after);
    LedgerConstructed(sha256, now, window, before, t);
    ConstructedIsPending(sha256, Run(Init(now, window), before).ledger[t].rec);
    Conservation(now, window, before, after, t);
  }

  /** One copy of each message: under long retention, calls for rows still owned, a verified window
      and prompt recovery, every published or purged message is in the stream exactly once. */
  lemma {:induction false} EveryMessageOnce(sha256: seq<byte> -> DedupId.Digest, now: int, window: nat,
                                            steps: seq<Step>, t: nat)
    requires ConstructedOnly(sha256, steps) && RetentiveRun(Init(now, window), steps)
    requires var s := Run(Init(now, window), steps); t in s.ledger && (FateOf(s, t).Sent? || FateOf(s, t).Gone?)
    ensures OwnCopy(Run(Init(now, window), steps), t)
    ensures PromptRun(PerMessage, Init(now, window), steps) ==>
              var copies := Run(Init(now, window), steps).copies;
              forall i, j | 0 <= i < j < |copies| :: copies[i].ticket != t || copies[j].ticket != t
  {
    hide Run, Constructed, ConstructedOnly, RetentiveRun, PromptRun;
    LedgerConstructed(sha256, now, window, steps, t);
    ConstructedIsPending(sha256, Run(Init(now, window), steps).ledger[t].rec);
    PublishedHasOwnCopy(now, window, steps, t);
    if PromptRun(PerMessage, Init(now, window), steps) {
      OneCopyPerMessage(now, window, steps, t);
    }
  }

  /** At most `max` broker calls for each message, in any undisturbed run. */
  lemma {:induction false} CallsWithinLimit(sha256: seq<byte> -> DedupId.Digest, now: int, window: nat,
                                            steps: seq<Step>,
                                            max: int, t: nat)
    requires ConstructedOnly(sha256, steps) && 0 < max
    requires PipelineProgress.UndisturbedRun(Init(now, window), steps, max)
    requires t in Run(Init(now, window), steps).ledger
    ensures Run(Init(now, window), steps).ledger[t].offers <= max
  {
    hide Run, Constructed, ConstructedOnly, PipelineProgress.UndisturbedRun;
    LedgerConstructed(sha256, now, window, steps, t);
    ConstructedIsPending(sha256, Run(Init(now, window), steps).ledger[t].rec);
    PipelineProgress.OffersWithinLimit(now, window, steps, max, t);
  }

  // ---- One message from end to end ------------------------------------------------------

  /** A message is staged, in any reachable state, exactly if its subject is canonical, its payload
      serializes to no more than 1 MiB, and its id, dedup id and scoped key are free. From
      then on, until somebody claims it, any relay can: at once, and with no attempt used. */
  lemma {:induction false} StagedIsClaimable(sha256: seq<byte> -> DedupId.Digest, now: int, window: nat,
                                             steps: seq<Step>, id: Uuid, subject: string, tenant: Option<Uuid>,
                                             key: seq<byte>, payload: Json, createdAt: int)
    ensures var s := Run(Init(now, window), steps);
            var rec := PendingForTenant(sha256, id, subject, tenant, key, payload, createdAt);
            var s' := Next(s, Enqueue(rec, true));
            if Publishable(rec) && !Conflicts(s.rows, rec) then
              && id in s'.rows && s'.rows[id].attempts == 0 && s'.rows[id].owner.None? && s'.rows[id].status.Pending?
              && s'.rows[id].subject == subject && s'.rows[id].payload == payload
              && s'.rows[id].tenant == tenant && s'.rows[id].key == key && s'.rows[id].createdAt == createdAt
              && (forall later | s'.now <= later :: ClaimChoice(s'.rows, [id], later, 1))
              && s'.rows - {id} == s.rows
            else s' == s
  {
    hide Publishable, Conflicts;
    Reachable(now, window, steps);
    var s := Run(Init(now, window), steps);
    var rec := PendingForTenant(sha256, id, subject, tenant, key, payload, createdAt);
    if !Conflicts(s.rows, rec) { FreeId(s.rows, rec); }
  }

  lemma {:induction false} FreeId(rows: Rows, rec: OutboxRecord)
    requires !Conflicts(rows, rec)
    ensures rec.id !in rows
  {
  }

  /** The broker takes everything. */
  ghost predicate Acknowledging(env: Drainer.Env) {
    forall calls {:trigger env.answer(calls)} :: env.answer(calls).None?
  }

  lemma {:induction false} AcknowledgedFate(env: Drainer.Env, wires: seq<Drainer.Wire>, queue: seq<OutboxRecord>,
                                            i: nat)
    requires Acknowledging(env) && i < |queue| && Publishable(queue[i])
    ensures DrainerOutcome.Fates(env.answer, wires, queue)[i].Sent?
    decreases i
  {
    hide ErrorText;
    match Prepare(queue[0].subject, queue[0].payload)
    case Failure(_) => AcknowledgedFate(env, wires, queue[1..], i - 1);
    case Success(body) =>
      if i > 0 {
        AcknowledgedFate(env, wires + [Drainer.Wire(queue[0].subject, body)], queue[1..], i - 1);
      }
  }

  lemma {:induction false} CallIsThere(fates: seq<DrainerOutcome.Fate>, queue: seq<OutboxRecord>, i: nat)
    requires |fates| == |queue| && i < |queue| && fates[i].Sent?
    ensures Drainer.CallFor(queue[i], DrainerOutcome.Body(queue[i])) in DrainerOutcome.CallsOf(fates, queue)
  {
    hide DrainerOutcome.Body, Drainer.CallFor;
    if i > 0 { CallIsThere(fates[1..], queue[1..], i - 1); }
  }

  /** A relay that picks the row of a message, undisturbed and with an acknowledging broker, sends
      the broker the subject, the dedup id of tenant and key, and the serialized payload the
      producer passed, and leaves the row published, free and without error. */
  lemma {:induction false} PickedIsDelivered(sha256: seq<byte> -> DedupId.Digest, env: Drainer.Env, cfg: Drainer.Config,
                                             w: Drainer.World, owner: Uuid, pick: seq<Uuid>, i: nat, subject: string,
                                             tenant: Option<Uuid>, key: seq<byte>, bytes: seq<byte>)
    requires DrainerTheorems.Orderly(env, cfg, w, owner, pick) && Acknowledging(env) && i < |pick|
    requires var r := w.rows[pick[i]];
             && r.subject == subject && r.payload == Json(Success(bytes)) && r.tenant == tenant && r.key == key
             && Derived(sha256, r) && Prepare(subject, r.payload).Success?
    ensures var w' := Drainer.BatchPublished(env, w, cfg, owner, pick).0;
            var id := DedupId.TenantScopedDedupId(sha256, DedupId.Scope(tenant, key));
            && w.calls <= w'.calls && Drainer.Call(subject, Drainer.Digest(id), bytes) in w'.calls[|w.calls|..]
            && pick[i] in w'.rows && w'.rows[pick[i]].status.Published? && w'.rows[pick[i]].publishedAt.Some?
            && w'.rows[pick[i]].owner.None? && w'.rows[pick[i]].lastError.None?
            && w'.rows[pick[i]].attempts == w.rows[pick[i]].attempts + 1
  {
    hide Drainer.BatchPublished, DrainerOutcome.Fates, DrainerOutcome.CallsOf, Drainer.Records, Drainer.CallTime;
    DrainerTheorems.BatchOutcome(env, cfg, w, owner, pick);
    var w' := Drainer.BatchPublished(env, w, cfg, owner, pick).0;
    var queue, fates := Drainer.Records(w.rows, pick), DrainerTheorems.BatchFates(env, w, pick);
    DrainerTheorems.RecordIds(w.rows, pick);
    AcknowledgedFate(env, Drainer.Wires(w.calls), queue, i);
    CallIsThere(fates, queue, i);
    BodyIs(queue[i], bytes);
    assert DrainerTheorems.PickSettled(env, cfg, w, w', owner, pick, i);
  }

  lemma {:induction false} BodyIs(rec: OutboxRecord, bytes: seq<byte>)
    requires rec.payload == Json(Success(bytes)) && Publishable(rec)
    ensures DrainerOutcome.Body(rec) == bytes
  {
  }
}
