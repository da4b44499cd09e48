/** Idempotent enqueue over whole runs: records built by the constructor keep one row per
    tenant-scoped key, whatever the relays do in between. */
module StagedKeys {
  import opened Wrappers
  import opened Outbox
  import opened OutboxTable
  import opened Pipeline
  import opened PipelineInvariant
  import opened PipelineTheorems
  import DedupId

  /** A record as the constructor builds it, under a key shorter than 2^64 bytes. */
  predicate Constructed(sha256: seq<byte> -> DedupId.Digest, rec: OutboxRecord) {
    && |rec.key| < DedupId.U64_LIMIT
    && rec == PendingForTenant(sha256, rec.id, rec.subject, rec.tenant, rec.key, rec.payload, rec.createdAt)
  }

  /** Every enqueue of the run stages such a record. */
  predicate ConstructedOnly(sha256: seq<byte> -> DedupId.Digest, steps: seq<Step>) {
    forall k | 0 <= k < |steps| && steps[k].Enqueue? :: Constructed(sha256, steps[k].rec)
  }

  lemma {:induction false} LedgerConstructed(sha256: seq<byte> -> DedupId.Digest, now: int, window: nat,
                                             steps: seq<Step>, t: nat)
    requires ConstructedOnly(sha256, steps) && t in Run(Init(now, window), steps).ledger
    ensures Constructed(sha256, Run(Init(now, window), steps).ledger[t].rec)
  {
    hide Constructed, Next;
    if steps != [] {
      var before, last := steps[..|steps| - 1], steps[|steps| - 1];
      var s := Run(Init(now, window), before);
      Reachable(now, window, before);
      if t in s.ledger {
        LedgerConstructed(sha256, now, window, before, t);
        StepOnRow(s, last, t);
      } else {
        NewEntry(s, last, t);
      }
    }
  }

  /** In every run every row carries the dedup id of its tenant and key. */
  lemma {:induction false} RowsAreDerived(sha256: seq<byte> -> DedupId.Digest, now: int, window: nat, steps: seq<Step>)
    requires ConstructedOnly(sha256, steps)
    ensures AllDerived(sha256, Run(Init(now, window), steps).rows)
  {
    hide Run;
    Reachable(now, window, steps);
    var s := Run(Init(now, window), steps);
    forall id | id in s.rows ensures Derived(sha256, s.rows[id]) {
      assert RowOk(s, id);
      var t := s.tickets[id];
      assert EntryOk(s, t);
      LedgerConstructed(sha256, now, window, steps, t);
    }
  }

  /** So of every reachable table: unless the hash collides on keys in play, an enqueue of a
      constructed record is refused exactly when its id or its tenant-scoped key has a row. */
  lemma {:induction false} OneConstraint(sha256: seq<byte> -> DedupId.Digest, now: int, window: nat, steps: seq<Step>,
                                         rec: OutboxRecord)
    requires ConstructedOnly(sha256, steps) && Constructed(sha256, rec)
    requires forall id | id in Run(Init(now, window), steps).rows ::
               var r := Run(Init(now, window), steps).rows[id];
               DedupId.NoCollision(sha256, DedupId.Scope(r.tenant, r.key), DedupId.Scope(rec.tenant, rec.key))
    ensures var rows := Run(Init(now, window), steps).rows;
            Conflicts(rows, rec) <==> rec.id in rows || exists id | id in rows :: SameScope(rows[id], Staged(rec, now))
  {
    hide Run, AllDerived;
    RowsAreDerived(sha256, now, window, steps);
    ConflictIsScopeConflict(sha256, Run(Init(now, window), steps).rows, rec, now);
  }

  /** While the row of an accepted enqueue exists, enqueueing any record under its tenant and
      key changes nothing, whatever happened in between: the first row stays, in the state
      the relays brought it to. */
  lemma {:induction false} RepeatedEnqueueIsNoOp(now: int, window: nat, before: seq<Step>, first: OutboxRecord,
                                                 after: seq<Step>,
                                                 again: OutboxRecord, guarded: bool)
    requires var s := Run(Init(now, window), before);
             Publishable(first) && !Conflicts(s.rows, first)
             && Present(Run(Init(now, window), before + [Enqueue(first, true)] + after), s.next)
    requires again.tenant == first.tenant && again.key == first.key
    ensures var s := Run(Init(now, window), before + [Enqueue(first, true)] + after);
            Next(s, Enqueue(again, guarded)) == s && first.id in s.rows && SameIdentity(s.rows[first.id], first)
  {
    hide Run, Publishable;
    var s0, mid := Init(now, window), before + [Enqueue(first, true)];
    Staging(s0, before, first);
    RunConcat(s0, mid, after);
    Reachable(now, window, before);
    Reachable(now, window, mid);
    Reachable(now, window, mid + after);
    var t := Run(s0, before).next;
    TicketsStay(Run(s0, mid), after, t);
    var s := Run(s0, mid + after);
    assert EntryOk(s, t);
    assert s.rows[first.id].tenant == again.tenant && s.rows[first.id].key == again.key;
  }

  lemma {:induction false} Staging(s0: State, before: seq<Step>, first: OutboxRecord)
    requires Publishable(first) && !Conflicts(Run(s0, before).rows, first)
    ensures var s, t := Run(s0, before + [Enqueue(first, true)]), Run(s0, before).next;
            t in s.ledger && s.ledger[t].rec == first
  {
    hide Publishable, Conflicts;
    assert (before + [Enqueue(first, true)])[..|before|] == before;
  }
}
