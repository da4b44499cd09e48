/** Batches that meet database errors and lost leases: what `publish_batch` gives back and what
    it leaves alone. */
module DrainerFaults {
  import opened Wrappers
  import opened Outbox
  import opened OutboxTable
  import opened Drainer
  import opened DrainerTheorems

  predicate OwnedIsPending(rows: Rows, owner: Uuid) {
    forall id | id in rows :: rows[id].owner == Some(owner) ==> rows[id].status.Pending?
  }

  /** Statements on the owner's own rows leave no owned row that is not pending. */
  lemma {:induction false} StatementKeepsPending(env: Env, w: World, st: Stmt, owner: Uuid)
    requires OwnedIsPending(w.rows, owner) && !st.Claim?
    ensures OwnedIsPending(Executed(env, w, st).0.rows, owner)
  {
    hide Backoff;
  }

  /** A drain fails with the database call that failed, its last one. */
  lemma {:induction false} FailedCallIsLast(env: Env, w: World, max: int, owner: Uuid, queue: seq<OutboxRecord>,
                                            published: nat)
    requires OwnedIsPending(w.rows, owner)
    ensures var (w', r) := Drained(env, w, max, owner, queue, published);
            && OwnedIsPending(w'.rows, owner) && w.ops <= w'.ops
            && (r.Failure? ==> w.ops < w'.ops && !env.fate(w'.ops - 1).Fine?)
    decreases |queue|, 1
  {
    hide Prepare, ErrorText, OwnedIsPending, Effect, FailureStmt, RowsAffected, StillHeld, Offered, Wires;
    if queue != [] {
      match Prepare(queue[0].subject, queue[0].payload)
      case Failure(defect) =>
        var st := MarkFailed(queue[0].id, owner, ErrorText(defect));
        StatementKeepsPending(env, w, st, owner);
        FailedCallIsLast(env, Executed(env, w, st).0, max, owner, queue[1..], published);
      case Success(body) =>
        FailedOfferIsLast(env, Checked(env, w, queue[0].id, owner).0, max, owner, queue, published, body);
    }
  }

  lemma {:induction false} FailedOfferIsLast(env: Env, w: World, max: int, owner: Uuid, queue: seq<OutboxRecord>,
                                             published: nat, body: seq<byte>)
    requires OwnedIsPending(w.rows, owner) && queue != []
    ensures var (w', r) := Offered(env, w, max, owner, queue, published, body);
            && OwnedIsPending(w'.rows, owner) && w.ops <= w'.ops
            && (r.Failure? ==> w.ops < w'.ops && !env.fate(w'.ops - 1).Fine?)
    decreases |queue|, 0
  {
    hide Prepare, ErrorText, OwnedIsPending, Effect, RowsAffected, StillHeld, Drained, Wires;
    var (w1, answer) := Called(env, w, CallFor(queue[0], body));
    match answer
    case Success(_) =>
      var st := MarkPublished(queue[0].id, owner, CallTime(env, w1));
      StatementKeepsPending(env, w1, st, owner);
      var (w2, marked) := Executed(env, w1, st);
      if marked.Success? {
        FailedCallIsLast(env, w2, max, owner, queue[1..], published + if marked.value == 1 then 1 else 0);
      }
    case Failure(error) =>
      var st := FailureStmt(max, owner, queue[0], ErrorText(error));
      StatementKeepsPending(env, w1, st, owner);
      StatementKeepsPending(env, Executed(env, w1, st).0, Release(owner), owner);
  }

  /** After its claim was granted, a batch that reports an error has released: its last database
      call is the release, run after the one that failed, and unless that call too never took
      effect the batch is left without a row. */
  lemma {:induction false} ReleaseFollowsError(env: Env, cfg: Config, w: World, owner: Uuid, pick: seq<Uuid>)
    requires 0 < cfg.batchSize && 0 < cfg.claimTtl && env.fate(w.ops).Fine?
    requires Fresh(w.rows, owner) && ClaimChoice(w.rows, pick, CallTime(env, w), cfg.batchSize)
    ensures var (w', r) := BatchPublished(env, w, cfg, owner, pick);
            r.Failure? ==>
              && w.ops + 3 <= w'.ops && !env.fate(w'.ops - 2).Fine?
              && (env.fate(w'.ops - 1).FailedBefore? || forall id | id in w'.rows :: w'.rows[id].owner != Some(owner))
  {
    hide Drained;
    var w1 := Claimed(env, cfg, w, owner, pick);
    FailedCallIsLast(env, w1, cfg.maxAttempts, owner, Records(w1.rows, pick), 0);
  }

  /** Every database call is fine but one, whatever becomes of that one. */
  ghost predicate OneFault(env: Env, n: nat) { forall k {:trigger env.fate(k)} :: k != n ==> env.fate(k).Fine? }

  /** So a single database error, at any call after the claim and in either way, strands nothing:
      the batch that reports it holds no row any more. */
  lemma {:induction false} OneFaultStrandsNothing(env: Env, cfg: Config, w: World, owner: Uuid, pick: seq<Uuid>, n: nat)
    requires 0 < cfg.batchSize && 0 < cfg.claimTtl && OneFault(env, n) && w.ops < n
    requires Fresh(w.rows, owner) && ClaimChoice(w.rows, pick, CallTime(env, w), cfg.batchSize)
    ensures var (w', r) := BatchPublished(env, w, cfg, owner, pick);
            r.Failure? ==> forall id | id in w'.rows :: w'.rows[id].owner != Some(owner)
  {
    hide BatchPublished;
    ReleaseFollowsError(env, cfg, w, owner, pick);
    var (w', r) := BatchPublished(env, w, cfg, owner, pick);
    if r.Failure? {
      assert w'.ops - 2 == n;
    }
  }

  // ---- The reported count -----------------------------------------------------------------

  function NewlyPublished(a: Rows, b: Rows): set<Uuid> {
    set id | id in a && id in b && !a[id].status.Published? && b[id].status.Published?
  }

  /** One statement publishes at most the row it marks, and then it counts one. */
  lemma {:induction false} StatementPublishes(env: Env, w: World, st: Stmt, owner: Uuid)
    requires OwnedIsPending(w.rows, owner) && !st.Claim? && st.owner == owner
    ensures var (w', r) := Executed(env, w, st);
            && w'.rows.Keys == w.rows.Keys
            && (forall id | id in w.rows && w.rows[id].status.Published? :: w'.rows[id].status.Published?)
            && (r.Success? ==> |NewlyPublished(w.rows, w'.rows)| == if st.MarkPublished? && r.value == 1 then 1 else 0)
  {
    hide Backoff;
    var (w', r) := Executed(env, w, st);
    var now := CallTime(env, w);
    if st.MarkPublished? && r.Success? {
      var hit := set id | id in w.rows && Selects(st, id, w.rows[id], now);
      assert hit == if st.id in w.rows && w.rows[st.id].owner == Some(owner) then {st.id} else {};
      assert NewlyPublished(w.rows, w'.rows) == hit;
    } else if r.Success? {
      assert NewlyPublished(w.rows, w'.rows) == {};
    }
  }

  lemma {:induction false} PublishedAdds(a: Rows, b: Rows, c: Rows)
    requires a.Keys == b.Keys == c.Keys
    requires forall id | id in a && a[id].status.Published? :: b[id].status.Published?
    requires forall id | id in b && b[id].status.Published? :: c[id].status.Published?
    ensures |NewlyPublished(a, c)| == |NewlyPublished(a, b)| + |NewlyPublished(b, c)|
  {
    assert NewlyPublished(a, c) == NewlyPublished(a, b) + NewlyPublished(b, c);
    assert NewlyPublished(a, b) !! NewlyPublished(b, c);
  }

  ghost predicate Counts(w: World, w': World, r: Result<nat, MessagingError>, published: nat) {
    && w'.rows.Keys == w.rows.Keys
    && (forall id | id in w.rows && w.rows[id].status.Published? :: w'.rows[id].status.Published?)
    && (r.Success? ==> r.value == published + |NewlyPublished(w.rows, w'.rows)|)
  }

  lemma {:induction false} NonePublished(w: World, w': World, n: nat)
    requires w'.rows == w.rows
    ensures Counts(w, w', Success(n), n)
  {
    assert NewlyPublished(w.rows, w.rows) == {};
  }

  lemma {:induction false} CountsChain(w: World, w1: World, w': World, r: Result<nat, MessagingError>, a: nat, b: nat)
    requires Counts(w, w1, Success(b), a) && Counts(w1, w', r, b)
    ensures Counts(w, w', r, a)
  {
    PublishedAdds(w.rows, w1.rows, w'.rows);
  }

  /** What a batch reports is how many rows it published: a mark that found its row gone to
      another owner does not count, whatever rows the owner holds and whichever calls fail. */
  lemma {:induction false} CountIsPublished(env: Env, w: World, max: int, owner: Uuid, queue: seq<OutboxRecord>,
                                            published: nat)
    requires OwnedIsPending(w.rows, owner)
    ensures var (w', r) := Drained(env, w, max, owner, queue, published); Counts(w, w', r, published)
    decreases |queue|, 1
  {
    hide Prepare, ErrorText, OwnedIsPending, Effect, FailureStmt, StillHeld, Offered, Wires, Counts;
    if queue == [] {
      NonePublished(w, w, published);
    } else {
      match Prepare(queue[0].subject, queue[0].payload)
      case Failure(defect) =>
        var st := MarkFailed(queue[0].id, owner, ErrorText(defect));
        StatementKeepsPending(env, w, st, owner);
        var (w1, parked) := Executed(env, w, st);
        StatementCounts(env, w, st, owner, published);
        if parked.Success? {
          CountIsPublished(env, w1, max, owner, queue[1..], published);
          var (w', r) := Drained(env, w1, max, owner, queue[1..], published);
          CountsChain(w, w1, w', r, published, published);
        }
      case Success(body) =>
        var (w1, held) := Checked(env, w, queue[0].id, owner);
        NonePublished(w, w1, published);
        CountsNothing(w, w1, held);
        if held.Success? && held.value {
          OfferCounts(env, w1, max, owner, queue, published, body);
          var (w', r) := Offered(env, w1, max, owner, queue, published, body);
          CountsChain(w, w1, w', r, published, published);
        }
    }
  }

  lemma {:induction false} CountsNothing(w: World, w1: World, held: Result<bool, MessagingError>)
    requires w1.rows == w.rows
    ensures held.Failure? ==> forall n :: Counts(w, w1, Failure(held.error), n)
  {
  }

  lemma {:induction false} StatementCounts(env: Env, w: World, st: Stmt, owner: Uuid, published: nat)
    requires OwnedIsPending(w.rows, owner) && !st.Claim? && st.owner == owner
    ensures var (w1, r) := Executed(env, w, st);
            if r.Success?
            then Counts(w, w1, Success(published + if st.MarkPublished? && r.value == 1 then 1 else 0), published)
            else Counts(w, w1, r, published)
  {
    hide Effect, OwnedIsPending;
    StatementPublishes(env, w, st, owner);
  }

  lemma {:induction false} OfferCounts(env: Env, w: World, max: int, owner: Uuid, queue: seq<OutboxRecord>,
                                       published: nat, body: seq<byte>)
    requires OwnedIsPending(w.rows, owner) && queue != []
    ensures var (w', r) := Offered(env, w, max, owner, queue, published, body); Counts(w, w', r, published)
    decreases |queue|, 0
  {
    hide Prepare, ErrorText, OwnedIsPending, Effect, StillHeld, Drained, Wires, Counts;
    var (w1, answer) := Called(env, w, CallFor(queue[0], body));
    NonePublished(w, w1, published);
    match answer
    case Success(_) =>
      var st := MarkPublished(queue[0].id, owner, CallTime(env, w1));
      StatementKeepsPending(env, w1, st, owner);
      var (w2, marked) := Executed(env, w1, st);
      StatementCounts(env, w1, st, owner, published);
      if marked.Success? {
        var n := published + if marked.value == 1 then 1 else 0;
        CountIsPublished(env, w2, max, owner, queue[1..], n);
        var (w', r) := Drained(env, w2, max, owner, queue[1..], n);
        CountsChain(w1, w2, w', r, published, n);
        CountsChain(w, w1, w', r, published, published);
      } else {
        CountsChain(w, w1, w2, marked, published, published);
      }
    case Failure(error) =>
      var st := FailureStmt(max, owner, queue[0], ErrorText(error));
      StatementKeepsPending(env, w1, st, owner);
      var (w2, recorded) := Executed(env, w1, st);
      StatementCounts(env, w1, st, owner, published);
      if recorded.Success? {
        var (w3, released) := Executed(env, w2, Release(owner));
        StatementCounts(env, w2, Release(owner), owner, published);
        var r := if released.Failure? then released else Success(published);
        CountsChain(w1, w2, w3, r, published, published);
        CountsChain(w, w1, w3, r, published, published);
      } else {
        CountsChain(w, w1, w2, recorded, published, published);
      }
  }

  // ---- Lost leases ------------------------------------------------------------------------

  /** A batch whose head lost its lease stops there, calls nobody and leaves the table as it is,
      lapsed claims and their attempts included; and it reports success. */
  lemma {:induction false} LostLeaseStops(env: Env, w: World, max: int, owner: Uuid, queue: seq<OutboxRecord>,
                                          published: nat)
    requires queue != [] && Publishable(queue[0]) && env.fate(w.ops).Fine?
    requires var id, now := queue[0].id, w.now + env.delay(w.ops);
             id !in w.rows || w.rows[id].owner != Some(owner) || w.rows[id].expiresAt.None?
             || w.rows[id].expiresAt.value <= now
    ensures var (w', r) := Drained(env, w, max, owner, queue, published);
            r == Success(published) && w'.rows == w.rows && w'.calls == w.calls
  {
  }
}
