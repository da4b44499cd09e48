/** One relay's batch as the source runs it (src/db.rs): claim, drain row by row, release.
    Ids, the clock, the fate of each database call and the broker's answers are inputs. */
module Drainer {
  import opened Wrappers
  import opened Outbox
  import opened OutboxTable

  /** What a publish carries in its `Nats-Msg-Id` header. */
  datatype MsgId = Digest(text: string) | MessageId(id: Uuid)

  datatype Call = Call(subject: string, msgId: MsgId, body: seq<byte>)

  /** A broker call with its header set aside. */
  datatype Wire = Wire(subject: string, body: seq<byte>)

  function Wires(calls: seq<Call>): (w: seq<Wire>)
    ensures |w| == |calls|
  {
    seq(|calls|, i requires 0 <= i < |calls| => Wire(calls[i].subject, calls[i].body))
  }

  /** The surroundings of a batch: how long the clock moves before the n-th database call,
      what becomes of that call, and what the broker says to a history of calls (an error
      text, or nothing for an acknowledgement). */
  datatype Env = Env(delay: nat -> nat, fate: nat -> Db, answer: seq<Wire> -> Option<string>)

  datatype World = World(rows: Rows, now: int, ops: nat, calls: seq<Call>)

  datatype Config = Config(batchSize: int, maxAttempts: int, claimTtl: int)

  // ---- Calls ----------------------------------------------------------------------

  function CallTime(env: Env, w: World): int { w.now + env.delay(w.ops) }

  function Executed(env: Env, w: World, st: Stmt): (World, Result<nat, MessagingError>) {
    var now, db := CallTime(env, w), env.fate(w.ops);
    var rows := if db.FailedBefore? then w.rows else Effect(st, w.rows, now);
    (World(rows, now, w.ops + 1, w.calls),
     if db.Fine? then Success(RowsAffected(st, w.rows, now)) else Failure(Database))
  }

  function Checked(env: Env, w: World, id: Uuid, owner: Uuid): (World, Result<bool, MessagingError>) {
    var now, db := CallTime(env, w), env.fate(w.ops);
    (World(w.rows, now, w.ops + 1, w.calls),
     if db.Fine? then Success(StillHeld(w.rows, id, owner, now)) else Failure(Database))
  }

  function Called(env: Env, w: World, call: Call): (World, Result<(), MessagingError>) {
    var calls := w.calls + [call];
    (w.(calls := calls),
     match env.answer(Wires(calls)) case None => Success(()) case Some(text) => Failure(Transport(text)))
  }

  // ---- The batch as a function ----------------------------------------------------

  function CallFor(rec: OutboxRecord, body: seq<byte>): Call { Call(rec.subject, Digest(rec.dedupId), body) }

  function Drained(env: Env, w: World, max: int, owner: Uuid, queue: seq<OutboxRecord>, published: nat)
    : (World, Result<nat, MessagingError>)
    decreases |queue|
  {
    if queue == [] then (w, Success(published))
    else match Prepare(queue[0].subject, queue[0].payload)
      case Failure(defect) =>
        var (w1, parked) := Executed(env, w, MarkFailed(queue[0].id, owner, ErrorText(defect)));
        if parked.Failure? then (w1, parked) else Drained(env, w1, max, owner, queue[1..], published)
      case Success(body) =>
        var (w1, held) := Checked(env, w, queue[0].id, owner);
        if held.Failure? then (w1, Failure(held.error))
        else if !held.value then (w1, Success(published))
        else Offered(env, w1, max, owner, queue, published, body)
  }

  function Offered(env: Env, w: World, max: int, owner: Uuid, queue: seq<OutboxRecord>, published: nat, body: seq<byte>)
    : (World, Result<nat, MessagingError>)
    requires queue != []
    decreases |queue|, 0
  {
    var (w1, answer) := Called(env, w, CallFor(queue[0], body));
    match answer
    case Success(_) =>
      var (w2, marked) := Executed(env, w1, MarkPublished(queue[0].id, owner, CallTime(env, w1)));
      if marked.Failure? then (w2, marked)
      else Drained(env, w2, max, owner, queue[1..], published + if marked.value == 1 then 1 else 0)
    case Failure(error) =>
      var (w2, recorded) := Executed(env, w1, FailureStmt(max, owner, queue[0], ErrorText(error)));
      if recorded.Failure? then (w2, recorded)
      else
        var (w3, released) := Executed(env, w2, Release(owner));
        if released.Failure? then (w3, released) else (w3, Success(published))
  }

  function Records(rows: Rows, ids: seq<Uuid>): seq<OutboxRecord>
    requires forall i | 0 <= i < |ids| :: ids[i] in rows
  {
    seq(|ids|, i requires 0 <= i < |ids| => Returned(ids[i], rows[ids[i]]))
  }

  function BatchPublished(env: Env, w: World, cfg: Config, owner: Uuid, pick: seq<Uuid>)
    : (World, Result<nat, MessagingError>)
    requires forall i | 0 <= i < |pick| :: pick[i] in w.rows
  {
    if cfg.batchSize <= 0 || cfg.claimTtl <= 0 then (w, Failure(Database))
    else
      var (w1, claimed) := Executed(env, w, Claim(pick, owner, cfg.claimTtl));
      if claimed.Failure? then (w1, claimed)
      else
        var (w2, drained) := Drained(env, w1, cfg.maxAttempts, owner, Records(w1.rows, pick), 0);
        if drained.Success? then (w2, drained) else (Executed(env, w2, Release(owner)).0, drained)
  }

  // ---- The source's own loop ------------------------------------------------------

  predicate HeldBy(r: Row, owner: Uuid) { r.owner == Some(owner) && r.status.Pending? }

  class OutboxPublisher {
    const env: Env
    const cfg: Config
    var rows: Rows
    var now: int
    var ops: nat
    var calls: seq<Call>

    function View(): World
      reads this
    {
      World(rows, now, ops, calls)
    }

    constructor (env: Env, cfg: Config, rows: Rows, now: int)
      ensures this.env == env && this.cfg == cfg && View() == World(rows, now, 0, [])
    {
      this.env, this.cfg, this.rows, this.now := env, cfg, rows, now;
      ops, calls := 0, [];
    }

    method Execute(st: Stmt) returns (r: Result<nat, MessagingError>)
      modifies this
      ensures (View(), r) == Executed(env, old(View()), st)
    {
      now := now + env.delay(ops);
      var db := env.fate(ops);
      ops := ops + 1;
      if db.Fine? {
        r := Success(RowsAffected(st, rows, now));
      } else {
        r := Failure(Database);
      }
      if !db.FailedBefore? {
        rows := Effect(st, rows, now);
      }
    }

    method ClaimStillHeld(id: Uuid, owner: Uuid) returns (r: Result<bool, MessagingError>)
      modifies this
      ensures (View(), r) == Checked(env, old(View()), id, owner)
      ensures rows == old(rows) && calls == old(calls)
      ensures r.Success? ==> (r.value <==> id in rows && rows[id].owner == Some(owner) && rows[id].expiresAt.Some?
                                           && now < rows[id].expiresAt.value)
    {
      now := now + env.delay(ops);
      var db := env.fate(ops);
      ops := ops + 1;
      r := if db.Fine? then Success(StillHeld(rows, id, owner, now)) else Failure(Database);
    }

    method Publish(call: Call) returns (r: Result<(), MessagingError>)
      modifies this`calls
      ensures (View(), r) == Called(env, old(View()), call)
    {
      calls := calls + [call];
      match env.answer(Wires(calls)) {
        case None => r := Success(());
        case Some(text) => r := Failure(Transport(text));
      }
    }

    /** `record_failure`: park the row once its attempts are used up, else back off. */
    method RecordFailure(rec: OutboxRecord, owner: Uuid, error: string) returns (r: Result<nat, MessagingError>)
      modifies this
      ensures (View(), r) == Executed(env, old(View()), FailureStmt(cfg.maxAttempts, owner, rec, error))
      ensures r.Success? && rec.id in rows && HeldBy(old(rows)[rec.id], owner) ==>
                var row := rows[rec.id];
                && row.owner.None? && row.expiresAt.None? && row.lastError == Some(error)
                && row.attempts == old(rows)[rec.id].attempts
                && (if rec.attempts >= cfg.maxAttempts then row.status.Failed?
                    else row.status.Pending? && now + 1000 <= row.availableAt <= now + 256_000)
      ensures forall id | id in rows && id != rec.id :: id in old(rows) && rows[id] == old(rows)[id]
    {
      if rec.id in rows { BackoffBounds(rows[rec.id].attempts); }
      if rec.attempts >= cfg.maxAttempts {
        r := Execute(MarkFailed(rec.id, owner, error));
      } else {
        r := Execute(Reschedule(rec.id, owner, error));
      }
    }

    method DrainClaimed(queue: seq<OutboxRecord>, owner: Uuid) returns (r: Result<nat, MessagingError>)
      modifies this
      ensures (View(), r) == Drained(env, old(View()), cfg.maxAttempts, owner, queue, 0)
    {
      hide Prepare, ErrorText, Executed, Checked, Called, FailureStmt;
      var published: nat := 0;
      var i := 0;
      while i < |queue|
        invariant 0 <= i <= |queue|
        invariant Drained(env, old(View()), cfg.maxAttempts, owner, queue, 0)
               == Drained(env, View(), cfg.maxAttempts, owner, queue[i..], published)
      {
        var rec := queue[i];
        assert queue[i..][0] == rec && queue[i..][1..] == queue[i + 1..];
        i := i + 1;
        match Prepare(rec.subject, rec.payload) {
          case Failure(defect) =>
            var parked := Execute(MarkFailed(rec.id, owner, ErrorText(defect)));
            if parked.Failure? {
              return Failure(parked.error);
            }
          case Success(body) =>
            var held := ClaimStillHeld(rec.id, owner);
            if held.Failure? {
              return Failure(held.error);
            }
            if !held.value {
              return Success(published);
            }
            var answer := Publish(CallFor(rec, body));
            match answer {
              case Success(_) =>
                var marked := Execute(MarkPublished(rec.id, owner, now + env.delay(ops)));
                if marked.Failure? {
                  return Failure(marked.error);
                }
                if marked.value == 1 {
                  published := published + 1;
                }
              case Failure(error) =>
                var recorded := RecordFailure(rec, owner, ErrorText(error));
                if recorded.Failure? {
                  return Failure(recorded.error);
                }
                var released := Execute(Release(owner));
                if released.Failure? {
                  return Failure(released.error);
                }
                return Success(published);
            }
        }
      }
      r := Success(published);
    }

    /** `owner` is the batch's fresh id and `pick` the rows the claiming subquery chose. */
    method PublishBatch(owner: Uuid, pick: seq<Uuid>) returns (r: Result<nat, MessagingError>)
      requires ClaimChoice(rows, pick, CallTime(env, View()), Max(cfg.batchSize, 0))
      modifies this
      ensures (View(), r) == BatchPublished(env, old(View()), cfg, owner, pick)
    {
      if cfg.batchSize <= 0 || cfg.claimTtl <= 0 {
        return Failure(Database);
      }
      var claimed := Execute(Claim(pick, owner, cfg.claimTtl));
      if claimed.Failure? {
        return claimed;
      }
      r := DrainClaimed(Records(rows, pick), owner);
      if r.Failure? {
        var _ := Execute(Release(owner));
      }
    }
  }
}
