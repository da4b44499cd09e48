/** The compatibility service's drainer (src/transactional.rs): lock, publish and mark inside
    one transaction, on its own table. */
module Compat {
  import opened Wrappers
  import opened Outbox
  import opened OutboxTable
  import opened Drainer

  datatype CompatRow = CompatRow(
    subject: string,
    envelope: seq<byte>,
    createdAt: int,
    attempts: nat,
    availableAt: int,
    publishedAt: Option<int>,
    lastError: Option<string>)

  type CompatRows = map<Uuid, CompatRow>

  datatype CompatWorld = CompatWorld(rows: CompatRows, now: int, ops: nat, calls: seq<Call>)

  function CompatBackoff(attempts: nat): int {
    Min(MAX_PUBLISH_BACKOFF, 1000 * Power2(Min(attempts, 8)))
  }

  function Marked(r: CompatRow, now: int): CompatRow {
    r.(publishedAt := Some(now), attempts := r.attempts + 1, lastError := None)
  }

  function Deferred(r: CompatRow, error: string, now: int): CompatRow {
    r.(attempts := r.attempts + 1, lastError := Some(error), availableAt := now + CompatBackoff(r.attempts))
  }

  predicate Due(r: CompatRow, now: int) { r.publishedAt.None? && r.availableAt <= now }

  predicate CompatChoice(rows: CompatRows, ids: seq<Uuid>, now: int, limit: int) {
    && |ids| <= limit
    && (forall i | 0 <= i < |ids| :: ids[i] in rows && Due(rows[ids[i]], now))
    && (forall i, j | 0 <= i < j < |ids| :: ids[i] != ids[j] && rows[ids[i]].createdAt <= rows[ids[j]].createdAt)
  }

  // ---- The batch as a function ----------------------------------------------------

  /** A call of the transaction: `now()` stands still inside it, so only the count moves. */
  function Stepped(w: CompatWorld, rows: CompatRows): CompatWorld { w.(rows := rows, ops := w.ops + 1) }

  /** The loop, on the transaction's own view of the table. */
  function CompatDrained(env: Env, w: CompatWorld, ids: seq<Uuid>, published: nat)
    : (CompatWorld, Result<nat, MessagingError>)
    requires forall i | 0 <= i < |ids| :: ids[i] in w.rows
    decreases |ids|
  {
    if ids == [] then (w, Success(published))
    else
      var id, r := ids[0], w.rows[ids[0]];
      var fine := env.fate(w.ops).Fine?;
      match ValidateCompatPublish(r.subject, |r.envelope|)
      case Failure(defect) =>
        var w1 := Stepped(w, w.rows[id := Deferred(r, ErrorText(defect), w.now)]);
        if !fine then (w1, Failure(Database)) else CompatDrained(env, w1, ids[1..], published)
      case Success(_) =>
        var calls := w.calls + [Call(r.subject, MessageId(id), r.envelope)];
        match env.answer(Wires(calls))
        case None =>
          var w1 := Stepped(w.(calls := calls), w.rows[id := Marked(r, w.now)]);
          if !fine then (w1, Failure(Database)) else CompatDrained(env, w1, ids[1..], published + 1)
        case Some(text) =>
          var w1 := Stepped(w.(calls := calls), w.rows[id := Deferred(r, text, w.now)]);
          if !fine then (w1, Failure(Database)) else (w1, Success(published))
  }

  /** `begin`, the locking select, the loop, `commit`. Any error rolls the table back; what
      the broker was told stays told. */
  function CompatBatch(env: Env, w: CompatWorld, pick: seq<Uuid>): (CompatWorld, Result<nat, MessagingError>)
    requires forall i | 0 <= i < |pick| :: pick[i] in w.rows
  {
    var begun := w.(now := w.now + env.delay(w.ops), ops := w.ops + 1);
    if !env.fate(w.ops).Fine? then (begun, Failure(Database))
    else
      var selected := begun.(ops := begun.ops + 1);
      if !env.fate(begun.ops).Fine? then (selected, Failure(Database))
      else
        var (staged, r) := CompatDrained(env, selected, pick, 0);
        if r.Failure? then (staged.(rows := w.rows), r)
        else
          var commit := env.fate(staged.ops);
          (CompatWorld(if commit.FailedBefore? then w.rows else staged.rows, staged.now, staged.ops + 1, staged.calls),
           if commit.Fine? then r else Failure(Database))
  }

  // ---- The source's own loop ------------------------------------------------------

  class CompatPublisher {
    const env: Env
    const batchSize: int
    var rows: CompatRows
    var now: int
    var ops: nat
    var calls: seq<Call>

    function View(): CompatWorld
      reads this
    {
      CompatWorld(rows, now, ops, calls)
    }

    constructor (env: Env, rows: CompatRows, now: int)
      ensures this.env == env && batchSize == 100 && View() == CompatWorld(rows, now, 0, [])
    {
      this.env, this.rows, this.now := env, rows, now;
      batchSize := 100;
      ops, calls := 0, [];
    }

    method Publish(call: Call) returns (error: Option<string>)
      modifies this`calls
      ensures calls == old(calls) + [call] && error == env.answer(Wires(calls))
    {
      calls := calls + [call];
      error := env.answer(Wires(calls));
    }

    /** One call inside the transaction: only its success is visible. */
    method Call() returns (fine: bool)
      modifies this`ops
      ensures ops == old(ops) + 1 && fine == env.fate(old(ops)).Fine?
    {
      fine := env.fate(ops).Fine?;
      ops := ops + 1;
    }

    /** The loop of the batch, on the transaction's own view of the table. */
    method Drain(pick: seq<Uuid>) returns (staged: CompatRows, r: Result<nat, MessagingError>)
      requires forall i | 0 <= i < |pick| :: pick[i] in rows
      modifies this`ops, this`calls
      ensures (View().(rows := staged), r) == CompatDrained(env, old(View()), pick, 0)
    {
      hide ValidateCompatPublish, ErrorText, Deferred, Marked;
      staged := rows;
      var published: nat := 0;
      var i := 0;
      while i < |pick|
        invariant 0 <= i <= |pick| && staged.Keys == rows.Keys
        invariant CompatDrained(env, old(View()), pick, 0)
               == CompatDrained(env, View().(rows := staged), pick[i..], published)
      {
        var id, row := pick[i], staged[pick[i]];
        assert pick[i..][0] == id && pick[i..][1..] == pick[i + 1..];
        i := i + 1;
        match ValidateCompatPublish(row.subject, |row.envelope|) {
          case Failure(defect) =>
            staged := staged[id := Deferred(row, ErrorText(defect), now)];
            var fine := Call();
            if !fine {
              return staged, Failure(Database);
            }
          case Success(_) =>
            var error := Publish(Drainer.Call.Call(row.subject, MessageId(id), row.envelope));
            match error {
              case None =>
                staged := staged[id := Marked(row, now)];
                var fine := Call();
                if !fine {
                  return staged, Failure(Database);
                }
                published := published + 1;
              case Some(text) =>
                staged := staged[id := Deferred(row, text, now)];
                var fine := Call();
                return staged, if fine then Success(published) else Failure(Database);
            }
        }
      }
      r := Success(published);
    }

    /** `pick` is the choice the locking select makes. */
    method PublishBatch(pick: seq<Uuid>) returns (r: Result<nat, MessagingError>)
      requires CompatChoice(rows, pick, now + env.delay(ops), batchSize)
      modifies this
      ensures (View(), r) == CompatBatch(env, old(View()), pick)
    {
      hide CompatDrained;
      now := now + env.delay(ops);
      var begun := Call();
      if !begun {
        return Failure(Database);
      }
      var selected := Call();
      if !selected {
        return Failure(Database);
      }
      var staged: CompatRows;
      staged, r := Drain(pick);
      if r.Failure? {
        return;
      }
      var commit := env.fate(ops);
      ops := ops + 1;
      if !commit.FailedBefore? {
        rows := staged;
      }
      if !commit.Fine? {
        r := Failure(Database);
      }
    }
  }
}
