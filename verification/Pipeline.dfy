/** Any number of relays over one outbox table and one broker, as a transition system.
    Each step is one SQL statement, one broker call, one clock tick or one crash; a relay
    can stall, lose its lease or die between any two of them (src/db.rs). */
module Pipeline {
  import opened Wrappers
  import opened Outbox
  import opened OutboxTable

  /** Where a batch stands in `drain_claimed` and around it. */
  datatype Pc =
    | AtRow                  // about to guard the head of the queue
    | Offering               // lease seen alive, about to call the broker
    | Marking                // the broker acknowledged
    | Failing(error: string) // the broker call failed
    | Releasing              // failure recorded, about to release the rest
    | Erring                 // a statement failed, about to release and report
    | Finished(ok: bool)
    | Crashed

  /** A claimed record and the admission it belongs to. */
  datatype Item = Item(rec: OutboxRecord, ticket: nat)

  /** One batch: a relay draws a fresh owner id for each. */
  datatype Worker = Worker(pc: Pc, queue: seq<Item>, maxAttempts: int, ttl: int, claimedAt: int) {
    predicate Draining() { !pc.Erring? && !pc.Finished? && !pc.Crashed? }
    predicate Expired(now: int) { claimedAt + ttl <= now }
  }

  /** A message the stream stored. Only id and time matter to the broker; `owner` and `ticket`
      are history: the batch that offered it, and the admission it belongs to. */
  datatype Copy = Copy(dedupId: string, at: int, owner: Uuid, ticket: nat)

  /** What the run did to one accepted enqueue. History only: no step depends on it. */
  datatype Entry = Entry(
    rec: OutboxRecord,
    claimedBy: set<Uuid>,
    releasedBy: set<Uuid>,
    offeredBy: set<Uuid>,
    offers: nat,
    marks: nat,
    acked: bool,
    rescheduledAt: Option<int>,
    purged: bool)

  datatype State = State(
    rows: Rows,
    now: int,
    window: nat,
    workers: map<Uuid, Worker>,
    copies: seq<Copy>,
    tickets: map<Uuid, nat>,
    ledger: map<nat, Entry>,
    next: nat)

  /** A broker call stores (or deduplicates) the message or not; without an acknowledgement
      the relay sees an error either way. */
  datatype Answer = Acked | Unacked(stored: bool, error: string)

  datatype Step =
    | Enqueue(rec: OutboxRecord, guarded: bool)
    | Tick(ms: nat)
    | PurgePublished(age: int)
    | ClaimBatch(owner: Uuid, ids: seq<Uuid>, limit: int, ttl: int, maxAttempts: int, db: Db)
    | Advance(owner: Uuid, answer: Answer, db: Db)
    | Crash(owner: Uuid)

  function Init(now: int, window: nat): State {
    State(map[], now, window, map[], [], map[], map[], 0)
  }

  // ---- History --------------------------------------------------------------------

  /** The admission `t` still has its row. */
  predicate Present(s: State, t: nat) {
    t in s.ledger && var id := s.ledger[t].rec.id; id in s.tickets && s.tickets[id] == t && id in s.rows
  }

  function RowOf(s: State, t: nat): Row
    requires Present(s, t)
  {
    s.rows[s.ledger[t].rec.id]
  }

  function Noted(st: Stmt, e: Entry, now: int): Entry {
    match st
    case Claim(_, owner, _) => e.(claimedBy := e.claimedBy + {owner})
    case MarkPublished(_, _, _) => e.(marks := e.marks + 1)
    case MarkFailed(_, _, _) => e
    case Reschedule(_, _, _) => e.(rescheduledAt := Some(now))
    case Release(owner) => e.(releasedBy := e.releasedBy + {owner})
  }

  /** Run one statement against the table, and note it for every row it selected. */
  function Execute(s: State, st: Stmt): State {
    s.(rows := Effect(st, s.rows, s.now),
       ledger := map t | t in s.ledger ::
         if Present(s, t) && Selects(st, s.ledger[t].rec.id, RowOf(s, t), s.now) then Noted(st, s.ledger[t], s.now)
         else s.ledger[t])
  }

  // ---- Broker ---------------------------------------------------------------------

  predicate Stores(copies: seq<Copy>, dedupId: string, now: int, window: nat) {
    forall i | 0 <= i < |copies| :: copies[i].dedupId == dedupId ==> window <= now - copies[i].at
  }

  /** A message reaching the stream is stored unless its dedup id was stored less than a
      window ago. */
  function Deposit(copies: seq<Copy>, c: Copy, window: nat): seq<Copy> {
    if Stores(copies, c.dedupId, c.at, window) then copies + [c] else copies
  }

  // ---- Steps ----------------------------------------------------------------------

  function SetWorker(s: State, o: Uuid, w: Worker): State { s.(workers := s.workers[o := w]) }

  function DoEnqueue(s: State, rec: OutboxRecord, guarded: bool): State {
    if (guarded && !Publishable(rec)) || Conflicts(s.rows, rec) then s
    else s.(rows := Insert(s.rows, rec, s.now),
            tickets := s.tickets[rec.id := s.next],
            ledger := s.ledger[s.next := Entry(rec, {}, {}, {}, 0, 0, false, None, false)],
            next := s.next + 1)
  }

  function DoPurge(s: State, age: int): State {
    if age <= 0 then s
    else
      var rows := Purge(s.rows, s.now, age);
      s.(rows := rows,
         tickets := map id | id in s.tickets && id in rows :: s.tickets[id],
         ledger := map t | t in s.ledger ::
           if Present(s, t) && s.ledger[t].rec.id !in rows then s.ledger[t].(purged := true) else s.ledger[t])
  }

  function TicketOf(s: State, id: Uuid): nat { if id in s.tickets then s.tickets[id] else 0 }

  predicate CanClaim(s: State, o: Uuid, ids: seq<Uuid>, limit: int, ttl: int) {
    o !in s.workers && 0 < limit && 0 < ttl && ClaimChoice(s.rows, ids, s.now, limit)
  }

  function DoClaim(s: State, o: Uuid, ids: seq<Uuid>, limit: int, ttl: int, maxAttempts: int, db: Db): State {
    if !CanClaim(s, o, ids, limit, ttl) || db.FailedBefore? then s
    else
      var s' := Execute(s, Claim(ids, o, ttl));
      var queue := seq(|ids|,
          i requires 0 <= i < |ids| => Item(Returned(ids[i], s'.rows[ids[i]]), TicketOf(s, ids[i])));
      SetWorker(s', o, Worker(if db.Fine? then AtRow else Finished(false), queue, maxAttempts, ttl, s.now))
  }

  /** The statement a batch runs at this point, if it runs one. */
  function Pending(w: Worker, o: Uuid, now: int): Option<Stmt> {
    match w.pc
    case AtRow =>
      if w.queue == [] || Publishable(w.queue[0].rec) then None
      else var rec := w.queue[0].rec; Some(MarkFailed(rec.id, o, ErrorText(Prepare(rec.subject, rec.payload).error)))
    case Marking => if w.queue == [] then None else Some(MarkPublished(w.queue[0].rec.id, o, now))
    case Failing(error) => if w.queue == [] then None else Some(FailureStmt(w.maxAttempts, o, w.queue[0].rec, error))
    case Releasing => Some(Release(o))
    case Erring => Some(Release(o))
    case _ => None
  }

  /** The control flow of `drain_claimed` and `publish_batch`: where the batch goes next,
      `held` being what `claim_still_held` reads for the head of the queue. */
  function Moved(w: Worker, held: bool, answer: Answer, db: Db): Worker {
    match w.pc
    case AtRow =>
      if w.queue == [] then w.(pc := Finished(true))
      else if !db.Fine? then w.(pc := Erring)
      else if !Publishable(w.queue[0].rec) then w.(queue := w.queue[1..])
      else w.(pc := if held then Offering else Finished(true))
    case Offering => if w.queue == [] then w else w.(pc := if answer.Acked? then Marking else Failing(answer.error))
    case Marking =>
      if w.queue == [] then w else if !db.Fine? then w.(pc := Erring) else w.(pc := AtRow, queue := w.queue[1..])
    case Failing(_) =>
      if w.queue == [] then w else if !db.Fine? then w.(pc := Erring) else w.(pc := Releasing, queue := w.queue[1..])
    case Releasing => w.(pc := if db.Fine? then Finished(true) else Erring)
    case Erring => w.(pc := Finished(false))
    case _ => w
  }

  /** The broker call for the head of the queue. */
  function Offer(s: State, o: Uuid, item: Item, answer: Answer): State {
    s.(copies :=
         if answer.Acked? || answer.stored
         then Deposit(s.copies, Copy(item.rec.dedupId, s.now, o, item.ticket), s.window) else s.copies,
       ledger := if item.ticket !in s.ledger then s.ledger else
         var e := s.ledger[item.ticket];
         s.ledger[item.ticket := e.(offeredBy := e.offeredBy + {o}, offers := e.offers + 1,
             acked := e.acked || answer.Acked?)])
  }

  /** What the batch does to the table and the broker at this point. */
  function Acted(s: State, o: Uuid, w: Worker, answer: Answer, db: Db): State {
    match Pending(w, o, s.now)
    case Some(st) => if db.FailedBefore? then s else Execute(s, st)
    case None => if w.pc.Offering? && w.queue != [] then Offer(s, o, w.queue[0], answer) else s
  }

  predicate HeadHeld(s: State, o: Uuid, w: Worker) { w.queue != [] && StillHeld(s.rows, w.queue[0].rec.id, o, s.now) }

  function DoAdvance(s: State, o: Uuid, answer: Answer, db: Db): State {
    if o !in s.workers then s
    else
      var w := s.workers[o];
      SetWorker(Acted(s, o, w, answer, db), o, Moved(w, HeadHeld(s, o, w), answer, db))
  }

  function Next(s: State, step: Step): State {
    match step
    case Enqueue(rec, guarded) => DoEnqueue(s, rec, guarded)
    case Tick(ms) => s.(now := s.now + ms)
    case PurgePublished(age) => DoPurge(s, age)
    case ClaimBatch(o, ids, limit, ttl, maxAttempts, db) =>
      DoClaim(s, o, ids, limit, ttl, maxAttempts, db)
    case Advance(o, answer, db) => DoAdvance(s, o, answer, db)
    case Crash(o) =>
      if o in s.workers && !s.workers[o].pc.Finished? then SetWorker(s, o, s.workers[o].(pc := Crashed)) else s
  }

  /** A run is any list of steps; a step that is not enabled leaves the state alone. */
  function Run(s: State, steps: seq<Step>): State {
    if steps == [] then s else Next(Run(s, steps[..|steps| - 1]), steps[|steps| - 1])
  }

  lemma {:induction false} RunConcat(s: State, a: seq<Step>, b: seq<Step>)
    ensures Run(s, a + b) == Run(Run(s, a), b)
  {
    if b == [] {
      assert a + b == a;
    } else {
      RunConcat(s, a, b[..|b| - 1]);
      assert (a + b)[..|a + b| - 1] == a + b[..|b| - 1];
    }
  }
}
