/** What one undisturbed batch does, said without running it: a fate for every claimed
    record, read off the records and the broker's answers alone. */
module DrainerOutcome {
  import opened Wrappers
  import opened Outbox
  import opened OutboxTable
  import opened Drainer

  datatype Fate = Parked(defect: string) | Sent | Refused(text: string) | Unreached

  function Fates(answer: seq<Wire> -> Option<string>, wires: seq<Wire>, queue: seq<OutboxRecord>): (f: seq<Fate>)
    ensures |f| == |queue|
    decreases |queue|
  {
    if queue == [] then []
    else match Prepare(queue[0].subject, queue[0].payload)
      case Failure(defect) => [Parked(ErrorText(defect))] + Fates(answer, wires, queue[1..])
      case Success(body) =>
        var after := wires + [Wire(queue[0].subject, body)];
        match answer(after)
        case None => [Sent] + Fates(answer, after, queue[1..])
        case Some(text) => [Refused(ErrorText(Transport(text)))] + seq(|queue| - 1, _ => Unreached)
  }

  function SentCount(fates: seq<Fate>): nat {
    if fates == [] then 0 else (if fates[0].Sent? then 1 else 0) + SentCount(fates[1..])
  }

  function CallsOf(fates: seq<Fate>, queue: seq<OutboxRecord>): seq<Call>
    requires |fates| == |queue|
  {
    if queue == [] then []
    else
      (if fates[0].Sent? || fates[0].Refused? then [CallFor(queue[0], Body(queue[0]))] else [])
      + CallsOf(fates[1..], queue[1..])
  }

  function Body(rec: OutboxRecord): seq<byte> {
    match Prepare(rec.subject, rec.payload) case Success(body) => body case Failure(_) => []
  }

  /** The row a fate leaves, `r` being the row as claimed and `at` the moment of the
      statement that settles it. */
  function SettledRow(fate: Fate, max: int, r: Row, at: int): Row {
    var free := r.(owner := None, expiresAt := None);
    match fate
    case Parked(defect) => free.(status := Failed, lastError := Some(defect))
    case Sent => free.(status := Published, publishedAt := Some(at), lastError := None)
    case Refused(text) =>
      if r.attempts >= max then free.(status := Failed, lastError := Some(text))
      else free.(lastError := Some(text), availableAt := at + 1000 * Power2(Min(Max(r.attempts - 1, 0), 8)))
    case Unreached => free.(attempts := Max(r.attempts - 1, 0))
  }

  predicate Settled(fate: Fate, max: int, r: Row, r': Row, from: int, to: int) {
    exists at | from <= at <= to :: r' == SettledRow(fate, max, r, at)
  }

  ghost predicate NoFaults(env: Env) { forall n {:trigger env.fate(n)} :: env.fate(n).Fine? }

  /** The clock stands still. */
  ghost predicate Still(env: Env) { forall n {:trigger env.delay(n)} :: env.delay(n) == 0 }

  predicate HeldRow(rows: Rows, owner: Uuid, expiry: int, rec: OutboxRecord) {
    && rec.id in rows
    && var r := rows[rec.id];
       r.status.Pending? && 1 <= r.attempts && r.owner == Some(owner) && r.expiresAt == Some(expiry)
           && rec == Returned(rec.id, r)
  }

  predicate InIds(queue: seq<OutboxRecord>, id: Uuid) { exists i | 0 <= i < |queue| :: queue[i].id == id }

  predicate Distinct(queue: seq<OutboxRecord>) { forall i, j | 0 <= i < j < |queue| :: queue[i].id != queue[j].id }

  /** The owner holds exactly the rows of `queue`, under one expiry. */
  ghost predicate Holds(rows: Rows, owner: Uuid, expiry: int, queue: seq<OutboxRecord>) {
    && Distinct(queue)
    && (forall i {:trigger HeldRow(rows, owner, expiry, queue[i])} | 0 <= i < |queue| ::
         HeldRow(rows, owner, expiry, queue[i]))
    && (forall id {:trigger InIds(queue, id)} | id in rows && rows[id].owner == Some(owner) :: InIds(queue, id))
  }

  /** After a statement on the head row alone the owner holds the rest. */
  lemma {:induction false} HeadSettled(rows: Rows, rows': Rows, owner: Uuid, expiry: int, queue: seq<OutboxRecord>)
    requires Holds(rows, owner, expiry, queue) && queue != [] && rows'.Keys == rows.Keys
    requires queue[0].id in rows && rows'[queue[0].id].owner.None?
    requires forall id | id in rows && id != queue[0].id :: rows'[id] == rows[id]
    ensures Holds(rows', owner, expiry, queue[1..])
  {
    forall i | 0 <= i < |queue| - 1 ensures HeldRow(rows', owner, expiry, queue[1..][i]) {
      assert HeldRow(rows, owner, expiry, queue[i + 1]);
    }
    forall id | id in rows' && rows'[id].owner == Some(owner) ensures InIds(queue[1..], id) {
      assert InIds(queue, id);
      var i :| 0 <= i < |queue| && queue[i].id == id;
      assert queue[1..][i - 1].id == id;
    }
  }

  /** The statement that settles the head row, run at its call time. */
  lemma {:induction false} StatementOnHead(env: Env, w: World, owner: Uuid, expiry: int, queue: seq<OutboxRecord>,
                                           st: Stmt)
    requires NoFaults(env) && Holds(w.rows, owner, expiry, queue) && queue != []
    requires st.MarkPublished? || st.MarkFailed? || st.Reschedule?
    requires st.id == queue[0].id && st.owner == owner
    ensures var (w', r) := Executed(env, w, st);
            && queue[0].id in w.rows && w'.rows.Keys == w.rows.Keys
            && w'.now == CallTime(env, w) && w.now <= w'.now && w'.calls == w.calls
            && r == Success(1)
            && w'.rows[queue[0].id] == Rewritten(st, w.rows[queue[0].id], w'.now)
            && (forall id | id in w.rows && id != queue[0].id :: w'.rows[id] == w.rows[id])
            && Holds(w'.rows, owner, expiry, queue[1..])
  {
    assert HeldRow(w.rows, owner, expiry, queue[0]);
    var (w', _) := Executed(env, w, st);
    var hit := set id | id in w.rows && Selects(st, id, w.rows[id], w'.now);
    assert hit == {queue[0].id};
    HeadSettled(w.rows, w'.rows, owner, expiry, queue);
  }

  lemma {:induction false} TimeMovesOn(env: Env, w: World, max: int, owner: Uuid, queue: seq<OutboxRecord>,
                                       published: nat)
    ensures w.now <= Drained(env, w, max, owner, queue, published).0.now
    ensures Still(env) ==> Drained(env, w, max, owner, queue, published).0.now == w.now
    decreases |queue|
  {
    if queue != [] {
      match Prepare(queue[0].subject, queue[0].payload)
      case Failure(defect) =>
        var (w1, parked) := Executed(env, w, MarkFailed(queue[0].id, owner, ErrorText(defect)));
        TimeMovesOn(env, w1, max, owner, queue[1..], published);
      case Success(body) =>
        var (w1, held) := Checked(env, w, queue[0].id, owner);
        OfferedTimeMovesOn(env, w1, max, owner, queue, published, body);
    }
  }

  lemma {:induction false} OfferedTimeMovesOn(env: Env, w: World, max: int, owner: Uuid, queue: seq<OutboxRecord>,
                                              published: nat, body: seq<byte>)
    requires queue != []
    ensures w.now <= Offered(env, w, max, owner, queue, published, body).0.now
    ensures Still(env) ==> Offered(env, w, max, owner, queue, published, body).0.now == w.now
    decreases |queue|, 0
  {
    var (w1, answer) := Called(env, w, CallFor(queue[0], body));
    if answer.Success? {
      var (w2, marked) := Executed(env, w1, MarkPublished(queue[0].id, owner, CallTime(env, w1)));
      if marked.Success? {
        TimeMovesOn(env, w2, max, owner, queue[1..], published + if marked.value == 1 then 1 else 0);
      }
    }
  }

  /** The whole effect of draining `queue` from `w` to `w'`, given everybody's fate. */
  ghost predicate Outcome(w: World, w': World, max: int, queue: seq<OutboxRecord>, fates: seq<Fate>) {
    && |fates| == |queue|
    && w'.rows.Keys == w.rows.Keys && w.now <= w'.now
    && w'.calls == w.calls + CallsOf(fates, queue)
    && RowsSettled(w, w', max, queue, fates)
  }

  predicate RecordSettled(w: World, w': World, max: int, rec: OutboxRecord, fate: Fate) {
    rec.id in w.rows && rec.id in w'.rows && Settled(fate, max, w.rows[rec.id], w'.rows[rec.id], w.now, w'.now)
  }

  lemma {:induction false} WiresAppend(calls: seq<Call>, call: Call)
    ensures Wires(calls + [call]) == Wires(calls) + [Wire(call.subject, call.body)]
  {
  }

  lemma {:induction false} TailIds(queue: seq<OutboxRecord>, id: Uuid)
    requires queue != [] && Distinct(queue)
    ensures InIds(queue[1..], id) <==> InIds(queue, id) && id != queue[0].id
  {
    if InIds(queue[1..], id) {
      var i :| 0 <= i < |queue| - 1 && queue[1..][i].id == id;
      assert queue[i + 1].id == id;
    }
    if InIds(queue, id) && id != queue[0].id {
      var i :| 0 <= i < |queue| && queue[i].id == id;
      assert queue[1..][i - 1].id == id;
    }
  }

  /** `w1` is `w` with the head of the queue settled as `fate` says, after `calls`. */
  ghost predicate HeadDone(w: World, w1: World, max: int, queue: seq<OutboxRecord>, fate: Fate, calls: seq<Call>) {
    && queue != []
    && w1.rows.Keys == w.rows.Keys && w.now <= w1.now && w1.calls == w.calls + calls
    && RecordSettled(w, w1, max, queue[0], fate)
    && (forall id | id in w.rows && id != queue[0].id :: w1.rows[id] == w.rows[id])
    && calls == (if fate.Sent? || fate.Refused? then [CallFor(queue[0], Body(queue[0]))] else [])
  }

  lemma {:induction false} SettledLater(w: World, w1: World, w': World, max: int, rec: OutboxRecord, fate: Fate)
    requires RecordSettled(w1, w', max, rec, fate) && w.now <= w1.now
    requires rec.id in w.rows && w1.rows[rec.id] == w.rows[rec.id]
    ensures RecordSettled(w, w', max, rec, fate)
  {
    var at :| w1.now <= at <= w'.now && w'.rows[rec.id] == SettledRow(fate, max, w1.rows[rec.id], at);
  }

  lemma {:induction false} SettledEarlier(w: World, w1: World, w': World, max: int, rec: OutboxRecord, fate: Fate)
    requires RecordSettled(w, w1, max, rec, fate) && w1.now <= w'.now
    requires rec.id in w'.rows && w'.rows[rec.id] == w1.rows[rec.id]
    ensures RecordSettled(w, w', max, rec, fate)
  {
    var at :| w.now <= at <= w1.now && w1.rows[rec.id] == SettledRow(fate, max, w.rows[rec.id], at);
  }

  lemma {:induction false} CallsCons(fate: Fate, rest: seq<Fate>, queue: seq<OutboxRecord>)
    requires queue != [] && |rest| == |queue| - 1
    ensures CallsOf([fate] + rest, queue)
         == (if fate.Sent? || fate.Refused? then [CallFor(queue[0], Body(queue[0]))] else [])
             + CallsOf(rest, queue[1..])
    ensures SentCount([fate] + rest) == (if fate.Sent? then 1 else 0) + SentCount(rest)
  {
    assert ([fate] + rest)[1..] == rest;
  }

  /** One settled head followed by the outcome of the rest is the outcome of the whole. */
  lemma {:induction false} OutcomeCons(w: World, w1: World, w': World, max: int, queue: seq<OutboxRecord>, fate: Fate,
                                       calls: seq<Call>, rest: seq<Fate>)
    requires HeadDone(w, w1, max, queue, fate, calls) && Distinct(queue)
    requires Outcome(w1, w', max, queue[1..], rest)
    ensures Outcome(w, w', max, queue, [fate] + rest)
  {
    CallsCons(fate, rest, queue);
    assert w1.calls + CallsOf(rest, queue[1..]) == w.calls + (calls + CallsOf(rest, queue[1..]));
    RowsCons(w, w1, w', max, queue, fate, rest);
  }

  ghost predicate RowsSettled(w: World, w': World, max: int, queue: seq<OutboxRecord>, fates: seq<Fate>)
    requires |fates| == |queue|
  {
    && (forall i {:trigger RecordSettled(w, w', max, queue[i], fates[i])} | 0 <= i < |queue| ::
          RecordSettled(w, w', max, queue[i], fates[i]))
    && (forall id {:trigger InIds(queue, id)} | id in w.rows && !InIds(queue, id) ::
         id in w'.rows && w'.rows[id] == w.rows[id])
  }

  lemma {:induction false} RowsCons(w: World, w1: World, w': World, max: int, queue: seq<OutboxRecord>, fate: Fate,
                                    rest: seq<Fate>)
    requires queue != [] && Distinct(queue) && |rest| == |queue| - 1
    requires w1.rows.Keys == w.rows.Keys && w'.rows.Keys == w.rows.Keys && w.now <= w1.now <= w'.now
    requires RecordSettled(w, w1, max, queue[0], fate)
    requires forall id | id in w.rows && id != queue[0].id :: w1.rows[id] == w.rows[id]
    requires RowsSettled(w1, w', max, queue[1..], rest)
    ensures RowsSettled(w, w', max, queue, [fate] + rest)
  {
    var fates := [fate] + rest;
    TailIds(queue, queue[0].id);
    SettledEarlier(w, w1, w', max, queue[0], fate);
    forall i | 0 <= i < |queue| ensures RecordSettled(w, w', max, queue[i], fates[i]) {
      if i > 0 {
        assert RecordSettled(w1, w', max, queue[1..][i - 1], rest[i - 1]);
        SettledLater(w, w1, w', max, queue[i], rest[i - 1]);
      }
    }
    forall id | id in w.rows && !InIds(queue, id) ensures w'.rows[id] == w.rows[id] {
      TailIds(queue, id);
      HeadIn(queue);
    }
  }

  lemma {:induction false} HeadIn(queue: seq<OutboxRecord>)
    requires queue != []
    ensures InIds(queue, queue[0].id)
  {
  }

  /** The head cannot be published: the batch parks it and goes on. */
  lemma {:induction false} ParkedHead(env: Env, w: World, max: int, owner: Uuid, expiry: int,
                                      queue: seq<OutboxRecord>, published: nat, defect: MessagingError)
    returns (w1: World)
    requires NoFaults(env) && Holds(w.rows, owner, expiry, queue) && queue != []
    requires Prepare(queue[0].subject, queue[0].payload) == Failure(defect)
    ensures HeadDone(w, w1, max, queue, Parked(ErrorText(defect)), []) && Holds(w1.rows, owner, expiry, queue[1..])
    ensures Drained(env, w, max, owner, queue, published) == Drained(env, w1, max, owner, queue[1..], published)
    ensures Fates(env.answer, Wires(w.calls), queue) == [Parked(ErrorText(defect))]
        + Fates(env.answer, Wires(w1.calls), queue[1..])
  {
    var st := MarkFailed(queue[0].id, owner, ErrorText(defect));
    StatementOnHead(env, w, owner, expiry, queue, st);
    w1 := Executed(env, w, st).0;
    assert w1.rows[queue[0].id] == SettledRow(Parked(ErrorText(defect)), max, w.rows[queue[0].id], w1.now);
  }

  /** The head is publishable and its lease is alive: the batch offers it. */
  lemma {:induction false} HeldHead(env: Env, w: World, max: int, owner: Uuid, expiry: int, queue: seq<OutboxRecord>,
                                    published: nat, body: seq<byte>)
    returns (w1: World)
    requires NoFaults(env) && Holds(w.rows, owner, expiry, queue) && queue != []
    requires Prepare(queue[0].subject, queue[0].payload) == Success(body)
    requires Drained(env, w, max, owner, queue, published).0.now < expiry
    ensures w1.rows == w.rows && w1.calls == w.calls && w.now <= w1.now
    ensures Drained(env, w, max, owner, queue, published) == Offered(env, w1, max, owner, queue, published, body)
  {
    w1 := Checked(env, w, queue[0].id, owner).0;
    assert HeldRow(w.rows, owner, expiry, queue[0]);
    OfferedTimeMovesOn(env, w1, max, owner, queue, published, body);
  }

  /** The broker acknowledged the head: the batch marks it and goes on. */
  lemma {:induction false} SentHead(env: Env, w: World, w1: World, max: int, owner: Uuid, expiry: int,
                                    queue: seq<OutboxRecord>, published: nat, body: seq<byte>)
    returns (w2: World)
    requires NoFaults(env) && Holds(w.rows, owner, expiry, queue) && queue != []
    requires Prepare(queue[0].subject, queue[0].payload) == Success(body)
    requires w1.rows == w.rows && w1.calls == w.calls && w.now <= w1.now
    requires env.answer(Wires(w.calls) + [Wire(queue[0].subject, body)]).None?
    ensures HeadDone(w, w2, max, queue, Sent, [CallFor(queue[0], body)]) && Holds(w2.rows, owner, expiry, queue[1..])
    ensures Offered(env, w1, max, owner, queue, published, body)
        == Drained(env, w2, max, owner, queue[1..], published + 1)
    ensures Fates(env.answer, Wires(w.calls), queue) == [Sent] + Fates(env.answer, Wires(w2.calls), queue[1..])
  {
    var call := CallFor(queue[0], body);
    WiresAppend(w.calls, call);
    var called := Called(env, w1, call).0;
    var st := MarkPublished(queue[0].id, owner, CallTime(env, called));
    StatementOnHead(env, called, owner, expiry, queue, st);
    w2 := Executed(env, called, st).0;
    assert w2.rows[queue[0].id] == SettledRow(Sent, max, w.rows[queue[0].id], w2.now);
  }

  /** The broker refused the head: the batch records that, releases the rest and ends. */
  lemma {:induction false} RefusedHead(env: Env, w: World, w1: World, max: int, owner: Uuid, expiry: int,
                                       queue: seq<OutboxRecord>, published: nat, body: seq<byte>, text: string)
    returns (w2: World)
    requires NoFaults(env) && Holds(w.rows, owner, expiry, queue) && queue != []
    requires Prepare(queue[0].subject, queue[0].payload) == Success(body)
    requires w1.rows == w.rows && w1.calls == w.calls && w.now <= w1.now
    requires env.answer(Wires(w.calls) + [Wire(queue[0].subject, body)]) == Some(text)
    ensures HeadDone(w, w2, max, queue, Refused(ErrorText(Transport(text))), [CallFor(queue[0], body)])
    ensures Holds(w2.rows, owner, expiry, queue[1..])
    ensures Offered(env, w1, max, owner, queue, published, body)
        == (Executed(env, w2, Release(owner)).0, Success(published))
    ensures Fates(env.answer, Wires(w.calls), queue) == [Refused(ErrorText(Transport(text)))]
        + seq(|queue| - 1, _ => Unreached)
  {
    hide Prepare, ErrorText, Wires, Holds, RowsAffected;
    var call := CallFor(queue[0], body);
    WiresAppend(w.calls, call);
    var called := Called(env, w1, call).0;
    var error := ErrorText(Transport(text));
    var st := FailureStmt(max, owner, queue[0], error);
    StatementOnHead(env, called, owner, expiry, queue, st);
    w2 := Executed(env, called, st).0;
    HeadIsHeld(w.rows, owner, expiry, queue);
    RefusedRow(st, max, owner, queue[0], w.rows[queue[0].id], error, w2.now);
    assert w2.rows[queue[0].id] == SettledRow(Refused(error), max, w.rows[queue[0].id], w2.now);
  }

  lemma {:induction false} HeadIsHeld(rows: Rows, owner: Uuid, expiry: int, queue: seq<OutboxRecord>)
    requires Holds(rows, owner, expiry, queue) && queue != []
    ensures HeldRow(rows, owner, expiry, queue[0])
  {
  }

  lemma {:induction false} RefusedRow(st: Stmt, max: int, owner: Uuid, rec: OutboxRecord, r: Row, error: string,
                                      at: int)
    requires st == FailureStmt(max, owner, rec, error) && rec == Returned(rec.id, r) && 1 <= r.attempts
    ensures Rewritten(st, r, at) == SettledRow(Refused(error), max, r, at)
  {
    BackoffBounds(r.attempts);
  }

  /** The outcome, the count it reports, and the end of the owner's hold on the table. */
  ghost predicate BatchDone(env: Env, w: World, w': World, r: Result<nat, MessagingError>, max: int, owner: Uuid,
                            queue: seq<OutboxRecord>, published: nat) {
    && Outcome(w, w', max, queue, Fates(env.answer, Wires(w.calls), queue))
    && r == Success(published + SentCount(Fates(env.answer, Wires(w.calls), queue)))
    && forall id | id in w'.rows :: w'.rows[id].owner != Some(owner)
  }

  /** A batch without lapse, interference or database fault gives every record its fate. */
  lemma {:induction false} DrainOutcome(env: Env, w: World, max: int, owner: Uuid, expiry: int,
                                        queue: seq<OutboxRecord>, published: nat)
    requires NoFaults(env) && Holds(w.rows, owner, expiry, queue)
    requires Drained(env, w, max, owner, queue, published).0.now < expiry
    ensures var (w', r) := Drained(env, w, max, owner, queue, published);
            BatchDone(env, w, w', r, max, owner, queue, published)
    decreases |queue|, 1
  {
    if queue == [] {
      forall id | id in w.rows ensures w.rows[id].owner != Some(owner) {
        assert !InIds(queue, id);
      }
    } else {
      match Prepare(queue[0].subject, queue[0].payload)
      case Failure(defect) =>
        var w1 := ParkedHead(env, w, max, owner, expiry, queue, published, defect);
        DrainRest(env, w, w1, max, owner, expiry, queue, published, Parked(ErrorText(defect)), []);
      case Success(body) =>
        var w1 := HeldHead(env, w, max, owner, expiry, queue, published, body);
        match env.answer(Wires(w.calls) + [Wire(queue[0].subject, body)])
        case None =>
          var w2 := SentHead(env, w, w1, max, owner, expiry, queue, published, body);
          DrainRest(env, w, w2, max, owner, expiry, queue, published + 1, Sent, [CallFor(queue[0], body)]);
        case Some(text) =>
          var w2 := RefusedHead(env, w, w1, max, owner, expiry, queue, published, body, text);
          ReleaseRest(env, w, w2, max, owner, expiry, queue, published, Refused(ErrorText(Transport(text))),
              [CallFor(queue[0], body)]);
    }
  }

  lemma {:induction false} DrainRest(env: Env, w: World, w1: World, max: int, owner: Uuid, expiry: int,
                                     queue: seq<OutboxRecord>, published: nat,
                                     fate: Fate, calls: seq<Call>)
    requires NoFaults(env) && HeadDone(w, w1, max, queue, fate, calls) && Distinct(queue)
    requires Holds(w1.rows, owner, expiry, queue[1..])
    requires Fates(env.answer, Wires(w.calls), queue) == [fate] + Fates(env.answer, Wires(w1.calls), queue[1..])
    requires fate.Sent? ==> 0 < published
    requires Drained(env, w1, max, owner, queue[1..], published).0.now < expiry
    ensures var (w', r) := Drained(env, w1, max, owner, queue[1..], published);
            BatchDone(env, w, w', r, max, owner, queue, if fate.Sent? then published - 1 else published)
    decreases |queue|, 0
  {
    hide RowsSettled, Holds, CallsOf, SentCount, Drained, RecordSettled, Distinct, Body;
    DrainOutcome(env, w1, max, owner, expiry, queue[1..], published);
    var (w', r) := Drained(env, w1, max, owner, queue[1..], published);
    var rest := Fates(env.answer, Wires(w1.calls), queue[1..]);
    OutcomeCons(w, w1, w', max, queue, fate, calls, rest);
    CallsCons(fate, rest, queue);
  }

  lemma {:induction false} ReleaseRest(env: Env, w: World, w1: World, max: int, owner: Uuid, expiry: int,
                                       queue: seq<OutboxRecord>, published: nat,
                                       fate: Fate, calls: seq<Call>)
    requires NoFaults(env) && HeadDone(w, w1, max, queue, fate, calls) && Distinct(queue) && !fate.Sent?
    requires Holds(w1.rows, owner, expiry, queue[1..])
    requires Fates(env.answer, Wires(w.calls), queue) == [fate] + seq(|queue| - 1, _ => Unreached)
    ensures BatchDone(env, w, Executed(env, w1, Release(owner)).0, Success(published), max, owner, queue, published)
  {
    hide RowsSettled, Holds, CallsOf, SentCount;
    ReleaseOutcome(env, w1, max, owner, expiry, queue[1..]);
    var rest := seq(|queue| - 1, _ => Unreached);
    UnreachedCalls(queue[1..], |queue| - 1);
    OutcomeCons(w, w1, Executed(env, w1, Release(owner)).0, max, queue, fate, calls, rest);
    CallsCons(fate, rest, queue);
  }

  /** The release gives every record not reached its row back. */
  lemma {:induction false} ReleaseOutcome(env: Env, w: World, max: int, owner: Uuid, expiry: int,
                                          queue: seq<OutboxRecord>)
    requires NoFaults(env) && Holds(w.rows, owner, expiry, queue)
    ensures var (w', r) := Executed(env, w, Release(owner));
            && r.Success? && w'.rows.Keys == w.rows.Keys && w.now <= w'.now && w'.calls == w.calls
            && RowsSettled(w, w', max, queue, seq(|queue|, _ => Unreached))
            && (forall id | id in w'.rows :: w'.rows[id].owner != Some(owner))
  {
    var (w', _) := Executed(env, w, Release(owner));
    var fates := seq(|queue|, _ => Unreached);
    forall i | 0 <= i < |queue| ensures RecordSettled(w, w', max, queue[i], fates[i]) {
      assert HeldRow(w.rows, owner, expiry, queue[i]);
      assert w'.rows[queue[i].id] == SettledRow(Unreached, max, w.rows[queue[i].id], w'.now);
    }
    forall id | id in w.rows
      ensures w'.rows[id].owner != Some(owner) && (!InIds(queue, id) ==> w'.rows[id] == w.rows[id])
    {
      if InIds(queue, id) {
        var i :| 0 <= i < |queue| && queue[i].id == id;
        assert HeldRow(w.rows, owner, expiry, queue[i]);
      }
    }
  }

  lemma {:induction false} UnreachedCalls(queue: seq<OutboxRecord>, n: nat)
    requires n == |queue|
    ensures CallsOf(seq(n, _ => Unreached), queue) == [] && SentCount(seq(n, _ => Unreached)) == 0
  {
    if n > 0 {
      UnreachedCalls(queue[1..], n - 1);
      assert seq(n, _ => Unreached)[1..] == seq(n - 1, _ => Unreached);
    }
  }
}
