/** Every execution of the batch loop is a run of the transition system, whatever the clock,
    the database and the broker do: a run of nothing but the clock and the batch's own worker,
    with the same statements on the table, the same broker calls and the same answers. So
    what holds of all runs holds of the loop. */
module LoopIsRun {
  import opened Wrappers
  import opened Outbox
  import opened OutboxTable
  import opened Pipeline
  import Drainer
  import DrainerOutcome
  import PipelineTheorems

  /** The system state shows the loop's world, with the batch of `o` at `pc` before `queue`. */
  predicate Mirrors(s: State, o: Uuid, w: Drainer.World, pc: Pc, queue: seq<OutboxRecord>, max: int) {
    && s.rows == w.rows && s.now == w.now
    && o in s.workers && s.workers[o].pc == pc && s.workers[o].maxAttempts == max
    && |s.workers[o].queue| == |queue| && forall i | 0 <= i < |queue| :: s.workers[o].queue[i].rec == queue[i]
  }

  lemma {:induction false} One(s: State, step: Step)
    ensures Run(s, [step]) == Next(s, step)
  {
    assert [step][..0] == [];
  }

  lemma {:induction false} Two(s: State, a: Step, b: Step)
    ensures Run(s, [a, b]) == Next(Next(s, a), b)
  {
    hide Next;
    assert [a, b][..1] == [a];
    One(s, a);
  }

  // ---- What a run and a loop have in common -----------------------------------------------

  /** Nothing moves but the clock and the batch of `o`. */
  predicate OnlyOf(steps: seq<Step>, o: Uuid) {
    forall k | 0 <= k < |steps| ::
      steps[k].Tick? || ((steps[k].ClaimBatch? || steps[k].Advance?) && steps[k].owner == o)
  }

  /** A broker call and whether it was acknowledged. */
  datatype Heard = Heard(call: Drainer.Call, acked: bool)

  /** The broker call of a step of the system, if it is one. */
  function HeardOf(s: State, step: Step): seq<Heard> {
    if step.Advance? && step.owner in s.workers && s.workers[step.owner].pc.Offering?
        && s.workers[step.owner].queue != []
    then
      var rec := s.workers[step.owner].queue[0].rec;
      [Heard(Drainer.CallFor(rec, DrainerOutcome.Body(rec)), step.answer.Acked?)]
    else []
  }

  /** The broker calls along a run. */
  function Log(s: State, steps: seq<Step>): seq<Heard> {
    if steps == [] then []
    else Log(s, steps[..|steps| - 1]) + HeardOf(Run(s, steps[..|steps| - 1]), steps[|steps| - 1])
  }

  function CallsIn(log: seq<Heard>): (calls: seq<Drainer.Call>)
    ensures |calls| == |log|
  {
    seq(|log|, i requires 0 <= i < |log| => log[i].call)
  }

  /** The loop made exactly the calls of the log, and the broker answered as the log says. */
  predicate Logged(env: Drainer.Env, w: Drainer.World, w': Drainer.World, log: seq<Heard>) {
    && w'.calls == w.calls + CallsIn(log)
    && forall i | 0 <= i < |log| :: log[i].acked <==> env.answer(Drainer.Wires(w.calls + CallsIn(log[..i + 1]))).None?
  }

  predicate CallsDatabase(w: Worker) {
    w.pc.Releasing? || w.pc.Erring? || (w.queue != [] && (w.pc.AtRow? || w.pc.Marking? || w.pc.Failing?))
  }

  /** The fate of the database call of a step of the system, if it makes one: a claim, a lease
      check, a mark, a park, a reschedule or a release. */
  function FaultOf(s: State, step: Step): seq<Db> {
    match step
    case ClaimBatch(o, ids, limit, ttl, _, db) => if CanClaim(s, o, ids, limit, ttl) then [db] else []
    case Advance(o, _, db) => if o in s.workers && CallsDatabase(s.workers[o]) then [db] else []
    case _ => []
  }

  /** The fates of the database calls along a run. */
  function Faults(s: State, steps: seq<Step>): seq<Db> {
    if steps == [] then []
    else Faults(s, steps[..|steps| - 1]) + FaultOf(Run(s, steps[..|steps| - 1]), steps[|steps| - 1])
  }

  /** The fates the surroundings had in store for the loop's database calls. */
  predicate Faulted(env: Drainer.Env, w: Drainer.World, w': Drainer.World, faults: seq<Db>) {
    w'.ops == w.ops + |faults| && forall i | 0 <= i < |faults| :: faults[i] == env.fate(w.ops + i)
  }

  /** The run is the clock's and the batch's alone, and hears and suffers what the loop does: the
      same broker calls with the same acknowledgements, and one database call for each of the
      loop's, with the same fate. */
  predicate Follows(s: State, o: Uuid, env: Drainer.Env, w: Drainer.World, w': Drainer.World, steps: seq<Step>) {
    OnlyOf(steps, o) && Logged(env, w, w', Log(s, steps)) && Faulted(env, w, w', Faults(s, steps))
  }

  lemma {:induction false} FaultsConcat(s: State, a: seq<Step>, b: seq<Step>)
    ensures Faults(s, a + b) == Faults(s, a) + Faults(Run(s, a), b)
  {
    hide FaultOf, Next;
    if b == [] {
      assert a + b == a;
    } else {
      var init := b[..|b| - 1];
      FaultsConcat(s, a, init);
      RunConcat(s, a, init);
      assert (a + b)[..|a + b| - 1] == a + init;
    }
  }

  lemma {:induction false} FaultedConcat(env: Drainer.Env, w: Drainer.World, w1: Drainer.World, w2: Drainer.World,
                                         a: seq<Db>, b: seq<Db>)
    requires Faulted(env, w, w1, a) && Faulted(env, w1, w2, b)
    ensures Faulted(env, w, w2, a + b)
  {
    forall i | 0 <= i < |a + b| ensures (a + b)[i] == env.fate(w.ops + i) {
      if |a| <= i { assert b[i - |a|] == env.fate(w1.ops + (i - |a|)); }
    }
  }

  lemma {:induction false} LogConcat(s: State, a: seq<Step>, b: seq<Step>)
    ensures Log(s, a + b) == Log(s, a) + Log(Run(s, a), b)
  {
    hide HeardOf, Next;
    if b == [] {
      assert a + b == a;
    } else {
      var init := b[..|b| - 1];
      LogConcat(s, a, init);
      RunConcat(s, a, init);
      assert (a + b)[..|a + b| - 1] == a + init;
    }
  }

  lemma {:induction false} LoggedConcat(env: Drainer.Env, w: Drainer.World, w1: Drainer.World, w2: Drainer.World,
                                        a: seq<Heard>, b: seq<Heard>)
    requires Logged(env, w, w1, a) && Logged(env, w1, w2, b)
    ensures Logged(env, w, w2, a + b)
  {
    hide Drainer.Wires;
    assert CallsIn(a + b) == CallsIn(a) + CallsIn(b);
    forall i | 0 <= i < |a + b|
      ensures (a + b)[i].acked <==> env.answer(Drainer.Wires(w.calls + CallsIn((a + b)[..i + 1]))).None?
    {
      if i < |a| {
        assert (a + b)[..i + 1] == a[..i + 1];
      } else {
        var j := i - |a|;
        assert (a + b)[..i + 1] == a + b[..j + 1];
        assert CallsIn(a + b[..j + 1]) == CallsIn(a) + CallsIn(b[..j + 1]);
        assert w.calls + CallsIn((a + b)[..i + 1]) == w1.calls + CallsIn(b[..j + 1]);
      }
    }
  }

  /** Two stretches of a loop, run one after the other. */
  lemma {:induction false} FollowsConcat(s: State, o: Uuid, env: Drainer.Env, w: Drainer.World, w1: Drainer.World,
                                         w2: Drainer.World,
                                         a: seq<Step>, b: seq<Step>)
    requires Follows(s, o, env, w, w1, a) && Follows(Run(s, a), o, env, w1, w2, b)
    ensures Follows(s, o, env, w, w2, a + b) && Run(s, a + b) == Run(Run(s, a), b)
  {
    hide Log, Logged, Run, Faults, Faulted;
    LogConcat(s, a, b);
    LoggedConcat(env, w, w1, w2, Log(s, a), Log(Run(s, a), b));
    FaultsConcat(s, a, b);
    FaultedConcat(env, w, w1, w2, Faults(s, a), Faults(Run(s, a), b));
    RunConcat(s, a, b);
  }

  lemma {:induction false} LogOne(s: State, a: Step)
    ensures Log(s, [a]) == HeardOf(s, a) && Faults(s, [a]) == FaultOf(s, a)
  {
    hide HeardOf, FaultOf;
    assert [a][..0] == [] && Run(s, []) == s && Log(s, []) == [] && Faults(s, []) == [];
  }

  lemma {:induction false} LogTwo(s: State, a: Step, b: Step)
    ensures Log(s, [a, b]) == HeardOf(s, a) + HeardOf(Next(s, a), b)
    ensures Faults(s, [a, b]) == FaultOf(s, a) + FaultOf(Next(s, a), b)
  {
    hide HeardOf, FaultOf, Next;
    assert [a, b][..1] == [a];
    LogOne(s, a);
    One(s, a);
  }

  /** Steps without a broker call follow a stretch without one, of at most one database call. */
  lemma {:induction false} SilentFollows(s: State, o: Uuid, env: Drainer.Env, w: Drainer.World, w': Drainer.World,
                                         steps: seq<Step>)
    requires OnlyOf(steps, o) && Log(s, steps) == [] && w'.calls == w.calls
    requires Faults(s, steps) == (if w'.ops == w.ops then [] else [env.fate(w.ops)]) && w.ops <= w'.ops <= w.ops + 1
    ensures Follows(s, o, env, w, w', steps)
  {
    hide Log, Faults;
  }

  lemma {:induction false} CallFollows(s: State, o: Uuid, env: Drainer.Env, w: Drainer.World, w': Drainer.World,
                                       steps: seq<Step>,
                                       call: Drainer.Call)
    requires OnlyOf(steps, o) && Log(s, steps) == [Heard(call, env.answer(Drainer.Wires(w.calls + [call])).None?)]
    requires w'.calls == w.calls + [call] && w'.ops == w.ops && Faults(s, steps) == []
    ensures Follows(s, o, env, w, w', steps)
  {
    hide Drainer.Wires, Log, OnlyOf, Faults;
    var answer := env.answer(Drainer.Wires(w.calls + [call])).None?;
    OneHeard(env, w, w', call, answer);
  }

  lemma {:induction false} OneHeard(env: Drainer.Env, w: Drainer.World, w': Drainer.World, call: Drainer.Call,
                                    acked: bool)
    requires w'.calls == w.calls + [call] && acked == env.answer(Drainer.Wires(w.calls + [call])).None?
    ensures Logged(env, w, w', [Heard(call, acked)])
  {
    hide Drainer.Wires;
    var log := [Heard(call, acked)];
    assert CallsIn(log) == [call] && log[..1] == log;
  }

  // ---- The steps of the loop ----------------------------------------------------------------

  /** The clock moves, then the batch runs its statement. */
  lemma {:induction false} StatementStep(s: State, o: Uuid, env: Drainer.Env, w: Drainer.World, pc: Pc,
                                         queue: seq<OutboxRecord>, max: int, st: Stmt)
    returns (steps: seq<Step>)
    requires Mirrors(s, o, w, pc, queue, max)
    requires Pipeline.Pending(s.workers[o], o, Drainer.CallTime(env, w)) == Some(st)
    ensures var w' := Drainer.Executed(env, w, st).0; var s' := Run(s, steps);
            && s'.rows == w'.rows && s'.now == w'.now && o in s'.workers
            && s'.workers[o]
            == Moved(s.workers[o], HeadHeld(s.(now := w'.now), o, s.workers[o]), Acked, env.fate(w.ops))
            && Follows(s, o, env, w, w', steps)
  {
    hide Moved, Log, Faults, Follows;
    var tick, go := Tick(env.delay(w.ops)), Advance(o, Acked, env.fate(w.ops));
    steps := [tick, go];
    Two(s, tick, go);
    LogTwo(s, tick, go);
    SilentFollows(s, o, env, w, Drainer.Executed(env, w, st).0, steps);
  }

  function AfterCheck(held: Result<bool, MessagingError>): Pc {
    if held.Failure? then Erring else if held.value then Offering else Finished(true)
  }

  function AfterCall(answer: Result<(), MessagingError>): Pc {
    if answer.Success? then Marking else Failing(ErrorText(answer.error))
  }

  /** The clock moves, then the batch looks at the lease of its head. */
  lemma {:induction false} CheckStep(s: State, o: Uuid, env: Drainer.Env, w: Drainer.World, queue: seq<OutboxRecord>,
                                     max: int)
    returns (steps: seq<Step>)
    requires Mirrors(s, o, w, AtRow, queue, max) && queue != [] && Publishable(queue[0])
    ensures var (w', held) := Drainer.Checked(env, w, queue[0].id, o);
            && Mirrors(Run(s, steps), o, w', AfterCheck(held), queue, max)
            && Follows(s, o, env, w, w', steps)
  {
    hide Publishable, Log, Faults, Follows;
    var tick, go := Tick(env.delay(w.ops)), Advance(o, Acked, env.fate(w.ops));
    steps := [tick, go];
    Two(s, tick, go);
    LogTwo(s, tick, go);
    SilentFollows(s, o, env, w, Drainer.Checked(env, w, queue[0].id, o).0, steps);
    assert s.workers[o].queue[0].rec == queue[0];
  }

  lemma {:induction false} OfferStep(s: State, o: Uuid, env: Drainer.Env, w: Drainer.World, queue: seq<OutboxRecord>,
                                     max: int, body: seq<byte>)
    returns (steps: seq<Step>)
    requires Mirrors(s, o, w, Offering, queue, max) && queue != []
    requires Prepare(queue[0].subject, queue[0].payload) == Success(body)
    ensures var (w', answer) := Drainer.Called(env, w, Drainer.CallFor(queue[0], body));
            && Mirrors(Run(s, steps), o, w', AfterCall(answer), queue, max)
            && Follows(s, o, env, w, w', steps)
  {
    hide Prepare, Log, Faults, Follows, ErrorText, Drainer.Wires;
    var (w', answer) := Drainer.Called(env, w, Drainer.CallFor(queue[0], body));
    var go := Advance(o, if answer.Success? then Acked else Unacked(false, ErrorText(answer.error)), Fine);
    steps := [go];
    One(s, go);
    LogOne(s, go);
    assert s.workers[o].queue[0].rec == queue[0];
    CallFollows(s, o, env, w, w', steps, Drainer.CallFor(queue[0], body));
  }

  lemma {:induction false} EmptyStep(s: State, o: Uuid, env: Drainer.Env, w: Drainer.World,
                                     max: int)
    returns (steps: seq<Step>)
    requires Mirrors(s, o, w, AtRow, [], max)
    ensures Mirrors(Run(s, steps), o, w, Finished(true), [], max) && Follows(s, o, env, w, w, steps)
  {
    hide Log, Faults, Follows;
    steps := [Advance(o, Acked, Fine)];
    One(s, Advance(o, Acked, Fine));
    LogOne(s, Advance(o, Acked, Fine));
    SilentFollows(s, o, env, w, w, steps);
  }

  /** How the batch stands when the loop has returned `r`. */
  predicate LoopEnded(s: State, o: Uuid, w: Drainer.World, r: Result<nat, MessagingError>) {
    && s.rows == w.rows && s.now == w.now
    && o in s.workers && s.workers[o].pc == (if r.Success? then Finished(true) else Erring)
  }

  lemma {:induction false} ParkStep(s: State, o: Uuid, env: Drainer.Env, w: Drainer.World, queue: seq<OutboxRecord>,
                                    max: int, defect: MessagingError)
    returns (steps: seq<Step>)
    requires Mirrors(s, o, w, AtRow, queue, max) && queue != []
    requires Prepare(queue[0].subject, queue[0].payload) == Failure(defect)
    ensures var (w', r) := Drainer.Executed(env, w, MarkFailed(queue[0].id, o, ErrorText(defect)));
            && Follows(s, o, env, w, w', steps)
            && if r.Success? then Mirrors(Run(s, steps), o, w', AtRow, queue[1..], max)
               else LoopEnded(Run(s, steps), o, w', Failure(Database))
  {
    hide Follows;
    assert s.workers[o].queue[0].rec == queue[0];
    steps := StatementStep(s, o, env, w, AtRow, queue, max, MarkFailed(queue[0].id, o, ErrorText(defect)));
  }

  lemma {:induction false} MarkStep(s: State, o: Uuid, env: Drainer.Env, w: Drainer.World, queue: seq<OutboxRecord>,
                                    max: int)
    returns (steps: seq<Step>)
    requires Mirrors(s, o, w, Marking, queue, max) && queue != []
    ensures var (w', r) := Drainer.Executed(env, w, MarkPublished(queue[0].id, o, Drainer.CallTime(env, w)));
            && Follows(s, o, env, w, w', steps)
            && if r.Success? then Mirrors(Run(s, steps), o, w', AtRow, queue[1..], max)
               else LoopEnded(Run(s, steps), o, w', Failure(Database))
  {
    hide Follows;
    assert s.workers[o].queue[0].rec == queue[0];
    steps := StatementStep(s, o, env, w, Marking, queue, max, MarkPublished(queue[0].id, o, Drainer.CallTime(env, w)));
  }

  lemma {:induction false} FailStep(s: State, o: Uuid, env: Drainer.Env, w: Drainer.World, queue: seq<OutboxRecord>,
                                    max: int, error: string)
    returns (steps: seq<Step>)
    requires Mirrors(s, o, w, Failing(error), queue, max) && queue != []
    ensures var (w', r) := Drainer.Executed(env, w, FailureStmt(max, o, queue[0], error));
            && Follows(s, o, env, w, w', steps)
            && if r.Success? then Mirrors(Run(s, steps), o, w', Releasing, queue[1..], max)
               else LoopEnded(Run(s, steps), o, w', Failure(Database))
  {
    hide Follows;
    assert s.workers[o].queue[0].rec == queue[0];
    steps := StatementStep(s, o, env, w, Failing(error), queue, max, FailureStmt(max, o, queue[0], error));
  }

  lemma {:induction false} ReleaseStep(s: State, o: Uuid, env: Drainer.Env, w: Drainer.World,
                                       queue: seq<OutboxRecord>, max: int)
    returns (steps: seq<Step>)
    requires Mirrors(s, o, w, Releasing, queue, max)
    ensures var (w', r) := Drainer.Executed(env, w, Release(o));
            LoopEnded(Run(s, steps), o, w', r) && Follows(s, o, env, w, w', steps)
  {
    hide Follows;
    steps := StatementStep(s, o, env, w, Releasing, queue, max, Release(o));
  }

  lemma {:induction false} MirrorsEnded(s: State, o: Uuid, w: Drainer.World, pc: Pc, queue: seq<OutboxRecord>,
                                        max: int, r: Result<nat, MessagingError>)
    requires Mirrors(s, o, w, pc, queue, max) && pc == if r.Success? then Finished(true) else Erring
    ensures LoopEnded(s, o, w, r)
  {
  }

  /** `drain_claimed` is a run of its worker, call for call. */
  lemma {:induction false} DrainIsRun(s: State, o: Uuid, env: Drainer.Env, w: Drainer.World, max: int,
                                      queue: seq<OutboxRecord>, published: nat)
    returns (steps: seq<Step>)
    requires Mirrors(s, o, w, AtRow, queue, max)
    ensures var (w', r) := Drainer.Drained(env, w, max, o, queue, published);
            LoopEnded(Run(s, steps), o, w', r) && Follows(s, o, env, w, w', steps)
    decreases |queue|, 1
  {
    hide Run, Mirrors, LoopEnded, Follows, ErrorText, Drainer.Executed, Drainer.Checked, Drainer.Offered;
    if queue == [] {
      steps := EmptyStep(s, o, env, w, max);
      MirrorsEnded(Run(s, steps), o, w, Finished(true), [], max, Success(published));
    } else {
      match Prepare(queue[0].subject, queue[0].payload)
      case Failure(defect) =>
        steps := ParkStep(s, o, env, w, queue, max, defect);
        var (w1, parked) := Drainer.Executed(env, w, MarkFailed(queue[0].id, o, ErrorText(defect)));
        if parked.Success? {
          var rest := DrainIsRun(Run(s, steps), o, env, w1, max, queue[1..], published);
          FollowsConcat(s, o, env, w, w1, Drainer.Drained(env, w1, max, o, queue[1..], published).0, steps, rest);
          steps := steps + rest;
        } else {
          OnlyDatabaseErrors(env, w, MarkFailed(queue[0].id, o, ErrorText(defect)));
        }
      case Success(body) =>
        steps := CheckStep(s, o, env, w, queue, max);
        var (w1, held) := Drainer.Checked(env, w, queue[0].id, o);
        if held.Success? && held.value {
          var rest := OfferedIsRun(Run(s, steps), o, env, w1, max, queue, published, body);
          FollowsConcat(s, o, env, w, w1, Drainer.Offered(env, w1, max, o, queue, published, body).0, steps, rest);
          steps := steps + rest;
        } else if held.Success? {
          MirrorsEnded(Run(s, steps), o, w1, Finished(true), queue, max, Success(published));
        } else {
          MirrorsEnded(Run(s, steps), o, w1, Erring, queue, max, Failure(held.error));
        }
    }
  }

  lemma {:induction false} OnlyDatabaseErrors(env: Drainer.Env, w: Drainer.World, st: Stmt)
    ensures Drainer.Executed(env, w, st).1.Failure? ==> Drainer.Executed(env, w, st).1 == Failure(Database)
  {
  }

  lemma {:induction false} OfferedIsRun(s: State, o: Uuid, env: Drainer.Env, w: Drainer.World, max: int,
                                        queue: seq<OutboxRecord>, published: nat, body: seq<byte>)
    returns (steps: seq<Step>)
    requires Mirrors(s, o, w, Offering, queue, max) && queue != []
    requires Prepare(queue[0].subject, queue[0].payload) == Success(body)
    ensures var (w', r) := Drainer.Offered(env, w, max, o, queue, published, body);
            LoopEnded(Run(s, steps), o, w', r) && Follows(s, o, env, w, w', steps)
    decreases |queue|, 0
  {
    hide Run, Mirrors, LoopEnded, Follows, ErrorText, Drainer.Executed, Drainer.Drained, Drainer.Called, FailureStmt;
    steps := OfferStep(s, o, env, w, queue, max, body);
    var (w1, answer) := Drainer.Called(env, w, Drainer.CallFor(queue[0], body));
    match answer
    case Success(_) =>
      var st := MarkPublished(queue[0].id, o, Drainer.CallTime(env, w1));
      var mark := MarkStep(Run(s, steps), o, env, w1, queue, max);
      var (w2, marked) := Drainer.Executed(env, w1, st);
      FollowsConcat(s, o, env, w, w1, w2, steps, mark);
      steps := steps + mark;
      OnlyDatabaseErrors(env, w1, st);
      if marked.Success? {
        var n := published + if marked.value == 1 then 1 else 0;
        var rest := DrainIsRun(Run(s, steps), o, env, w2, max, queue[1..], n);
        FollowsConcat(s, o, env, w, w2, Drainer.Drained(env, w2, max, o, queue[1..], n).0, steps, rest);
        steps := steps + rest;
      }
    case Failure(error) =>
      var st := FailureStmt(max, o, queue[0], ErrorText(error));
      var fail := FailStep(Run(s, steps), o, env, w1, queue, max, ErrorText(error));
      var (w2, recorded) := Drainer.Executed(env, w1, st);
      FollowsConcat(s, o, env, w, w1, w2, steps, fail);
      steps := steps + fail;
      OnlyDatabaseErrors(env, w1, st);
      if recorded.Success? {
        var rest := ReleaseStep(Run(s, steps), o, env, w2, queue[1..], max);
        var (w3, released) := Drainer.Executed(env, w2, Release(o));
        FollowsConcat(s, o, env, w, w2, w3, steps, rest);
        steps := steps + rest;
        EndedAgain(Run(s, steps), o, w3, released, published);
      }
  }

  /** Only success or failure matters to where the batch stands. */
  lemma {:induction false} EndedAgain(s: State, o: Uuid, w: Drainer.World, r: Result<nat, MessagingError>, n: nat)
    requires LoopEnded(s, o, w, r)
    ensures LoopEnded(s, o, w, if r.Success? then Success(n) else r)
  {
  }

  /** The claim, and the moment at which a lost claim reply ends the batch. */
  lemma {:induction false} ClaimStep(s: State, o: Uuid, env: Drainer.Env, w: Drainer.World, cfg: Drainer.Config,
                                     pick: seq<Uuid>)
    returns (steps: seq<Step>)
    requires s.rows == w.rows && s.now == w.now && o !in s.workers && 0 < cfg.batchSize && 0 < cfg.claimTtl
    requires ClaimChoice(w.rows, pick, Drainer.CallTime(env, w), cfg.batchSize)
    ensures var (w', claimed) := Drainer.Executed(env, w, Claim(pick, o, cfg.claimTtl)); var s' := Run(s, steps);
            && Follows(s, o, env, w, w', steps)
            && if claimed.Success? then Mirrors(s', o, w', AtRow, Drainer.Records(w'.rows, pick), cfg.maxAttempts)
               else s'.rows == w'.rows && s'.now == w'.now && (o in s'.workers ==> s'.workers[o].pc == Finished(false))
  {
    hide Log, Faults, Follows;
    var tick := Tick(env.delay(w.ops));
    var claim := ClaimBatch(o, pick, cfg.batchSize, cfg.claimTtl, cfg.maxAttempts, env.fate(w.ops));
    steps := [tick, claim];
    Two(s, tick, claim);
    LogTwo(s, tick, claim);
    assert CanClaim(Next(s, tick), o, pick, cfg.batchSize, cfg.claimTtl);
    SilentFollows(s, o, env, w, Drainer.Executed(env, w, Claim(pick, o, cfg.claimTtl)).0, steps);
  }

  lemma {:induction false} FinalRelease(s: State, o: Uuid, env: Drainer.Env, w: Drainer.World, error: MessagingError)
    returns (steps: seq<Step>)
    requires LoopEnded(s, o, w, Failure(error))
    ensures var w' := Drainer.Executed(env, w, Release(o)).0; var s' := Run(s, steps);
            && s'.rows == w'.rows && s'.now == w'.now && o in s'.workers && s'.workers[o].pc == Finished(false)
            && Follows(s, o, env, w, w', steps)
  {
    hide Follows;
    var worker := s.workers[o];
    var queue := seq(|worker.queue|, i requires 0 <= i < |worker.queue| => worker.queue[i].rec);
    steps := StatementStep(s, o, env, w, Erring, queue, worker.maxAttempts, Release(o));
  }

  /** The system state shows the table and clock a batch has left, and its verdict. */
  predicate BatchEnded(s: State, o: Uuid, w: Drainer.World, r: Result<nat, MessagingError>) {
    && s.rows == w.rows && s.now == w.now
    && (if r.Success? then o in s.workers && s.workers[o].pc == Finished(true)
        else o in s.workers ==> s.workers[o].pc == Finished(false))
  }

  /** `publish_batch` is a run of a fresh worker, call for call. */
  lemma {:induction false} BatchIsRun(s: State, o: Uuid, env: Drainer.Env, w: Drainer.World, cfg: Drainer.Config,
                                      pick: seq<Uuid>)
    returns (steps: seq<Step>)
    requires s.rows == w.rows && s.now == w.now && o !in s.workers && 0 < cfg.batchSize && 0 < cfg.claimTtl
    requires ClaimChoice(w.rows, pick, Drainer.CallTime(env, w), cfg.batchSize)
    ensures var (w', r) := Drainer.BatchPublished(env, w, cfg, o, pick);
            BatchEnded(Run(s, steps), o, w', r) && Follows(s, o, env, w, w', steps)
  {
    hide Run, Mirrors, Follows, Drainer.Executed, Drainer.Drained;
    steps := ClaimStep(s, o, env, w, cfg, pick);
    var (w1, claimed) := Drainer.Executed(env, w, Claim(pick, o, cfg.claimTtl));
    if claimed.Success? {
      ClaimKeepsKeys(env, w, pick, o, cfg.claimTtl);
      var queue := Drainer.Records(w1.rows, pick);
      var drain := DrainIsRun(Run(s, steps), o, env, w1, cfg.maxAttempts, queue, 0);
      var (w2, drained) := Drainer.Drained(env, w1, cfg.maxAttempts, o, queue, 0);
      FollowsConcat(s, o, env, w, w1, w2, steps, drain);
      steps := steps + drain;
      if drained.Failure? {
        var last := FinalRelease(Run(s, steps), o, env, w2, drained.error);
        FollowsConcat(s, o, env, w, w2, Drainer.Executed(env, w2, Release(o)).0, steps, last);
        steps := steps + last;
      }
    }
  }

  lemma {:induction false} ClaimKeepsKeys(env: Drainer.Env, w: Drainer.World, pick: seq<Uuid>, o: Uuid, ttl: int)
    ensures Drainer.Executed(env, w, Claim(pick, o, ttl)).0.rows.Keys == w.rows.Keys
  {
  }

  /** So the loop itself has the exit property: run it on the table of any reachable state,
      with any clock, any database faults and any broker; if it returns Ok, no row is under
      a live lease of its owner. */
  lemma {:induction false} LoopExit(now: int, window: nat, before: seq<Step>, o: Uuid, env: Drainer.Env,
                                    w: Drainer.World, cfg: Drainer.Config, pick: seq<Uuid>)
    requires var s := Run(Init(now, window), before); s.rows == w.rows && s.now == w.now && o !in s.workers
    requires 0 < cfg.batchSize && 0 < cfg.claimTtl && ClaimChoice(w.rows, pick, Drainer.CallTime(env, w), cfg.batchSize)
    ensures var (w', r) := Drainer.BatchPublished(env, w, cfg, o, pick);
            r.Success? ==> forall id | id in w'.rows :: !LiveLease(w'.rows[id], o, w'.now)
  {
    hide Run, Follows, Drainer.BatchPublished;
    var steps := BatchIsRun(Run(Init(now, window), before), o, env, w, cfg, pick);
    RunConcat(Init(now, window), before, steps);
    PipelineTheorems.BatchExit(now, window, before + steps, o);
  }
}
