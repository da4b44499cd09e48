/** The per-consumer inbox (src/inbox.rs): claims, effects and marks of concurrent consumer
    transactions, with rollbacks, crashes, redeliveries and retention purges. */
module ConsumerInbox {
  import opened Wrappers
  import Subjects

  /** The claim key; a message is claimed once by each consumer. */
  datatype Key = Key(consumer: string, messageId: Uuid)

  datatype Claim = Claim(tenant: Option<Uuid>, processedAt: Option<int>)

  type Claims = map<Key, Claim>

  datatype Decision = Process | Duplicate

  datatype InboxError =
    | InvalidConsumer
    | TenantMismatch(messageId: Uuid, claimedBy: Option<Uuid>, envelopeTenant: Option<Uuid>)
    | Database

  predicate Blank(consumer: string) { Subjects.IsBlank(consumer) }

  function DecideFreshClaim(rowsInserted: nat): Option<Decision> {
    if rowsInserted == 1 then Some(Process) else None
  }

  function DecideConflictingClaim(existing: Option<Option<Uuid>>, messageId: Uuid, envelopeTenant: Option<Uuid>)
    : Result<Decision, InboxError>
  {
    match existing
    case Some(tenant) =>
      if tenant == envelopeTenant then Success(Duplicate)
          else Failure(TenantMismatch(messageId, tenant, envelopeTenant))
    case None => Success(Duplicate)
  }

  function TenantAt(visible: Claims, k: Key): Option<Option<Uuid>> {
    if k in visible then Some(visible[k].tenant) else None
  }

  predicate Expired(c: Claim, now: int, age: int) { c.processedAt.Some? && c.processedAt.value < now - age }

  function Purged(claims: Claims, now: int, age: int): Claims {
    map k | k in claims && !Expired(claims[k], now, age) :: claims[k]
  }

  function Stamped(visible: Claims, pending: Claims, k: Key, at: int): Claims {
    if k in visible then pending[k := visible[k].(processedAt := Some(at))] else pending
  }

  // ---- One transaction's calls --------------------------------------------------------

  /** What `begin` answers when the claims visible to the insert and, after a lost insert, to
      the read-back are these. */
  function Begun(atInsert: Claims, atReadBack: Claims, k: Key, tenant: Option<Uuid>): Result<Decision, InboxError> {
    if Blank(k.consumer) then Failure(InvalidConsumer)
    else if k !in atInsert then Success(Process)
    else DecideConflictingClaim(TenantAt(atReadBack, k), k.messageId, tenant)
  }

  /** The database as one open transaction sees it: committed claims under its own writes. */
  class Session {
    var committed: Claims
    var pending: Claims
    const startedAt: int

    constructor (committed: Claims, startedAt: int)
      ensures this.committed == committed && pending == map[] && this.startedAt == startedAt
    {
      this.committed, pending, this.startedAt := committed, map[], startedAt;
    }

    /** `purges` are the retention purges, as clock and age, that other sessions run between
        the insert and the read-back. */
    method Begin(consumer: string, messageId: Uuid, tenant: Option<Uuid>, purges: seq<(int, int)>)
      returns (r: Result<Decision, InboxError>)
      modifies this
      ensures var k := Key(consumer, messageId);
              && r == Begun(old(committed) + old(pending), committed + pending, k, tenant)
              && pending == if r == Success(Process) then old(pending)[k := Claim(tenant, None)] else old(pending)
      ensures committed.Keys <= old(committed.Keys)
      ensures forall k | k in old(committed) ::
                if k in committed then committed[k] == old(committed)[k] else old(committed)[k].processedAt.Some?
    {
      if Blank(consumer) {
        return Failure(InvalidConsumer);
      }
      var k := Key(consumer, messageId);
      var rowsInserted := 0;
      if k !in committed && k !in pending {
        pending := pending[k := Claim(tenant, None)];
        rowsInserted := 1;
      }
      match DecideFreshClaim(rowsInserted) {
        case Some(decision) => return Success(decision);
        case None =>
      }
      ghost var mine, all := pending, committed;
      for i := 0 to |purges|
        invariant pending == mine && committed.Keys <= all.Keys
        invariant forall k | k in all :: if k in committed then committed[k] == all[k] else all[k].processedAt.Some?
      {
        committed := Purged(committed, purges[i].0, purges[i].1);
      }
      r := DecideConflictingClaim(TenantAt(committed + pending, k), messageId, tenant);
    }

    /** A call that matches no claim changes nothing. */
    method MarkProcessed(consumer: string, messageId: Uuid)
      modifies this`pending
      ensures pending == Stamped(old(committed + pending), old(pending), Key(consumer, messageId), startedAt)
      ensures (committed + pending).Keys == old((committed + pending).Keys)
      ensures forall k | k in committed + pending ::
                (committed + pending)[k] == if k == Key(consumer, messageId)
                                            then Claim(old((committed + pending)[k].tenant), Some(startedAt))
                                            else old((committed + pending)[k])
    {
      var k := Key(consumer, messageId);
      var visible := committed + pending;
      if k in visible {
        pending := pending[k := visible[k].(processedAt := Some(startedAt))];
      }
    }
  }

  // ---- Concurrent transactions --------------------------------------------------------

  /** A consumer's transactions are numbered. */
  datatype TxId = TxId(consumer: string, n: nat)

  /** A transaction takes its messages one after the other; for each it was told to process,
      it runs the effect and stamps the claim before it goes on or commits. */
  datatype Pc =
    | Idle
    | ReadingBack(messageId: Uuid, tenant: Option<Uuid>)
    | Effecting(messageId: Uuid)
    | Stamping(messageId: Uuid)
    | Ended

  datatype Effect = Effect(key: Key, tenant: Option<Uuid>)

  datatype Tx = Tx(
    pc: Pc,
    startedAt: int,
    pending: Claims,
    effects: seq<Effect>,
    answer: Option<Result<Decision, InboxError>>)

  /** `effects` and `purged` are history: the committed effects, and how often each claim
      was purged. */
  datatype State = State(now: int, claims: Claims, txs: map<TxId, Tx>, effects: seq<Effect>, purged: multiset<Key>)

  datatype Step =
    | Tick(ms: nat)
    | PurgeProcessed(age: int)
    | Open(x: TxId)
    | Begin(x: TxId, messageId: Uuid, tenant: Option<Uuid>)
    | ReadBack(x: TxId)
    | RunEffect(x: TxId)
    | Mark(x: TxId)
    | Commit(x: TxId)
    | Abort(x: TxId)

  function Init(now: int): State { State(now, map[], map[], [], multiset{}) }

  predicate IsOpen(s: State, x: TxId) { x in s.txs && !s.txs[x].pc.Ended? }

  /** An uncommitted claim makes every other insert of its key wait. */
  predicate LockedFor(s: State, x: TxId, k: Key) {
    exists y | y in s.txs :: y != x && !s.txs[y].pc.Ended? && k in s.txs[y].pending
  }

  function Set(s: State, x: TxId, t: Tx): State { s.(txs := s.txs[x := t]) }

  function DoBegin(s: State, x: TxId, messageId: Uuid, tenant: Option<Uuid>): State {
    var k := Key(x.consumer, messageId);
    if !IsOpen(s, x) || !s.txs[x].pc.Idle? then s
    else
      var t := s.txs[x];
      if Blank(k.consumer) then Set(s, x, t.(answer := Some(Failure(InvalidConsumer))))
      else if LockedFor(s, x, k) then s
      else if k in s.claims || k in t.pending then Set(s, x, t.(pc := ReadingBack(messageId, tenant), answer := None))
      else Set(s, x, t.(pc := Effecting(messageId), pending := t.pending[k := Claim(tenant, None)],
          answer := Some(Success(Process))))
  }

  function DoReadBack(s: State, x: TxId): State {
    if !IsOpen(s, x) || !s.txs[x].pc.ReadingBack? then s
    else
      var t := s.txs[x];
      var existing := TenantAt(s.claims + t.pending, Key(x.consumer, t.pc.messageId));
      Set(s, x, t.(pc := Idle, answer := Some(DecideConflictingClaim(existing, t.pc.messageId, t.pc.tenant))))
  }

  function DoRunEffect(s: State, x: TxId): State {
    if !IsOpen(s, x) || !s.txs[x].pc.Effecting? || Key(x.consumer, s.txs[x].pc.messageId) !in s.txs[x].pending then s
    else
      var t := s.txs[x];
      var k := Key(x.consumer, t.pc.messageId);
      Set(s, x, t.(pc := Stamping(t.pc.messageId), effects := t.effects + [Effect(k, t.pending[k].tenant)]))
  }

  function DoMark(s: State, x: TxId): State {
    if !IsOpen(s, x) || !s.txs[x].pc.Stamping? then s
    else
      var t := s.txs[x];
      var k := Key(x.consumer, t.pc.messageId);
      Set(s, x, t.(pc := Idle, pending := Stamped(s.claims + t.pending, t.pending, k, t.startedAt)))
  }

  function DoCommit(s: State, x: TxId): State {
    if !IsOpen(s, x) || !s.txs[x].pc.Idle? then s
    else
      var t := s.txs[x];
      Set(s, x, t.(pc := Ended)).(claims := s.claims + t.pending, effects := s.effects + t.effects)
  }

  function DoPurge(s: State, age: int): State {
    if age <= 0 then s
    else
      var claims := Purged(s.claims, s.now, age);
      s.(claims := claims, purged := s.purged + multiset(s.claims.Keys - claims.Keys))
  }

  function Next(s: State, step: Step): State {
    match step
    case Tick(ms) => s.(now := s.now + ms)
    case PurgeProcessed(age) => DoPurge(s, age)
    case Open(x) => if x in s.txs then s else Set(s, x, Tx(Idle, s.now, map[], [], None))
    case Begin(x, messageId, tenant) => DoBegin(s, x, messageId, tenant)
    case ReadBack(x) => DoReadBack(s, x)
    case RunEffect(x) => DoRunEffect(s, x)
    case Mark(x) => DoMark(s, x)
    case Commit(x) => DoCommit(s, x)
    case Abort(x) => if IsOpen(s, x) then Set(s, x, s.txs[x].(pc := Ended)) else s
  }

  function Run(s: State, steps: seq<Step>): State {
    if steps == [] then s else Next(Run(s, steps[..|steps| - 1]), steps[|steps| - 1])
  }

  // ---- The invariant ------------------------------------------------------------------

  function Count(effects: seq<Effect>, k: Key): nat {
    if effects == [] then 0
    else Count(effects[..|effects| - 1], k) + if effects[|effects| - 1].key == k then 1 else 0
  }

  lemma {:induction false} CountAppend(a: seq<Effect>, b: seq<Effect>, k: Key)
    ensures Count(a + b, k) == Count(a, k) + Count(b, k)
  {
    if b == [] {
      assert a + b == a;
    } else {
      CountAppend(a, b[..|b| - 1], k);
      assert (a + b)[..|a + b| - 1] == a + b[..|b| - 1];
    }
  }

  ghost predicate Balanced(s: State, k: Key) {
    && Count(s.effects, k) == (if k in s.claims then 1 else 0) + s.purged[k]
    && (k in s.claims ==> Effect(k, s.claims[k].tenant) in s.effects)
  }

  /** Within a transaction, every claim but the one being worked on has had its effect. */
  ghost predicate Worked(x: TxId, t: Tx, k: Key) {
    var done := k in t.pending && t.pc != Effecting(k.messageId);
    && (k in t.pending ==> k.consumer == x.consumer)
    && Count(t.effects, k) == (if done then 1 else 0)
    && (done ==> Effect(k, t.pending[k].tenant) in t.effects)
  }

  ghost predicate PcFits(s: State, x: TxId, t: Tx) {
    match t.pc
    case ReadingBack(id, _) => var k := Key(x.consumer, id); k in s.claims || k in t.pending || s.purged[k] > 0
    case Effecting(id) => Key(x.consumer, id) in t.pending
    case Stamping(id) => Key(x.consumer, id) in t.pending
    case _ => true
  }

  /** An uncommitted claim is nobody else's, committed or not. */
  ghost predicate Exclusive(s: State, x: TxId, k: Key)
    requires x in s.txs
  {
    k in s.txs[x].pending ==> k !in s.claims && !LockedFor(s, x, k)
  }

  ghost predicate TxFits(s: State, x: TxId)
    requires x in s.txs
  {
    && PcFits(s, x, s.txs[x])
    && forall k {:trigger Worked(x, s.txs[x], k)} {:trigger Exclusive(s, x, k)} ::
         Worked(x, s.txs[x], k) && Exclusive(s, x, k)
  }

  ghost predicate Inv(s: State) {
    && (forall k {:trigger Balanced(s, k)} :: Balanced(s, k))
    && forall x {:trigger TxFits(s, x)} | x in s.txs && !s.txs[x].pc.Ended? :: TxFits(s, x)
  }

  /** A step that changes only the transaction `x`, whose new claims nobody else holds. */
  lemma {:induction false} SetKeeps(s: State, x: TxId, t: Tx)
    requires Inv(s)
    requires t.pc.Ended? || PcFits(s, x, t)
    requires t.pc.Ended? || forall k {:trigger Worked(x, t, k)} :: Worked(x, t, k)
    requires t.pc.Ended? || forall k | k in t.pending :: k !in s.claims && !LockedFor(s, x, k)
    ensures Inv(Set(s, x, t))
  {
    var s' := Set(s, x, t);
    forall k ensures Balanced(s', k) {
      assert Balanced(s, k);
    }
    forall y | y in s'.txs && !s'.txs[y].pc.Ended? ensures TxFits(s', y) {
      forall k ensures Worked(y, s'.txs[y], k) && Exclusive(s', y, k) {
        if y == x {
          assert Worked(x, t, k);
          assert LockedFor(s', x, k) ==> LockedFor(s, x, k);
        } else {
          assert TxFits(s, y) && Worked(y, s.txs[y], k) && Exclusive(s, y, k);
          if k in s.txs[y].pending && LockedFor(s', y, k) {
            assert !LockedFor(s, y, k);
            assert k in t.pending && !t.pc.Ended?;
            assert LockedFor(s, x, k);
          }
        }
      }
      if y != x {
        assert TxFits(s, y);
      }
    }
  }

  lemma {:induction false} OpenFacts(s: State, x: TxId, k: Key)
    requires Inv(s) && IsOpen(s, x)
    ensures Worked(x, s.txs[x], k) && Exclusive(s, x, k) && PcFits(s, x, s.txs[x])
  {
    assert TxFits(s, x);
    assert Worked(x, s.txs[x], k);
  }

  lemma {:induction false} BeginKeeps(s: State, x: TxId, messageId: Uuid, tenant: Option<Uuid>)
    requires Inv(s)
    ensures Inv(DoBegin(s, x, messageId, tenant))
  {
    hide Inv;
    if IsOpen(s, x) && s.txs[x].pc.Idle? {
      var s', t := DoBegin(s, x, messageId, tenant), s.txs[x];
      var t' := s'.txs[x];
      assert s' == s || s' == Set(s, x, t');
      forall k ensures Worked(x, t', k) && (k in t'.pending ==> k !in s.claims && !LockedFor(s, x, k)) {
        OpenFacts(s, x, k);
      }
      OpenFacts(s, x, Key(x.consumer, messageId));
      SetKeeps(s, x, t');
      assert s == s' ==> Set(s, x, t') == s;
    }
  }

  lemma {:induction false} ReadBackKeeps(s: State, x: TxId)
    requires Inv(s)
    ensures Inv(DoReadBack(s, x))
  {
    hide Inv;
    if IsOpen(s, x) && s.txs[x].pc.ReadingBack? {
      var t' := DoReadBack(s, x).txs[x];
      forall k ensures Worked(x, t', k) && (k in t'.pending ==> k !in s.claims && !LockedFor(s, x, k)) {
        OpenFacts(s, x, k);
      }
      SetKeeps(s, x, t');
    }
  }

  lemma {:induction false} RunEffectKeeps(s: State, x: TxId)
    requires Inv(s)
    ensures Inv(DoRunEffect(s, x))
  {
    hide Inv;
    if IsOpen(s, x) && s.txs[x].pc.Effecting? {
      var t := s.txs[x];
      var j := Key(x.consumer, t.pc.messageId);
      OpenFacts(s, x, j);
      var t' := DoRunEffect(s, x).txs[x];
      var e := Effect(j, t.pending[j].tenant);
      assert t'.effects == t.effects + [e] && t'.effects[|t.effects|] == e;
      forall k ensures Worked(x, t', k) && (k in t'.pending ==> k !in s.claims && !LockedFor(s, x, k)) {
        OpenFacts(s, x, k);
        CountAppend(t.effects, [e], k);
        assert Count([e], k) == if j == k then 1 else 0;
      }
      SetKeeps(s, x, t');
    }
  }

  lemma {:induction false} MarkKeeps(s: State, x: TxId)
    requires Inv(s)
    ensures Inv(DoMark(s, x))
  {
    hide Inv;
    if IsOpen(s, x) && s.txs[x].pc.Stamping? {
      var t := s.txs[x];
      OpenFacts(s, x, Key(x.consumer, t.pc.messageId));
      var t' := DoMark(s, x).txs[x];
      assert t'.pending.Keys == t.pending.Keys;
      assert forall k | k in t.pending :: t'.pending[k].tenant == t.pending[k].tenant;
      forall k ensures Worked(x, t', k) && (k in t'.pending ==> k !in s.claims && !LockedFor(s, x, k)) {
        OpenFacts(s, x, k);
      }
      SetKeeps(s, x, t');
    }
  }

  lemma {:induction false} CommitKeeps(s: State, x: TxId)
    requires Inv(s)
    ensures Inv(DoCommit(s, x))
  {
    if IsOpen(s, x) && s.txs[x].pc.Idle? {
      var s', t := DoCommit(s, x), s.txs[x];
      forall k ensures Balanced(s', k) {
        assert Balanced(s, k);
        OpenFacts(s, x, k);
        CountAppend(s.effects, t.effects, k);
      }
      forall y | y in s'.txs && !s'.txs[y].pc.Ended? ensures TxFits(s', y) {
        forall k ensures Worked(y, s'.txs[y], k) && Exclusive(s', y, k) {
          OpenFacts(s, y, k);
          assert k in t.pending ==> LockedFor(s, y, k);
          assert LockedFor(s', y, k) ==> LockedFor(s, y, k);
        }
        OpenFacts(s, y, Key("", 0));
      }
    }
  }

  lemma {:induction false} PurgeKeeps(s: State, age: int)
    requires Inv(s)
    ensures Inv(DoPurge(s, age))
  {
    var s' := DoPurge(s, age);
    forall k ensures Balanced(s', k) {
      assert Balanced(s, k);
    }
    forall y | y in s'.txs && !s'.txs[y].pc.Ended? ensures TxFits(s', y) {
      forall k ensures Worked(y, s'.txs[y], k) && Exclusive(s', y, k) {
        OpenFacts(s, y, k);
        assert LockedFor(s', y, k) ==> LockedFor(s, y, k);
      }
      OpenFacts(s, y, Key("", 0));
    }
  }

  lemma {:induction false} TickKeeps(s: State, ms: nat)
    requires Inv(s)
    ensures Inv(s.(now := s.now + ms))
  {
    var s' := s.(now := s.now + ms);
    forall k ensures Balanced(s', k) {
      assert Balanced(s, k);
    }
    forall y | y in s'.txs && !s'.txs[y].pc.Ended? ensures TxFits(s', y) {
      forall k ensures Worked(y, s'.txs[y], k) && Exclusive(s', y, k) {
        OpenFacts(s, y, k);
        assert LockedFor(s', y, k) ==> LockedFor(s, y, k);
      }
      OpenFacts(s, y, Key("", 0));
    }
  }

  lemma {:induction false} NextKeeps(s: State, step: Step)
    requires Inv(s)
    ensures Inv(Next(s, step))
  {
    hide Inv, DoBegin, DoReadBack, DoRunEffect, DoMark, DoCommit, DoPurge;
    match step
    case Tick(ms) => TickKeeps(s, ms);
    case PurgeProcessed(age) => PurgeKeeps(s, age);
    case Open(x) =>
      if x !in s.txs {
        SetKeeps(s, x, Tx(Idle, s.now, map[], [], None));
      }
    case Begin(x, messageId, tenant) => BeginKeeps(s, x, messageId, tenant);
    case ReadBack(x) => ReadBackKeeps(s, x);
    case RunEffect(x) => RunEffectKeeps(s, x);
    case Mark(x) => MarkKeeps(s, x);
    case Commit(x) => CommitKeeps(s, x);
    case Abort(x) =>
      if IsOpen(s, x) {
        SetKeeps(s, x, s.txs[x].(pc := Ended));
      }
  }

  lemma {:induction false} RunKeeps(now: int, steps: seq<Step>)
    ensures Inv(Run(Init(now), steps))
  {
    if steps != [] {
      RunKeeps(now, steps[..|steps| - 1]);
      NextKeeps(Run(Init(now), steps[..|steps| - 1]), steps[|steps| - 1]);
    }
  }

  // ---- Whole-run properties -------------------------------------------------------------

  /** Exactly once: in every run the committed effects of a consumer for a message are its
      present claim plus its purged claims. So a message whose claim was never purged has
      had one committed effect if its claim is there, and none otherwise. */
  lemma {:induction false} EffectsEqualClaims(now: int, steps: seq<Step>, k: Key)
    ensures var s := Run(Init(now), steps);
            && Count(s.effects, k) == (if k in s.claims then 1 else 0) + s.purged[k]
            && (s.purged[k] == 0 ==> (Count(s.effects, k) == 1 <==> k in s.claims) && Count(s.effects, k) <= 1)
            && (k in s.claims ==> Effect(k, s.claims[k].tenant) in s.effects)
  {
    RunKeeps(now, steps);
    assert Balanced(Run(Init(now), steps), k);
  }

  /** The effects a transaction can count on: those committed, and its own. */
  ghost function EffectsSeen(s: State, x: TxId): seq<Effect>
    requires x in s.txs
  {
    s.effects + s.txs[x].effects
  }

  /** `Duplicate` is never answered for a message without an effect: when the claim was read
      back, the effect is the same tenant's; when it was gone, an effect had been committed
      and its claim purged, and the tenant is unknown. `TenantMismatch` is answered exactly
      when the claim read back is another tenant's, whose effect then exists. */
  lemma {:induction false} DuplicateMeansDone(now: int, steps: seq<Step>, x: TxId)
    requires var s := Run(Init(now), steps); IsOpen(s, x) && s.txs[x].pc.ReadingBack?
    ensures var s := Run(Init(now), steps);
            var t, k := s.txs[x], Key(x.consumer, s.txs[x].pc.messageId);
            var read := TenantAt(s.claims + t.pending, k);
            var answer := Next(s, ReadBack(x)).txs[x].answer;
            && (answer == Some(Success(Duplicate)) <==> read.None? || read == Some(t.pc.tenant))
            && (read.Some? ==> Effect(k, read.value) in EffectsSeen(s, x))
            && (read.None? ==> s.purged[k] > 0 && Count(s.effects, k) > 0)
            && (answer != Some(Success(Duplicate)) ==>
                  read.Some? && answer == Some(Failure(TenantMismatch(k.messageId, read.value, t.pc.tenant))))
  {
    RunKeeps(now, steps);
    var s := Run(Init(now), steps);
    var k := Key(x.consumer, s.txs[x].pc.messageId);
    OpenFacts(s, x, k);
    assert Balanced(s, k);
  }

  /** `Process` is answered exactly when the key is free, and then no unpurged effect exists:
      a message rolled back or never finished is not lost. */
  lemma {:induction false} ProcessWhenFree(now: int, steps: seq<Step>, x: TxId, messageId: Uuid, tenant: Option<Uuid>)
    requires var s := Run(Init(now), steps); IsOpen(s, x) && s.txs[x].pc.Idle? && !Blank(x.consumer)
    ensures var s, k := Run(Init(now), steps), Key(x.consumer, messageId);
            var s' := Next(s, Begin(x, messageId, tenant));
            && (s'.txs[x].pc.Effecting? <==> k !in s.claims && forall y | IsOpen(s, y) :: k !in s.txs[y].pending)
            && (s'.txs[x].pc.Effecting? ==> Count(s.effects, k) == s.purged[k] && Count(s.txs[x].effects, k) == 0)
  {
    RunKeeps(now, steps);
    var s, k := Run(Init(now), steps), Key(x.consumer, messageId);
    OpenFacts(s, x, k);
    assert Balanced(s, k);
  }

  /** No step of the list is the transaction's own. */
  predicate NotOf(steps: seq<Step>, x: TxId) {
    forall i | 0 <= i < |steps| :: steps[i].Tick? || steps[i].PurgeProcessed? || steps[i].x != x
  }

  lemma {:induction false} OthersLeaveTx(s: State, step: Step, x: TxId)
    requires x in s.txs && NotOf([step], x)
    ensures x in Next(s, step).txs && Next(s, step).txs[x] == s.txs[x]
  {
    hide LockedFor, Blank, Stamped, TenantAt, DecideConflictingClaim;
    assert [step][0] == step;
  }

  lemma {:induction false} PurgedOnlyIfClaimed(s: State, step: Step, k: Key)
    requires k !in s.claims
    ensures Next(s, step).purged[k] == s.purged[k]
  {
    hide LockedFor, Blank, Stamped, TenantAt, DecideConflictingClaim;
  }

  /** Whatever other transactions, the clock and purges do, an open transaction keeps its
      state, its uncommitted claims stay its own, and no effect of theirs is committed. */
  lemma {:induction false} OthersLeaveClaims(s: State, steps: seq<Step>, x: TxId, k: Key)
    requires Inv(s) && IsOpen(s, x) && k in s.txs[x].pending && NotOf(steps, x)
    ensures var s' := Run(s, steps);
            && Inv(s') && x in s'.txs && s'.txs[x] == s.txs[x] && k !in s'.claims
            && s'.purged[k] == s.purged[k] && Count(s'.effects, k) == Count(s.effects, k)
  {
    hide Inv, Next;
    if steps != [] {
      var init, last := steps[..|steps| - 1], steps[|steps| - 1];
      OthersLeaveClaims(s, init, x, k);
      var mid := Run(s, init);
      NextKeeps(mid, last);
      OthersLeaveTx(mid, last, x);
      PurgedOnlyIfClaimed(mid, last, k);
    }
    var s' := Run(s, steps);
    OpenFacts(s', x, k);
    OpenFacts(s, x, k);
    IsBalanced(s', k);
    IsBalanced(s, k);
  }

  lemma {:induction false} IsBalanced(s: State, k: Key)
    requires Inv(s)
    ensures Balanced(s, k)
  {
  }

  lemma {:induction false} OwnEffect(s: State, x: TxId)
    requires Inv(s) && IsOpen(s, x) && s.txs[x].pc.Effecting?
    ensures var t, k, s' := s.txs[x], Key(x.consumer, s.txs[x].pc.messageId), Next(s, RunEffect(x));
            && k in t.pending && Inv(s') && IsOpen(s', x) && s'.effects == s.effects
            && s'.txs[x] == t.(pc := Stamping(k.messageId), effects := t.effects + [Effect(k, t.pending[k].tenant)])
  {
    hide Inv;
    OpenFacts(s, x, Key(x.consumer, s.txs[x].pc.messageId));
    NextKeeps(s, RunEffect(x));
  }

  lemma {:induction false} OwnMark(s: State, x: TxId, k: Key)
    requires Inv(s) && IsOpen(s, x) && s.txs[x].pc == Stamping(k.messageId) && k.consumer == x.consumer
    ensures var t, s' := s.txs[x], Next(s, Mark(x));
            && k in t.pending && Inv(s') && IsOpen(s', x) && s'.txs[x].pc.Idle? && s'.effects == s.effects
            && k in s'.txs[x].pending && s'.txs[x].pending[k] == t.pending[k].(processedAt := Some(t.startedAt))
  {
    hide Inv;
    OpenFacts(s, x, k);
    NextKeeps(s, Mark(x));
  }

  lemma {:induction false} OwnCommit(s: State, x: TxId, k: Key)
    requires Inv(s) && IsOpen(s, x) && s.txs[x].pc.Idle? && k in s.txs[x].pending
    ensures var s' := Next(s, Commit(x));
            && k in s'.claims && s'.claims[k] == s.txs[x].pending[k]
            && Count(s'.effects, k) == Count(s.effects, k) + 1
  {
    hide Inv;
    OpenFacts(s, x, k);
    CountAppend(s.effects, s.txs[x].effects, k);
  }

  /** From there the transaction's effect, mark and commit, with any steps of others before
      and between them, add exactly one effect for the message and a claim that is stamped
      with the transaction's start. */
  lemma {:induction false} ProcessedOnce(s: State, x: TxId, a: seq<Step>, b: seq<Step>, c: seq<Step>)
    requires Inv(s) && IsOpen(s, x) && s.txs[x].pc.Effecting?
    requires NotOf(a, x) && NotOf(b, x) && NotOf(c, x)
    ensures var k := Key(x.consumer, s.txs[x].pc.messageId);
            var s1 := Next(Run(s, a), RunEffect(x));
            var s2 := Next(Run(s1, b), Mark(x));
            var s3 := Next(Run(s2, c), Commit(x));
            && k in s.txs[x].pending && k in s3.claims
            && s3.claims[k] == Claim(s.txs[x].pending[k].tenant, Some(s.txs[x].startedAt))
            && Count(s3.effects, k) == Count(s.effects, k) + 1
  {
    hide Inv, Next, Run, Count;
    var k := Key(x.consumer, s.txs[x].pc.messageId);
    OpenFacts(s, x, k);
    OthersLeaveClaims(s, a, x, k);
    OwnEffect(Run(s, a), x);
    var s1 := Next(Run(s, a), RunEffect(x));
    OthersLeaveClaims(s1, b, x, k);
    OwnMark(Run(s1, b), x, k);
    var s2 := Next(Run(s1, b), Mark(x));
    OthersLeaveClaims(s2, c, x, k);
    OwnCommit(Run(s2, c), x, k);
  }

  /** A rolled-back or crashed transaction leaves no trace but its number. */
  lemma {:induction false} RollbackLeavesNothing(s: State, x: TxId)
    ensures var s' := Next(s, Abort(x));
            && s'.claims == s.claims && s'.effects == s.effects && s'.purged == s.purged
            && forall y, k | y != x :: LockedFor(s', y, k)
                 <==> exists z | z in s.txs && z != x :: z != y && !s.txs[z].pc.Ended? && k in s.txs[z].pending
  {
    var s' := Next(s, Abort(x));
    forall y, k | y != x
      ensures LockedFor(s', y, k)
         <==> exists z | z in s.txs && z != x :: z != y && !s.txs[z].pc.Ended? && k in s.txs[z].pending
    {
      assert forall z | z in s.txs && z != x :: z in s'.txs && s'.txs[z] == s.txs[z];
    }
  }

  // ---- The vanished claim -----------------------------------------------------------------

  /** Only a purge takes a committed claim away, and nothing changes its tenant. */
  lemma {:induction false} ClaimsOnlyPurged(s: State, steps: seq<Step>, k: Key)
    requires Inv(s) && k in s.claims && forall i | 0 <= i < |steps| :: !steps[i].PurgeProcessed?
    ensures Inv(Run(s, steps)) && k in Run(s, steps).claims && Run(s, steps).claims[k].tenant == s.claims[k].tenant
  {
    hide Inv;
    if steps != [] {
      var init, last := steps[..|steps| - 1], steps[|steps| - 1];
      ClaimsOnlyPurged(s, init, k);
      var mid := Run(s, init);
      NextKeeps(mid, last);
      if last.Commit? && IsOpen(mid, last.x) {
        OpenFacts(mid, last.x, k);
      }
    }
  }

  /** The purge race costs the tenant check: a run, for any consumer and message, in which
      tenant `b` is told `Duplicate` though only tenant `a` had its effect. */
  lemma {:induction false} VanishedClaimHidesTenant(c: string, id: Uuid, a: Option<Uuid>,
                                                    b: Option<Uuid>)
    returns (steps: seq<Step>)
    requires !Blank(c)
    ensures var s, x := Run(Init(0), steps), TxId(c, 2);
            && x in s.txs && s.txs[x].answer == Some(Success(Duplicate))
            && s.effects == [Effect(Key(c, id), a)] && s.claims == map[]
    ensures |steps| == 10 && steps[7] == Begin(TxId(c, 2), id, b) && steps[9] == ReadBack(TxId(c, 2))
  {
    hide Next;
    var x, y := TxId(c, 1), TxId(c, 2);
    var first := [Open(x), Begin(x, id, a), RunEffect(x), Mark(x), Commit(x)];
    var second := [Tick(10), Open(y), Begin(y, id, b), PurgeProcessed(1), ReadBack(y)];
    steps := first + second;
    var s := ProcessedByA(c, id, a);
    LostByB(c, id, a, b, s);
    RunTen(first, second);
  }

  lemma {:induction false} ProcessedByA(c: string, id: Uuid, a: Option<Uuid>) returns (s: State)
    requires !Blank(c)
    ensures var x := TxId(c, 1);
            s == Next(Next(Next(Next(Next(Init(0), Open(x)), Begin(x, id, a)), RunEffect(x)), Mark(x)), Commit(x))
    ensures s.now == 0 && s.claims == map[Key(c, id) := Claim(a, Some(0))] && s.effects == [Effect(Key(c, id), a)]
    ensures s.txs.Keys == {TxId(c, 1)} && s.txs[TxId(c, 1)].pc.Ended?
  {
    hide Blank, Next;
    var x := TxId(c, 1);
    var mid := ClaimedByA(c, id, a);
    s := FinishedByA(c, id, a, mid);
  }

  lemma {:induction false} ClaimedByA(c: string, id: Uuid, a: Option<Uuid>) returns (s: State)
    requires !Blank(c)
    ensures var x := TxId(c, 1); s == Next(Next(Init(0), Open(x)), Begin(x, id, a))
    ensures s == State(0, map[],
        map[TxId(c, 1) := Tx(Effecting(id), 0, map[Key(c, id) := Claim(a, None)], [], Some(Success(Process)))],
                       [], multiset{})
  {
    hide Blank;
    var x := TxId(c, 1);
    var s1 := Next(Init(0), Open(x));
    s := Next(s1, Begin(x, id, a));
  }

  lemma {:induction false} FinishedByA(c: string, id: Uuid, a: Option<Uuid>, s2: State) returns (s: State)
    requires s2.now == 0 && s2.claims == map[] && s2.effects == []
    requires s2.txs == map[TxId(c, 1) := Tx(Effecting(id), 0, map[Key(c, id) := Claim(a, None)], [],
        Some(Success(Process)))]
    ensures var x := TxId(c, 1); s == Next(Next(Next(s2, RunEffect(x)), Mark(x)), Commit(x))
    ensures s.now == 0 && s.claims == map[Key(c, id) := Claim(a, Some(0))] && s.effects == [Effect(Key(c, id), a)]
    ensures s.txs.Keys == {TxId(c, 1)} && s.txs[TxId(c, 1)].pc.Ended?
  {
    var x, k := TxId(c, 1), Key(c, id);
    var s3 := Next(s2, RunEffect(x));
    assert s3.txs[x].pc == Stamping(id) && s3.txs[x].effects == [Effect(k, a)];
    var s4 := Next(s3, Mark(x));
    assert s4.txs[x].pc.Idle? && s4.txs[x].pending == map[k := Claim(a, Some(0))];
    s := Next(s4, Commit(x));
  }

  lemma {:induction false} LostByB(c: string, id: Uuid, a: Option<Uuid>, b: Option<Uuid>, s: State)
    requires !Blank(c)
    requires s.now == 0 && s.claims == map[Key(c, id) := Claim(a, Some(0))] && s.effects == [Effect(Key(c, id), a)]
    requires s.txs.Keys == {TxId(c, 1)} && s.txs[TxId(c, 1)].pc.Ended?
    ensures var y := TxId(c, 2);
            var s' := Next(Next(Next(Next(Next(s, Tick(10)), Open(y)), Begin(y, id, b)), PurgeProcessed(1)),
                ReadBack(y));
            y in s'.txs && s'.txs[y].answer == Some(Success(Duplicate)) && s'.effects == s.effects && s'.claims == map[]
  {
    hide Blank, Next;
    var y := TxId(c, 2);
    var s1 := InsertLost(c, id, b, s);
    var s2 := ClaimPurged(c, id, a, s1);
    ReadNothing(c, id, b, s2);
  }

  lemma {:induction false} InsertLost(c: string, id: Uuid, b: Option<Uuid>, s: State) returns (s': State)
    requires !Blank(c) && s.now == 0 && Key(c, id) in s.claims
    requires s.txs.Keys == {TxId(c, 1)} && s.txs[TxId(c, 1)].pc.Ended?
    ensures var y := TxId(c, 2);
            && s' == Next(Next(Next(s, Tick(10)), Open(y)), Begin(y, id, b))
            && s'.claims == s.claims && s'.effects == s.effects && s'.now == 10
            && y in s'.txs && s'.txs[y] == Tx(ReadingBack(id, b), 10, map[], [], None)
  {
    hide Blank;
    var y := TxId(c, 2);
    var s2 := Next(Next(s, Tick(10)), Open(y));
    assert s2.txs[y].pending == map[] && !LockedFor(s2, y, Key(c, id));
    s' := Next(s2, Begin(y, id, b));
  }

  lemma {:induction false} ClaimPurged(c: string, id: Uuid, a: Option<Uuid>, s: State) returns (s': State)
    requires s.now == 10 && s.claims == map[Key(c, id) := Claim(a, Some(0))]
    ensures s' == Next(s, PurgeProcessed(1)) && s'.claims == map[] && s'.effects == s.effects && s'.txs == s.txs
  {
    s' := Next(s, PurgeProcessed(1));
    assert forall k | k in s.claims :: Expired(s.claims[k], 10, 1);
    assert Purged(s.claims, 10, 1) == map[];
  }

  lemma {:induction false} ReadNothing(c: string, id: Uuid, b: Option<Uuid>, s: State)
    requires s.claims == map[] && TxId(c, 2) in s.txs
    requires s.txs[TxId(c, 2)] == Tx(ReadingBack(id, b), 10, map[], [], None)
    ensures var y, s' := TxId(c, 2), Next(s, ReadBack(TxId(c, 2)));
            y in s'.txs && s'.txs[y].answer == Some(Success(Duplicate)) && s'.effects == s.effects && s'.claims == map[]
  {
  }

  lemma {:induction false} RunTen(a: seq<Step>, b: seq<Step>)
    requires |a| == 5 && |b| == 5
    ensures Run(Init(0), a + b)
         == Next(Next(Next(Next(Next(Next(Next(Next(Next(Next(Init(0), a[0]), a[1]), a[2]), a[3]), a[4]), b[0]),
             b[1]), b[2]), b[3]), b[4])
  {
    hide Next;
    var c := a + b;
    RunFive(Init(0), c, 0, Init(0));
    RunFive(Init(0), c, 5, Run(Init(0), c[..5]));
    assert c[..0] == [] && c[..10] == c;
    assert c[0] == a[0] && c[1] == a[1] && c[2] == a[2] && c[3] == a[3] && c[4] == a[4];
    assert c[5] == b[0] && c[6] == b[1] && c[7] == b[2] && c[8] == b[3] && c[9] == b[4];
  }

  lemma {:induction false} RunFive(s: State, c: seq<Step>, n: nat, r: State)
    requires n + 5 <= |c| && Run(s, c[..n]) == r
    ensures Run(s, c[..n + 5]) == Next(Next(Next(Next(Next(r, c[n]), c[n + 1]), c[n + 2]), c[n + 3]), c[n + 4])
  {
    hide Next, Run;
    RunSnoc(s, c, n);
    RunSnoc(s, c, n + 1);
    RunSnoc(s, c, n + 2);
    RunSnoc(s, c, n + 3);
    RunSnoc(s, c, n + 4);
  }

  lemma {:induction false} RunSnoc(s: State, steps: seq<Step>, n: nat)
    requires n < |steps|
    ensures Run(s, steps[..n + 1]) == Next(Run(s, steps[..n]), steps[n])
  {
    hide Next;
    assert steps[..n + 1][..n] == steps[..n];
  }

  // ---- A session's calls are the transaction's steps -----------------------------------------

  /** `Session.Begin` and `Session.MarkProcessed` are what the steps of a transaction do:
      `s` is where the insert ran, `r` where the read-back of a lost insert runs. */
  lemma {:induction false} BeginIsSteps(s: State, x: TxId, messageId: Uuid, tenant: Option<Uuid>, r: State)
    requires IsOpen(s, x) && s.txs[x].pc.Idle? && !LockedFor(s, x, Key(x.consumer, messageId))
    requires x in r.txs && r.txs[x] == Next(s, Begin(x, messageId, tenant)).txs[x]
    ensures var k, t, lost := Key(x.consumer, messageId), s.txs[x], r.txs[x].pc.ReadingBack?;
            var t' := if lost then Next(r, ReadBack(x)).txs[x] else r.txs[x];
            var answer := Begun(s.claims + t.pending, r.claims + t.pending, k, tenant);
            && t'.answer == Some(answer)
            && t'.pending == (if answer == Success(Process) then t.pending[k := Claim(tenant, None)] else t.pending)
            && (t'.pc == if answer == Success(Process) then Effecting(messageId) else Idle)
  {
    hide Blank;
  }

  // ---- Consumers are independent -------------------------------------------------------------

  function ClaimsOf(claims: Claims, c: string): Claims { map k | k in claims && k.consumer == c :: claims[k] }

  function EffectsOf(effects: seq<Effect>, c: string): seq<Effect> {
    if effects == [] then []
    else if effects[|effects| - 1].key.consumer == c
        then EffectsOf(effects[..|effects| - 1], c) + [effects[|effects| - 1]]
    else EffectsOf(effects[..|effects| - 1], c)
  }

  /** What consumer `c` has of a state. */
  ghost predicate ViewOf(s: State, c: string, v: State) {
    && v.now == s.now && v.claims == ClaimsOf(s.claims, c) && v.effects == EffectsOf(s.effects, c)
    && v.txs == (map x | x in s.txs && x.consumer == c :: s.txs[x])
    && (forall k :: v.purged[k] == if k.consumer == c then s.purged[k] else 0)
  }

  predicate Concerns(step: Step, c: string) { step.Tick? || step.PurgeProcessed? || step.x.consumer == c }

  function StepsOf(steps: seq<Step>, c: string): seq<Step> {
    if steps == [] then []
    else if Concerns(steps[|steps| - 1], c) then StepsOf(steps[..|steps| - 1], c) + [steps[|steps| - 1]]
    else StepsOf(steps[..|steps| - 1], c)
  }

  lemma {:induction false} EffectsOfAppend(a: seq<Effect>, b: seq<Effect>, c: string)
    ensures EffectsOf(a + b, c) == EffectsOf(a, c) + EffectsOf(b, c)
  {
    if b == [] {
      assert a + b == a;
    } else {
      EffectsOfAppend(a, b[..|b| - 1], c);
      assert (a + b)[..|a + b| - 1] == a + b[..|b| - 1];
    }
  }

  /** The effects of a transaction all belong to its consumer. */
  lemma {:induction false} OwnEffects(effects: seq<Effect>, owner: string, c: string)
    requires forall i | 0 <= i < |effects| :: effects[i].key.consumer == owner
    ensures EffectsOf(effects, c) == if owner == c then effects else []
  {
    if effects != [] {
      OwnEffects(effects[..|effects| - 1], owner, c);
    }
  }

  lemma {:induction false} CountsMember(effects: seq<Effect>, i: nat)
    requires i < |effects|
    ensures Count(effects, effects[i].key) > 0
  {
    if i < |effects| - 1 {
      CountsMember(effects[..|effects| - 1], i);
    }
  }

  lemma {:induction false} TxEffects(s: State, x: TxId, c: string)
    requires Inv(s) && IsOpen(s, x)
    ensures EffectsOf(s.txs[x].effects, c) == if x.consumer == c then s.txs[x].effects else []
    ensures forall k | k in s.txs[x].pending :: k.consumer == x.consumer
  {
    var t := s.txs[x];
    forall i | 0 <= i < |t.effects| ensures t.effects[i].key.consumer == x.consumer {
      OpenFacts(s, x, t.effects[i].key);
      CountsMember(t.effects, i);
    }
    forall k | k in t.pending ensures k.consumer == x.consumer {
      OpenFacts(s, x, k);
    }
    OwnEffects(t.effects, x.consumer, c);
  }

  /** A lock on one of `c`'s keys is held by one of `c`'s transactions. */
  lemma {:induction false} LockIsOwn(s: State, v: State, x: TxId, messageId: Uuid)
    requires Inv(s) && ViewOf(s, x.consumer, v)
    ensures var k := Key(x.consumer, messageId); LockedFor(s, x, k) <==> LockedFor(v, x, k)
  {
    var k := Key(x.consumer, messageId);
    if LockedFor(s, x, k) {
      var y :| y in s.txs && y != x && !s.txs[y].pc.Ended? && k in s.txs[y].pending;
      OpenFacts(s, y, k);
      assert y in v.txs && v.txs[y] == s.txs[y];
    }
    assert forall y | y in v.txs :: y in s.txs && v.txs[y] == s.txs[y];
  }

  lemma {:induction false} ViewFacts(s: State, v: State, c: string)
    requires ViewOf(s, c, v)
    ensures v.now == s.now
    ensures forall x: TxId | x.consumer == c :: (x in v.txs <==> x in s.txs) && (x in s.txs ==> v.txs[x] == s.txs[x])
    ensures forall k: Key | k.consumer == c ::
              (k in v.claims <==> k in s.claims) && (k in s.claims ==> v.claims[k] == s.claims[k])
  {
  }

  lemma {:induction false} SetOf(s: State, v: State, x: TxId, t: Tx, c: string)
    requires ViewOf(s, c, v)
    ensures ViewOf(Set(s, x, t), c, if x.consumer == c then Set(v, x, t) else v)
  {
    hide ClaimsOf, EffectsOf;
    var s', v' := Set(s, x, t), if x.consumer == c then Set(v, x, t) else v;
    assert v'.txs == (map y | y in s'.txs && y.consumer == c :: s'.txs[y]);
  }

  predicate IsLocal(step: Step) { !step.Tick? && !step.PurgeProcessed? && !step.Commit? }

  /** A step that is neither global nor a commit changes one transaction. */
  lemma {:induction false} LocalStep(s: State, step: Step)
    requires IsLocal(step)
    ensures Next(s, step)
        == s || (step.x in Next(s, step).txs && Next(s, step) == Set(s, step.x, Next(s, step).txs[step.x]))
    ensures step.x in s.txs ==>
              step.x in Next(s, step).txs && Next(s, step) == Set(s, step.x, Next(s, step).txs[step.x])
  {
    hide LockedFor, Blank, Stamped, TenantAt, DecideConflictingClaim;
    if step.x in s.txs {
      assert s == Set(s, step.x, s.txs[step.x]);
    }
  }

  lemma {:induction false} SameLocalStep(s: State, v: State, step: Step)
    requires Inv(s) && IsLocal(step) && ViewOf(s, step.x.consumer, v) && step.x in s.txs
    ensures step.x in v.txs && Next(v, step).txs[step.x] == Next(s, step).txs[step.x]
  {
    hide Inv, ViewOf, LockedFor, Blank;
    var x := step.x;
    ViewFacts(s, v, x.consumer);
    var t := s.txs[x];
    match step
    case Begin(_, id, _) => LockIsOwn(s, v, x, id);
    case Mark(_) =>
      if t.pc.Stamping? {
        var k := Key(x.consumer, t.pc.messageId);
        assert k in s.claims + t.pending <==> k in v.claims + t.pending;
      }
    case ReadBack(_) =>
      if t.pc.ReadingBack? {
        var k := Key(x.consumer, t.pc.messageId);
        assert TenantAt(s.claims + t.pending, k) == TenantAt(v.claims + t.pending, k);
      }
    case _ =>
  }

  lemma {:induction false} OwnStep(s: State, v: State, step: Step, c: string)
    requires Inv(s) && ViewOf(s, c, v) && IsLocal(step) && step.x.consumer == c
    ensures ViewOf(Next(s, step), c, Next(v, step))
  {
    hide Inv, ViewOf, DoBegin, DoReadBack, DoRunEffect, DoMark;
    var x := step.x;
    ViewFacts(s, v, c);
    LocalStep(s, step);
    LocalStep(v, step);
    if x in s.txs {
      SameLocalStep(s, v, step);
      SetOf(s, v, x, Next(s, step).txs[x], c);
    } else {
      SetOf(s, v, x, Tx(Idle, s.now, map[], [], None), c);
      Unopened(s, step);
      Unopened(v, step);
    }
  }

  lemma {:induction false} Unopened(s: State, step: Step)
    requires IsLocal(step) && step.x !in s.txs
    ensures Next(s, step) == if step.Open? then Set(s, step.x, Tx(Idle, s.now, map[], [], None)) else s
  {
    hide LockedFor, Blank, Stamped, TenantAt, DecideConflictingClaim;
  }

  lemma {:induction false} ForeignStep(s: State, v: State, step: Step, c: string)
    requires ViewOf(s, c, v) && IsLocal(step) && step.x.consumer != c
    ensures ViewOf(Next(s, step), c, v)
  {
    hide ViewOf, Next;
    LocalStep(s, step);
    if Next(s, step) != s {
      SetOf(s, v, step.x, Next(s, step).txs[step.x], c);
    }
  }

  lemma {:induction false} ClaimsOfSum(a: Claims, b: Claims, owner: string, c: string)
    requires forall k | k in b :: k.consumer == owner
    ensures ClaimsOf(a + b, c) == if owner == c then ClaimsOf(a, c) + b else ClaimsOf(a, c)
  {
  }

  lemma {:induction false} CommitStep(s: State, v: State, x: TxId, c: string)
    requires Inv(s) && ViewOf(s, c, v)
    ensures ViewOf(DoCommit(s, x), c, if x.consumer == c then DoCommit(v, x) else v)
  {
    hide Inv, ClaimsOf, EffectsOf;
    ViewFacts(s, v, c);
    if IsOpen(s, x) && s.txs[x].pc.Idle? {
      var t := s.txs[x];
      TxEffects(s, x, c);
      EffectsOfAppend(s.effects, t.effects, c);
      ClaimsOfSum(s.claims, t.pending, x.consumer, c);
      SetOf(s, v, x, t.(pc := Ended), c);
    }
  }

  lemma {:induction false} PurgedOf(claims: Claims, now: int, age: int, c: string)
    ensures ClaimsOf(Purged(claims, now, age), c) == Purged(ClaimsOf(claims, c), now, age)
  {
    hide Expired;
  }

  lemma {:induction false} PurgeStep(s: State, v: State, age: int, c: string)
    requires ViewOf(s, c, v)
    ensures ViewOf(DoPurge(s, age), c, DoPurge(v, age))
  {
    hide EffectsOf, Expired;
    PurgedOf(s.claims, s.now, age, c);
    if age > 0 {
      var s', v' := DoPurge(s, age), DoPurge(v, age);
      forall k ensures v'.purged[k] == if k.consumer == c then s'.purged[k] else 0 {
        assert v.purged[k] == if k.consumer == c then s.purged[k] else 0;
        assert k in v.claims <==> k in s.claims && k.consumer == c;
        assert k in v'.claims <==> k in s'.claims && k.consumer == c;
      }
    }
  }

  /** Consumers are independent: what a consumer has after any run, its claims, effects,
      purges and transactions with their answers, is what it has after the run of its own
      steps alone. */
  lemma {:induction false} ConsumersAreIndependent(now: int, steps: seq<Step>, c: string)
    ensures ViewOf(Run(Init(now), steps), c, Run(Init(now), StepsOf(steps, c)))
  {
    if steps != [] {
      var init, last := steps[..|steps| - 1], steps[|steps| - 1];
      ConsumersAreIndependent(now, init, c);
      RunKeeps(now, init);
      StepOf(Run(Init(now), init), Run(Init(now), StepsOf(init, c)), last, c);
      var mine := StepsOf(init, c);
      assert (mine + [last])[..|mine|] == mine;
    }
  }

  lemma {:induction false} StepOf(s: State, v: State, step: Step, c: string)
    requires Inv(s) && ViewOf(s, c, v)
    ensures ViewOf(Next(s, step), c, if Concerns(step, c) then Next(v, step) else v)
  {
    hide Inv, DoPurge, DoCommit;
    match step
    case Tick(_) =>
    case PurgeProcessed(age) => PurgeStep(s, v, age, c);
    case Commit(x) => CommitStep(s, v, x, c);
    case _ =>
      if step.x.consumer == c {
        OwnStep(s, v, step, c);
      } else {
        ForeignStep(s, v, step, c);
      }
  }
}
