/** What a claim of the per-consumer inbox records: who may claim, and when a claim may go. */
module ConsumerClaims {
  import opened Wrappers
  import opened ConsumerInbox
  import Subjects

  // ---- Stamps and names ---------------------------------------------------------------

  /** Committed claims are stamped and have a named consumer; so have the claims of an open
      transaction, but for the stamp of the one it is working on. */
  ghost predicate WellKept(s: State) {
    && (forall k {:trigger s.claims[k]} | k in s.claims :: s.claims[k].processedAt.Some? && !Blank(k.consumer))
    && (forall x {:trigger s.txs[x]} | x in s.txs && !s.txs[x].pc.Ended? :: KeptTx(s.txs[x]))
  }

  ghost predicate KeptTx(t: Tx) {
    forall k {:trigger t.pending[k]} | k in t.pending ::
      !Blank(k.consumer) && (t.pending[k].processedAt.Some? || t.pc == Effecting(k.messageId) || t.pc
          == Stamping(k.messageId))
  }

  lemma {:induction false} OwnKeys(s: State, x: TxId)
    requires Inv(s) && IsOpen(s, x)
    ensures forall k | k in s.txs[x].pending :: k.consumer == x.consumer
  {
    forall k | k in s.txs[x].pending ensures k.consumer == x.consumer { OpenFacts(s, x, k); }
  }

  lemma {:induction false} TxStaysKept(s: State, step: Step, x: TxId)
    requires Inv(s) && WellKept(s) && IsLocal(step) && step.x == x && IsOpen(Next(s, step), x)
    ensures KeptTx(Next(s, step).txs[x])
  {
    hide Inv, LockedFor, Blank, DecideConflictingClaim;
    if IsOpen(s, x) {
      OwnKeys(s, x);
      assert KeptTx(s.txs[x]);
    }
  }

  lemma {:induction false} StaysWellKept(s: State, step: Step)
    requires Inv(s) && WellKept(s)
    ensures WellKept(Next(s, step))
  {
    hide Inv, KeptTx, Blank;
    var s' := Next(s, step);
    if IsLocal(step) {
      LocalStep(s, step);
      forall x | x in s'.txs && !s'.txs[x].pc.Ended? ensures KeptTx(s'.txs[x]) {
        if x == step.x { TxStaysKept(s, step, x); }
      }
      LocalKeepsClaims(s, step);
    } else if step.Commit? {
      CommitKeepsClaims(s, step.x);
    } else {
      PurgeKeepsClaims(s, step);
    }
  }

  lemma {:induction false} LocalKeepsClaims(s: State, step: Step)
    requires IsLocal(step)
    ensures Next(s, step).claims == s.claims
  {
    hide LockedFor, Blank, DecideConflictingClaim, Stamped;
  }

  lemma {:induction false} CommitKeepsClaims(s: State, x: TxId)
    requires WellKept(s)
    ensures WellKept(DoCommit(s, x))
  {
    hide Blank;
    if IsOpen(s, x) { assert KeptTx(s.txs[x]); }
  }

  lemma {:induction false} PurgeKeepsClaims(s: State, step: Step)
    requires WellKept(s) && (step.Tick? || step.PurgeProcessed?)
    ensures WellKept(Next(s, step))
  {
    hide Blank, KeptTx, Expired;
  }

  lemma {:induction false} WellKeptRun(now: int, steps: seq<Step>)
    ensures WellKept(Run(Init(now), steps))
  {
    hide Next, WellKept;
    if steps == [] {
      StartsWellKept(now);
    } else {
      var before := steps[..|steps| - 1];
      WellKeptRun(now, before);
      RunKeeps(now, before);
      StaysWellKept(Run(Init(now), before), steps[|steps| - 1]);
    }
  }

  lemma {:induction false} StartsWellKept(now: int)
    ensures WellKept(Init(now))
  {
  }

  /** A purge takes exactly the claims stamped before its cutoff, and every committed claim has a
      stamp: nothing that is not yet done is ever forgotten, and nothing younger than the age. */
  lemma {:induction false} PurgesOnlyOldClaims(now: int, steps: seq<Step>, age: int, k: Key)
    requires k in Run(Init(now), steps).claims
    ensures var s := Run(Init(now), steps); var s' := Next(s, PurgeProcessed(age));
            && s.claims[k].processedAt.Some?
            && (k in s'.claims <==> age <= 0 || s.now - age <= s.claims[k].processedAt.value)
            && (k in s'.claims ==> s'.claims[k] == s.claims[k])
  {
    hide Run;
    WellKeptRun(now, steps);
  }

  /** Every claim belongs to a consumer with a name: one with a character other than space, tab,
      carriage return and line feed. */
  lemma {:induction false} ClaimsAreNamed(now: int, steps: seq<Step>, k: Key)
    requires k in Run(Init(now), steps).claims
    ensures exists i :: 0 <= i < |k.consumer| && k.consumer[i] != ' ' && k.consumer[i] != '\t'
                        && k.consumer[i] != '\r' && k.consumer[i] != '\n'
  {
    hide Run;
    WellKeptRun(now, steps);
    var i :| 0 <= i < |k.consumer| && !Subjects.IsWhitespace(k.consumer[i]);
  }

  /** A nameless consumer is refused before anything is written; a name with any visible ASCII
      character is not. */
  lemma {:induction false} NamelessIsRefused(s: State, x: TxId, messageId: Uuid, tenant: Option<Uuid>)
    requires IsOpen(s, x) && s.txs[x].pc.Idle?
    ensures var s' := Next(s, Begin(x, messageId, tenant));
            && ((forall i | 0 <= i < |x.consumer| :: x.consumer[i] == ' ' || x.consumer[i] == '\t') ==>
                  s' == Set(s, x, s.txs[x].(answer := Some(Failure(InvalidConsumer)))))
            && ((exists i :: 0 <= i < |x.consumer| && '!' <= x.consumer[i] <= '~') ==>
                  s'.txs[x].answer != Some(Failure(InvalidConsumer)) || s' == s)
  {
    hide LockedFor;
    if i :| 0 <= i < |x.consumer| && '!' <= x.consumer[i] <= '~' {
      assert !Subjects.IsWhitespace(x.consumer[i]);
    }
  }
}
