/** Why a row is COMPLETED or FAILED, and why an intent is still spent: every outcome has its cause on record. */
module TransferSettlement {
  import opened Common
  import opened Transfers
  import opened TransferInvariants
  import opened TransferLifecycle
  import opened TransferTheorems

  // ----- what the chain answered

  /** A job asks the chain once, and goes on as it was answered. */
  predicate AnswerOk(job: Job) {
    && (job.at.Settle? ==> job.heard == Some(ChainStatus(if job.at.confirmed then Confirmed else Reverted)))
    && (job.at.WriteReceipt? ==> job.heard == Some(ChainStatus(Confirmed)))
    && (job.at.Requeue? ==> job.heard == Some(ChainStatus(Pending)))
    && (job.at.NoSignature? ==> job.body.Process? || job.body.txHash == "")
    && (job.at.Poll? ==> job.body.Check? && job.body.txHash != "")
    && (job.at.Record? ==> job.heard == Some(ChainHash(job.at.hash)))
    && (job.at.QueueCheck? ==> job.heard == Some(ChainHash(job.at.hash)))
    && (job.at.Finished? ==> job.heard.Some?)
    && (job.heard.Some? ==>
          if job.body.Check? then
            && job.heard.value.ChainStatus? && job.body.txHash != ""
            && (job.at.Settle? || job.at.WriteReceipt? || job.at.Requeue? || job.at.Finished? || job.at.Crashed?)
          else
            && job.heard.value.ChainHash?
            && (job.at.Record? || job.at.QueueCheck? || job.at.Fail? || job.at.Finished? || job.at.Crashed?))
  }

  ghost predicate AnswersOk(s: Store) {
    forall j :: 0 <= j < |s.jobs| ==> AnswerOk(s.jobs[j])
  }

  lemma OwnStepAnswered(s: Store, j: nat, input: Input)
    requires j < |s.jobs| && JobOk(s, j) && AnswerOk(s.jobs[j])
    ensures AnswerOk(RunJob(s, j, input).jobs[j])
    ensures s.jobs[j].heard.Some? ==> RunJob(s, j, input).jobs[j].heard == s.jobs[j].heard
    ensures s.jobs[j].at.Crashed? ==> RunJob(s, j, input).jobs[j] == s.jobs[j]
  {
  }

  /** New jobs start unanswered, and a step moves no job but its own. */
  lemma OtherJobsStay(verify: Verifier, s: Store, a: Action)
    ensures var t := Step(verify, s, a);
            && |s.jobs| <= |t.jobs|
            && (forall j :: 0 <= j < |s.jobs| && !(a.JobStep? && a.job == j) ==> t.jobs[j] == s.jobs[j])
            && (forall j :: |s.jobs| <= j < |t.jobs| ==> t.jobs[j].at.Start? && t.jobs[j].heard == None)
  {
  }

  lemma StepKeepsAnswers(verify: Verifier, s: Store, a: Action)
    requires Inv(verify, s) && AnswersOk(s)
    ensures AnswersOk(Step(verify, s, a))
    ensures var t := Step(verify, s, a);
            && |s.jobs| <= |t.jobs|
            && forall j :: 0 <= j < |s.jobs| ==>
                 && (s.jobs[j].heard.Some? ==> t.jobs[j].heard == s.jobs[j].heard)
                 && (s.jobs[j].at.Crashed? ==> t.jobs[j].at.Crashed?)
  {
    OtherJobsStay(verify, s, a);
    if a.JobStep? && a.job < |s.jobs| {
      assert JobOk(s, a.job);
      OwnStepAnswered(s, a.job, a.input);
    }
  }

  // ----- causes

  /** Job `j` heard the chain for row `r` and heard `answer`. */
  predicate Heard(s: Store, j: nat, r: nat, answer: TxStatus) {
    j < |s.jobs| && s.jobs[j].row == r && s.jobs[j].body.Check? && s.jobs[j].heard == Some(ChainStatus(answer))
  }

  ghost predicate WasHeard(s: Store, r: nat, answer: TxStatus) { exists j: nat :: Heard(s, j, r, answer) }

  /** The chain took a transaction of row `r` from job `j`, under hash `h`. */
  predicate Taken(s: Store, j: nat, r: nat, h: string) {
    j < |s.jobs| && s.jobs[j].row == r && s.jobs[j].body.Process? && s.jobs[j].heard == Some(ChainHash(h))
  }

  ghost predicate WasTaken(s: Store, r: nat) { exists j: nat, h :: Taken(s, j, r, h) }

  /** Job `j` of row `r` ended without a transaction to send, or without the chain taking it. */
  predicate NeverSent(s: Store, j: nat, r: nat) {
    j < |s.jobs| && s.jobs[j].row == r && s.jobs[j].at.Crashed? && s.jobs[j].body.Process? && s.jobs[j].heard == None
  }

  /** Job `j` of row `r` had its transaction taken and then threw, before its check was queued. */
  predicate Abandoned(s: Store, j: nat, r: nat) {
    j < |s.jobs| && s.jobs[j].row == r && s.jobs[j].at.Crashed? && s.jobs[j].body.Process? && s.jobs[j].heard.Some?
  }

  /** Job `j` of row `r` was to check an empty hash. */
  predicate NoHash(s: Store, j: nat, r: nat) {
    j < |s.jobs| && s.jobs[j].row == r && s.jobs[j].at.Crashed? && s.jobs[j].body == Check("")
  }

  predicate GaveUp(s: Store, j: nat, r: nat) { NeverSent(s, j, r) || Abandoned(s, j, r) || NoHash(s, j, r) }

  /** The submit that made row `r` marked it FAILED. */
  predicate Closed(s: Store, i: nat, r: nat) {
    i < |s.calls| && s.calls[i].SubmitCall? && s.calls[i].submitAt == MarkedFailed(r, true)
  }

  predicate Terminal(status: RowStatus) { status == COMPLETED || status == FAILED }

  ghost predicate HasCause(s: Store, r: nat)
    requires r < |s.rows|
  {
    && (s.rows[r].status == COMPLETED ==> WasHeard(s, r, Confirmed))
    && (s.rows[r].status == FAILED ==>
          WasHeard(s, r, Reverted) || (exists j: nat :: GaveUp(s, j, r)) || (exists i: nat :: Closed(s, i, r)))
  }

  /** A job that wrote its verdict finds it in the row. */
  predicate Took(row: Row, job: Job) {
    && (job.heard == Some(ChainStatus(Confirmed)) && (job.at.WriteReceipt? || job.at.Finished?) ==>
          row.status == COMPLETED)
    && (job.heard == Some(ChainStatus(Reverted)) && job.at.Finished? ==> row.status == FAILED)
  }

  ghost predicate Settled(s: Store, r: nat)
    requires r < |s.rows|
  {
    HasCause(s, r) && forall j :: 0 <= j < |s.jobs| && s.jobs[j].row == r ==> Took(s.rows[r], s.jobs[j])
  }

  ghost predicate AllSettled(s: Store) {
    AnswersOk(s) && forall r: nat :: Tracked(s, r) ==> Settled(s, r)
  }

  /** A cause on record stays on record. */
  lemma CausesStay(verify: Verifier, s: Store, a: Action, r: nat)
    requires Inv(verify, s) && AnswersOk(s)
    ensures var t := Step(verify, s, a);
            && (forall answer :: WasHeard(s, r, answer) ==> WasHeard(t, r, answer))
            && ((exists j: nat :: GaveUp(s, j, r)) ==> exists j: nat :: GaveUp(t, j, r))
            && ((exists i: nat :: Closed(s, i, r)) ==> exists i: nat :: Closed(t, i, r))
  {
    var t := Step(verify, s, a);
    StepKeepsAnswers(verify, s, a);
    JobsStay(verify, s, a);
    ClosedStays(verify, s, a, r);
    forall answer | WasHeard(s, r, answer) ensures WasHeard(t, r, answer) {
      var j: nat :| Heard(s, j, r, answer);
      assert Heard(t, j, r, answer);
    }
    if j: nat :| GaveUp(s, j, r) { assert GaveUp(t, j, r); }
  }

  lemma ClosedStays(verify: Verifier, s: Store, a: Action, r: nat)
    ensures (exists i: nat :: Closed(s, i, r)) ==> exists i: nat :: Closed(Step(verify, s, a), i, r)
  {
    if i: nat :| Closed(s, i, r) {
      assert Closed(Step(verify, s, a), i, r);
    }
  }

  lemma SubmitMovesHaveCause(verify: Verifier, s: Store, i: nat, input: Input, r: nat)
    requires i < |s.calls| && s.calls[i].SubmitCall? && r < |s.rows|
    requires s.calls[i].submitAt == MarkFailed(r) && RunCall(verify, s, i, input).rows[r].status != s.rows[r].status
    ensures Closed(RunCall(verify, s, i, input), i, r)
  {
  }

  lemma JobMovesHaveCause(s: Store, j: nat, input: Input, r: nat)
    requires j < |s.jobs| && JobOk(s, j) && AnswerOk(s.jobs[j]) && r < |s.rows| && s.jobs[j].row == r
    ensures var t := RunJob(s, j, input);
            && r < |t.rows|
            && (t.rows[r].status == COMPLETED && s.rows[r].status != COMPLETED ==> Heard(t, j, r, Confirmed))
            && (t.rows[r].status == FAILED && s.rows[r].status != FAILED ==>
                  Heard(t, j, r, Reverted) || GaveUp(t, j, r))
  {
  }

  /** A tracked row that changes to a terminal status has its cause in the step that changed it. */
  lemma NewStatusHasCause(verify: Verifier, s: Store, a: Action, r: nat)
    requires Inv(verify, s) && Lives(s) && AnswersOk(s) && r < |s.rows| && Tracked(Step(verify, s, a), r)
    requires r < |Step(verify, s, a).rows| && Step(verify, s, a).rows[r].status != s.rows[r].status
    ensures HasCause(Step(verify, s, a), r)
  {
    StepMovesLegally(verify, s, a, r);
    match a
    case CallStep(i, input) =>
      if i < |s.calls| && s.calls[i].SubmitCall? && s.calls[i].submitAt == MarkFailed(r) {
        SubmitMovesHaveCause(verify, s, i, input, r);
        assert Closed(Step(verify, s, a), i, r);
      }
    case JobStep(j, input) =>
      if j < |s.jobs| && s.jobs[j].row == r {
        assert JobOk(s, j);
        JobMovesHaveCause(s, j, input, r);
        var t := Step(verify, s, a);
        assert Heard(t, j, r, Confirmed) || Heard(t, j, r, Reverted) || GaveUp(t, j, r) || !Terminal(t.rows[r].status);
      }
    case _ =>
  }

  lemma OwnStepTakes(s: Store, j: nat, input: Input)
    requires j < |s.jobs| && JobOk(s, j) && AnswerOk(s.jobs[j]) && Took(s.rows[s.jobs[j].row], s.jobs[j])
    requires s.jobs[j].at.WriteReceipt? ==> s.rows[s.jobs[j].row].status == COMPLETED
    ensures var t := RunJob(s, j, input); s.jobs[j].row < |t.rows| && Took(t.rows[s.jobs[j].row], t.jobs[j])
  {
  }

  /** A verdict once taken stays taken, because terminal statuses are never left. */
  lemma VerdictsStay(verify: Verifier, s: Store, a: Action, r: nat, j: nat)
    requires Inv(verify, s) && Lives(s) && AnswersOk(s) && r < |s.rows| && Tracked(Step(verify, s, a), r)
             && Settled(s, r)
    requires r < |Step(verify, s, a).rows| && j < |Step(verify, s, a).jobs| && Step(verify, s, a).jobs[j].row == r
    ensures Took(Step(verify, s, a).rows[r], Step(verify, s, a).jobs[j])
  {
    OtherJobsStay(verify, s, a);
    if a.JobStep? && a.job == j && j < |s.jobs| {
      assert JobOk(s, j);
      JobsStay(verify, s, a);
      OwnStepTakes(s, j, a.input);
    } else if j < |s.jobs| {
      StepMovesLegally(verify, s, a, r);
    }
  }

  lemma FreshRowSettled(verify: Verifier, s: Store, a: Action)
    requires Inv(verify, s) && |Step(verify, s, a).rows| == |s.rows| + 1
    ensures Settled(Step(verify, s, a), |s.rows|)
  {
    var t := Step(verify, s, a);
    OnlyInsertsAdd(verify, s, a);
    OtherJobsStay(verify, s, a);
    forall j | 0 <= j < |t.jobs| ensures t.jobs[j].row != |s.rows| { assert JobOk(s, j); }
  }

  lemma StepSettles(verify: Verifier, s: Store, a: Action)
    requires Inv(verify, s) && Lives(s) && AllSettled(s)
    ensures AllSettled(Step(verify, s, a))
  {
    var t := Step(verify, s, a);
    StepKeepsAnswers(verify, s, a);
    OnlyInsertsAdd(verify, s, a);
    forall r: nat | Tracked(t, r) ensures Settled(t, r) {
      if r < |s.rows| {
        TrackedBefore(verify, s, a, r);
        if t.rows[r].status == s.rows[r].status {
          CausesStay(verify, s, a, r);
        } else {
          NewStatusHasCause(verify, s, a, r);
        }
        forall j | 0 <= j < |t.jobs| && t.jobs[j].row == r ensures Took(t.rows[r], t.jobs[j]) {
          VerdictsStay(verify, s, a, r, j);
        }
      } else {
        FreshRowSettled(verify, s, a);
      }
    }
  }

  /**
   * In every run a tracked COMPLETED row, and so every receipt of one, goes back to a poll of exactly its
   * hash that was answered confirmed. A FAILED row goes back to a poll of its hash that was answered reverted,
   * to a job whose transaction the chain never took, to one that threw after the chain had taken it, to a
   * check of an empty hash, or to the submit that closed it. And a job that wrote its verdict finds it in the
   * row ever after.
   */
  lemma OutcomesHaveCauses(verify: Verifier, now: int, actions: seq<Action>, r: nat)
    requires Tracked(Run(verify, EmptyStore(now), actions), r)
    ensures var s := Run(verify, EmptyStore(now), actions);
            && (s.rows[r].status == COMPLETED || r in s.receipts ==>
                  exists j: nat :: Heard(s, j, r, Confirmed) && s.rows[r].txHash == Some(s.jobs[j].body.txHash))
            && (s.rows[r].status == FAILED ==>
                  || (exists j: nat :: Heard(s, j, r, Reverted) && s.rows[r].txHash == Some(s.jobs[j].body.txHash))
                  || (exists j: nat :: NeverSent(s, j, r)) || (exists j: nat :: Abandoned(s, j, r))
                  || (exists j: nat :: NoHash(s, j, r)) || (exists i: nat :: Closed(s, i, r)))
            && (forall j :: 0 <= j < |s.jobs| && s.jobs[j].row == r ==> Took(s.rows[r], s.jobs[j]))
  {
    var s := Run(verify, EmptyStore(now), actions);
    RunIsGood(verify, now, actions);
    assert LifeOk(s, r) && Settled(s, r);
    if j: nat :| GaveUp(s, j, r) { assert NeverSent(s, j, r) || Abandoned(s, j, r) || NoHash(s, j, r); }
    forall j: nat, answer | Heard(s, j, r, answer) ensures s.rows[r].txHash == Some(s.jobs[j].body.txHash) {
      assert AnswerOk(s.jobs[j]) && JobFits(s.rows[r], s.jobs[j]);
    }
  }

  // ----- hashes

  /** A recorded hash is one the chain gave for the row's own transaction. */
  ghost predicate HashTaken(s: Store, r: nat)
    requires r < |s.rows|
  {
    s.rows[r].txHash.Some? ==> exists j: nat :: Taken(s, j, r, s.rows[r].txHash.value)
  }

  ghost predicate HashesTaken(s: Store) {
    forall r: nat :: r < |s.rows| ==> HashTaken(s, r)
  }

  lemma TakenStays(verify: Verifier, s: Store, a: Action, j: nat, r: nat, h: string)
    requires Inv(verify, s) && AnswersOk(s) && Taken(s, j, r, h)
    ensures Taken(Step(verify, s, a), j, r, h)
  {
    StepKeepsAnswers(verify, s, a);
    JobsStay(verify, s, a);
  }

  lemma OnlySetHashRecords(s: Store, q: Statement, r: nat)
    requires r < |s.rows| && !(q.SetHash? && q.row == r)
    ensures r < |Execute(s, q).rows| && Execute(s, q).rows[r].txHash == s.rows[r].txHash
  {
  }

  lemma CallsRecordNoHash(verify: Verifier, s: Store, i: nat, input: Input)
    requires i < |s.calls|
    ensures !CallNext(verify, s, i, input).0.SetHash?
  {
  }

  /** Only the job that heard a hash records it. */
  lemma NewHashIsTaken(verify: Verifier, s: Store, a: Action, r: nat)
    requires Inv(verify, s) && AnswersOk(s) && r < |s.rows| && r < |Step(verify, s, a).rows|
    requires Step(verify, s, a).rows[r].txHash != s.rows[r].txHash
    ensures a.JobStep? && Step(verify, s, a).rows[r].txHash.Some?
    ensures Taken(Step(verify, s, a), a.job, r, Step(verify, s, a).rows[r].txHash.value)
  {
    match a
    case CallStep(i, input) =>
      if i < |s.calls| {
        CallsRecordNoHash(verify, s, i, input);
        OnlySetHashRecords(s, CallNext(verify, s, i, input).0, r);
      }
    case JobStep(j, input) =>
      if j < |s.jobs| {
        assert JobOk(s, j) && AnswerOk(s.jobs[j]);
        var q := JobNext(s, j, s.jobs[j], input).0;
        if !(q.SetHash? && q.row == r) { OnlySetHashRecords(s, q, r); }
      }
    case _ =>
  }

  lemma StepKeepsHashes(verify: Verifier, s: Store, a: Action)
    requires Inv(verify, s) && AnswersOk(s) && HashesTaken(s)
    ensures HashesTaken(Step(verify, s, a))
  {
    var t := Step(verify, s, a);
    OnlyInsertsAdd(verify, s, a);
    forall r: nat | r < |t.rows| && t.rows[r].txHash.Some? ensures HashTaken(t, r) {
      if r < |s.rows| {
        if t.rows[r].txHash == s.rows[r].txHash {
          assert HashTaken(s, r);
          var j: nat :| Taken(s, j, r, s.rows[r].txHash.value);
          TakenStays(verify, s, a, j, r, s.rows[r].txHash.value);
        } else {
          NewHashIsTaken(verify, s, a, r);
        }
      } else {
        FreshRowUnsent(verify, s, a);
      }
    }
  }

  lemma FreshRowUnsent(verify: Verifier, s: Store, a: Action)
    requires |Step(verify, s, a).rows| == |s.rows| + 1
    ensures Step(verify, s, a).rows[|s.rows|].txHash == None
  {
    OnlyInsertsAdd(verify, s, a);
  }

  // ----- spent intents

  /** The write that should have released intent `n` threw. */
  predicate Strands(c: Call, n: nat) {
    && c.SubmitCall? && c.submit.intent == n
    && ((c.submitAt.RolledBack? && !c.submitAt.written) || (c.submitAt.Replayed? && c.submitAt.stranded))
  }

  predicate Holder(s: Store, i: nat, n: nat) {
    i < |s.calls| && (OwnsIntent(s.calls[i], n) || Strands(s.calls[i], n))
  }

  ghost predicate HasHolder(s: Store, n: nat) { exists i: nat :: Holder(s, i, n) }

  predicate RowOf(s: Store, r: nat, n: nat) {
    r < |s.rows| && s.rows[r].origin.FromIntent? && s.rows[r].origin.intent == n
  }

  predicate SpentUnlinked(s: Store, n: nat) {
    n < |s.intents| && s.intents[n].status == USED && s.intents[n].transactionId == None
  }

  ghost predicate Explained(s: Store, n: nat) {
    HasHolder(s, n) || (exists r: nat :: RowOf(s, r, n))
  }

  ghost predicate AllExplained(s: Store) {
    forall n: nat :: SpentUnlinked(s, n) ==> Explained(s, n)
  }

  /** A call's step: the explanation stays, or the step itself gives the new one or ends the need for it. */
  lemma CallStepExplains(verify: Verifier, s: Store, i: nat, input: Input, n: nat)
    requires Inv(verify, s) && i < |s.calls| && SpentUnlinked(RunCall(verify, s, i, input), n)
    requires SpentUnlinked(s, n) ==> Explained(s, n)
    ensures Explained(RunCall(verify, s, i, input), n)
  {
    var t := RunCall(verify, s, i, input);
    if SpentUnlinked(s, n) {
      if Holder(s, i, n) { HolderMovesOn(verify, s, i, input, n); } else { RowsAndOthersStay(verify, s, i, input, n); }
    } else {
      ClaimerHolds(verify, s, i, input, n);
      assert Holder(t, i, n);
    }
  }

  lemma RowsAndOthersStay(verify: Verifier, s: Store, i: nat, input: Input, n: nat)
    requires i < |s.calls| && Explained(s, n) && !Holder(s, i, n)
    ensures Explained(RunCall(verify, s, i, input), n)
  {
    var t := RunCall(verify, s, i, input);
    if r: nat :| RowOf(s, r, n) {
      RowFieldsStay(verify, s, CallStep(i, input), r);
      assert RowOf(t, r, n);
    } else {
      var k: nat :| Holder(s, k, n);
      assert Holder(t, k, n);
    }
  }

  lemma HolderMovesOn(verify: Verifier, s: Store, i: nat, input: Input, n: nat)
    requires Inv(verify, s) && Holder(s, i, n) && SpentUnlinked(s, n) && SpentUnlinked(RunCall(verify, s, i, input), n)
    ensures Explained(RunCall(verify, s, i, input), n)
  {
    var t := RunCall(verify, s, i, input);
    if |t.rows| > |s.rows| { assert RowOf(t, |s.rows|, n); } else { assert Holder(t, i, n); }
  }

  lemma ClaimerHolds(verify: Verifier, s: Store, i: nat, input: Input, n: nat)
    requires Inv(verify, s) && i < |s.calls| && SpentUnlinked(RunCall(verify, s, i, input), n) && !SpentUnlinked(s, n)
    ensures Holder(RunCall(verify, s, i, input), i, n)
  {
    assert IntentsOk(s);
    assert CallOk(s, i);
  }

  lemma OtherStepExplains(verify: Verifier, s: Store, a: Action, n: nat)
    requires Inv(verify, s) && !(a.CallStep? && a.call < |s.calls|) && SpentUnlinked(Step(verify, s, a), n)
    requires SpentUnlinked(s, n) ==> Explained(s, n)
    ensures Explained(Step(verify, s, a), n)
  {
    var t := Step(verify, s, a);
    CallsKept(verify, s, a);
    if k: nat :| Holder(s, k, n) {
      assert Holder(t, k, n);
    } else {
      var r: nat :| RowOf(s, r, n);
      RowFieldsStay(verify, s, a, r);
      assert RowOf(t, r, n);
    }
  }

  /** Only a call's own step touches a call, and no other step spends an intent. */
  lemma CallsKept(verify: Verifier, s: Store, a: Action)
    requires !(a.CallStep? && a.call < |s.calls|)
    ensures var t := Step(verify, s, a);
            && |s.calls| <= |t.calls| && (forall k :: 0 <= k < |s.calls| ==> t.calls[k] == s.calls[k])
            && forall n: nat :: SpentUnlinked(t, n) ==> SpentUnlinked(s, n)
  {
  }

  lemma StepExplains(verify: Verifier, s: Store, a: Action)
    requires Inv(verify, s) && AllExplained(s)
    ensures AllExplained(Step(verify, s, a))
  {
    forall n: nat | SpentUnlinked(Step(verify, s, a), n) ensures Explained(Step(verify, s, a), n) {
      if a.CallStep? && a.call < |s.calls| {
        CallStepExplains(verify, s, a.call, a.input, n);
      } else {
        OtherStepExplains(verify, s, a, n);
      }
    }
  }

  /** The call that made a row and has not linked it: about to, failing, or failed. */
  predicate Unlinking(s: Store, i: nat, n: nat) {
    && i < |s.calls| && s.calls[i].SubmitCall? && s.calls[i].submit.intent == n
    && (s.calls[i].submitAt.Link? || s.calls[i].submitAt.MarkFailed? || s.calls[i].submitAt.MarkedFailed?)
  }

  ghost predicate HasUnlinking(s: Store, n: nat) { exists i: nat :: Unlinking(s, i, n) }

  /**
   * In every run a USED intent without a link has a live owner, a call whose release write threw, or a row
   * whose call is about to link it or has failed to.
   */
  lemma SpentIntentsExplained(verify: Verifier, now: int, actions: seq<Action>, n: nat)
    requires SpentUnlinked(Run(verify, EmptyStore(now), actions), n)
    ensures HasHolder(Run(verify, EmptyStore(now), actions), n)
            || HasUnlinking(Run(verify, EmptyStore(now), actions), n)
  {
    var s := Run(verify, EmptyStore(now), actions);
    RunIsGood(verify, now, actions);
    HolderOrUnlinking(verify, s, n);
  }

  lemma HolderOrUnlinking(verify: Verifier, s: Store, n: nat)
    requires Inv(verify, s) && AllExplained(s) && SpentUnlinked(s, n)
    ensures HasHolder(s, n) || HasUnlinking(s, n)
  {
    assert Explained(s, n);
    if r: nat :| RowOf(s, r, n) { UnlinkedRowExplains(verify, s, r, n); }
  }

  lemma UnlinkedRowExplains(verify: Verifier, s: Store, r: nat, n: nat)
    requires Inv(verify, s) && RowOf(s, r, n) && SpentUnlinked(s, n)
    ensures Unlinking(s, s.rows[r].origin.call, n)
  {
    assert RowOk(verify, s, r);
    assert CallOk(s, s.rows[r].origin.call);
  }

  // ----- refusals

  ghost predicate KeyOfAnother(s: Store, key: string, userId: string) {
    exists r :: 0 <= r < |s.rows| && s.rows[r].key == key && s.rows[r].senderId != userId
  }

  predicate Says(at: SubmitPc, why: Refusal) {
    (at.Rollback? && at.why == why) || (at.RolledBack? && at.why == why)
  }

  /** A rollback for a rejected signature or a key conflict has that reason. */
  ghost predicate ReasonOk(verify: Verifier, s: Store, c: Call) {
    c.SubmitCall? ==>
      && (forall why :: Says(c.submitAt, Rejected(why)) ==>
            c.submit.intent < |s.intents| && verify(s.intents[c.submit.intent].terms, c.submit.signedTx) == Err(why))
      && (Says(c.submitAt, KeyConflict) ==> KeyOfAnother(s, c.submit.key, c.submit.userId))
      && (c.submitAt.Winner? ==> KeyTaken(s.rows, c.submit.key))
  }

  ghost predicate ReasonsOk(verify: Verifier, s: Store) {
    forall i :: 0 <= i < |s.calls| ==> ReasonOk(verify, s, s.calls[i])
  }

  /** What intents and rows were created with stays, so a reason stays a reason. */
  lemma TermsStay(verify: Verifier, s: Store, a: Action)
    ensures var t := Step(verify, s, a);
            && |s.intents| <= |t.intents|
            && (forall n :: 0 <= n < |s.intents| ==> t.intents[n].terms == s.intents[n].terms)
            && |s.rows| <= |t.rows|
            && forall r :: 0 <= r < |s.rows| ==>
                 t.rows[r].key == s.rows[r].key && t.rows[r].senderId == s.rows[r].senderId
  {
    match a
    case CallStep(i, input) => if i < |s.calls| { StatementKeepsTerms(s, CallNext(verify, s, i, input).0); }
    case JobStep(j, input) => if j < |s.jobs| { StatementKeepsTerms(s, JobNext(s, j, s.jobs[j], input).0); }
    case _ =>
  }

  lemma StatementKeepsTerms(s: Store, q: Statement)
    ensures var t := Execute(s, q);
            && |s.intents| <= |t.intents|
            && (forall n :: 0 <= n < |s.intents| ==> t.intents[n].terms == s.intents[n].terms)
            && |s.rows| <= |t.rows|
            && forall r :: 0 <= r < |s.rows| ==>
                 t.rows[r].key == s.rows[r].key && t.rows[r].senderId == s.rows[r].senderId
  {
  }

  lemma ReasonStays(verify: Verifier, s: Store, a: Action, c: Call)
    requires ReasonOk(verify, s, c)
    ensures ReasonOk(verify, Step(verify, s, a), c)
  {
    var t := Step(verify, s, a);
    TermsStay(verify, s, a);
    if c.SubmitCall? {
      if Says(c.submitAt, KeyConflict) {
        var r :| 0 <= r < |s.rows| && s.rows[r].key == c.submit.key && s.rows[r].senderId != c.submit.userId;
        assert t.rows[r].key == c.submit.key;
      }
      if c.submitAt.Winner? {
        var r :| 0 <= r < |s.rows| && s.rows[r].key == c.submit.key;
        assert t.rows[r].key == c.submit.key;
      }
    }
  }

  /** Found taken and not the caller's, the key is another user's. */
  lemma ConflictHasRow(s: Store, key: string, userId: string)
    requires KeyTaken(s.rows, key) && FindByKey(s.rows, key, userId).None?
    ensures KeyOfAnother(s, key, userId)
  {
    var r := RowWithKey(s.rows, key).value;
    assert s.rows[r].senderId != userId;
  }

  /** A submit step gives its reason as it takes it. */
  lemma StepHasReason(verify: Verifier, s: Store, i: nat, input: Input)
    requires Inv(verify, s) && i < |s.calls| && s.calls[i].SubmitCall? && ReasonOk(verify, s, s.calls[i])
    ensures ReasonOk(verify, s, CallNext(verify, s, i, input).1)
  {
    var (req, at) := (s.calls[i].submit, s.calls[i].submitAt);
    match at
    case Load => assert OwnerOk(verify, s, s.calls[i]);
    case Insert(_) =>
    case Winner =>
      if FindByKey(s.rows, req.key, req.userId).None? { ConflictHasRow(s, req.key, req.userId); }
    case Rollback(why) =>
    case _ =>
  }

  lemma StepKeepsReasons(verify: Verifier, s: Store, a: Action)
    requires Inv(verify, s) && ReasonsOk(verify, s)
    ensures ReasonsOk(verify, Step(verify, s, a))
  {
    var t := Step(verify, s, a);
    forall k | 0 <= k < |t.calls| ensures ReasonOk(verify, t, t.calls[k]) {
      if a.CallStep? && a.call == k && k < |s.calls| {
        if s.calls[k].SubmitCall? { StepHasReason(verify, s, k, a.input); }
        assert t.calls[k] == CallNext(verify, s, k, a.input).1;
        ReasonStays(verify, s, a, t.calls[k]);
      } else if k < |s.calls| {
        assert t.calls[k] == s.calls[k];
        ReasonStays(verify, s, a, s.calls[k]);
      }
    }
  }

  // ----- everything together

  /** All that a run from an empty store keeps. */
  ghost predicate Good(verify: Verifier, s: Store) {
    && Inv(verify, s) && Lives(s) && AllAccounted(s) && AllSettled(s) && HashesTaken(s) && AllExplained(s)
    && ReasonsOk(verify, s)
  }

  lemma StepKeepsGood(verify: Verifier, s: Store, a: Action)
    requires Good(verify, s)
    ensures Good(verify, Step(verify, s, a))
  {
    StepKeepsInv(verify, s, a);
    StepKeepsLives(verify, s, a);
    StepAccounts(verify, s, a);
    StepSettles(verify, s, a);
    StepKeepsHashes(verify, s, a);
    StepExplains(verify, s, a);
    StepKeepsReasons(verify, s, a);
  }

  lemma {:induction false} RunKeepsGood(verify: Verifier, s: Store, actions: seq<Action>)
    requires Good(verify, s)
    ensures Good(verify, Run(verify, s, actions))
  {
    if actions != [] {
      RunKeepsGood(verify, s, actions[..|actions| - 1]);
      StepKeepsGood(verify, Run(verify, s, actions[..|actions| - 1]), actions[|actions| - 1]);
    }
  }

  lemma RunIsGood(verify: Verifier, now: int, actions: seq<Action>)
    ensures Good(verify, Run(verify, EmptyStore(now), actions))
  {
    EmptyIsFine(verify, now);
    RunKeepsGood(verify, EmptyStore(now), actions);
  }

  /** In every run, a submit rolled back for a rejected signature or a key conflict has that very reason on record. */
  lemma RefusalsTruthful(verify: Verifier, now: int, actions: seq<Action>, i: nat)
    requires i < |Run(verify, EmptyStore(now), actions).calls|
             && Run(verify, EmptyStore(now), actions).calls[i].SubmitCall?
    ensures var s := Run(verify, EmptyStore(now), actions);
            var req := s.calls[i].submit;
            && (forall why :: Says(s.calls[i].submitAt, Rejected(why)) ==>
                  req.intent < |s.intents| && verify(s.intents[req.intent].terms, req.signedTx) == Err(why))
            && (Says(s.calls[i].submitAt, KeyConflict) ==> KeyOfAnother(s, req.key, req.userId))
  {
    RunIsGood(verify, now, actions);
    assert ReasonOk(verify, Run(verify, EmptyStore(now), actions), Run(verify, EmptyStore(now), actions).calls[i]);
  }
}
