/** The life of one ledger row: one hand-over to the queue, one live job, a terminal status that stays. */
module TransferLifecycle {
  import opened Common
  import opened Transfers
  import opened TransferInvariants

  /** Rows created by `send`, and rows created by `submit` that no `broadcast` call names. */
  ghost predicate Tracked(s: Store, r: nat) {
    && r < |s.rows|
    && (s.rows[r].origin.FromSend?
        || forall i :: 0 <= i < |s.calls| && s.calls[i].BroadcastCall? ==> s.calls[i].broadcast.row != r)
  }

  /** The status a row has while a job stands where it does. */
  predicate JobFits(row: Row, job: Job) {
    && (job.body.Check? ==> row.txHash == Some(job.body.txHash))
    && match job.at
    case QueueCheck(h) => row.status == PROCESSING && row.txHash == Some(h)
    case Finished => true
    case Crashed => true
    case WriteReceipt => row.status == COMPLETED
    case Start => row.status == PROCESSING || (job.body.Process? && row.origin.FromIntent? && row.status == PENDING)
    case NoSignature =>
      row.status == PROCESSING || (job.body.Process? && row.origin.FromIntent? && row.status == PENDING)
    case MarkProcessing => row.status == PROCESSING || (row.origin.FromIntent? && row.status == PENDING)
    case _ => row.status == PROCESSING
  }

  /** At most one call holds the row, and none once a job exists. */
  ghost predicate OneHolder(s: Store, r: nat)
    requires r < |s.rows|
  {
    && (forall i, k :: 0 <= i < k < |s.calls| && HoldsRow(s.calls[i], r) ==> !HoldsRow(s.calls[k], r))
    && (forall i, j :: 0 <= i < |s.calls| && 0 <= j < |s.jobs| && HoldsRow(s.calls[i], r) ==> s.jobs[j].row != r)
    && (forall i :: 0 <= i < |s.calls| && HoldsRow(s.calls[i], r) ==>
          if s.calls[i].BroadcastCall? then s.rows[r].status == PROCESSING && s.rows[r].txHash == None
          else s.rows[r].status == PENDING)
  }

  /** One process job ever, checks only after it has finished, one live job at a time, each fitting the row's status. */
  ghost predicate OneJob(s: Store, r: nat)
    requires r < |s.rows|
  {
    && (forall j, k :: 0 <= j < k < |s.jobs| && s.jobs[j].row == r && s.jobs[k].row == r ==>
          && !(Live(s.jobs[j]) && Live(s.jobs[k]))
          && !(s.jobs[j].body.Process? && s.jobs[k].body.Process?)
          && (!s.jobs[j].at.Finished? && s.jobs[j].body.Process? ==> !s.jobs[k].body.Check?)
          && (!s.jobs[k].at.Finished? && s.jobs[k].body.Process? ==> !s.jobs[j].body.Check?))
    && (forall j :: 0 <= j < |s.jobs| && s.jobs[j].row == r ==> JobFits(s.rows[r], s.jobs[j]))
    && (s.rows[r].origin.FromSend? && s.rows[r].status == PENDING ==>
          s.rows[r].txHash == None && forall j :: 0 <= j < |s.jobs| ==> s.jobs[j].row != r)
  }

  ghost predicate LifeOk(s: Store, r: nat)
    requires r < |s.rows|
  {
    OneHolder(s, r) && OneJob(s, r) && (r in s.receipts ==> s.rows[r].status == COMPLETED)
  }

  ghost predicate ReceiptsOk(s: Store) {
    && (forall x :: x in s.receipts ==> x < |s.rows|)
    && (forall a, b :: 0 <= a < b < |s.receipts| ==> s.receipts[a] != s.receipts[b])
  }

  ghost predicate Lives(s: Store) {
    ReceiptsOk(s) && forall r :: Tracked(s, r) ==> LifeOk(s, r)
  }

  // ----- preservation

  /** Nothing about row `r` changed: no new holder, no new or moved job, no status, no receipt. */
  ghost predicate Untouched(s: Store, t: Store, r: nat) {
    && r < |s.rows| && r < |t.rows| && t.rows[r] == s.rows[r]
    && (r in t.receipts ==> r in s.receipts)
    && (forall i :: 0 <= i < |t.calls| && HoldsRow(t.calls[i], r) ==>
          i < |s.calls| && HoldsRow(s.calls[i], r) && (t.calls[i].BroadcastCall? <==> s.calls[i].BroadcastCall?))
    && (forall j :: 0 <= j < |t.jobs| && t.jobs[j].row == r ==> j < |s.jobs| && t.jobs[j] == s.jobs[j])
  }

  lemma UntouchedKeepsLife(s: Store, t: Store, r: nat)
    requires Untouched(s, t, r) && LifeOk(s, r)
    ensures LifeOk(t, r)
  {
  }

  /** A row named by a tracked row's later state was tracked before. */
  lemma TrackedBefore(verify: Verifier, s: Store, a: Action, r: nat)
    requires r < |s.rows| && Tracked(Step(verify, s, a), r)
    ensures Tracked(s, r)
  {
    var t := Step(verify, s, a);
    RowFieldsStay(verify, s, a, r);
    CallsStay(verify, s, a);
    forall i | 0 <= i < |s.calls| && s.calls[i].BroadcastCall? && !s.rows[r].origin.FromSend?
      ensures s.calls[i].broadcast.row != r
    {
      assert t.calls[i].BroadcastCall? && t.calls[i].broadcast.row != r;
    }
  }

  /** No step rewrites what a row was created with, or removes it. */
  lemma RowFieldsStay(verify: Verifier, s: Store, a: Action, r: nat)
    requires r < |s.rows|
    ensures r < |Step(verify, s, a).rows|
    ensures Step(verify, s, a).rows[r] == s.rows[r].(status := Step(verify, s, a).rows[r].status,
                                                     txHash := Step(verify, s, a).rows[r].txHash)
  {
    match a
    case CallStep(i, input) => if i < |s.calls| { StatementKeepsFields(s, CallNext(verify, s, i, input).0, r); }
    case JobStep(j, input) => if j < |s.jobs| { StatementKeepsFields(s, JobNext(s, j, s.jobs[j], input).0, r); }
    case _ =>
  }

  lemma StatementKeepsFields(s: Store, q: Statement, r: nat)
    requires r < |s.rows|
    ensures r < |Execute(s, q).rows|
    ensures Execute(s, q).rows[r]
              == s.rows[r].(status := Execute(s, q).rows[r].status, txHash := Execute(s, q).rows[r].txHash)
  {
  }

  /** No step forgets a call or changes what it asked for. */
  lemma CallsStay(verify: Verifier, s: Store, a: Action)
    ensures var t := Step(verify, s, a);
            && |s.calls| <= |t.calls|
            && forall i :: 0 <= i < |s.calls| ==>
                 && (s.calls[i].SubmitCall? <==> t.calls[i].SubmitCall?)
                 && (s.calls[i].SendCall? <==> t.calls[i].SendCall?)
                 && (s.calls[i].SubmitCall? ==> t.calls[i].submit == s.calls[i].submit)
                 && (s.calls[i].SendCall? ==> t.calls[i].send == s.calls[i].send)
                 && (s.calls[i].BroadcastCall? ==> t.calls[i].broadcast == s.calls[i].broadcast)
  {
  }

  lemma HeldRowExists(verify: Verifier, s: Store, i: nat, r: nat)
    requires Inv(verify, s) && i < |s.calls| && HoldsRow(s.calls[i], r)
    ensures r < |s.rows|
    ensures s.calls[i].SubmitCall? ==> s.rows[r].origin == FromIntent(i, s.calls[i].submit.intent)
  {
    assert CallOk(s, i);
  }

  lemma NobodyElseHolds(verify: Verifier, s: Store, i: nat, input: Input)
    requires Inv(verify, s) && i < |s.calls| && CallNext(verify, s, i, input).0.InsertRow?
    ensures var t := RunCall(verify, s, i, input);
            forall k :: 0 <= k < |t.calls| && HoldsRow(t.calls[k], |s.rows|) ==> k == i && t.calls[k].SubmitCall?
  {
    var t := RunCall(verify, s, i, input);
    forall k | 0 <= k < |t.calls| && HoldsRow(t.calls[k], |s.rows|) ensures k == i && t.calls[k].SubmitCall? {
      if k != i { HeldRowExists(verify, s, k, |s.rows|); }
    }
  }

  /** A row that nothing has happened to. */
  lemma UntouchedRowLife(t: Store, r: nat)
    requires r < |t.rows| && t.rows[r].status == PENDING && t.rows[r].txHash == None && r !in t.receipts
    requires forall j :: 0 <= j < |t.jobs| ==> t.jobs[j].row != r
    requires forall i :: 0 <= i < |t.calls| && HoldsRow(t.calls[i], r) ==> t.calls[i].SubmitCall?
    requires forall i, k :: 0 <= i < k < |t.calls| && HoldsRow(t.calls[i], r) ==> !HoldsRow(t.calls[k], r)
    ensures LifeOk(t, r)
  {
  }

  lemma InsertedRowIsPending(verify: Verifier, s: Store, i: nat, input: Input)
    requires i < |s.calls| && CallNext(verify, s, i, input).0.InsertRow?
    ensures var t := RunCall(verify, s, i, input);
            && t.jobs == s.jobs && t.receipts == s.receipts
            && (|t.rows| == |s.rows| + 1 ==> t.rows[|s.rows|].status == PENDING && t.rows[|s.rows|].txHash == None)
  {
  }

  /** A freshly inserted row has no jobs, no receipt, and at most its inserter as holder. */
  lemma FreshRowLife(verify: Verifier, s: Store, i: nat, input: Input)
    requires Inv(verify, s) && Lives(s) && i < |s.calls| && CallNext(verify, s, i, input).0.InsertRow?
    ensures |RunCall(verify, s, i, input).rows| == |s.rows| + 1 ==> LifeOk(RunCall(verify, s, i, input), |s.rows|)
  {
    var t := RunCall(verify, s, i, input);
    if |t.rows| == |s.rows| + 1 {
      NobodyElseHolds(verify, s, i, input);
      InsertedRowIsPending(verify, s, i, input);
      forall j | 0 <= j < |t.jobs| ensures t.jobs[j].row != |s.rows| { assert JobOk(s, j); }
      UntouchedRowLife(t, |s.rows|);
    }
  }

  lemma SubmitKeepsLife(verify: Verifier, s: Store, i: nat, input: Input, r: nat)
    requires Inv(verify, s) && Lives(s) && i < |s.calls| && s.calls[i].SubmitCall?
    requires r < |s.rows| && Tracked(s, r)
    ensures LifeOk(RunCall(verify, s, i, input), r)
  {
    var t := RunCall(verify, s, i, input);
    if HoldsRow(s.calls[i], r) && !HoldsRow(t.calls[i], r) {
      HeldRowExists(verify, s, i, r);
      assert OneHolder(s, r);
      forall k | 0 <= k < |t.calls| ensures !HoldsRow(t.calls[k], r) { }
    } else {
      assert Untouched(s, t, r) by { SubmitTouchesOwnRow(verify, s, i, input, r); }
      UntouchedKeepsLife(s, t, r);
    }
  }

  /** A submit step that keeps or never had a hold on `r` leaves `r` alone. */
  lemma SubmitTouchesOwnRow(verify: Verifier, s: Store, i: nat, input: Input, r: nat)
    requires i < |s.calls| && s.calls[i].SubmitCall? && r < |s.rows|
    requires HoldsRow(s.calls[i], r) ==> HoldsRow(RunCall(verify, s, i, input).calls[i], r)
    ensures Untouched(s, RunCall(verify, s, i, input), r)
  {
    var t := RunCall(verify, s, i, input);
    forall k | 0 <= k < |t.calls| && HoldsRow(t.calls[k], r)
      ensures HoldsRow(s.calls[k], r) && (t.calls[k].BroadcastCall? <==> s.calls[k].BroadcastCall?) {
    }
  }

  lemma SendKeepsLife(verify: Verifier, s: Store, i: nat, input: Input, r: nat)
    requires Inv(verify, s) && Lives(s) && i < |s.calls| && s.calls[i].SendCall?
    requires r < |s.rows| && Tracked(s, r)
    ensures LifeOk(RunCall(verify, s, i, input), r)
  {
    var t := RunCall(verify, s, i, input);
    assert Untouched(s, t, r) by {
      forall k | 0 <= k < |t.calls| && HoldsRow(t.calls[k], r)
        ensures HoldsRow(s.calls[k], r) && (t.calls[k].BroadcastCall? <==> s.calls[k].BroadcastCall?) {
      }
    }
    UntouchedKeepsLife(s, t, r);
  }

  lemma OtherBroadcastLeavesRow(verify: Verifier, s: Store, i: nat, input: Input, r: nat)
    requires i < |s.calls| && s.calls[i].BroadcastCall? && r < |s.rows| && s.calls[i].broadcast.row != r
    ensures var t := RunCall(verify, s, i, input); Untouched(s, t, r) && t.receipts == s.receipts
  {
    var t := RunCall(verify, s, i, input);
    forall k | 0 <= k < |t.calls| && HoldsRow(t.calls[k], r)
      ensures HoldsRow(s.calls[k], r) && (t.calls[k].BroadcastCall? <==> s.calls[k].BroadcastCall?) {
    }
  }

  lemma BroadcastKeepsLife(verify: Verifier, s: Store, i: nat, input: Input, r: nat)
    requires Inv(verify, s) && Lives(s) && i < |s.calls| && s.calls[i].BroadcastCall?
    requires r < |s.rows| && Tracked(s, r)
    ensures LifeOk(RunCall(verify, s, i, input), r)
  {
    if s.calls[i].broadcast.row != r {
      OtherBroadcastLeavesRow(verify, s, i, input, r);
      UntouchedKeepsLife(s, RunCall(verify, s, i, input), r);
    } else {
      OwnBroadcastKeepsLife(verify, s, i, input, r);
    }
  }

  /** A broadcast of a sent row: claim, hand over, or release. */
  lemma OwnBroadcastKeepsLife(verify: Verifier, s: Store, i: nat, input: Input, r: nat)
    requires Inv(verify, s) && Lives(s) && i < |s.calls| && s.calls[i].BroadcastCall?
    requires r < |s.rows| && Tracked(s, r) && s.calls[i].broadcast.row == r
    ensures LifeOk(RunCall(verify, s, i, input), r)
  {
    assert s.rows[r].origin.FromSend?;
    forall k | 0 <= k < |s.calls| && HoldsRow(s.calls[k], r) ensures s.calls[k].BroadcastCall? {
      if s.calls[k].SubmitCall? { HeldRowExists(verify, s, k, r); }
    }
    assert LifeOk(s, r);
    if HoldsRow(s.calls[i], r) {
      HolderKeepsLife(verify, s, i, input, r);
    } else {
      ClaimerKeepsLife(verify, s, i, input, r);
    }
  }

  /** The holder hands the row over, lets go of it, or keeps holding it. */
  lemma HolderKeepsLife(verify: Verifier, s: Store, i: nat, input: Input, r: nat)
    requires i < |s.calls| && s.calls[i].BroadcastCall? && s.calls[i].broadcast.row == r
    requires r < |s.rows| && LifeOk(s, r) && HoldsRow(s.calls[i], r)
    ensures LifeOk(RunCall(verify, s, i, input), r)
  {
    if s.calls[i].broadcastAt.Hand? && !input.Fault? {
      HandOverKeepsLife(verify, s, i, input, r);
    } else {
      var t := RunCall(verify, s, i, input);
      forall k | 0 <= k < |t.calls| && k != i ensures t.calls[k] == s.calls[k] && !HoldsRow(s.calls[k], r) { }
      forall j | 0 <= j < |s.jobs| ensures s.jobs[j].row != r { }
      assert t.jobs == s.jobs;
    }
  }

  lemma HandOverKeepsLife(verify: Verifier, s: Store, i: nat, input: Input, r: nat)
    requires i < |s.calls| && s.calls[i].BroadcastCall? && s.calls[i].broadcast.row == r
    requires s.calls[i].broadcastAt.Hand? && !input.Fault?
    requires r < |s.rows| && LifeOk(s, r)
    ensures LifeOk(RunCall(verify, s, i, input), r)
  {
    var t := RunCall(verify, s, i, input);
    var job := Job(r, Process(s.calls[i].broadcast.signedTx), ByBroadcast(i), Start);
    assert HoldsRow(s.calls[i], r);
    forall k | 0 <= k < |t.calls| ensures !HoldsRow(t.calls[k], r) {
      if k != i { assert t.calls[k] == s.calls[k]; }
    }
    assert t.jobs == s.jobs + [job] && t.rows == s.rows;
    forall j | 0 <= j < |s.jobs| ensures s.jobs[j].row != r { }
  }

  /** A broadcast that does not hold the row claims it, or leaves it as it is. */
  lemma ClaimerKeepsLife(verify: Verifier, s: Store, i: nat, input: Input, r: nat)
    requires i < |s.calls| && s.calls[i].BroadcastCall? && s.calls[i].broadcast.row == r
    requires r < |s.rows| && s.rows[r].origin.FromSend? && LifeOk(s, r) && !HoldsRow(s.calls[i], r)
    requires forall k :: 0 <= k < |s.calls| && HoldsRow(s.calls[k], r) ==> s.calls[k].BroadcastCall?
    ensures LifeOk(RunCall(verify, s, i, input), r)
  {
    var t := RunCall(verify, s, i, input);
    forall k | 0 <= k < |t.calls| && k != i ensures t.calls[k] == s.calls[k] { }
    assert t.jobs == s.jobs && t.receipts == s.receipts;
    if HoldsRow(t.calls[i], r) {
      assert s.rows[r].status == PENDING;
    } else {
      assert t.rows == s.rows;
    }
  }

  /** A job step on another row leaves `r` alone. */
  lemma OtherJobKeepsLife(verify: Verifier, s: Store, j: nat, input: Input, r: nat)
    requires Inv(verify, s) && Lives(s) && j < |s.jobs| && r < |s.rows| && Tracked(s, r)
    requires s.jobs[j].row != r
    ensures LifeOk(RunJob(s, j, input), r)
  {
    assert JobOk(s, j);
    OtherJobLeavesRowAlone(s, j, input, r);
    UntouchedKeepsLife(s, RunJob(s, j, input), r);
  }

  lemma OtherJobLeavesRowAlone(s: Store, j: nat, input: Input, r: nat)
    requires j < |s.jobs| && JobOk(s, j) && r < |s.rows| && s.jobs[j].row != r
    ensures Untouched(s, RunJob(s, j, input), r)
  {
  }

  lemma OwnJobKeepsLife(verify: Verifier, s: Store, j: nat, input: Input, r: nat)
    requires Inv(verify, s) && Lives(s) && j < |s.jobs| && r < |s.rows| && Tracked(s, r)
    requires s.jobs[j].row == r
    ensures LifeOk(RunJob(s, j, input), r)
  {
    var t := RunJob(s, j, input);
    assert JobOk(s, j) && OneHolder(s, r) && OneJob(s, r);
    forall i | 0 <= i < |s.calls| ensures !HoldsRow(s.calls[i], r) { }
    if Live(s.jobs[j]) {
      OwnJobKeepsOneJob(s, j, input, r);
      OwnReceipt(s, j, input, r);
    } else {
      assert t.jobs == s.jobs;
    }
  }

  lemma OwnJobKeepsOneJob(s: Store, j: nat, input: Input, r: nat)
    requires j < |s.jobs| && JobOk(s, j) && r < |s.rows| && s.jobs[j].row == r && Live(s.jobs[j]) && OneJob(s, r)
    ensures OneJob(RunJob(s, j, input), r)
  {
    var t := RunJob(s, j, input);
    var (q, at) := JobNext(s, j, s.jobs[j], input);
    forall k | 0 <= k < |s.jobs| && k != j && s.jobs[k].row == r
      ensures !Live(s.jobs[k]) && t.jobs[k] == s.jobs[k] && s.jobs[j].body.Check? {
    }
    assert t.jobs[j] == s.jobs[j].(at := at, heard := Noted(s.jobs[j], input));
    if q.Enqueue? {
      assert at.Finished? && t.jobs[|s.jobs|].body.Check? && |t.jobs| == |s.jobs| + 1;
    } else {
      assert |t.jobs| == |s.jobs|;
    }
    OwnJobFits(s, j, input, r);
  }

  lemma OwnJobFits(s: Store, j: nat, input: Input, r: nat)
    requires j < |s.jobs| && JobOk(s, j) && r < |s.rows| && s.jobs[j].row == r && Live(s.jobs[j])
    requires JobFits(s.rows[r], s.jobs[j])
    requires s.rows[r].status == PENDING ==> s.rows[r].origin.FromIntent?
    ensures JobFits(RunJob(s, j, input).rows[r], RunJob(s, j, input).jobs[j])
    ensures |RunJob(s, j, input).jobs| > |s.jobs| ==>
              JobFits(RunJob(s, j, input).rows[r], RunJob(s, j, input).jobs[|s.jobs|])
    ensures RunJob(s, j, input).rows[r].status == PENDING ==> s.rows[r].status == PENDING
    ensures RunJob(s, j, input).rows[r].origin == s.rows[r].origin
  {
  }

  lemma OwnReceipt(s: Store, j: nat, input: Input, r: nat)
    requires j < |s.jobs| && JobOk(s, j) && r < |s.rows| && s.jobs[j].row == r && Live(s.jobs[j])
    requires JobFits(s.rows[r], s.jobs[j])
    requires r in s.receipts ==> s.rows[r].status == COMPLETED
    ensures r in RunJob(s, j, input).receipts ==> RunJob(s, j, input).rows[r].status == COMPLETED
  {
  }

  lemma StatementKeepsReceipts(s: Store, q: Statement)
    requires ReceiptsOk(s) && (q.UpsertReceipt? ==> q.row < |s.rows|)
    ensures ReceiptsOk(Execute(s, q))
  {
  }

  lemma CallsWriteNoReceipt(verify: Verifier, s: Store, i: nat, input: Input)
    requires i < |s.calls|
    ensures !CallNext(verify, s, i, input).0.UpsertReceipt?
  {
  }

  lemma ReceiptsStayDistinct(verify: Verifier, s: Store, a: Action)
    requires Inv(verify, s) && Lives(s)
    ensures ReceiptsOk(Step(verify, s, a))
  {
    match a
    case CallStep(i, input) =>
      if i < |s.calls| {
        CallsWriteNoReceipt(verify, s, i, input);
        StatementKeepsReceipts(s, CallNext(verify, s, i, input).0);
      }
    case JobStep(j, input) =>
      if j < |s.jobs| {
        assert JobOk(s, j);
        StatementKeepsReceipts(s, JobNext(s, j, s.jobs[j], input).0);
      }
    case _ =>
  }

  lemma BeginKeepsLife(verify: Verifier, s: Store, a: Action, r: nat)
    requires Inv(verify, s) && Lives(s) && !a.CallStep? && !a.JobStep?
    requires r < |s.rows| && Tracked(s, r)
    ensures LifeOk(Step(verify, s, a), r)
  {
    assert Untouched(s, Step(verify, s, a), r);
    UntouchedKeepsLife(s, Step(verify, s, a), r);
  }

  lemma OnlyInsertsAdd(verify: Verifier, s: Store, a: Action)
    ensures |Step(verify, s, a).rows| <= |s.rows| + 1
    ensures |Step(verify, s, a).rows| == |s.rows| + 1 ==>
              a.CallStep? && a.call < |s.calls| && CallNext(verify, s, a.call, a.input).0.InsertRow?
  {
  }

  lemma StepKeepsLives(verify: Verifier, s: Store, a: Action)
    requires Inv(verify, s) && Lives(s)
    ensures Lives(Step(verify, s, a))
  {
    var t := Step(verify, s, a);
    ReceiptsStayDistinct(verify, s, a);
    OnlyInsertsAdd(verify, s, a);
    forall r: nat | Tracked(t, r) ensures LifeOk(t, r) {
      if r < |s.rows| {
        TrackedBefore(verify, s, a, r);
        match a
        case CallStep(i, input) =>
          if i < |s.calls| {
            match s.calls[i]
            case SubmitCall(_, _) => SubmitKeepsLife(verify, s, i, input, r);
            case SendCall(_, _) => SendKeepsLife(verify, s, i, input, r);
            case BroadcastCall(_, _) => BroadcastKeepsLife(verify, s, i, input, r);
          }
        case JobStep(j, input) =>
          if j < |s.jobs| {
            if s.jobs[j].row == r {
              OwnJobKeepsLife(verify, s, j, input, r);
            } else {
              OtherJobKeepsLife(verify, s, j, input, r);
            }
          }
        case _ => BeginKeepsLife(verify, s, a, r);
      } else {
        FreshRowLife(verify, s, a.call, a.input);
      }
    }
  }

  lemma {:induction false} RunKeepsLives(verify: Verifier, s: Store, actions: seq<Action>)
    requires Inv(verify, s) && Lives(s)
    ensures Inv(verify, Run(verify, s, actions)) && Lives(Run(verify, s, actions))
  {
    RunKeepsInv(verify, s, actions);
    if actions != [] {
      var before := actions[..|actions| - 1];
      RunKeepsLives(verify, s, before);
      StepKeepsLives(verify, Run(verify, s, before), actions[|actions| - 1]);
    }
  }
}
