/** The safety results of the transfer protocol, over every run from an empty store. */
module TransferTheorems {
  import opened Common
  import opened Evm
  import opened Transfers
  import opened TransferInvariants
  import opened TransferLifecycle

  lemma EmptyIsFine(verify: Verifier, now: int)
    ensures Inv(verify, EmptyStore(now)) && Lives(EmptyStore(now)) && AllAccounted(EmptyStore(now))
  {
  }

  // ----- nothing is lost: every open row has someone responsible, or a thrown step to show for it

  predicate Engaged(job: Job, r: nat) { job.row == r && (Live(job) || job.at.Crashed?) }

  /** A call still answering for row `r`, or one whose last write for it threw. */
  predicate Answerable(c: Call, r: nat) {
    || HoldsRow(c, r)
    || (c.SubmitCall? && c.submitAt == MarkedFailed(r, false))
    || (c.BroadcastCall? && c.broadcast.row == r && c.broadcastAt == BroadcastFailed(true))
  }

  ghost predicate HasJob(s: Store, r: nat) { exists j :: 0 <= j < |s.jobs| && Engaged(s.jobs[j], r) }

  ghost predicate HasCall(s: Store, r: nat) { exists i :: 0 <= i < |s.calls| && Answerable(s.calls[i], r) }

  /**
   * A row in flight has a live job or an answerable call, unless a step threw on its behalf;
   * a completed row has its receipt, unless the job writing it has yet to, or threw.
   */
  ghost predicate Accounted(s: Store, r: nat)
    requires r < |s.rows|
  {
    && (s.rows[r].status == PROCESSING || (s.rows[r].status == PENDING && s.rows[r].origin.FromIntent?) ==>
          HasJob(s, r) || HasCall(s, r))
    && (s.rows[r].status == COMPLETED ==> r in s.receipts || HasJob(s, r))
  }

  ghost predicate AllAccounted(s: Store) {
    && (forall r: nat :: Tracked(s, r) ==> Accounted(s, r))
    && (forall i :: 0 <= i < |s.calls| && s.calls[i].SubmitCall? && s.calls[i].submitAt.Created? ==>
          exists j :: 0 <= j < |s.jobs| && s.jobs[j].origin == BySubmit(i))
  }

  /** Everyone responsible for `r`, other than call `i`, still is. */
  lemma OthersStayResponsible(s: Store, t: Store, i: nat, r: nat)
    requires i < |s.calls| == |t.calls| && |s.jobs| <= |t.jobs|
    requires forall k :: 0 <= k < |s.calls| && k != i ==> t.calls[k] == s.calls[k]
    requires forall j :: 0 <= j < |s.jobs| ==> t.jobs[j] == s.jobs[j]
    ensures HasJob(s, r) ==> HasJob(t, r)
    ensures HasCall(s, r) && !Answerable(s.calls[i], r) ==> HasCall(t, r)
    ensures Answerable(t.calls[i], r) ==> HasCall(t, r)
  {
    if HasJob(s, r) {
      var j :| 0 <= j < |s.jobs| && Engaged(s.jobs[j], r);
      assert Engaged(t.jobs[j], r);
    }
    if HasCall(s, r) && !Answerable(s.calls[i], r) {
      var k :| 0 <= k < |s.calls| && Answerable(s.calls[k], r);
      assert Answerable(t.calls[k], r);
    }
  }

  lemma SubmitStepAccounts(verify: Verifier, s: Store, i: nat, input: Input, r: nat)
    requires Inv(verify, s) && i < |s.calls| && s.calls[i].SubmitCall? && r < |s.rows| && Accounted(s, r)
    ensures Accounted(RunCall(verify, s, i, input), r)
  {
    if HoldsRow(s.calls[i], r) && !HoldsRow(RunCall(verify, s, i, input).calls[i], r) {
      SubmitLetsGo(verify, s, i, input, r);
    } else {
      SubmitKeepsAccounts(verify, s, i, input, r);
    }
  }

  lemma SubmitKeepsAccounts(verify: Verifier, s: Store, i: nat, input: Input, r: nat)
    requires i < |s.calls| && s.calls[i].SubmitCall? && r < |s.rows| && Accounted(s, r)
    requires HoldsRow(s.calls[i], r) ==> HoldsRow(RunCall(verify, s, i, input).calls[i], r)
    ensures Accounted(RunCall(verify, s, i, input), r)
  {
    SubmitTouchesOwnRow(verify, s, i, input, r);
    OthersStayResponsible(s, RunCall(verify, s, i, input), i, r);
    SubmitStaysAnswerable(verify, s, i, input, r);
    SameRowAccounts(s, RunCall(verify, s, i, input), r);
  }

  lemma SubmitStaysAnswerable(verify: Verifier, s: Store, i: nat, input: Input, r: nat)
    requires i < |s.calls| && s.calls[i].SubmitCall?
    requires HoldsRow(s.calls[i], r) ==> HoldsRow(RunCall(verify, s, i, input).calls[i], r)
    ensures Answerable(s.calls[i], r) ==> Answerable(RunCall(verify, s, i, input).calls[i], r)
    ensures RunCall(verify, s, i, input).receipts == s.receipts
  {
  }

  lemma SameRowAccounts(s: Store, t: Store, r: nat)
    requires r < |s.rows| && r < |t.rows| && t.rows[r] == s.rows[r] && (r in s.receipts ==> r in t.receipts)
    requires (HasJob(s, r) ==> HasJob(t, r)) && (HasCall(s, r) ==> HasCall(t, r))
    requires Accounted(s, r)
    ensures Accounted(t, r)
  {
  }

  /** A submit that lets go of its row has enqueued a job, marked it FAILED, or failed to. */
  lemma SubmitLetsGo(verify: Verifier, s: Store, i: nat, input: Input, r: nat)
    requires Inv(verify, s) && i < |s.calls| && s.calls[i].SubmitCall? && r < |s.rows|
    requires HoldsRow(s.calls[i], r) && !HoldsRow(RunCall(verify, s, i, input).calls[i], r)
    requires Accounted(s, r)
    ensures Accounted(RunCall(verify, s, i, input), r)
  {
    var t := RunCall(verify, s, i, input);
    OthersStayResponsible(s, t, i, r);
    if s.calls[i].submitAt.Queue? {
      assert Engaged(t.jobs[|s.jobs|], r);
    }
  }

  lemma SendStepAccounts(verify: Verifier, s: Store, i: nat, input: Input, r: nat)
    requires i < |s.calls| && s.calls[i].SendCall? && r < |s.rows| && Accounted(s, r)
    ensures Accounted(RunCall(verify, s, i, input), r)
  {
    OthersStayResponsible(s, RunCall(verify, s, i, input), i, r);
  }

  lemma BroadcastStepAccounts(verify: Verifier, s: Store, i: nat, input: Input, r: nat)
    requires Inv(verify, s) && Lives(s) && i < |s.calls| && s.calls[i].BroadcastCall? && r < |s.rows|
    requires Tracked(s, r) && Accounted(s, r)
    ensures Accounted(RunCall(verify, s, i, input), r)
  {
    assert OneHolder(s, r);
    if s.calls[i].broadcast.row == r {
      OwnBroadcastAccounts(verify, s, i, input, r);
    } else {
      OthersStayResponsible(s, RunCall(verify, s, i, input), i, r);
      OtherBroadcastLeavesRow(verify, s, i, input, r);
      SameRowAccounts(s, RunCall(verify, s, i, input), r);
    }
  }

  lemma OwnBroadcastAccounts(verify: Verifier, s: Store, i: nat, input: Input, r: nat)
    requires i < |s.calls| && s.calls[i].BroadcastCall? && r < |s.rows| && s.calls[i].broadcast.row == r
    requires s.rows[r].origin.FromSend? && OneHolder(s, r) && Accounted(s, r)
    ensures Accounted(RunCall(verify, s, i, input), r)
  {
    var t := RunCall(verify, s, i, input);
    OthersStayResponsible(s, t, i, r);
    if |t.jobs| > |s.jobs| { assert Engaged(t.jobs[|s.jobs|], r); }
  }

  lemma JobStepAccounts(verify: Verifier, s: Store, j: nat, input: Input, r: nat)
    requires Inv(verify, s) && Lives(s) && j < |s.jobs| && r < |s.rows| && Tracked(s, r) && Accounted(s, r)
    ensures Accounted(RunJob(s, j, input), r)
  {
    assert JobOk(s, j);
    JobKeepsCalls(s, j, input, r);
    if s.jobs[j].row != r {
      OtherJobLeavesRow(s, j, input, r);
      SameRowAccounts(s, RunJob(s, j, input), r);
    } else {
      OwnJobAccounts(s, j, input, r);
    }
  }

  lemma JobKeepsCalls(s: Store, j: nat, input: Input, r: nat)
    requires j < |s.jobs|
    ensures HasCall(s, r) ==> HasCall(RunJob(s, j, input), r)
  {
    assert RunJob(s, j, input).calls == s.calls;
  }

  lemma OtherJobLeavesRow(s: Store, j: nat, input: Input, r: nat)
    requires j < |s.jobs| && r < |s.rows| && s.jobs[j].row != r
    ensures var t := RunJob(s, j, input);
            && r < |t.rows| && t.rows[r] == s.rows[r] && (r in s.receipts ==> r in t.receipts)
            && (HasJob(s, r) ==> HasJob(t, r))
  {
    if HasJob(s, r) {
      var k :| 0 <= k < |s.jobs| && Engaged(s.jobs[k], r);
      assert Engaged(RunJob(s, j, input).jobs[k], r);
    }
  }

  lemma OwnJobAccounts(s: Store, j: nat, input: Input, r: nat)
    requires j < |s.jobs| && JobOk(s, j) && r < |s.rows| && s.jobs[j].row == r && OneJob(s, r) && Accounted(s, r)
    requires HasCall(s, r) ==> HasCall(RunJob(s, j, input), r)
    ensures Accounted(RunJob(s, j, input), r)
  {
    var t := RunJob(s, j, input);
    if Engaged(t.jobs[j], r) {
      assert HasJob(t, r);
    } else if |t.jobs| > |s.jobs| {
      assert Engaged(t.jobs[|s.jobs|], r);
    } else {
      if HasJob(s, r) {
        var k :| 0 <= k < |s.jobs| && Engaged(s.jobs[k], r);
        if k != j { assert Engaged(t.jobs[k], r); }
      }
    }
  }

  /** No step forgets a job or who enqueued it. */
  lemma JobsStay(verify: Verifier, s: Store, a: Action)
    ensures var t := Step(verify, s, a);
            && |s.jobs| <= |t.jobs|
            && forall j :: 0 <= j < |s.jobs| ==>
                 t.jobs[j].row == s.jobs[j].row && t.jobs[j].body == s.jobs[j].body
                 && t.jobs[j].origin == s.jobs[j].origin
  {
  }

  lemma CreatedByEnqueue(verify: Verifier, s: Store, a: Action, i: nat)
    requires var t := Step(verify, s, a);
             && i < |t.calls| && t.calls[i].SubmitCall? && t.calls[i].submitAt.Created?
             && (i < |s.calls| ==> s.calls[i] != t.calls[i])
    ensures var t := Step(verify, s, a);
            |t.jobs| > |s.jobs| && t.jobs[|s.jobs|].origin == BySubmit(i)
  {
  }

  lemma CreatedKeepsJob(verify: Verifier, s: Store, a: Action)
    requires AllAccounted(s)
    ensures var t := Step(verify, s, a);
            forall i :: 0 <= i < |t.calls| && t.calls[i].SubmitCall? && t.calls[i].submitAt.Created? ==>
              exists j :: 0 <= j < |t.jobs| && t.jobs[j].origin == BySubmit(i)
  {
    var t := Step(verify, s, a);
    JobsStay(verify, s, a);
    forall i | 0 <= i < |t.calls| && t.calls[i].SubmitCall? && t.calls[i].submitAt.Created?
      ensures exists j :: 0 <= j < |t.jobs| && t.jobs[j].origin == BySubmit(i) {
      if i < |s.calls| && s.calls[i] == t.calls[i] {
        var j :| 0 <= j < |s.jobs| && s.jobs[j].origin == BySubmit(i);
        assert t.jobs[j].origin == BySubmit(i);
      } else {
        CreatedByEnqueue(verify, s, a, i);
      }
    }
  }

  lemma StepAccounts(verify: Verifier, s: Store, a: Action)
    requires Inv(verify, s) && Lives(s) && AllAccounted(s)
    ensures AllAccounted(Step(verify, s, a))
  {
    var t := Step(verify, s, a);
    CreatedKeepsJob(verify, s, a);
    OnlyInsertsAdd(verify, s, a);
    forall r: nat | Tracked(t, r) ensures Accounted(t, r) {
      if r < |s.rows| {
        TrackedBefore(verify, s, a, r);
        match a
        case CallStep(i, input) =>
          if i < |s.calls| {
            match s.calls[i]
            case SubmitCall(_, _) => SubmitStepAccounts(verify, s, i, input, r);
            case SendCall(_, _) => SendStepAccounts(verify, s, i, input, r);
            case BroadcastCall(_, _) => BroadcastStepAccounts(verify, s, i, input, r);
          }
        case JobStep(j, input) => if j < |s.jobs| { JobStepAccounts(verify, s, j, input, r); }
        case _ => BeginAccounts(verify, s, a, r);
      } else {
        FreshRowAccounts(verify, s, a.call, a.input);
      }
    }
  }

  lemma BeginAccounts(verify: Verifier, s: Store, a: Action, r: nat)
    requires !a.CallStep? && !a.JobStep? && r < |s.rows| && Accounted(s, r)
    ensures Accounted(Step(verify, s, a), r)
  {
    var t := Step(verify, s, a);
    if HasCall(s, r) {
      var k :| 0 <= k < |s.calls| && Answerable(s.calls[k], r);
      assert Answerable(t.calls[k], r);
    }
  }

  lemma FreshRowAccounts(verify: Verifier, s: Store, i: nat, input: Input)
    requires i < |s.calls| && CallNext(verify, s, i, input).0.InsertRow?
    ensures |RunCall(verify, s, i, input).rows| == |s.rows| + 1 ==> Accounted(RunCall(verify, s, i, input), |s.rows|)
  {
    var t := RunCall(verify, s, i, input);
    if |t.rows| == |s.rows| + 1 && t.calls[i].SubmitCall? {
      assert Answerable(t.calls[i], |s.rows|);
    }
  }

  lemma {:induction false} RunKeepsAll(verify: Verifier, s: Store, actions: seq<Action>)
    requires Inv(verify, s) && Lives(s) && AllAccounted(s)
    ensures var t := Run(verify, s, actions); Inv(verify, t) && Lives(t) && AllAccounted(t)
  {
    if actions != [] {
      var before := actions[..|actions| - 1];
      RunKeepsAll(verify, s, before);
      StepKeepsInv(verify, Run(verify, s, before), actions[|actions| - 1]);
      StepKeepsLives(verify, Run(verify, s, before), actions[|actions| - 1]);
      StepAccounts(verify, Run(verify, s, before), actions[|actions| - 1]);
    }
  }

  /** The invariants hold of every reachable store. */
  lemma RunIsFine(verify: Verifier, now: int, actions: seq<Action>)
    ensures var s := Run(verify, EmptyStore(now), actions);
            Inv(verify, s) && Lives(s) && AllAccounted(s)
  {
    EmptyIsFine(verify, now);
    RunKeepsAll(verify, EmptyStore(now), actions);
  }

  // ----- main results: intents

  /** Intent `n` is USED and unlinked, and this call will release or link it. */
  predicate LiveOwner(c: Call, n: nat) {
    OwnsIntent(c, n) || (c.SubmitCall? && c.submit.intent == n && c.submitAt.Link?)
  }

  ghost predicate OneRowPerIntent(s: Store) {
    forall r, q ::
      0 <= r < |s.rows| && 0 <= q < |s.rows| && s.rows[r].origin.FromIntent? && s.rows[q].origin.FromIntent? ==>
      (s.rows[r].origin.intent == s.rows[q].origin.intent ==> r == q)
  }

  /** The intent a job was submitted for, if `submit` enqueued it. */
  function SubmittedIntent(s: Store, job: Job): Option<nat> {
    if job.origin.BySubmit? && job.origin.call < |s.calls| && s.calls[job.origin.call].SubmitCall?
    then Some(s.calls[job.origin.call].submit.intent) else None
  }

  ghost predicate OneSubmitJobPerIntent(s: Store) {
    && (forall j :: 0 <= j < |s.jobs| && s.jobs[j].origin.BySubmit? ==> SubmittedIntent(s, s.jobs[j]).Some?)
    && (forall j, k :: 0 <= j < |s.jobs| && 0 <= k < |s.jobs| && SubmittedIntent(s, s.jobs[j]).Some? ==>
          (SubmittedIntent(s, s.jobs[j]) == SubmittedIntent(s, s.jobs[k]) ==> j == k))
  }

  ghost predicate OneOwnerPerIntent(s: Store) {
    forall i, k, n: nat :: 0 <= i < |s.calls| && 0 <= k < |s.calls| ==> OwnersAgree(s, i, k, n)
  }

  /** Two live owners of a claimed, unlinked intent are one. */
  ghost predicate OwnersAgree(s: Store, i: nat, k: nat, n: nat)
    requires i < |s.calls| && k < |s.calls|
  {
    LiveOwner(s.calls[i], n) && LiveOwner(s.calls[k], n) ==>
      i == k && n < |s.intents| && s.intents[n].status == USED && s.intents[n].transactionId == None
  }

  /**
   * In every interleaving, with any steps failing: one row per intent, one submit job per intent,
   * and one live owner of a claimed, unlinked intent.
   */
  lemma IntentSpentOnce(verify: Verifier, now: int, actions: seq<Action>)
    ensures var s := Run(verify, EmptyStore(now), actions);
            OneRowPerIntent(s) && OneSubmitJobPerIntent(s) && OneOwnerPerIntent(s)
  {
    var s := Run(verify, EmptyStore(now), actions);
    RunIsFine(verify, now, actions);
    OneRowEach(verify, s);
    OneSubmitJobEach(verify, s);
    OneOwnerEach(verify, s);
  }

  lemma OneRowEach(verify: Verifier, s: Store)
    requires Inv(verify, s)
    ensures OneRowPerIntent(s)
  {
    forall r, q | 0 <= r < |s.rows| && 0 <= q < |s.rows| && s.rows[r].origin.FromIntent? && s.rows[q].origin.FromIntent?
                  && s.rows[r].origin.intent == s.rows[q].origin.intent
      ensures r == q
    {
      assert RowsOk(verify, s);
    }
  }

  lemma OneSubmitJobEach(verify: Verifier, s: Store)
    requires Inv(verify, s)
    ensures OneSubmitJobPerIntent(s)
  {
    forall j | 0 <= j < |s.jobs| && s.jobs[j].origin.BySubmit? ensures SubmittedIntent(s, s.jobs[j]).Some? {
      assert JobOk(s, j);
    }
    forall j, k | 0 <= j < |s.jobs| && 0 <= k < |s.jobs| && SubmittedIntent(s, s.jobs[j]).Some?
                  && SubmittedIntent(s, s.jobs[j]) == SubmittedIntent(s, s.jobs[k])
      ensures j == k
    {
      SubmitJobs(verify, s, j, k);
    }
  }

  lemma OneOwnerEach(verify: Verifier, s: Store)
    requires Inv(verify, s)
    ensures OneOwnerPerIntent(s)
  {
    forall i, k, n: nat | 0 <= i < |s.calls| && 0 <= k < |s.calls| ensures OwnersAgree(s, i, k, n) {
      if LiveOwner(s.calls[i], n) && LiveOwner(s.calls[k], n) { OneLiveOwner(verify, s, i, k, n); }
    }
  }

  lemma SubmitJobs(verify: Verifier, s: Store, j: nat, k: nat)
    requires Inv(verify, s) && j < |s.jobs| && k < |s.jobs| && s.jobs[j].origin.BySubmit? && s.jobs[k].origin.BySubmit?
    ensures s.jobs[j].origin.call < |s.calls| && s.calls[s.jobs[j].origin.call].SubmitCall?
    ensures s.jobs[k].origin.call < |s.calls| && s.calls[s.jobs[k].origin.call].SubmitCall?
    ensures s.calls[s.jobs[j].origin.call].submit.intent == s.calls[s.jobs[k].origin.call].submit.intent ==> j == k
  {
    assert JobOk(s, j) && JobOk(s, k);
    var c, d := s.jobs[j].origin.call, s.jobs[k].origin.call;
    assert CallOk(s, c) && CallOk(s, d);
    if s.calls[c].submit.intent == s.calls[d].submit.intent {
      assert s.jobs[j].row == s.jobs[k].row;
      assert c == d;
    }
  }

  lemma OneLiveOwner(verify: Verifier, s: Store, i: nat, k: nat, n: nat)
    requires Inv(verify, s) && i < |s.calls| && k < |s.calls| && LiveOwner(s.calls[i], n) && LiveOwner(s.calls[k], n)
    ensures i == k && n < |s.intents| && s.intents[n].status == USED && s.intents[n].transactionId == None
  {
    assert OwnerOk(verify, s, s.calls[i]) && OwnerOk(verify, s, s.calls[k]);
    assert CallOk(s, i) && CallOk(s, k);
    if !OwnsIntent(s.calls[i], n) { assert RowOk(verify, s, s.calls[i].submitAt.row); }
    if !OwnsIntent(s.calls[k], n) { assert RowOk(verify, s, s.calls[k].submitAt.row); }
  }

  lemma {:induction false} RowsStay(verify: Verifier, s: Store, actions: seq<Action>, r: nat)
    requires r < |s.rows|
    ensures r < |Run(verify, s, actions).rows|
    ensures var row := Run(verify, s, actions).rows[r];
            row == s.rows[r].(status := row.status, txHash := row.txHash)
  {
    if actions != [] {
      RowsStay(verify, s, actions[..|actions| - 1], r);
      RowFieldsStay(verify, Run(verify, s, actions[..|actions| - 1]), actions[|actions| - 1], r);
    }
  }

  /** Once its row exists, an intent is never READY again, and still says what the row says. */
  lemma RowKeepsIntentUsed(verify: Verifier, now: int, actions: seq<Action>, later: seq<Action>, r: nat)
    requires var s := Run(verify, EmptyStore(now), actions);
             r < |s.rows| && s.rows[r].origin.FromIntent?
    ensures var s := Run(verify, EmptyStore(now), actions);
            var t := Run(verify, s, later);
            var n := s.rows[r].origin.intent;
            && r < |t.rows| && n < |t.intents| && t.intents[n].status == USED
            && t.intents[n].terms == t.rows[r].terms && t.intents[n].userId == t.rows[r].senderId
            && t.rows[r].terms == s.rows[r].terms
  {
    var s := Run(verify, EmptyStore(now), actions);
    RunIsFine(verify, now, actions);
    RunKeepsInv(verify, s, later);
    RowsStay(verify, s, later, r);
    assert RowOk(verify, Run(verify, s, later), r);
  }

  // ----- main results: idempotency keys

  function ReplyRow(c: Call): Option<nat> {
    match c
    case SubmitCall(_, at) => if at.Replayed? || at.Created? then Some(at.row) else None
    case SendCall(_, at) => if at.SendReplied? then Some(at.row) else None
    case BroadcastCall(_, _) => None
  }

  function KeyOf(c: Call): Option<string> {
    match c
    case SubmitCall(req, _) => Some(req.key)
    case SendCall(req, _) => Some(req.key)
    case BroadcastCall(_, _) => None
  }

  function UserOf(c: Call): string {
    match c
    case SubmitCall(req, _) => req.userId
    case SendCall(req, _) => req.senderId
    case BroadcastCall(req, _) => req.userId
  }

  ghost predicate RepliesAreOwn(s: Store) {
    forall i :: 0 <= i < |s.calls| && ReplyRow(s.calls[i]).Some? ==>
      && ReplyRow(s.calls[i]).value < |s.rows|
      && KeyOf(s.calls[i]) == Some(s.rows[ReplyRow(s.calls[i]).value].key)
      && s.rows[ReplyRow(s.calls[i]).value].senderId == UserOf(s.calls[i])
  }

  ghost predicate RepliesAgree(s: Store) {
    forall i, k ::
      0 <= i < |s.calls| && 0 <= k < |s.calls| && ReplyRow(s.calls[i]).Some? && ReplyRow(s.calls[k]).Some? ==>
      (KeyOf(s.calls[i]) == KeyOf(s.calls[k]) ==> ReplyRow(s.calls[i]) == ReplyRow(s.calls[k]))
  }

  /**
   * Over any mix of `send` and `submit` calls: one row per key; a reply names a row that carries the
   * caller's key and that the caller sent; and two replies under one key name the same row.
   */
  lemma OneRowPerKey(verify: Verifier, now: int, actions: seq<Action>)
    ensures var s := Run(verify, EmptyStore(now), actions);
            && (forall r, q :: 0 <= r < |s.rows| && 0 <= q < |s.rows| ==> (s.rows[r].key == s.rows[q].key ==> r == q))
            && RepliesAreOwn(s) && RepliesAgree(s)
  {
    var s := Run(verify, EmptyStore(now), actions);
    RunIsFine(verify, now, actions);
    assert RepliesAreOwn(s) by {
      forall i | 0 <= i < |s.calls| && ReplyRow(s.calls[i]).Some?
        ensures && ReplyRow(s.calls[i]).value < |s.rows|
                && KeyOf(s.calls[i]) == Some(s.rows[ReplyRow(s.calls[i]).value].key)
                && s.rows[ReplyRow(s.calls[i]).value].senderId == UserOf(s.calls[i]) {
        assert CallOk(s, i);
        if s.calls[i].SubmitCall? && s.calls[i].submitAt.Created? { assert RowOk(verify, s, s.calls[i].submitAt.row); }
      }
    }
  }

  /** A row says what the call that inserted it asked for, its recipient the one that call had resolved. */
  lemma RowsCopyTheirRequest(verify: Verifier, now: int, actions: seq<Action>, r: nat)
    requires r < |Run(verify, EmptyStore(now), actions).rows|
    ensures var s := Run(verify, EmptyStore(now), actions);
            var row := s.rows[r];
            match row.origin
            case FromIntent(c, n) =>
              && c < |s.calls| && s.calls[c].SubmitCall? && n < |s.intents| && s.calls[c].submit.intent == n
              && row.terms == s.intents[n].terms && row.senderId == s.intents[n].userId == s.calls[c].submit.userId
              && row.key == s.calls[c].submit.key
            case FromSend(c) =>
              && c < |s.calls| && s.calls[c].SendCall?
              && s.calls[c].sendAt == SendReplied(r, ByCreate(row.terms.recipient))
              && var req := s.calls[c].send;
                 && row.terms == StoredTerms(req, row.terms.recipient) && Payee(req, row.terms.recipient)
                 && row.senderId == req.senderId && row.key == req.key
                 && row.recipientAccountId == req.recipientAccountId
  {
    RunIsFine(verify, now, actions);
    assert RowOk(verify, Run(verify, EmptyStore(now), actions), r);
  }

  // ----- main results: the life of a row

  /**
   * For a row made by `send`, or by `submit` and never named in a `broadcast`: one process job ever,
   * one live job at a time, every status check polls the recorded hash, a receipt means COMPLETED,
   * there is one receipt at most, and a row in flight is always accounted for.
   */
  lemma RowHandedOverOnce(verify: Verifier, now: int, actions: seq<Action>, r: nat)
    requires Tracked(Run(verify, EmptyStore(now), actions), r)
    ensures var s := Run(verify, EmptyStore(now), actions);
            && (forall j, k :: 0 <= j < |s.jobs| && 0 <= k < |s.jobs| && s.jobs[j].row == r && s.jobs[k].row == r ==>
                  && (s.jobs[j].body.Process? && s.jobs[k].body.Process? ==> j == k)
                  && (Live(s.jobs[j]) && Live(s.jobs[k]) ==> j == k))
            && (forall j :: 0 <= j < |s.jobs| && s.jobs[j].row == r && s.jobs[j].body.Check? ==>
                  s.rows[r].txHash == Some(s.jobs[j].body.txHash))
            && (r in s.receipts ==> s.rows[r].status == COMPLETED)
            && (forall a, b :: 0 <= a < |s.receipts| && 0 <= b < |s.receipts| ==>
                  (s.receipts[a] == s.receipts[b] ==> a == b))
            && Accounted(s, r)
  {
    RunIsFine(verify, now, actions);
    var s := Run(verify, EmptyStore(now), actions);
    assert OneJob(s, r);
  }

  /** What may move a tracked row from one status to another, and nothing else may. */
  ghost predicate LegalMove(s: Store, a: Action, r: nat, from: RowStatus, to: RowStatus)
    requires r < |s.rows|
  {
    var job := if a.JobStep? && a.job < |s.jobs| then Some(s.jobs[a.job]) else None;
    var call := if a.CallStep? && a.call < |s.calls| then Some(s.calls[a.call]) else None;
    var ownJob := job.Some? && job.value.row == r;
    var ownBroadcast := call.Some? && call.value.BroadcastCall? && call.value.broadcast.row == r;
    match (from, to)
    case (PENDING, PROCESSING) =>
      || (ownBroadcast && call.value.broadcastAt.ClaimPending? && call.value.broadcast.userId == s.rows[r].senderId)
      || (ownJob && job.value.at.MarkProcessing?)
    case (PENDING, FAILED) =>
      || (call.Some? && call.value.SubmitCall? && call.value.submitAt == MarkFailed(r))
      || (ownJob && job.value.at.NoSignature?)
    case (PROCESSING, PENDING) =>
      && ownBroadcast && call.value.broadcastAt.Release?
      && (forall j :: 0 <= j < |s.jobs| ==> s.jobs[j].row != r)
      && (forall k :: 0 <= k < |s.calls| && k != a.call ==> !HoldsRow(s.calls[k], r))
    case (PROCESSING, COMPLETED) => ownJob && job.value.at == Settle(true)
    case (PROCESSING, FAILED) =>
      ownJob && (job.value.at == Settle(false) || job.value.at.Fail? || job.value.at.NoSignature?)
    case _ => from == to
  }

  lemma SubmitMovesLegally(verify: Verifier, s: Store, i: nat, input: Input, r: nat)
    requires Inv(verify, s) && i < |s.calls| && s.calls[i].SubmitCall? && r < |s.rows| && OneHolder(s, r)
    ensures LegalMove(s, CallStep(i, input), r, s.rows[r].status, RunCall(verify, s, i, input).rows[r].status)
  {
    if s.calls[i].submitAt != MarkFailed(r) {
      assert RunCall(verify, s, i, input).rows[r] == s.rows[r];
    }
  }

  lemma BroadcastMovesLegally(verify: Verifier, s: Store, i: nat, input: Input, r: nat)
    requires Inv(verify, s) && i < |s.calls| && s.calls[i].BroadcastCall? && r < |s.rows| && OneHolder(s, r)
    ensures LegalMove(s, CallStep(i, input), r, s.rows[r].status, RunCall(verify, s, i, input).rows[r].status)
  {
    if s.calls[i].broadcast.row != r {
      assert RunCall(verify, s, i, input).rows[r] == s.rows[r];
    } else if s.calls[i].broadcastAt.Release? {
      assert HoldsRow(s.calls[i], r);
    }
  }

  lemma JobMovesLegally(s: Store, j: nat, input: Input, r: nat)
    requires j < |s.jobs| && JobOk(s, j) && r < |s.rows| && OneJob(s, r)
    ensures LegalMove(s, JobStep(j, input), r, s.rows[r].status, RunJob(s, j, input).rows[r].status)
  {
    if s.jobs[j].row != r {
      assert RunJob(s, j, input).rows[r] == s.rows[r];
    } else {
      assert JobFits(s.rows[r], s.jobs[j]);
    }
  }

  lemma StepMovesLegally(verify: Verifier, s: Store, a: Action, r: nat)
    requires Inv(verify, s) && Lives(s) && r < |s.rows| && Tracked(Step(verify, s, a), r)
    ensures r < |Step(verify, s, a).rows|
    ensures LegalMove(s, a, r, s.rows[r].status, Step(verify, s, a).rows[r].status)
  {
    TrackedBefore(verify, s, a, r);
    assert OneHolder(s, r) && OneJob(s, r);
    match a
    case CallStep(i, input) =>
      if i < |s.calls| {
        match s.calls[i]
        case SubmitCall(_, _) => SubmitMovesLegally(verify, s, i, input, r);
        case SendCall(_, _) => assert RunCall(verify, s, i, input).rows[r] == s.rows[r];
        case BroadcastCall(_, _) => BroadcastMovesLegally(verify, s, i, input, r);
      }
    case JobStep(j, input) =>
      if j < |s.jobs| {
        assert JobOk(s, j);
        JobMovesLegally(s, j, input, r);
      }
    case _ =>
  }

  /** COMPLETED and FAILED are never left, whatever runs afterwards. */
  lemma {:induction false} TerminalStays(verify: Verifier, now: int, actions: seq<Action>, later: seq<Action>, r: nat)
    requires var s := Run(verify, EmptyStore(now), actions);
             r < |s.rows| && (s.rows[r].status == COMPLETED || s.rows[r].status == FAILED)
    requires Tracked(Run(verify, Run(verify, EmptyStore(now), actions), later), r)
    ensures Run(verify, Run(verify, EmptyStore(now), actions), later).rows[r].status
         == Run(verify, EmptyStore(now), actions).rows[r].status
  {
    if later != [] {
      var s := Run(verify, EmptyStore(now), actions);
      var before := later[..|later| - 1];
      RunIsFine(verify, now, actions);
      RunKeepsLives(verify, s, before);
      RowsStay(verify, s, before, r);
      TrackedBefore(verify, Run(verify, s, before), later[|later| - 1], r);
      TerminalStays(verify, now, actions, before, r);
      StepMovesLegally(verify, Run(verify, s, before), later[|later| - 1], r);
    }
  }

  // ----- main results: what is broadcast is what was verified

  /** Every job `submit` enqueued carries a signature its verifier accepted for the terms of the job's row. */
  lemma SubmitJobsVerified(verify: Verifier, now: int, actions: seq<Action>, j: nat)
    requires var s := Run(verify, EmptyStore(now), actions);
             j < |s.jobs| && s.jobs[j].origin.BySubmit?
    ensures var s := Run(verify, EmptyStore(now), actions);
            var job := s.jobs[j];
            && job.body.Process? && job.row < |s.rows| && s.rows[job.row].origin.FromIntent?
            && verify(s.rows[job.row].terms, job.body.signedTx).Ok?
            && var n := s.rows[job.row].origin.intent;
               && n < |s.intents| && s.intents[n].terms == s.rows[job.row].terms
               && s.intents[n].status == USED && s.intents[n].transactionId == Some(job.row)
  {
    var s := Run(verify, EmptyStore(now), actions);
    RunIsFine(verify, now, actions);
    assert JobOk(s, j);
    assert CallOk(s, s.jobs[j].origin.call);
    assert RowOk(verify, s, s.jobs[j].row);
  }

  /**
   * End to end, with the real verifier: the transaction handed to the queue moves what the row says, and
   * only that; for a row whose asset the deployment no longer knows it is a native payment of the amount.
   */
  lemma BroadcastMovesWhatTheRowSays(cfg: Config, now: int, actions: seq<Action>, j: nat)
    requires var s := Run((t, tx) => VerifySignedTransaction(cfg, t, tx), EmptyStore(now), actions);
             j < |s.jobs| && s.jobs[j].origin.BySubmit?
    ensures var s := Run((t, tx) => VerifySignedTransaction(cfg, t, tx), EmptyStore(now), actions);
            var job := s.jobs[j];
            && job.body.Process? && job.row < |s.rows|
            && cfg.decode(job.body.signedTx).Some?
            && var effect := Effect(cfg.decode(job.body.signedTx).value);
               && effect.Some?
               && (if AssetRefused(cfg, s.rows[job.row].terms)
                   then effect == NativeDemand(s.rows[job.row].terms, effect.value.chainId)
                   else effect == Demand(cfg, s.rows[job.row].terms))
  {
    var verify: Verifier := (t, tx) => VerifySignedTransaction(cfg, t, tx);
    var s := Run(verify, EmptyStore(now), actions);
    SubmitJobsVerified(verify, now, actions, j);
    VerifierAcceptsIffEffectIsDemand(cfg, s.rows[s.jobs[j].row].terms, s.jobs[j].body.signedTx);
    HeldIsDemand(cfg, s.rows[s.jobs[j].row].terms);
  }

  // ----- main results: rollback

  /** The call has tried its claim. */
  predicate PastClaim(c: Call) { c.SubmitCall? && !c.submitAt.Replay? && !c.submitAt.Claim? }

  /** Only claiming, releasing or linking an intent changes it. */
  lemma IntentKept(s: Store, q: Statement, n: nat)
    requires n < |s.intents|
    requires !(q.ClaimIntent? && q.intent == n && Matches(s, q)) && !(q.ReleaseIntent? && q.intent == n)
             && !(q.LinkIntent? && q.intent == n)
    ensures n < |Execute(s, q).intents| && Execute(s, q).intents[n] == s.intents[n]
  {
  }

  /** What a call writes to an intent says where the call stands. */
  lemma IntentWriter(verify: Verifier, s: Store, k: nat, input: Input)
    requires k < |s.calls|
    ensures var (q, c) := CallNext(verify, s, k, input);
            && (q.ReleaseIntent? ==> OwnsIntent(s.calls[k], q.intent) && !OwnsIntent(c, q.intent))
            && (q.LinkIntent? ==>
                  s.calls[k].SubmitCall? && s.calls[k].submitAt.Link? && q.intent == s.calls[k].submit.intent)
            && (q.ClaimIntent? ==> s.calls[k].SubmitCall? && s.calls[k].submitAt.Claim?)
  {
  }

  /** A call that owns an intent after its step owned it before, unless the step was the claim. */
  lemma OwnershipNotRegained(verify: Verifier, s: Store, a: Action, i: nat, n: nat)
    requires i < |s.calls| && PastClaim(s.calls[i])
    ensures i < |Step(verify, s, a).calls| && PastClaim(Step(verify, s, a).calls[i])
    ensures OwnsIntent(Step(verify, s, a).calls[i], n) ==> OwnsIntent(s.calls[i], n)
  {
    if a.CallStep? && a.call < |s.calls| && a.call != i {
      assert Step(verify, s, a).calls[i] == s.calls[i];
    }
  }

  /** An intent about to be linked already has its row, so nobody owns it. */
  lemma LinkedIsNotOwned(verify: Verifier, s: Store, k: nat, i: nat)
    requires Inv(verify, s) && i < |s.calls| && k < |s.calls| && s.calls[k].SubmitCall? && s.calls[k].submitAt.Link?
    ensures !OwnsIntent(s.calls[i], s.calls[k].submit.intent)
  {
    assert CallOk(s, k);
    assert s.rows[s.calls[k].submitAt.row].origin == FromIntent(k, s.calls[k].submit.intent);
  }

  /** While call `i` owns an intent, no call's step changes it. */
  lemma OwnedIntentCallStep(verify: Verifier, s: Store, k: nat, input: Input, i: nat, n: nat)
    requires Inv(verify, s) && i < |s.calls| && k < |s.calls|
    requires OwnsIntent(s.calls[i], n) && OwnsIntent(RunCall(verify, s, k, input).calls[i], n)
    ensures n < |s.intents| && n < |RunCall(verify, s, k, input).intents|
    ensures RunCall(verify, s, k, input).intents[n] == s.intents[n]
  {
    var (q, c) := CallNext(verify, s, k, input);
    assert OwnerOk(verify, s, s.calls[i]) && CallOk(s, k);
    IntentWriter(verify, s, k, input);
    if s.calls[k].SubmitCall? && s.calls[k].submitAt.Link? { LinkedIsNotOwned(verify, s, k, i); }
    IntentKept(s, q, n);
  }

  /** While call `i` owns an intent, only call `i` touches it, and owning cannot be regained. */
  lemma OwnedIntentStep(verify: Verifier, s: Store, a: Action, i: nat, n: nat)
    requires Inv(verify, s) && i < |s.calls| && PastClaim(s.calls[i])
    ensures i < |Step(verify, s, a).calls| && PastClaim(Step(verify, s, a).calls[i])
    ensures OwnsIntent(Step(verify, s, a).calls[i], n) ==>
              && OwnsIntent(s.calls[i], n)
              && n < |s.intents| && n < |Step(verify, s, a).intents|
              && Step(verify, s, a).intents[n] == s.intents[n]
  {
    OwnershipNotRegained(verify, s, a, i, n);
    if OwnsIntent(Step(verify, s, a).calls[i], n) {
      assert OwnerOk(verify, s, s.calls[i]);
      match a
      case CallStep(k, input) => if k < |s.calls| { OwnedIntentCallStep(verify, s, k, input, i, n); }
      case JobStep(j, input) => if j < |s.jobs| { IntentKept(s, JobNext(s, j, s.jobs[j], input).0, n); }
      case _ =>
    }
  }

  lemma {:induction false} OwnedIntentRun(verify: Verifier, s: Store, actions: seq<Action>, i: nat, n: nat)
    requires Inv(verify, s) && i < |s.calls| && PastClaim(s.calls[i])
    ensures var t := Run(verify, s, actions);
            && Inv(verify, t) && i < |t.calls| && PastClaim(t.calls[i])
            && (OwnsIntent(t.calls[i], n) ==>
                  OwnsIntent(s.calls[i], n) && n < |s.intents| && n < |t.intents| && t.intents[n] == s.intents[n])
  {
    RunKeepsInv(verify, s, actions);
    if actions != [] {
      var before := actions[..|actions| - 1];
      OwnedIntentRun(verify, s, before, i, n);
      OwnedIntentStep(verify, Run(verify, s, before), actions[|actions| - 1], i, n);
    }
  }

  /**
   * A submit that ends before its row exists and whose release is written has no net effect, however
   * many other steps ran meanwhile: the intent is exactly what it was before the claim, the release
   * touches nothing else, and no row or job comes from the call.
   */
  lemma RollbackRestores(verify: Verifier, now: int, actions: seq<Action>, i: nat, meanwhile: seq<Action>, claim: Input)
    requires var s := Run(verify, EmptyStore(now), actions);
             i < |s.calls| && s.calls[i].SubmitCall? && s.calls[i].submitAt.Claim?
    requires var s := Run(verify, EmptyStore(now), actions);
             var t := Run(verify, Step(verify, s, CallStep(i, claim)), meanwhile);
             i < |t.calls| && t.calls[i].SubmitCall?
             && (t.calls[i].submitAt.Rollback? || t.calls[i].submitAt.ReleaseDuplicate?)
    ensures var s := Run(verify, EmptyStore(now), actions);
            var n := s.calls[i].submit.intent;
            var t := Run(verify, Step(verify, s, CallStep(i, claim)), meanwhile);
            var u := Step(verify, t, CallStep(i, Fine));
            && n < |s.intents| && n < |t.intents| && u.intents == t.intents[n := s.intents[n]]
            && u.rows == t.rows && u.jobs == t.jobs && u.receipts == t.receipts
            && (forall r :: 0 <= r < |u.rows| && u.rows[r].origin.FromIntent? ==>
                  u.rows[r].origin.call != i && u.rows[r].origin.intent != n)
            && (forall j :: 0 <= j < |u.jobs| ==> u.jobs[j].origin != BySubmit(i))
  {
    var s := Run(verify, EmptyStore(now), actions);
    var n := s.calls[i].submit.intent;
    var s1 := Step(verify, s, CallStep(i, claim));
    RunIsFine(verify, now, actions);
    StepKeepsInv(verify, s, CallStep(i, claim));
    CallsStay(verify, s, CallStep(i, claim));
    SubmitRequestStays(verify, s1, meanwhile, i);
    OwnedIntentRun(verify, s1, meanwhile, i, n);
    var t := Run(verify, s1, meanwhile);
    assert OwnsIntent(t.calls[i], n);
    ClaimThenRelease(verify, s, i, claim, t);
  }

  lemma {:induction false} SubmitRequestStays(verify: Verifier, s: Store, actions: seq<Action>, i: nat)
    requires i < |s.calls| && s.calls[i].SubmitCall?
    ensures var t := Run(verify, s, actions);
            i < |t.calls| && t.calls[i].SubmitCall? && t.calls[i].submit == s.calls[i].submit
  {
    if actions != [] {
      SubmitRequestStays(verify, s, actions[..|actions| - 1], i);
      CallsStay(verify, Run(verify, s, actions[..|actions| - 1]), actions[|actions| - 1]);
    }
  }

  /** No row and no job comes from a call that still owns its intent. */
  lemma NothingFromOwner(verify: Verifier, t: Store, i: nat)
    requires Inv(verify, t) && i < |t.calls| && t.calls[i].SubmitCall?
             && OwnsIntent(t.calls[i], t.calls[i].submit.intent)
    ensures forall r :: 0 <= r < |t.rows| && t.rows[r].origin.FromIntent? ==>
              t.rows[r].origin.call != i && t.rows[r].origin.intent != t.calls[i].submit.intent
    ensures forall j :: 0 <= j < |t.jobs| ==> t.jobs[j].origin != BySubmit(i)
  {
    forall r | 0 <= r < |t.rows| && t.rows[r].origin.FromIntent?
      ensures t.rows[r].origin.call != i && t.rows[r].origin.intent != t.calls[i].submit.intent
    {
      assert RowOk(verify, t, r);
    }
    forall j | 0 <= j < |t.jobs| ensures t.jobs[j].origin != BySubmit(i) { assert JobOk(t, j); }
  }

  lemma ClaimThenRelease(verify: Verifier, s: Store, i: nat, claim: Input, t: Store)
    requires Inv(verify, s) && Inv(verify, t) && i < |s.calls| && i < |t.calls|
    requires s.calls[i].SubmitCall? && s.calls[i].submitAt.Claim?
    requires t.calls[i].SubmitCall? && (t.calls[i].submitAt.Rollback? || t.calls[i].submitAt.ReleaseDuplicate?)
    requires t.calls[i].submit == s.calls[i].submit
    requires var n := s.calls[i].submit.intent;
             var s1 := Step(verify, s, CallStep(i, claim));
             && i < |s1.calls| && OwnsIntent(s1.calls[i], n)
             && n < |s1.intents| && n < |t.intents| && t.intents[n] == s1.intents[n]
    ensures var n := s.calls[i].submit.intent;
            var u := Step(verify, t, CallStep(i, Fine));
            && n < |s.intents| && n < |t.intents| && u.intents == t.intents[n := s.intents[n]]
            && u.rows == t.rows && u.jobs == t.jobs && u.receipts == t.receipts
            && (forall r :: 0 <= r < |u.rows| && u.rows[r].origin.FromIntent? ==>
                  u.rows[r].origin.call != i && u.rows[r].origin.intent != n)
            && (forall j :: 0 <= j < |u.jobs| ==> u.jobs[j].origin != BySubmit(i))
  {
    var n := s.calls[i].submit.intent;
    assert OwnerOk(verify, t, t.calls[i]) && OwnsIntent(t.calls[i], n) && s.intents[n].status == READY;
    assert IntentsOk(s);
    NothingFromOwner(verify, t, i);
  }
}
