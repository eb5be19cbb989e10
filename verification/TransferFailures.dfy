/** A FAILED row whose transaction the chain took: exactly which runs end so. */
module TransferFailures {
  import opened Common
  import opened Transfers
  import opened TransferInvariants
  import opened TransferLifecycle
  import opened TransferTheorems
  import opened TransferSettlement
  import opened TransferSchedules
  import opened TransferOutcomes
  import opened TransferRuns

  /** The `k`-th action of the run is job `j` throwing as it records its hash or queues its check. */
  predicate Throws(verify: Verifier, now: int, actions: seq<Action>, k: nat, j: nat) {
    && k < |actions| && actions[k] == JobStep(j, Fault)
    && var s := Run(verify, EmptyStore(now), actions[..k]);
       j < |s.jobs| && (s.jobs[j].at.Record? || s.jobs[j].at.QueueCheck?)
  }

  ghost predicate HasThrown(verify: Verifier, now: int, actions: seq<Action>, j: nat) {
    exists k: nat :: Throws(verify, now, actions, k, j)
  }

  /** Job `j` had its transaction taken and is on its way to failing the row, or has been. */
  predicate GivingUp(s: Store, j: nat) {
    && j < |s.jobs| && s.jobs[j].body.Process? && s.jobs[j].heard.Some?
    && (s.jobs[j].at.Fail? || s.jobs[j].at.Crashed?)
  }

  lemma GivingUpStep(verify: Verifier, s: Store, a: Action, j: nat)
    requires Inv(verify, s) && AnswersOk(s)
    ensures GivingUp(Step(verify, s, a), j) <==>
              || GivingUp(s, j)
              || (a == JobStep(j, Fault) && j < |s.jobs| && (s.jobs[j].at.Record? || s.jobs[j].at.QueueCheck?))
  {
    OtherJobsStay(verify, s, a);
    if j < |s.jobs| { assert JobOk(s, j) && AnswerOk(s.jobs[j]); }
  }

  lemma {:induction false} GivingUpIff(verify: Verifier, now: int, actions: seq<Action>, j: nat)
    ensures GivingUp(Run(verify, EmptyStore(now), actions), j) <==> HasThrown(verify, now, actions, j)
  {
    if actions != [] {
      var n := |actions| - 1;
      var before := actions[..n];
      GivingUpIff(verify, now, before, j);
      RunIsGood(verify, now, before);
      GivingUpStep(verify, Run(verify, EmptyStore(now), before), actions[n], j);
      forall k: nat | k < n ensures Throws(verify, now, actions, k, j) <==> Throws(verify, now, before, k, j) {
        assert before[..k] == actions[..k];
      }
      if k: nat :| Throws(verify, now, before, k, j) { assert Throws(verify, now, actions, k, j); }
      if GivingUp(Run(verify, EmptyStore(now), actions), j) && !GivingUp(Run(verify, EmptyStore(now), before), j) {
        assert Throws(verify, now, actions, n, j);
      }
      if k: nat :| Throws(verify, now, actions, k, j) { assert k == n || Throws(verify, now, before, k, j); }
    }
  }

  /** A tracked row has one process job, and no checks before it has finished. */
  lemma OneProcessJob(s: Store, r: nat, j: nat, k: nat)
    requires r < |s.rows| && OneJob(s, r) && j < |s.jobs| && k < |s.jobs| && s.jobs[j].row == s.jobs[k].row == r
    requires s.jobs[j].body.Process?
    ensures s.jobs[k].body.Process? ==> j == k
    ensures s.jobs[k].body.Check? ==> s.jobs[j].at.Finished?
  {
  }

  /** A process job was queued by the submit that made its row, or by a broadcast that names it. */
  lemma QueuedBy(verify: Verifier, s: Store, j: nat)
    requires Inv(verify, s) && j < |s.jobs| && s.jobs[j].body.Process?
    ensures var (job, c) := (s.jobs[j], s.jobs[j].origin);
            && job.row < |s.rows| && !c.ByJob?
            && (c.BySubmit? ==>
                  && c.call < |s.calls| && s.calls[c.call].SubmitCall? && s.calls[c.call].submitAt == Created(job.row)
                  && s.rows[job.row].origin == FromIntent(c.call, s.calls[c.call].submit.intent))
            && (c.ByBroadcast? ==>
                  c.call < |s.calls| && s.calls[c.call].BroadcastCall? && s.calls[c.call].broadcast.row == job.row)
  {
    assert JobOk(s, j);
    if s.jobs[j].origin.BySubmit? { assert CallOk(s, s.jobs[j].origin.call); }
  }

  /** A row its submit closed has no process job. */
  lemma ClosedHasNoJob(verify: Verifier, s: Store, r: nat, i: nat, j: nat)
    requires Inv(verify, s) && Tracked(s, r) && Closed(s, i, r) && j < |s.jobs| && s.jobs[j].row == r
    ensures s.jobs[j].body.Check?
  {
    assert CallOk(s, i);
    if s.jobs[j].body.Process? { QueuedBy(verify, s, j); }
  }

  /** Failed without a reverted poll, though the chain took the transaction: the job gave up, or got an empty hash. */
  lemma TakenThenFailed(verify: Verifier, s: Store, r: nat, j: nat, h: string)
    requires Good(verify, s) && Tracked(s, r) && s.rows[r].status == FAILED
    requires Taken(s, j, r, h) && !WasHeard(s, r, Reverted)
    ensures Abandoned(s, j, r) || h == ""
  {
    assert LifeOk(s, r) && Settled(s, r);
    if i: nat :| Closed(s, i, r) {
      ClosedHasNoJob(verify, s, r, i, j);
    } else {
      var k: nat :| GaveUp(s, k, r);
      OneProcessJob(s, r, j, k);
      if NoHash(s, k, r) {
        assert JobFits(s.rows[r], s.jobs[k]) && HashTaken(s, r);
        var l: nat :| Taken(s, l, r, "");
        OneProcessJob(s, r, j, l);
      }
    }
  }

  /** An abandoned row has no check, so nothing ever asks the chain about it. */
  lemma NobodyAsks(verify: Verifier, s: Store, r: nat, j: nat)
    requires Good(verify, s) && Tracked(s, r) && Abandoned(s, j, r)
    ensures WasTaken(s, r) && (forall answer :: !WasHeard(s, r, answer))
    ensures forall k :: 0 <= k < |s.jobs| && s.jobs[k].row == r ==> s.jobs[k].body.Process?
  {
    assert LifeOk(s, r) && AnswerOk(s.jobs[j]);
    assert Taken(s, j, r, s.jobs[j].heard.value.hash);
    forall k | 0 <= k < |s.jobs| && s.jobs[k].row == r ensures s.jobs[k].body.Process? { OneProcessJob(s, r, j, k); }
  }

  /** Nor does anything ask about an empty hash. */
  lemma NobodyAsksForNoHash(verify: Verifier, s: Store, r: nat, j: nat, answer: TxStatus)
    requires Good(verify, s) && Tracked(s, r) && Taken(s, j, r, "")
    ensures !WasHeard(s, r, answer)
  {
    assert LifeOk(s, r);
    forall k: nat ensures !Heard(s, k, r, answer) {
      if k < |s.jobs| && s.jobs[k].row == r && s.jobs[k].body.Check? {
        assert JobFits(s.rows[r], s.jobs[k]) && HashTaken(s, r) && AnswerOk(s.jobs[k]);
        var l: nat :| Taken(s, l, r, s.jobs[k].body.txHash);
        OneProcessJob(s, r, j, l);
      }
    }
  }

  /** On a FAILED row a job that threw is one that abandoned it. */
  lemma ThrownIsAbandoned(verify: Verifier, now: int, actions: seq<Action>, r: nat, j: nat)
    requires var s := Run(verify, EmptyStore(now), actions);
             Tracked(s, r) && s.rows[r].status == FAILED && j < |s.jobs| && s.jobs[j].row == r
    ensures HasThrown(verify, now, actions, j) <==> Abandoned(Run(verify, EmptyStore(now), actions), j, r)
  {
    var s := Run(verify, EmptyStore(now), actions);
    GivingUpIff(verify, now, actions, j);
    RunIsGood(verify, now, actions);
    assert LifeOk(s, r) && JobFits(s.rows[r], s.jobs[j]);
  }

  ghost predicate FailedThoughTaken(s: Store, r: nat) {
    WasTaken(s, r) && !WasHeard(s, r, Reverted)
  }

  lemma FailedThoughTakenWhen(verify: Verifier, s: Store, r: nat)
    requires Good(verify, s) && Tracked(s, r) && s.rows[r].status == FAILED
    ensures FailedThoughTaken(s, r) <==> (exists j: nat :: Abandoned(s, j, r)) || (exists j: nat :: Taken(s, j, r, ""))
  {
    if FailedThoughTaken(s, r) {
      var j: nat, h :| Taken(s, j, r, h);
      TakenThenFailed(verify, s, r, j, h);
    }
    if j: nat :| Abandoned(s, j, r) { NobodyAsks(verify, s, r, j); }
    if j: nat :| Taken(s, j, r, "") { NobodyAsksForNoHash(verify, s, r, j, Reverted); }
  }

  /**
   * In every run a tracked row is FAILED though the chain took its transaction, and no poll ever said it was
   * reverted, exactly when its job threw as it recorded the hash or queued the check, or the hash was empty.
   * After such a throw the row has no check, so nothing ever asks the chain about it.
   */
  lemma FailedThoughTakenIff(verify: Verifier, now: int, actions: seq<Action>, r: nat)
    requires var s := Run(verify, EmptyStore(now), actions); Tracked(s, r) && s.rows[r].status == FAILED
    ensures var s := Run(verify, EmptyStore(now), actions);
            FailedThoughTaken(s, r) <==>
              || (exists j: nat :: j < |s.jobs| && s.jobs[j].row == r && HasThrown(verify, now, actions, j))
              || (exists j: nat :: Taken(s, j, r, ""))
    ensures var s := Run(verify, EmptyStore(now), actions);
            forall j: nat, k: nat :: j < |s.jobs| && k < |s.jobs| && s.jobs[j].row == r && s.jobs[k].row == r ==>
              (HasThrown(verify, now, actions, j) ==> s.jobs[k].body.Process?)
  {
    var s := Run(verify, EmptyStore(now), actions);
    RunIsGood(verify, now, actions);
    FailedThoughTakenWhen(verify, s, r);
    forall j: nat | j < |s.jobs| && s.jobs[j].row == r
      ensures HasThrown(verify, now, actions, j) <==> Abandoned(s, j, r) {
      ThrownIsAbandoned(verify, now, actions, r, j);
    }
    forall j: nat | Abandoned(s, j, r)
      ensures forall k :: 0 <= k < |s.jobs| && s.jobs[k].row == r ==> s.jobs[k].body.Process? {
      NobodyAsks(verify, s, r, j);
    }
  }

  /** The store with job `j` moved to `at`, its row as `row`. */
  function Moved(s: Store, j: nat, at: JobPc, heard: Option<Input>, row: Row): Store
    requires j < |s.jobs| && s.jobs[j].row < |s.rows|
  {
    s.(jobs := s.jobs[j := s.jobs[j].(at := at, heard := heard)], rows := s.rows[s.jobs[j].row := row])
  }

  lemma AlsoSteps(verify: Verifier, s: Store, before: seq<Action>, j: nat, input: Input, t: Store)
    returns (actions: seq<Action>)
    requires Step(verify, Run(verify, s, before), JobStep(j, input)) == t
    ensures Run(verify, s, actions) == t
  {
    actions := before + [JobStep(j, input)];
    assert actions[..|before|] == before;
  }

  lemma SentToChain(verify: Verifier, s: Store, j: nat, h: string) returns (actions: seq<Action>)
    requires j < |s.jobs| && s.jobs[j].at.Start? && s.jobs[j].row < |s.rows|
    requires s.jobs[j].body.Process? && s.jobs[j].body.signedTx != ""
    ensures Run(verify, s, actions)
         == Moved(s, j, Record(h), Some(ChainHash(h)), s.rows[s.jobs[j].row].(status := PROCESSING))
  {
    var (row, heard) := (s.rows[s.jobs[j].row], s.jobs[j].heard);
    var marked := row.(status := PROCESSING);
    actions := AlsoSteps(verify, s, [], j, Fine, Moved(s, j, MarkProcessing, heard, row));
    actions := AlsoSteps(verify, s, actions, j, Fine, Moved(s, j, SendToChain, heard, marked));
    actions := AlsoSteps(verify, s, actions, j, ChainHash(h), Moved(s, j, Record(h), Some(ChainHash(h)), marked));
  }

  /** Recording the hash succeeds, queueing the check throws, and the row is failed. */
  lemma ThrownAway(verify: Verifier, s: Store, j: nat, h: string) returns (actions: seq<Action>)
    requires j < |s.jobs| && s.jobs[j].at == Record(h) && s.jobs[j].row < |s.rows|
    ensures Run(verify, s, actions)
         == Moved(s, j, Crashed, s.jobs[j].heard, s.rows[s.jobs[j].row].(status := FAILED, txHash := Some(h)))
  {
    var (row, heard) := (s.rows[s.jobs[j].row], s.jobs[j].heard);
    var hashed := row.(status := PROCESSING, txHash := Some(h));
    actions := AlsoSteps(verify, s, [], j, Fine, Moved(s, j, QueueCheck(h), heard, hashed));
    actions := AlsoSteps(verify, s, actions, j, Fault, Moved(s, j, Fail, heard, hashed));
    actions := AlsoSteps(verify, s, actions, j, Fine, Moved(s, j, Crashed, heard, hashed.(status := FAILED)));
  }

  /** From any store with a process job to run, a run that fails its row after the chain has taken the transaction. */
  lemma AbandonedAfterSend(verify: Verifier, s: Store, j: nat, h: string) returns (actions: seq<Action>)
    requires j < |s.jobs| && s.jobs[j].at.Start? && s.jobs[j].row < |s.rows|
    requires s.jobs[j].body.Process? && s.jobs[j].body.signedTx != ""
    ensures var t := Run(verify, s, actions);
            var row := s.rows[s.jobs[j].row].(status := FAILED, txHash := Some(h));
            && t == Moved(s, j, Crashed, Some(ChainHash(h)), row)
            && Abandoned(t, j, s.jobs[j].row) && Taken(t, j, s.jobs[j].row, h)
  {
    var sending := SentToChain(verify, s, j, h);
    var sent := Run(verify, s, sending);
    var throwing := ThrownAway(verify, sent, j, h);
    RunConcat(verify, s, sending, throwing);
    var (row, t) := (s.jobs[j].row, Run(verify, sent, throwing));
    assert t.rows == s.rows[row := s.rows[row].(status := FAILED, txHash := Some(h))];
    assert t.jobs == s.jobs[j := s.jobs[j].(at := Crashed, heard := Some(ChainHash(h)))];
    actions := sending + throwing;
  }

  /** So a transfer that is sent, broadcast and taken by the chain can end FAILED, and stay so. */
  lemma TakenTransferEndsFailed(
    verify: Verifier, now: int, req: SendRequest, to: string, signedTx: string, h: string, later: seq<Action>)
    returns (actions: seq<Action>)
    requires Payee(req, to) && signedTx != ""
    ensures var s := Run(verify, EmptyStore(now), actions);
            && |s.rows| == 1 && s.rows[0].origin == FromSend(0) && s.rows[0].status == FAILED
            && s.rows[0].txHash == Some(h)
            && FailedThoughTaken(s, 0)
    ensures var t := Run(verify, Run(verify, EmptyStore(now), actions), later);
            |t.rows| > 0 && t.rows[0].status == FAILED
  {
    var e := EmptyStore(now);
    var row := Row(req.senderId, req.recipientAccountId, StoredTerms(req, to), PENDING, None, req.key, FromSend(0));
    var sent := Store([], [row], [], [], [SendCall(req, SendReplied(0, ByCreate(to)))], now);
    var one := SendRuns(verify, e, req, to);
    var ask := BroadcastRequest(req.senderId, 0, signedTx);
    var two := BroadcastRuns(verify, sent, ask, None);
    var handed := Begun(BroadcastEffect(sent, ask, None), BroadcastCall(ask, BroadcastResult(sent, ask, None)));
    var three := AbandonedAfterSend(verify, handed, 0, h);
    var s := Run(verify, handed, three);
    Then(verify, e, one, sent, two, handed);
    Then(verify, e, one + two, handed, three, s);
    actions := one + two + three;
    AbandonedStays(verify, now, actions, later);
  }

  lemma AbandonedStays(verify: Verifier, now: int, actions: seq<Action>, later: seq<Action>)
    requires var s := Run(verify, EmptyStore(now), actions);
             |s.rows| > 0 && s.rows[0].origin.FromSend? && s.rows[0].status == FAILED && Abandoned(s, 0, 0)
    ensures FailedThoughTaken(Run(verify, EmptyStore(now), actions), 0)
    ensures var t := Run(verify, Run(verify, EmptyStore(now), actions), later);
            |t.rows| > 0 && t.rows[0].status == FAILED
  {
    RunIsGood(verify, now, actions);
    FailedThoughTakenWhen(verify, Run(verify, EmptyStore(now), actions), 0);
    RowsStay(verify, Run(verify, EmptyStore(now), actions), later, 0);
    TerminalStays(verify, now, actions, later, 0);
  }
}
