/**
 * One request or job followed from its first statement to its answer: before each statement others run, and
 * the environment answers it, both as a schedule says. What comes out is a function of store and schedule.
 */
module TransferSchedules {
  import opened Common
  import opened Transfers

  /** Before one statement: what everyone else does first, and what the environment then answers. */
  datatype Turn = Turn(others: seq<Action>, input: Input)

  /** A statement's turn, by its place in the source. */
  type Schedule = nat -> Turn

  const END: nat := 11

  function SubmitPlace(at: SubmitPc): (k: nat)
    ensures k <= END
  {
    match at
    case Replay => 0
    case Claim => 1
    case Raced => 2
    case Diagnose => 3
    case Load => 4
    case Insert(_) => 5
    case Winner => 6
    case ReleaseDuplicate(_) => 7
    case Link(_) => 8
    case Queue(_) => 9
    case Rollback(_) => 10
    case MarkFailed(_) => 10
    case _ => END
  }

  function SendPlace(at: SendPc): (k: nat)
    ensures k <= END
  {
    match at
    case Authorize => 0
    case FastPath => 1
    case Resolve => 2
    case Reused(_) => 3
    case InTransaction(_) => 4
    case Create(_) => 5
    case Lost(_) => 6
    case _ => END
  }

  function BroadcastPlace(at: BroadcastPc): (k: nat)
    ensures k <= END
  {
    match at
    case Get => 0
    case ClaimPending => 1
    case Hand => 2
    case Release => 3
    case _ => END
  }

  function Place(c: Call): (k: nat)
    ensures k <= END
  {
    match c
    case SubmitCall(_, at) => SubmitPlace(at)
    case SendCall(_, at) => SendPlace(at)
    case BroadcastCall(_, at) => BroadcastPlace(at)
  }

  function JobPlace(at: JobPc): (k: nat)
    ensures k <= END
  {
    match at
    case Start => 0
    case NoSignature => 1
    case MarkProcessing => 1
    case Poll => 1
    case SendToChain => 2
    case Settle(_) => 2
    case Requeue => 2
    case Record(_) => 3
    case WriteReceipt => 3
    case QueueCheck(_) => 4
    case Fail => 5
    case _ => END
  }

  predicate Ended(c: Call) { Place(c) == END }

  // ----- the others keep out

  ghost predicate Foreign(others: seq<Action>, me: nat) {
    forall a :: a in others ==> !(a.CallStep? && a.call == me)
  }

  ghost predicate ForeignToJob(others: seq<Action>, me: nat) {
    forall a :: a in others ==> !(a.JobStep? && a.job == me)
  }

  /** Nobody else takes the steps of call `me`. */
  ghost predicate Alien(turns: Schedule, me: nat) {
    forall k: nat :: Foreign(turns(k).others, me)
  }

  ghost predicate AlienToJob(turns: Schedule, me: nat) {
    forall k: nat :: ForeignToJob(turns(k).others, me)
  }

  lemma OtherLeavesCall(verify: Verifier, s: Store, a: Action, me: nat)
    requires me < |s.calls| && !(a.CallStep? && a.call == me)
    ensures me < |Step(verify, s, a).calls| && Step(verify, s, a).calls[me] == s.calls[me]
  {
  }

  lemma {:induction false} OthersLeaveCall(verify: Verifier, s: Store, others: seq<Action>, me: nat)
    requires me < |s.calls| && Foreign(others, me)
    ensures me < |Run(verify, s, others).calls| && Run(verify, s, others).calls[me] == s.calls[me]
  {
    if others != [] {
      var before := others[..|others| - 1];
      assert others[|others| - 1] in others;
      forall a | a in before ensures a in others { }
      OthersLeaveCall(verify, s, before, me);
      OtherLeavesCall(verify, Run(verify, s, before), others[|others| - 1], me);
    }
  }

  lemma StatementLeavesJobs(s: Store, q: Statement, me: nat)
    requires me < |s.jobs|
    ensures me < |Execute(s, q).jobs| && Execute(s, q).jobs[me] == s.jobs[me]
  {
  }

  lemma OtherLeavesJob(verify: Verifier, s: Store, a: Action, me: nat)
    requires me < |s.jobs| && !(a.JobStep? && a.job == me)
    ensures me < |Step(verify, s, a).jobs| && Step(verify, s, a).jobs[me] == s.jobs[me]
  {
    match a
    case CallStep(i, input) => if i < |s.calls| { StatementLeavesJobs(s, CallNext(verify, s, i, input).0, me); }
    case JobStep(j, input) => if j < |s.jobs| { StatementLeavesJobs(s, JobNext(s, j, s.jobs[j], input).0, me); }
    case _ =>
  }

  lemma {:induction false} OthersLeaveJob(verify: Verifier, s: Store, others: seq<Action>, me: nat)
    requires me < |s.jobs| && ForeignToJob(others, me)
    ensures me < |Run(verify, s, others).jobs| && Run(verify, s, others).jobs[me] == s.jobs[me]
  {
    if others != [] {
      var before := others[..|others| - 1];
      assert others[|others| - 1] in others;
      forall a | a in before ensures a in others { }
      OthersLeaveJob(verify, s, before, me);
      OtherLeavesJob(verify, Run(verify, s, before), others[|others| - 1], me);
    }
  }

  // ----- following a call

  /** A store with one more call. */
  function Begun(s: Store, c: Call): Store {
    s.(calls := s.calls + [c])
  }

  /** What the next statement of call `me` sees. */
  function Seen(verify: Verifier, s: Store, me: nat, turns: Schedule): Store
    requires me < |s.calls|
  {
    Run(verify, s, turns(Place(s.calls[me])).others)
  }

  function TakeTurn(verify: Verifier, s: Store, me: nat, turns: Schedule): Store
    requires me < |s.calls|
  {
    Step(verify, Seen(verify, s, me, turns), CallStep(me, turns(Place(s.calls[me])).input))
  }

  lemma SubmitAdvances(verify: Verifier, s: Store, i: nat, req: SubmitRequest, at: SubmitPc, input: Input)
    requires SubmitPlace(at) < END
    ensures SubmitPlace(at) < SubmitPlace(SubmitNext(verify, s, i, req, at, input).1)
  {
  }

  lemma SendAdvances(s: Store, i: nat, req: SendRequest, at: SendPc, input: Input)
    requires SendPlace(at) < END
    ensures SendPlace(at) < SendPlace(SendNext(s, i, req, at, input).1)
  {
    var next := SendNext(s, i, req, at, input).1;
    match at
    case Authorize => assert next.SendFailed? || next.FastPath?;
    case FastPath => assert next.SendFailed? || next.SendReplied? || next.Resolve?;
    case Resolve => assert next.SendFailed? || next.Reused?;
    case Reused(_) => assert next.SendFailed? || next.SendReplied? || next.InTransaction?;
    case InTransaction(_) => assert next.SendFailed? || next.SendReplied? || next.Create?;
    case Create(_) => assert next.SendFailed? || next.SendReplied? || next.Lost?;
    case Lost(_) => assert next.SendFailed? || next.SendReplied?;
  }

  lemma BroadcastAdvances(s: Store, i: nat, req: BroadcastRequest, at: BroadcastPc, input: Input)
    requires BroadcastPlace(at) < END
    ensures BroadcastPlace(at) < BroadcastPlace(BroadcastNext(s, i, req, at, input).1)
  {
  }

  /** A turn moves the call on, to where its control flow says. */
  lemma TurnAdvances(verify: Verifier, s: Store, me: nat, turns: Schedule)
    requires me < |s.calls| && Alien(turns, me) && !Ended(s.calls[me])
    ensures var u := Seen(verify, s, me, turns);
            && me < |u.calls| && u.calls[me] == s.calls[me]
            && me < |TakeTurn(verify, s, me, turns).calls|
            && TakeTurn(verify, s, me, turns).calls[me] == CallNext(verify, u, me, turns(Place(s.calls[me])).input).1
            && Place(s.calls[me]) < Place(TakeTurn(verify, s, me, turns).calls[me])
  {
    var input := turns(Place(s.calls[me])).input;
    var u := Seen(verify, s, me, turns);
    OthersLeaveCall(verify, s, turns(Place(s.calls[me])).others, me);
    match s.calls[me]
    case SubmitCall(req, at) => SubmitAdvances(verify, u, me, req, at, input);
    case SendCall(req, at) => SendAdvances(u, me, req, at, input);
    case BroadcastCall(req, at) => BroadcastAdvances(u, me, req, at, input);
  }

  predicate OneTurn(verify: Verifier, me: nat, turns: Schedule, s: Store, t: Store) {
    me < |s.calls| && !Ended(s.calls[me]) && t == TakeTurn(verify, s, me, turns)
  }

  /** Stores one turn apart. */
  ghost predicate Path(verify: Verifier, me: nat, turns: Schedule, path: seq<Store>) {
    forall i, j :: 0 <= i && j == i + 1 < |path| ==> OneTurn(verify, me, turns, path[i], path[j])
  }

  lemma PathGrows(verify: Verifier, me: nat, turns: Schedule, path: seq<Store>, t: Store)
    requires |path| > 0 && Path(verify, me, turns, path) && OneTurn(verify, me, turns, path[|path| - 1], t)
    ensures Path(verify, me, turns, path + [t])
  {
  }

  /** Following a call is a run of the machine. */
  lemma {:induction false} PathIsARun(verify: Verifier, me: nat, turns: Schedule, path: seq<Store>)
    returns (trace: seq<Action>)
    requires |path| > 0 && Path(verify, me, turns, path)
    ensures Run(verify, path[0], trace) == path[|path| - 1]
  {
    if |path| == 1 {
      trace := [];
    } else {
      var n := |path| - 1;
      var before := path[..n];
      forall i, j | 0 <= i && j == i + 1 < |before| ensures OneTurn(verify, me, turns, before[i], before[j]) {
        assert OneTurn(verify, me, turns, path[i], path[j]);
      }
      assert OneTurn(verify, me, turns, path[n - 1], path[n]);
      trace := PathIsARun(verify, me, turns, before);
      var turn := turns(Place(path[n - 1].calls[me]));
      RunConcat(verify, path[0], trace, turn.others);
      var waited := trace + turn.others;
      trace := waited + [CallStep(me, turn.input)];
      assert trace[..|waited|] == waited;
    }
  }

  /** Two paths from one store keep step, so they end at one answer. */
  lemma {:induction false} PathsAgree(
    verify: Verifier, me: nat, turns: Schedule, path: seq<Store>, other: seq<Store>, k: nat)
    requires k < |path| <= |other| && path[0] == other[0] && Path(verify, me, turns, path)
             && Path(verify, me, turns, other)
    ensures path[k] == other[k]
  {
    if k > 0 {
      PathsAgree(verify, me, turns, path, other, k - 1);
      assert OneTurn(verify, me, turns, path[k - 1], path[k]) && OneTurn(verify, me, turns, other[k - 1], other[k]);
    }
  }

  /** Some path of turns goes from one store to another. */
  ghost predicate Leads(verify: Verifier, me: nat, turns: Schedule, s: Store, t: Store) {
    exists path: seq<Store> :: PathBetween(verify, me, turns, path, s, t)
  }

  ghost predicate PathBetween(verify: Verifier, me: nat, turns: Schedule, path: seq<Store>, s: Store, t: Store) {
    |path| > 0 && path[0] == s && path[|path| - 1] == t && Path(verify, me, turns, path)
  }

  lemma LeadsHere(verify: Verifier, me: nat, turns: Schedule, s: Store)
    ensures Leads(verify, me, turns, s, s)
  {
    assert PathBetween(verify, me, turns, [s], s, s);
  }

  lemma LeadsOn(verify: Verifier, me: nat, turns: Schedule, s: Store, t: Store, u: Store)
    requires Leads(verify, me, turns, s, t) && OneTurn(verify, me, turns, t, u)
    ensures Leads(verify, me, turns, s, u)
  {
    var path: seq<Store> :| PathBetween(verify, me, turns, path, s, t);
    PathGrows(verify, me, turns, path, u);
    assert PathBetween(verify, me, turns, path + [u], s, u);
  }

  lemma LeadsIsARun(verify: Verifier, me: nat, turns: Schedule, s: Store, t: Store) returns (trace: seq<Action>)
    requires Leads(verify, me, turns, s, t)
    ensures Run(verify, s, trace) == t
  {
    var path: seq<Store> :| PathBetween(verify, me, turns, path, s, t);
    trace := PathIsARun(verify, me, turns, path);
  }

  lemma OnlyTheLastEnds(verify: Verifier, me: nat, turns: Schedule, path: seq<Store>)
    requires Path(verify, me, turns, path)
    ensures forall i :: 0 <= i < |path| - 1 ==> me < |path[i].calls| && !Ended(path[i].calls[me])
  {
    forall i | 0 <= i < |path| - 1 ensures me < |path[i].calls| && !Ended(path[i].calls[me]) {
      assert OneTurn(verify, me, turns, path[i], path[i + 1]);
    }
  }

  lemma NoLonger(verify: Verifier, me: nat, turns: Schedule, ended: seq<Store>, path: seq<Store>)
    requires |ended| > 0 && |path| > 0 && ended[0] == path[0]
    requires Path(verify, me, turns, ended) && Path(verify, me, turns, path) && me < |ended[|ended| - 1].calls|
             && Ended(ended[|ended| - 1].calls[me])
    ensures |path| <= |ended|
  {
    OnlyTheLastEnds(verify, me, turns, path);
    if |ended| < |path| {
      PathsAgree(verify, me, turns, ended, path, |ended| - 1);
    }
  }

  /** Under one schedule a call has one answer and leaves one store. */
  lemma SameAnswer(verify: Verifier, me: nat, turns: Schedule, s: Store, t: Store, u: Store)
    requires Leads(verify, me, turns, s, t) && me < |t.calls| && Ended(t.calls[me])
    requires Leads(verify, me, turns, s, u) && me < |u.calls| && Ended(u.calls[me])
    ensures t == u
  {
    var p: seq<Store> :| PathBetween(verify, me, turns, p, s, t);
    var q: seq<Store> :| PathBetween(verify, me, turns, q, s, u);
    NoLonger(verify, me, turns, p, q);
    NoLonger(verify, me, turns, q, p);
    PathsAgree(verify, me, turns, p, q, |p| - 1);
  }

  // ----- following a job

  function SeenByJob(verify: Verifier, s: Store, me: nat, turns: Schedule): Store
    requires me < |s.jobs|
  {
    Run(verify, s, turns(JobPlace(s.jobs[me].at)).others)
  }

  function TakeJobTurn(verify: Verifier, s: Store, me: nat, turns: Schedule): Store
    requires me < |s.jobs|
  {
    Step(verify, SeenByJob(verify, s, me, turns), JobStep(me, turns(JobPlace(s.jobs[me].at)).input))
  }

  lemma JobAdvances(s: Store, j: nat, job: Job, input: Input)
    requires JobPlace(job.at) < END
    ensures JobPlace(job.at) < JobPlace(JobNext(s, j, job, input).1)
  {
  }

  lemma JobTurnAdvances(verify: Verifier, s: Store, me: nat, turns: Schedule)
    requires me < |s.jobs| && AlienToJob(turns, me) && JobPlace(s.jobs[me].at) < END
    ensures var u := SeenByJob(verify, s, me, turns);
            var input := turns(JobPlace(s.jobs[me].at)).input;
            && me < |u.jobs| && u.jobs[me] == s.jobs[me]
            && me < |TakeJobTurn(verify, s, me, turns).jobs|
            && TakeJobTurn(verify, s, me, turns).jobs[me]
            == s.jobs[me].(at := JobNext(u, me, s.jobs[me], input).1, heard := Noted(s.jobs[me], input))
            && JobPlace(s.jobs[me].at) < JobPlace(TakeJobTurn(verify, s, me, turns).jobs[me].at)
  {
    var input := turns(JobPlace(s.jobs[me].at)).input;
    var u := SeenByJob(verify, s, me, turns);
    OthersLeaveJob(verify, s, turns(JobPlace(s.jobs[me].at)).others, me);
    JobAdvances(u, me, s.jobs[me], input);
    StatementLeavesJobs(u, JobNext(u, me, u.jobs[me], input).0, me);
  }

  predicate OneJobTurn(verify: Verifier, me: nat, turns: Schedule, s: Store, t: Store) {
    me < |s.jobs| && JobPlace(s.jobs[me].at) < END && t == TakeJobTurn(verify, s, me, turns)
  }

  ghost predicate JobPath(verify: Verifier, me: nat, turns: Schedule, path: seq<Store>) {
    forall i, j :: 0 <= i && j == i + 1 < |path| ==> OneJobTurn(verify, me, turns, path[i], path[j])
  }

  lemma JobPathGrows(verify: Verifier, me: nat, turns: Schedule, path: seq<Store>, t: Store)
    requires |path| > 0 && JobPath(verify, me, turns, path) && OneJobTurn(verify, me, turns, path[|path| - 1], t)
    ensures JobPath(verify, me, turns, path + [t])
  {
  }

  lemma {:induction false} JobPathIsARun(verify: Verifier, me: nat, turns: Schedule, path: seq<Store>)
    returns (trace: seq<Action>)
    requires |path| > 0 && JobPath(verify, me, turns, path)
    ensures Run(verify, path[0], trace) == path[|path| - 1]
  {
    if |path| == 1 {
      trace := [];
    } else {
      var n := |path| - 1;
      var before := path[..n];
      forall i, j | 0 <= i && j == i + 1 < |before| ensures OneJobTurn(verify, me, turns, before[i], before[j]) {
        assert OneJobTurn(verify, me, turns, path[i], path[j]);
      }
      assert OneJobTurn(verify, me, turns, path[n - 1], path[n]);
      trace := JobPathIsARun(verify, me, turns, before);
      var turn := turns(JobPlace(path[n - 1].jobs[me].at));
      RunConcat(verify, path[0], trace, turn.others);
      var waited := trace + turn.others;
      trace := waited + [JobStep(me, turn.input)];
      assert trace[..|waited|] == waited;
    }
  }

  lemma {:induction false} JobPathsAgree(
    verify: Verifier, me: nat, turns: Schedule, path: seq<Store>, other: seq<Store>, k: nat)
    requires k < |path| <= |other| && path[0] == other[0] && JobPath(verify, me, turns, path)
             && JobPath(verify, me, turns, other)
    ensures path[k] == other[k]
  {
    if k > 0 {
      JobPathsAgree(verify, me, turns, path, other, k - 1);
      assert OneJobTurn(verify, me, turns, path[k - 1], path[k])
             && OneJobTurn(verify, me, turns, other[k - 1], other[k]);
    }
  }

  ghost predicate JobLeads(verify: Verifier, me: nat, turns: Schedule, s: Store, t: Store) {
    exists path: seq<Store> :: JobPathBetween(verify, me, turns, path, s, t)
  }

  ghost predicate JobPathBetween(verify: Verifier, me: nat, turns: Schedule, path: seq<Store>, s: Store, t: Store) {
    |path| > 0 && path[0] == s && path[|path| - 1] == t && JobPath(verify, me, turns, path)
  }

  lemma JobLeadsHere(verify: Verifier, me: nat, turns: Schedule, s: Store)
    ensures JobLeads(verify, me, turns, s, s)
  {
    assert JobPathBetween(verify, me, turns, [s], s, s);
  }

  lemma JobLeadsOn(verify: Verifier, me: nat, turns: Schedule, s: Store, t: Store, u: Store)
    requires JobLeads(verify, me, turns, s, t) && OneJobTurn(verify, me, turns, t, u)
    ensures JobLeads(verify, me, turns, s, u)
  {
    var path: seq<Store> :| JobPathBetween(verify, me, turns, path, s, t);
    JobPathGrows(verify, me, turns, path, u);
    assert JobPathBetween(verify, me, turns, path + [u], s, u);
  }

  lemma JobLeadsIsARun(verify: Verifier, me: nat, turns: Schedule, s: Store, t: Store) returns (trace: seq<Action>)
    requires JobLeads(verify, me, turns, s, t)
    ensures Run(verify, s, trace) == t
  {
    var path: seq<Store> :| JobPathBetween(verify, me, turns, path, s, t);
    trace := JobPathIsARun(verify, me, turns, path);
  }

  lemma OnlyTheLastJobStoreEnds(verify: Verifier, me: nat, turns: Schedule, path: seq<Store>)
    requires JobPath(verify, me, turns, path)
    ensures forall i :: 0 <= i < |path| - 1 ==> me < |path[i].jobs| && JobPlace(path[i].jobs[me].at) < END
  {
    forall i | 0 <= i < |path| - 1 ensures me < |path[i].jobs| && JobPlace(path[i].jobs[me].at) < END {
      assert OneJobTurn(verify, me, turns, path[i], path[i + 1]);
    }
  }

  lemma JobPathNoLonger(verify: Verifier, me: nat, turns: Schedule, ended: seq<Store>, path: seq<Store>)
    requires |ended| > 0 && |path| > 0 && ended[0] == path[0]
    requires JobPath(verify, me, turns, ended) && JobPath(verify, me, turns, path) && me < |ended[|ended| - 1].jobs|
             && JobPlace(ended[|ended| - 1].jobs[me].at) == END
    ensures |path| <= |ended|
  {
    OnlyTheLastJobStoreEnds(verify, me, turns, path);
    if |ended| < |path| {
      JobPathsAgree(verify, me, turns, ended, path, |ended| - 1);
    }
  }

  /** Under one schedule a job leaves one store. */
  lemma SameEnd(verify: Verifier, me: nat, turns: Schedule, s: Store, t: Store, u: Store)
    requires JobLeads(verify, me, turns, s, t) && me < |t.jobs| && JobPlace(t.jobs[me].at) == END
    requires JobLeads(verify, me, turns, s, u) && me < |u.jobs| && JobPlace(u.jobs[me].at) == END
    ensures t == u
  {
    var p: seq<Store> :| JobPathBetween(verify, me, turns, p, s, t);
    var q: seq<Store> :| JobPathBetween(verify, me, turns, q, s, u);
    JobPathNoLonger(verify, me, turns, p, q);
    JobPathNoLonger(verify, me, turns, q, p);
    JobPathsAgree(verify, me, turns, p, q, |p| - 1);
  }
}
