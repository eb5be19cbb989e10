/** Undisturbed calls as runs of the machine, so that what they come to can be reached. */
module TransferRuns {
  import opened Common
  import opened Evm
  import opened Transfers
  import opened TransferInvariants
  import opened TransferSchedules
  import opened TransferOutcomes

  /** A call as it begins. */
  predicate Opening(c: Call) {
    match c
    case SubmitCall(_, at) => at.Replay?
    case SendCall(_, at) => at.Authorize?
    case BroadcastCall(_, at) => at.Get?
  }

  function Open(c: Call): Action {
    match c
    case SubmitCall(req, _) => BeginSubmit(req)
    case SendCall(req, _) => BeginSend(req)
    case BroadcastCall(req, _) => BeginBroadcast(req)
  }

  /** Beginning a call is a step. */
  lemma BeginRuns(verify: Verifier, s: Store, c: Call)
    requires Opening(c)
    ensures Run(verify, s, [Open(c)]) == Begun(s, c)
  {
    assert [Open(c)][..0] == [];
    assert Run(verify, s, [Open(c)]) == Step(verify, s, Open(c));
  }

  /** Nothing else runs, nothing throws, and one statement is told `answer`. */
  function Undisturbed(place: nat, answer: Input): Schedule {
    k => Turn([], if k == place then answer else Fine)
  }

  /** Following a call from its beginning is a run. */
  lemma Follow(verify: Verifier, turns: Schedule, s: Store, c: Call, t: Store, d: Call) returns (actions: seq<Action>)
    requires Opening(c) && |t.calls| == |s.calls| && Comes(verify, turns, Begun(s, c), t, d)
    ensures Run(verify, s, actions) == Begun(t, d)
  {
    BeginRuns(verify, s, c);
    var trace := LeadsIsARun(verify, |t.calls|, turns, Begun(s, c), Begun(t, d));
    RunConcat(verify, s, [Open(c)], trace);
    actions := [Open(c)] + trace;
  }

  lemma SubmitRuns(verify: Verifier, s: Store, req: SubmitRequest) returns (actions: seq<Action>)
    requires IntentsOk(s)
    ensures Run(verify, s, actions)
              == Begun(SubmitEffect(verify, s, req), SubmitCall(req, SubmitResult(verify, s, req)))
  {
    var turns := Undisturbed(0, Fine);
    SubmitQuietly(verify, s, req, turns);
    SubmitFaultlessly(verify, s, req, turns);
    actions := Follow(verify, turns, s, SubmitCall(req, Replay),
                      SubmitEffect(verify, s, req), SubmitCall(req, SubmitResult(verify, s, req)));
  }

  lemma SendRuns(verify: Verifier, s: Store, req: SendRequest, to: string) returns (actions: seq<Action>)
    requires Payee(req, to)
    ensures Run(verify, s, actions) == Begun(SendEffect(s, req, to), SendCall(req, SendResult(s, req, to)))
  {
    var turns := Undisturbed(2, Resolved(to));
    SendQuietly(verify, s, req, turns);
    SendFaultlessly(s, req, to, turns);
    actions := Follow(verify, turns, s, SendCall(req, Authorize), SendEffect(s, req, to),
                      SendCall(req, SendResult(s, req, to)));
  }

  lemma BroadcastRuns(verify: Verifier, s: Store, req: BroadcastRequest, accountId: Option<string>)
    returns (actions: seq<Action>)
    ensures Run(verify, s, actions)
              == Begun(BroadcastEffect(s, req, accountId), BroadcastCall(req, BroadcastResult(s, req, accountId)))
  {
    var turns := Undisturbed(0, Account(accountId));
    BroadcastQuietly(verify, s, req, turns);
    BroadcastFaultlessly(s, req, accountId, turns);
    actions := Follow(verify, turns, s, BroadcastCall(req, Get),
                      BroadcastEffect(s, req, accountId), BroadcastCall(req, BroadcastResult(s, req, accountId)));
  }

  /** One job from start to end, the chain giving `answer`. */
  lemma JobRuns(verify: Verifier, s: Store, j: nat, answer: Input) returns (actions: seq<Action>)
    requires j < |s.jobs| && s.jobs[j].row < |s.rows| && s.jobs[j].at.Start?
    ensures var end := JobEnds(s, j, answer, k => false);
            j < |end.left.jobs| && Run(verify, s, actions) == AtJob(end.left, j, end.at, end.heard)
  {
    var turns := Undisturbed(ChainTurn(s.jobs[j]), answer);
    JobQuietly(verify, s, j, turns);
    JobFaultlessly(s, j, turns);
    var end := JobEnds(s, j, answer, k => false);
    actions := JobLeadsIsARun(verify, j, turns, s, AtJob(end.left, j, end.at, end.heard));
  }

  /** A new request with a free key gets as far as the transaction. */
  lemma ReachTransaction(verify: Verifier, s: Store, req: SendRequest, to: string) returns (actions: seq<Action>)
    requires Payee(req, to) && FindByKey(s.rows, req.key, req.senderId).None?
    ensures Run(verify, s, actions) == Begun(s, SendCall(req, InTransaction(to)))
  {
    var turns := Undisturbed(2, Resolved(to));
    var from := Begun(s, SendCall(req, Authorize));
    LeadsHere(verify, |s.calls|, turns, from);
    QuietSend(verify, turns, from, s, req, Authorize, Nothing, FastPath);
    QuietSend(verify, turns, from, s, req, FastPath, Nothing, Resolve);
    QuietSend(verify, turns, from, s, req, Resolve, Nothing, Reused(to));
    QuietSend(verify, turns, from, s, req, Reused(to), Nothing, InTransaction(to));
    actions := Follow(verify, turns, s, SendCall(req, Authorize), s, SendCall(req, InTransaction(to)));
  }

  function OnePrepared(now: int, userId: string, terms: Terms): Store {
    EmptyStore(now).(intents := [Intent(userId, terms, READY, None, now + INTENT_TTL_MS, None)])
  }

  lemma PrepareRuns(verify: Verifier, now: int, userId: string, terms: Terms)
    ensures Run(verify, EmptyStore(now), [Prepare(userId, terms)]) == OnePrepared(now, userId, terms)
  {
    var (e, a) := (EmptyStore(now), Prepare(userId, terms));
    assert [a][..0] == [];
    assert Run(verify, e, [a]) == Step(verify, e, a);
  }

  /** One run after another. */
  lemma Then(verify: Verifier, s: Store, first: seq<Action>, t: Store, second: seq<Action>, u: Store)
    requires Run(verify, s, first) == t && Run(verify, t, second) == u
    ensures Run(verify, s, first + second) == u
  {
    RunConcat(verify, s, first, second);
  }
}
