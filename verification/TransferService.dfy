/**
 * The services and the worker as programs over the tables, each statement running after whatever
 * the other requests and jobs did meanwhile. Every execution is proved to be a run of the machine,
 * so the results of `TransferTheorems` hold of it.
 */
module TransferService {
  import opened Common
  import opened Evm
  import opened Transfers
  import opened TransferInvariants
  import opened TransferLifecycle
  import opened TransferTheorems
  import opened TransferSettlement
  import opened TransferSchedules
  import opened TransferOutcomes
  import opened TransferRuns
  import opened TransferTerms
  import opened TransferAnswers
  import opened TransferReplies

  /** A store that some run from an empty one reaches, and so a good one. */
  ghost predicate Reachable(verify: Verifier, s: Store) {
    exists now: int, actions: seq<Action> :: s == Run(verify, EmptyStore(now), actions)
  }

  lemma ReachableIsGood(verify: Verifier, s: Store)
    requires Reachable(verify, s)
    ensures Good(verify, s)
  {
    var now: int, actions: seq<Action> :| s == Run(verify, EmptyStore(now), actions);
    RunIsGood(verify, now, actions);
  }

  lemma RunIsReachable(verify: Verifier, s: Store, actions: seq<Action>)
    requires Reachable(verify, s)
    ensures Reachable(verify, Run(verify, s, actions))
  {
    var now: int, before: seq<Action> :| s == Run(verify, EmptyStore(now), before);
    RunConcat(verify, EmptyStore(now), before, actions);
  }

  lemma BegunIsReachable(verify: Verifier, s: Store, c: Call)
    requires Reachable(verify, s) && Opening(c)
    ensures Reachable(verify, Begun(s, c))
  {
    BeginRuns(verify, s, c);
    RunIsReachable(verify, s, [Open(c)]);
  }

  /** So is what following a call leads to. */
  lemma AnswerIsReachable(verify: Verifier, me: nat, turns: Schedule, s: Store, c: Call, t: Store)
    requires Reachable(verify, s) && Opening(c) && Leads(verify, me, turns, Begun(s, c), t)
    ensures Reachable(verify, t) && Good(verify, t)
  {
    BegunIsReachable(verify, s, c);
    var trace := LeadsIsARun(verify, me, turns, Begun(s, c), t);
    RunIsReachable(verify, Begun(s, c), trace);
    ReachableIsGood(verify, t);
  }

  /** With nothing else running there is one answer, and the quiet lemmas name it. */
  lemma QuietAnswer(verify: Verifier, turns: Schedule, from: Store, t: Store, s: Store, c: Call)
    requires Quiet(turns) && |s.calls| < |from.calls| && |s.calls| < |t.calls| && Ended(t.calls[|s.calls|]) && Ended(c)
    requires Leads(verify, |s.calls|, turns, from, t) && Comes(verify, turns, from, s, c)
    ensures t == Begun(s, c)
  {
    SameAnswer(verify, |s.calls|, turns, from, t, Begun(s, c));
  }

  lemma SubmitQuietAnswer(verify: Verifier, s: Store, req: SubmitRequest, turns: Schedule, from: Store, t: Store)
    requires IntentsOk(s) && Quiet(turns) && |s.calls| < |t.calls| && Ended(t.calls[|s.calls|])
    requires from == Begun(s, SubmitCall(req, Replay)) && Leads(verify, |s.calls|, turns, from, t)
    ensures var end := SubmitEnds(verify, s, req, Throws(turns)); t == Begun(end.0, SubmitCall(req, end.1))
  {
    var end := SubmitEnds(verify, s, req, Throws(turns));
    SubmitQuietly(verify, s, req, turns);
    SubmitEndsEnded(verify, s, req, Throws(turns));
    QuietAnswer(verify, turns, from, t, end.0, SubmitCall(req, end.1));
  }

  lemma SubmitEndsEnded(verify: Verifier, s: Store, req: SubmitRequest, throws: nat -> bool)
    ensures var end := SubmitEnds(verify, s, req, throws); end.0.calls == s.calls && SubmitPlace(end.1) == END
  {
  }

  lemma SendQuietAnswer(verify: Verifier, s: Store, req: SendRequest, turns: Schedule, from: Store, t: Store)
    requires Quiet(turns) && |s.calls| < |t.calls| && Ended(t.calls[|s.calls|])
    requires from == Begun(s, SendCall(req, Authorize)) && Leads(verify, |s.calls|, turns, from, t)
    ensures var end := SendEnds(s, req, Found(req, turns(2).input), Throws(turns));
            t == Begun(end.0, SendCall(req, end.1))
  {
    var end := SendEnds(s, req, Found(req, turns(2).input), Throws(turns));
    SendQuietly(verify, s, req, turns);
    SendEndsEnded(s, req, Found(req, turns(2).input), Throws(turns));
    QuietAnswer(verify, turns, from, t, end.0, SendCall(req, end.1));
  }

  lemma SendEndsEnded(s: Store, req: SendRequest, found: Option<string>, throws: nat -> bool)
    ensures var end := SendEnds(s, req, found, throws); end.0.calls == s.calls && SendPlace(end.1) == END
  {
  }

  lemma BroadcastQuietAnswer(verify: Verifier, s: Store, req: BroadcastRequest, turns: Schedule, t: Store)
    requires Quiet(turns) && |s.calls| < |t.calls| && Ended(t.calls[|s.calls|])
    requires Leads(verify, |s.calls|, turns, Begun(s, BroadcastCall(req, Get)), t)
    ensures var end := BroadcastEnds(s, req, turns(0).input, Throws(turns));
            t == Begun(end.0, BroadcastCall(req, end.1))
  {
    var end := BroadcastEnds(s, req, turns(0).input, Throws(turns));
    BroadcastQuietly(verify, s, req, turns);
    BroadcastEndsEnded(s, req, turns(0).input, Throws(turns));
    QuietAnswer(verify, turns, Begun(s, BroadcastCall(req, Get)), t, end.0, BroadcastCall(req, end.1));
  }

  lemma BroadcastEndsEnded(s: Store, req: BroadcastRequest, account: Input, throws: nat -> bool)
    ensures var end := BroadcastEnds(s, req, account, throws); end.0.calls == s.calls && BroadcastPlace(end.1) == END
  {
  }

  lemma JobQuietAnswer(verify: Verifier, s: Store, me: nat, turns: Schedule, t: Store)
    requires me < |s.jobs| && s.jobs[me].row < |s.rows| && s.jobs[me].at.Start? && Quiet(turns)
    requires me < |t.jobs| && JobPlace(t.jobs[me].at) == END && JobLeads(verify, me, turns, s, t)
    ensures var end := JobEnds(s, me, turns(ChainTurn(s.jobs[me])).input, Throws(turns));
            me < |end.left.jobs| && t == AtJob(end.left, me, end.at, end.heard)
  {
    var end := JobEnds(s, me, turns(ChainTurn(s.jobs[me])).input, Throws(turns));
    JobQuietly(verify, s, me, turns);
    JobEndsEnded(s, me, turns(ChainTurn(s.jobs[me])).input, Throws(turns));
    SameEnd(verify, me, turns, s, t, AtJob(end.left, me, end.at, end.heard));
  }

  lemma JobEndsEnded(s: Store, me: nat, answer: Input, throws: nat -> bool)
    requires me < |s.jobs| && s.jobs[me].row < |s.rows|
    ensures JobPlace(JobEnds(s, me, answer, throws).at) == END
  {
  }

  /** Nobody but call `me` has a row under the key. */
  ghost predicate KeyIsOurs(s: Store, key: string, me: nat) {
    forall r :: 0 <= r < |s.rows| && s.rows[r].key == key ==>
      s.rows[r].origin.FromIntent? && s.rows[r].origin.call == me
  }

  /** A replayed row was inserted by another call. */
  lemma ReplayIsAnothers(verify: Verifier, s: Store, me: nat, req: SubmitRequest, outcome: SubmitPc)
    requires Inv(verify, s) && me < |s.calls| && s.calls[me] == SubmitCall(req, outcome) && outcome.Replayed?
    ensures !KeyIsOurs(s, req.key, me)
  {
    assert CallOk(s, me);
    assert RowOk(verify, s, outcome.row);
  }

  /** A key conflict is with a row another call inserted. */
  lemma ConflictIsAnothers(verify: Verifier, s: Store, me: nat, req: SubmitRequest, outcome: SubmitPc)
    requires Inv(verify, s) && ReasonsOk(verify, s) && me < |s.calls| && s.calls[me] == SubmitCall(req, outcome)
             && Says(outcome, KeyConflict)
    ensures !KeyIsOurs(s, req.key, me)
  {
    assert ReasonOk(verify, s, s.calls[me]);
    var r :| 0 <= r < |s.rows| && s.rows[r].key == req.key && s.rows[r].senderId != req.userId;
    assert RowOk(verify, s, r);
  }

  /** No failure but the ones the request itself explains. */
  predicate NothingInternal(outcome: SubmitPc) {
    && outcome != Refused(Internal) && !outcome.MarkedFailed?
    && (outcome.RolledBack? ==> outcome.why == KeyConflict || outcome.why.Rejected?)
  }

  predicate Closing(outcome: SubmitPc) {
    outcome.Replayed? || outcome.Created? || outcome.Refused? || outcome.RolledBack? || outcome.MarkedFailed?
  }

  /** The replay check found nothing, and the claim that follows it matched the intent. */
  predicate ClaimLands(verify: Verifier, path: seq<Store>, me: nat, req: SubmitRequest, turns: Schedule) {
    && |path| > 1 && me < |path[1].calls| && path[1].calls[me] == SubmitCall(req, Claim)
    && Matches(Seen(verify, path[1], me, turns), ClaimIntent(req.intent, req.userId))
  }

  predicate Accepted(verify: Verifier, s: Store, req: SubmitRequest) {
    req.intent < |s.intents| && verify(s.intents[req.intent].terms, req.signedTx).Ok?
  }

  /**
   * With no failing statement, a landed claim, an accepted signature and a key of its own, a submit has
   * created its row.
   */
  lemma SubmitSucceeds(verify: Verifier, t: Store, me: nat, req: SubmitRequest, outcome: SubmitPc)
    requires Good(verify, t) && me < |t.calls| && t.calls[me] == SubmitCall(req, outcome) && Closing(outcome)
    requires NothingInternal(outcome) && !outcome.Refused? && Accepted(verify, t, req) && KeyIsOurs(t, req.key, me)
    ensures outcome.Created?
  {
    assert ReasonOk(verify, t, t.calls[me]);
    if outcome.Replayed? { ReplayIsAnothers(verify, t, me, req, outcome); }
    if Says(outcome, KeyConflict) { ConflictIsAnothers(verify, t, me, req, outcome); }
  }

  lemma CreatedIsLinked(verify: Verifier, t: Store, me: nat, req: SubmitRequest, r: nat)
    requires Inv(verify, t) && me < |t.calls| && t.calls[me] == SubmitCall(req, Created(r))
    ensures req.intent < |t.intents| && t.intents[req.intent].transactionId == Some(r)
  {
    assert CallOk(t, me);
  }

  /** What the answer of a submit comes to. */
  lemma SubmitConcludes(
    verify: Verifier, s: Store, me: nat, req: SubmitRequest, outcome: SubmitPc, turns: Schedule, path: seq<Store>,
    t: Store)
    requires Reachable(verify, s) && me == |s.calls| < |t.calls| && t.calls[me] == SubmitCall(req, outcome)
             && Closing(outcome)
    requires Leads(verify, me, turns, Begun(s, SubmitCall(req, Replay)), t)
    requires Faultless(turns) ==> NothingInternal(outcome)
    requires Faultless(turns) && ClaimLands(verify, path, me, req, turns) ==> !outcome.Refused?
    ensures Reachable(verify, t)
    ensures outcome.Created? ==> req.intent < |t.intents| && t.intents[req.intent].transactionId == Some(outcome.row)
    ensures && Faultless(turns) && ClaimLands(verify, path, me, req, turns) && Accepted(verify, t, req)
            && KeyIsOurs(t, req.key, me) ==>
              outcome.Created?
    ensures Quiet(turns) ==>
              var end := SubmitEnds(verify, s, req, Throws(turns));
              && outcome == end.1 && t == Begun(end.0, SubmitCall(req, outcome))
              && (Faultless(turns) ==> SubmitAnswered(verify, s, req, outcome, end.0))
  {
    var begun := Begun(s, SubmitCall(req, Replay));
    AnswerIsReachable(verify, me, turns, s, SubmitCall(req, Replay), t);
    if outcome.Created? { CreatedIsLinked(verify, t, me, req, outcome.row); }
    if Faultless(turns) && ClaimLands(verify, path, me, req, turns) && Accepted(verify, t, req)
       && KeyIsOurs(t, req.key, me) {
      SubmitSucceeds(verify, t, me, req, outcome);
    }
    if Quiet(turns) {
      ReachableIsGood(verify, s);
      SubmitQuietAnswer(verify, s, req, turns, begun, t);
      SubmitEndsEnded(verify, s, req, Throws(turns));
      if Faultless(turns) { SubmitAnswers(verify, s, req); SubmitFaultlessly(verify, s, req, turns); }
    }
  }

  lemma SendConcludes(verify: Verifier, s: Store, me: nat, req: SendRequest, outcome: SendPc, turns: Schedule, t: Store)
    requires Reachable(verify, s) && me == |s.calls| < |t.calls| && t.calls[me] == SendCall(req, outcome)
    requires outcome.SendReplied? || outcome.SendFailed?
    requires Leads(verify, me, turns, Begun(s, SendCall(req, Authorize)), t)
    ensures Reachable(verify, t)
    ensures outcome.SendReplied? ==>
              && outcome.row < |t.rows| && t.rows[outcome.row].key == req.key
              && t.rows[outcome.row].senderId == req.senderId
              && Vouched(t, me, req, outcome.row, outcome.via)
              && forall to :: RivalsAgree(t, me, req, to) ==> Describes(t, me, req, outcome.row, to)
    ensures Quiet(turns) ==>
              var (found, end) := (Found(req, turns(2).input),
                                   SendEnds(s, req, Found(req, turns(2).input), Throws(turns)));
              && outcome == end.1 && t == Begun(end.0, SendCall(req, outcome))
              && (Faultless(turns) && found.Some? ==> SendAnswered(s, req, found.value, outcome, end.0))
  {
    var begun := Begun(s, SendCall(req, Authorize));
    AnswerIsReachable(verify, me, turns, s, SendCall(req, Authorize), t);
    assert CallOk(t, me);
    forall to | outcome.SendReplied? && RivalsAgree(t, me, req, to) ensures Describes(t, me, req, outcome.row, to) {
      AgreedReply(verify, t, me, to);
    }
    if Quiet(turns) {
      var found := Found(req, turns(2).input);
      ReachableIsGood(verify, s);
      SendQuietAnswer(verify, s, req, turns, begun, t);
      SendEndsEnded(s, req, found, Throws(turns));
      if Faultless(turns) && found.Some? {
        SendAnswers(s, req, found.value);
        SendFaultlessly(s, req, found.value, turns);
      }
    }
  }

  lemma BroadcastConcludes(
    verify: Verifier, s: Store, me: nat, req: BroadcastRequest, outcome: BroadcastPc, turns: Schedule, t: Store)
    requires Reachable(verify, s) && me == |s.calls| < |t.calls| && t.calls[me] == BroadcastCall(req, outcome)
    requires outcome.BroadcastReplied? || outcome.BroadcastFailed?
    requires Leads(verify, me, turns, Begun(s, BroadcastCall(req, Get)), t)
    ensures Reachable(verify, t) && !HoldsRow(t.calls[me], req.row)
    ensures Quiet(turns) ==>
              var end := BroadcastEnds(s, req, turns(0).input, Throws(turns));
              && outcome == end.1 && t == Begun(end.0, BroadcastCall(req, outcome))
              && (Faultless(turns) && turns(0).input.Account? ==>
                    BroadcastAnswered(s, req, turns(0).input.accountId, outcome, end.0))
  {
    var begun := Begun(s, BroadcastCall(req, Get));
    AnswerIsReachable(verify, me, turns, s, BroadcastCall(req, Get), t);
    if Quiet(turns) {
      BroadcastQuietAnswer(verify, s, req, turns, t);
      BroadcastEndsEnded(s, req, turns(0).input, Throws(turns));
      if Faultless(turns) && turns(0).input.Account? {
        BroadcastAnswers(s, req, turns(0).input.accountId);
        BroadcastFaultlessly(s, req, turns(0).input.accountId, turns);
      }
    }
  }

  lemma JobConcludes(verify: Verifier, s: Store, me: nat, turns: Schedule, t: Store)
    requires Reachable(verify, s) && me < |s.jobs| && me < |t.jobs| && s.jobs[me].at.Start?
             && JobPlace(t.jobs[me].at) == END
    requires JobLeads(verify, me, turns, s, t)
    ensures Reachable(verify, t) && s.jobs[me].row < |s.rows|
    ensures Tracked(t, t.jobs[me].row) ==> Took(t.rows[t.jobs[me].row], t.jobs[me])
    ensures Quiet(turns) ==>
              var end := JobEnds(s, me, turns(ChainTurn(s.jobs[me])).input, Throws(turns));
              me < |end.left.jobs| && t == AtJob(end.left, me, end.at, end.heard)
  {
    var trace := JobLeadsIsARun(verify, me, turns, s, t);
    RunIsReachable(verify, s, trace);
    ReachableIsGood(verify, s);
    ReachableIsGood(verify, t);
    assert JobOk(s, me);
    if Tracked(t, t.jobs[me].row) { assert Settled(t, t.jobs[me].row); }
    if Quiet(turns) {
      JobQuietAnswer(verify, s, me, turns, t);
    }
  }

  class Service {
    const verify: Verifier
    var intents: seq<Intent>
    var rows: seq<Row>
    var receipts: seq<nat>
    var jobs: seq<Job>
    var calls: seq<Call>
    var now: int

    function View(): Store
      reads this
    {
      Store(intents, rows, receipts, jobs, calls, now)
    }

    ghost predicate Valid()
      reads this
    {
      Reachable(verify, View())
    }

    constructor (verify: Verifier, now: int)
      ensures this.verify == verify && View() == EmptyStore(now) && Valid()
    {
      this.verify := verify;
      this.now := now;
      intents, rows, receipts, jobs, calls := [], [], [], [], [];
      new;
      assert EmptyStore(now) == Run(verify, EmptyStore(now), []);
    }

    method Restore(s: Store)
      modifies this
      ensures View() == s
    {
      intents, rows, receipts, jobs, calls, now := s.intents, s.rows, s.receipts, s.jobs, s.calls, s.now;
    }

    // ----- one request's view of the others

    /** The stores call `me` has come through, turn by turn, ending here. */
    ghost predicate On(me: nat, turns: Schedule, path: seq<Store>)
      reads this
    {
      |path| > 0 && path[|path| - 1] == View() && Path(verify, me, turns, path)
    }

    ghost predicate OnJob(me: nat, turns: Schedule, path: seq<Store>)
      reads this
    {
      |path| > 0 && path[|path| - 1] == View() && JobPath(verify, me, turns, path)
    }

    /** Everyone else runs; call `me` stays where it is. */
    method Wait(me: nat, turns: Schedule, k: nat)
      requires me < |calls| && Foreign(turns(k).others, me)
      modifies this
      ensures View() == Run(verify, old(View()), turns(k).others)
      ensures me < |calls| && calls[me] == old(calls[me])
      ensures Inv(verify, old(View())) ==> Inv(verify, View())
    {
      OthersLeaveCall(verify, View(), turns(k).others, me);
      if Inv(verify, View()) { RunKeepsInv(verify, View(), turns(k).others); }
      Restore(Run(verify, View(), turns(k).others));
    }

    /**
     * Call `me` performs a statement and moves on, as its control flow says; with the wait before it, this is
     * one turn.
     */
    method Perform(me: nat, q: Statement, next: Call, turns: Schedule, k: nat, ghost path: seq<Store>)
      returns (ghost longer: seq<Store>)
      requires |path| > 0 && Path(verify, me, turns, path)
      requires var before := path[|path| - 1];
               me < |before.calls| && Place(before.calls[me]) == k < END
               && View() == Run(verify, before, turns(k).others)
      requires me < |calls| && CallNext(verify, View(), me, turns(k).input) == (q, next)
      modifies this
      ensures On(me, turns, longer) && path <= longer && |longer| == |path| + 1
      ensures View() == Execute(old(View()), q).(calls := calls)
      ensures me < |calls| && calls[me] == next
      ensures Inv(verify, old(View())) ==> Inv(verify, View())
    {
      if Inv(verify, View()) { StepKeepsInv(verify, View(), CallStep(me, turns(k).input)); }
      Apply(q);
      calls := calls[me := next];
      PathGrows(verify, me, turns, path, View());
      longer := path + [View()];
    }

    /** One statement on the tables. */
    method Apply(q: Statement)
      modifies this
      ensures View() == Execute(old(View()), q)
    {
      if Matches(View(), q) {
        match q
        case Nothing =>
        case ClaimIntent(n, u) => intents := intents[n := intents[n].(status := USED, usedAt := Some(now))];
        case ReleaseIntent(n) => intents := intents[n := intents[n].(status := READY, usedAt := None)];
        case LinkIntent(n, r) => intents := intents[n := intents[n].(transactionId := Some(r))];
        case InsertRow(row) => rows := rows + [row];
        case ClaimRow(r, u) => rows := rows[r := rows[r].(status := PROCESSING)];
        case ReleaseRow(r) => rows := rows[r := rows[r].(status := PENDING)];
        case SetStatus(r, st) => rows := rows[r := rows[r].(status := st)];
        case SetHash(r, h) => rows := rows[r := rows[r].(txHash := Some(h), status := PROCESSING)];
        case UpsertReceipt(r) => receipts := receipts + [r];
        case Enqueue(j) => jobs := jobs + [j];
      }
    }

    // ----- submit

    /**
     * `submit`. Under any schedule the store becomes exactly what following the call gives, and keeps every
     * invariant. Whatever else runs: a fresh reply has its row linked and its job newest in the queue; a
     * written rollback leaves the intent READY; without a failing statement nothing internal goes wrong, and
     * a claim that lands, a signature that is accepted and a key nobody else used end in a fresh row. With
     * nothing else running the outcome and the tables are those of `SubmitEnds`, whichever statements throw.
     */
    method Submit(req: SubmitRequest, turns: Schedule) returns (me: nat, outcome: SubmitPc, ghost path: seq<Store>)
      requires Valid() && Alien(turns, |calls|)
      modifies this
      ensures me == old(|calls|)
      ensures Valid() && On(me, turns, path) && path[0] == Begun(old(View()), SubmitCall(req, Replay))
      ensures me < |calls| && calls[me] == SubmitCall(req, outcome)
      ensures SubmitEnded(req, me, outcome)
      ensures outcome.Created? ==> req.intent < |intents| && intents[req.intent].transactionId == Some(outcome.row)
      ensures Faultless(turns) ==> NothingInternal(outcome)
      ensures Faultless(turns) && ClaimLands(verify, path, me, req, turns) && Accepted(verify, View(), req)
              && KeyIsOurs(View(), req.key, me) ==>
                outcome.Created?
      ensures Quiet(turns) ==>
                var end := SubmitEnds(verify, old(View()), req, Throws(turns));
                && outcome == end.1 && View() == Begun(end.0, SubmitCall(req, outcome))
                && (Faultless(turns) ==> SubmitAnswered(verify, old(View()), req, outcome, end.0))
    {
      ghost var start := View();
      me := |calls|;
      calls := calls + [SubmitCall(req, Replay)];
      ghost var begun := View();
      BegunIsReachable(verify, start, SubmitCall(req, Replay));
      ReachableIsGood(verify, begun);
      outcome, path := SubmitBegun(req, me, turns, [begun]);
      SubmitConcludes(verify, start, me, req, outcome, turns, path, View());
    }

    method SubmitBegun(req: SubmitRequest, me: nat, turns: Schedule, ghost path: seq<Store>)
      returns (outcome: SubmitPc, ghost longer: seq<Store>)
      requires me < |calls| && calls[me] == SubmitCall(req, Replay)
      requires On(me, turns, path) && |path| == 1
      requires Inv(verify, View())
      requires Alien(turns, me)
      modifies this
      ensures On(me, turns, longer) && path <= longer && me < |calls| && calls[me] == SubmitCall(req, outcome)
      ensures Leads(verify, me, turns, path[0], View())
      ensures SubmitEnded(req, me, outcome)
      ensures Faultless(turns) ==> NothingInternal(outcome)
      ensures Faultless(turns) && ClaimLands(verify, longer, me, req, turns) ==> !outcome.Refused?
    {
      outcome, longer := SubmitFromReplay(req, me, turns, path);
      if outcome.Claim? {
        outcome, longer := SubmitUnseen(req, me, turns, longer);
      }
      assert PathBetween(verify, me, turns, longer, path[0], View());
    }

    /** The replay check: the response to an earlier submit was lost. */
    method SubmitFromReplay(req: SubmitRequest, me: nat, turns: Schedule, ghost path: seq<Store>)
      returns (outcome: SubmitPc, ghost longer: seq<Store>)
      requires me < |calls| && calls[me] == SubmitCall(req, Replay)
      requires On(me, turns, path)
      requires Inv(verify, View())
      requires Alien(turns, me)
      modifies this
      ensures On(me, turns, longer) && path <= longer && |longer| == |path| + 1 && me < |calls|
              && calls[me] == SubmitCall(req, outcome)
      ensures Inv(verify, View())
      ensures outcome.Claim? || outcome.Replayed? || outcome == Refused(Internal)
      ensures Faultless(turns) ==> !outcome.Refused?
    {
      Wait(me, turns, 0);
      if turns(0).input.Fault? {
        outcome := Refused(Internal);
      } else {
        var existing := FindByKey(rows, req.key, req.userId);
        outcome := if existing.Some? then Replayed(existing.value) else Claim;
      }
      longer := Perform(me, Nothing, SubmitCall(req, outcome), turns, 0, path);
    }

    /** `updateMany` READY -> USED. */
    method SubmitUnseen(req: SubmitRequest, me: nat, turns: Schedule, ghost path: seq<Store>)
      returns (outcome: SubmitPc, ghost longer: seq<Store>)
      requires me < |calls| && calls[me] == SubmitCall(req, Claim)
      requires On(me, turns, path)
      requires Inv(verify, View())
      requires Alien(turns, me)
      modifies this
      ensures On(me, turns, longer) && path <= longer && me < |calls| && calls[me] == SubmitCall(req, outcome)
      ensures SubmitEnded(req, me, outcome)
      ensures Faultless(turns) ==> NothingInternal(outcome)
      ensures !turns(1).input.Fault?
              && Matches(Seen(verify, old(View()), me, turns), ClaimIntent(req.intent, req.userId)) ==>
                   !outcome.Refused?
    {
      longer := path;
      Wait(me, turns, 1);
      if turns(1).input.Fault? {
        outcome := Refused(Internal);
        longer := Perform(me, Nothing, SubmitCall(req, outcome), turns, 1, longer);
        return;
      }
      var claim := ClaimIntent(req.intent, req.userId);
      if !Matches(View(), claim) {
        longer := Perform(me, Nothing, SubmitCall(req, Raced), turns, 1, longer);
        outcome, longer := SubmitLostClaim(req, me, turns, longer);
        return;
      }
      longer := Perform(me, claim, SubmitCall(req, Load), turns, 1, longer);
      outcome, longer := SubmitClaimed(req, me, turns, longer);
    }

    /** What holds when `submit` returns, whichever way it does. */
    ghost predicate SubmitEnded(req: SubmitRequest, me: nat, outcome: SubmitPc)
      reads this
    {
      && Closing(outcome)
      && (outcome.Created? ==>
            |jobs| > 0 && jobs[|jobs| - 1] == Job(outcome.row, Process(req.signedTx), BySubmit(me), Start))
      && (outcome.RolledBack? && outcome.written ==>
            req.intent < |intents| && intents[req.intent].status == READY && intents[req.intent].usedAt == None)
      && (outcome.MarkedFailed? && outcome.written ==> outcome.row < |rows| && rows[outcome.row].status == FAILED)
    }

    /** The claim matched nothing: a raced replay, or the reason the intent cannot be submitted. */
    method SubmitLostClaim(req: SubmitRequest, me: nat, turns: Schedule, ghost path: seq<Store>)
      returns (outcome: SubmitPc, ghost longer: seq<Store>)
      requires me < |calls| && calls[me] == SubmitCall(req, Raced)
      requires On(me, turns, path)
      requires Alien(turns, me)
      modifies this
      ensures On(me, turns, longer) && path <= longer && me < |calls| && calls[me] == SubmitCall(req, outcome)
      ensures outcome.Replayed? || outcome.Refused?
      ensures Faultless(turns) ==> NothingInternal(outcome)
    {
      longer := path;
      Wait(me, turns, 2);
      if turns(2).input.Fault? {
        outcome := Refused(Internal);
        longer := Perform(me, Nothing, SubmitCall(req, outcome), turns, 2, longer);
        return;
      }
      var raced := FindByKey(rows, req.key, req.userId);
      if raced.Some? {
        outcome := Replayed(raced.value);
        longer := Perform(me, Nothing, SubmitCall(req, outcome), turns, 2, longer);
        return;
      }
      longer := Perform(me, Nothing, SubmitCall(req, Diagnose), turns, 2, longer);
      Wait(me, turns, 3);
      if turns(3).input.Fault? {
        outcome := Refused(Internal);
      } else if req.intent >= |intents| || intents[req.intent].userId != req.userId {
        outcome := Refused(NotFound);
      } else if intents[req.intent].status == USED {
        outcome := Refused(AlreadySubmitted);
      } else if intents[req.intent].expiresAt <= now {
        outcome := Refused(Expired);
      } else {
        outcome := Refused(NotSubmittable);
      }
      longer := Perform(me, Nothing, SubmitCall(req, outcome), turns, 3, longer);
    }

    /** The try block: verify, insert, link, enqueue. */
    method SubmitClaimed(req: SubmitRequest, me: nat, turns: Schedule, ghost path: seq<Store>)
      returns (outcome: SubmitPc, ghost longer: seq<Store>)
      requires me < |calls| && calls[me] == SubmitCall(req, Load)
      requires On(me, turns, path)
      requires Inv(verify, View())
      requires Alien(turns, me)
      modifies this
      ensures On(me, turns, longer) && path <= longer && me < |calls| && calls[me] == SubmitCall(req, outcome)
      ensures SubmitEnded(req, me, outcome)
      ensures Faultless(turns) ==> NothingInternal(outcome)
      ensures !outcome.Refused?
    {
      longer := path;
      Wait(me, turns, 4);
      assert OwnerOk(verify, View(), calls[me]);
      if turns(4).input.Fault? || req.intent >= |intents| {
        longer := Perform(me, Nothing, SubmitCall(req, Rollback(Internal)), turns, 4, longer);
        outcome, longer := SubmitRollback(req, me, Internal, turns, longer);
        return;
      }
      var intent := intents[req.intent];
      match verify(intent.terms, req.signedTx) {
        case Err(why) =>
          longer := Perform(me, Nothing, SubmitCall(req, Rollback(Rejected(why))), turns, 4, longer);
          outcome, longer := SubmitRollback(req, me, Rejected(why), turns, longer);
          return;
        case Ok(_) =>
      }
      longer := Perform(me, Nothing, SubmitCall(req, Insert(intent.terms)), turns, 4, longer);
      outcome, longer := SubmitVerified(req, me, intent.terms, turns, longer);
    }

    /** The verified intent becomes a row under the unique key. */
    method SubmitVerified(req: SubmitRequest, me: nat, terms: Terms, turns: Schedule, ghost path: seq<Store>)
      returns (outcome: SubmitPc, ghost longer: seq<Store>)
      requires me < |calls| && calls[me] == SubmitCall(req, Insert(terms))
      requires On(me, turns, path)
      requires Inv(verify, View())
      requires Alien(turns, me)
      modifies this
      ensures On(me, turns, longer) && path <= longer && me < |calls| && calls[me] == SubmitCall(req, outcome)
      ensures SubmitEnded(req, me, outcome)
      ensures Faultless(turns) ==> NothingInternal(outcome)
      ensures !outcome.Refused?
    {
      longer := path;
      Wait(me, turns, 5);
      if turns(5).input.Fault? {
        longer := Perform(me, Nothing, SubmitCall(req, Rollback(Internal)), turns, 5, longer);
        outcome, longer := SubmitRollback(req, me, Internal, turns, longer);
        return;
      }
      var row := Row(req.userId, None, terms, PENDING, None, req.key, FromIntent(me, req.intent));
      if KeyTaken(rows, row.key) {
        longer := Perform(me, Nothing, SubmitCall(req, Winner), turns, 5, longer);
        outcome, longer := SubmitLostKey(req, me, turns, longer);
        return;
      }
      var created := |rows|;
      longer := Perform(me, InsertRow(row), SubmitCall(req, Link(created)), turns, 5, longer);
      outcome, longer := SubmitInserted(req, me, created, turns, longer);
    }

    /** The row exists: link it and enqueue, or mark it FAILED. */
    method SubmitInserted(req: SubmitRequest, me: nat, row: nat, turns: Schedule, ghost path: seq<Store>)
      returns (outcome: SubmitPc, ghost longer: seq<Store>)
      requires me < |calls| && calls[me] == SubmitCall(req, Link(row))
      requires On(me, turns, path)
      requires Inv(verify, View())
      requires Alien(turns, me)
      modifies this
      ensures On(me, turns, longer) && path <= longer && me < |calls| && calls[me] == SubmitCall(req, outcome)
      ensures outcome == Created(row) || (outcome.MarkedFailed? && outcome.row == row)
      ensures SubmitEnded(req, me, outcome)
      ensures Faultless(turns) ==> NothingInternal(outcome)
      ensures !outcome.Refused?
    {
      longer := path;
      Wait(me, turns, 8);
      if turns(8).input.Fault? {
        longer := Perform(me, Nothing, SubmitCall(req, MarkFailed(row)), turns, 8, longer);
        outcome, longer := SubmitMarkFailed(req, me, row, turns, longer);
        return;
      }
      longer := Perform(me, LinkIntent(req.intent, row), SubmitCall(req, Queue(row)), turns, 8, longer);
      outcome, longer := SubmitLinked(req, me, row, turns, longer);
    }

    /** The linked row goes to the queue. */
    method SubmitLinked(req: SubmitRequest, me: nat, row: nat, turns: Schedule, ghost path: seq<Store>)
      returns (outcome: SubmitPc, ghost longer: seq<Store>)
      requires me < |calls| && calls[me] == SubmitCall(req, Queue(row))
      requires On(me, turns, path)
      requires Inv(verify, View())
      requires Alien(turns, me)
      modifies this
      ensures On(me, turns, longer) && path <= longer && me < |calls| && calls[me] == SubmitCall(req, outcome)
      ensures outcome == Created(row) || (outcome.MarkedFailed? && outcome.row == row)
      ensures SubmitEnded(req, me, outcome)
      ensures Faultless(turns) ==> NothingInternal(outcome)
      ensures !outcome.Refused?
    {
      longer := path;
      Wait(me, turns, 9);
      if turns(9).input.Fault? {
        longer := Perform(me, Nothing, SubmitCall(req, MarkFailed(row)), turns, 9, longer);
        outcome, longer := SubmitMarkFailed(req, me, row, turns, longer);
      } else {
        outcome := Created(row);
        var queued := Enqueue(Job(row, Process(req.signedTx), BySubmit(me), Start));
        longer := Perform(me, queued, SubmitCall(req, outcome), turns, 9, longer);
      }
    }

    /** A concurrent request holds the key: answer with its row and release this intent. */
    method SubmitLostKey(req: SubmitRequest, me: nat, turns: Schedule, ghost path: seq<Store>)
      returns (outcome: SubmitPc, ghost longer: seq<Store>)
      requires me < |calls| && calls[me] == SubmitCall(req, Winner)
      requires On(me, turns, path)
      requires Inv(verify, View())
      requires Alien(turns, me)
      modifies this
      ensures On(me, turns, longer) && path <= longer && me < |calls| && calls[me] == SubmitCall(req, outcome)
      ensures outcome.Replayed? || outcome.RolledBack?
      ensures SubmitEnded(req, me, outcome)
      ensures Faultless(turns) ==> NothingInternal(outcome)
      ensures !outcome.Refused?
    {
      longer := path;
      Wait(me, turns, 6);
      if turns(6).input.Fault? {
        longer := Perform(me, Nothing, SubmitCall(req, Rollback(Internal)), turns, 6, longer);
        outcome, longer := SubmitRollback(req, me, Internal, turns, longer);
        return;
      }
      var winner := FindByKey(rows, req.key, req.userId);
      if winner.None? {
        longer := Perform(me, Nothing, SubmitCall(req, Rollback(KeyConflict)), turns, 6, longer);
        outcome, longer := SubmitRollback(req, me, KeyConflict, turns, longer);
        return;
      }
      longer := Perform(me, Nothing, SubmitCall(req, ReleaseDuplicate(winner.value)), turns, 6, longer);
      outcome, longer := SubmitRelease(req, me, winner.value, turns, longer);
    }

    /** Consumed by a duplicate: the intent is READY again, and the winner's row is the answer. */
    method SubmitRelease(req: SubmitRequest, me: nat, row: nat, turns: Schedule, ghost path: seq<Store>)
      returns (outcome: SubmitPc, ghost longer: seq<Store>)
      requires me < |calls| && calls[me] == SubmitCall(req, ReleaseDuplicate(row))
      requires On(me, turns, path)
      requires Inv(verify, View())
      requires Alien(turns, me)
      modifies this
      ensures On(me, turns, longer) && path <= longer && me < |calls| && calls[me] == SubmitCall(req, outcome)
      ensures outcome == Replayed(row, turns(7).input.Fault?)
      ensures !outcome.stranded ==>
                req.intent < |intents| && intents[req.intent].status == READY && intents[req.intent].usedAt == None
    {
      longer := path;
      Wait(me, turns, 7);
      assert OwnerOk(verify, View(), calls[me]);
      outcome := Replayed(row, turns(7).input.Fault?);
      var release := if turns(7).input.Fault? then Nothing else ReleaseIntent(req.intent);
      longer := Perform(me, release, SubmitCall(req, outcome), turns, 7, longer);
    }

    /** The catch block when no row exists. */
    method SubmitRollback(req: SubmitRequest, me: nat, why: Refusal, turns: Schedule, ghost path: seq<Store>)
      returns (outcome: SubmitPc, ghost longer: seq<Store>)
      requires me < |calls| && calls[me] == SubmitCall(req, Rollback(why))
      requires On(me, turns, path)
      requires Inv(verify, View())
      requires Alien(turns, me)
      modifies this
      ensures On(me, turns, longer) && path <= longer && me < |calls| && calls[me] == SubmitCall(req, outcome)
      ensures outcome == RolledBack(why, !turns(10).input.Fault?)
      ensures SubmitEnded(req, me, outcome)
      ensures why == KeyConflict || why.Rejected? ==> NothingInternal(outcome)
    {
      longer := path;
      Wait(me, turns, 10);
      assert OwnerOk(verify, View(), calls[me]);
      outcome := RolledBack(why, !turns(10).input.Fault?);
      var release := if turns(10).input.Fault? then Nothing else ReleaseIntent(req.intent);
      longer := Perform(me, release, SubmitCall(req, outcome), turns, 10, longer);
    }

    /** The catch block when the row exists: an audit trail, and the intent stays USED. */
    method SubmitMarkFailed(req: SubmitRequest, me: nat, row: nat, turns: Schedule, ghost path: seq<Store>)
      returns (outcome: SubmitPc, ghost longer: seq<Store>)
      requires me < |calls| && calls[me] == SubmitCall(req, MarkFailed(row))
      requires On(me, turns, path)
      requires Inv(verify, View())
      requires Alien(turns, me)
      modifies this
      ensures On(me, turns, longer) && path <= longer && me < |calls| && calls[me] == SubmitCall(req, outcome)
      ensures outcome == MarkedFailed(row, !turns(10).input.Fault?)
      ensures SubmitEnded(req, me, outcome)
    {
      longer := path;
      Wait(me, turns, 10);
      assert CallOk(View(), me);
      outcome := MarkedFailed(row, !turns(10).input.Fault?);
      var mark := if turns(10).input.Fault? then Nothing else SetStatus(row, FAILED);
      longer := Perform(me, mark, SubmitCall(req, outcome), turns, 10, longer);
    }

    // ----- send

    /**
     * `send`. Under any schedule the store becomes exactly what following the call gives; a reply names a row
     * with the caller's key that the caller sent. It is the call's own new row or matches the request as far as
     * the lookup that found it compares, and matches it in full when all calls under the key agree.
     */
    method Send(req: SendRequest, turns: Schedule) returns (me: nat, outcome: SendPc)
      requires Valid() && Alien(turns, |calls|)
      modifies this
      ensures me == old(|calls|)
      ensures Valid() && Leads(verify, me, turns, Begun(old(View()), SendCall(req, Authorize)), View())
      ensures me < |calls| && calls[me] == SendCall(req, outcome) && (outcome.SendReplied? || outcome.SendFailed?)
      ensures outcome.SendReplied? ==>
                && outcome.row < |rows| && rows[outcome.row].key == req.key
                && rows[outcome.row].senderId == req.senderId
                && Vouched(View(), me, req, outcome.row, outcome.via)
                && forall to :: RivalsAgree(View(), me, req, to) ==> Describes(View(), me, req, outcome.row, to)
      ensures Quiet(turns) ==>
                var found := Found(req, turns(2).input);
                var end := SendEnds(old(View()), req, found, Throws(turns));
                && outcome == end.1 && View() == Begun(end.0, SendCall(req, outcome))
                && (Faultless(turns) && found.Some? ==> SendAnswered(old(View()), req, found.value, outcome, end.0))
    {
      ghost var start := View();
      me := |calls|;
      calls := calls + [SendCall(req, Authorize)];
      ghost var begun := View();
      ghost var path;
      outcome, path := SendAuthorized(req, me, turns, [begun]);
      assert PathBetween(verify, me, turns, path, begun, View());
      SendConcludes(verify, start, me, req, outcome, turns, View());
    }

    method SendAuthorized(req: SendRequest, me: nat, turns: Schedule, ghost path: seq<Store>)
      returns (outcome: SendPc, ghost longer: seq<Store>)
      requires me < |calls| && calls[me] == SendCall(req, Authorize) && Alien(turns, me)
      requires On(me, turns, path)
      modifies this
      ensures On(me, turns, longer) && path <= longer && me < |calls| && calls[me] == SendCall(req, outcome)
      ensures outcome.SendReplied? || outcome.SendFailed?
    {
      longer := path;
      // the PIN
      Wait(me, turns, 0);
      outcome := if turns(0).input.Fault? then SendFailed else FastPath;
      longer := Perform(me, Nothing, SendCall(req, outcome), turns, 0, longer);
      if outcome.FastPath? {
        outcome, longer := SendFastPath(req, me, turns, longer);
      }
    }

    /** The replay fast path. */
    method SendFastPath(req: SendRequest, me: nat, turns: Schedule, ghost path: seq<Store>)
      returns (outcome: SendPc, ghost longer: seq<Store>)
      requires me < |calls| && calls[me] == SendCall(req, FastPath) && Alien(turns, me)
      requires On(me, turns, path)
      modifies this
      ensures On(me, turns, longer) && path <= longer && me < |calls| && calls[me] == SendCall(req, outcome)
      ensures outcome.SendReplied? || outcome.SendFailed?
    {
      longer := path;
      Wait(me, turns, 1);
      if turns(1).input.Fault? {
        outcome := SendFailed;
      } else {
        var fastPath := FindByKey(rows, req.key, req.senderId);
        if fastPath.Some? && MatchesIntent(rows[fastPath.value].terms, req, req.recipientAddress) {
          outcome := SendReplied(fastPath.value, ByFastPath);
        } else {
          outcome := Resolve;
        }
      }
      longer := Perform(me, Nothing, SendCall(req, outcome), turns, 1, longer);
      if outcome.Resolve? {
        outcome, longer := SendToRecipient(req, me, turns, longer);
      }
    }

    /** The recipient, resolved and checked. */
    method SendToRecipient(req: SendRequest, me: nat, turns: Schedule, ghost path: seq<Store>)
      returns (outcome: SendPc, ghost longer: seq<Store>)
      requires me < |calls| && calls[me] == SendCall(req, Resolve) && Alien(turns, me)
      requires On(me, turns, path)
      modifies this
      ensures On(me, turns, longer) && path <= longer && me < |calls| && calls[me] == SendCall(req, outcome)
      ensures outcome.SendReplied? || outcome.SendFailed?
    {
      longer := path;
      Wait(me, turns, 2);
      if turns(2).input.Resolved?
         && (req.recipientAccountId.Some? || req.recipientAddress == Some(turns(2).input.address)) {
        outcome := Reused(turns(2).input.address);
      } else {
        outcome := SendFailed;
      }
      longer := Perform(me, Nothing, SendCall(req, outcome), turns, 2, longer);
      if outcome.Reused? {
        outcome, longer := SendResolved(req, me, outcome.to, turns, longer);
      }
    }

    /** A reused key must describe the same transfer. */
    method SendResolved(req: SendRequest, me: nat, to: string, turns: Schedule, ghost path: seq<Store>)
      returns (outcome: SendPc, ghost longer: seq<Store>)
      requires me < |calls| && calls[me] == SendCall(req, Reused(to)) && Alien(turns, me)
      requires On(me, turns, path)
      modifies this
      ensures On(me, turns, longer) && path <= longer && me < |calls| && calls[me] == SendCall(req, outcome)
      ensures outcome.SendReplied? || outcome.SendFailed?
    {
      longer := path;
      Wait(me, turns, 3);
      if turns(3).input.Fault? {
        outcome := SendFailed;
      } else {
        var reused := FindByKey(rows, req.key, req.senderId);
        if reused.None? {
          outcome := InTransaction(to);
        } else if MatchesIntent(rows[reused.value].terms, req, Some(to)) {
          outcome := SendReplied(reused.value, ByReuse(to));
        } else {
          outcome := SendFailed;
        }
      }
      longer := Perform(me, Nothing, SendCall(req, outcome), turns, 3, longer);
      if outcome.InTransaction? {
        outcome, longer := SendInTransaction(req, me, to, turns, longer);
      }
    }

    /** The interactive transaction looks once more. */
    method SendInTransaction(req: SendRequest, me: nat, to: string, turns: Schedule, ghost path: seq<Store>)
      returns (outcome: SendPc, ghost longer: seq<Store>)
      requires me < |calls| && calls[me] == SendCall(req, InTransaction(to)) && Alien(turns, me)
      requires On(me, turns, path)
      modifies this
      ensures On(me, turns, longer) && path <= longer && me < |calls| && calls[me] == SendCall(req, outcome)
      ensures outcome.SendReplied? || outcome.SendFailed?
    {
      longer := path;
      Wait(me, turns, 4);
      if turns(4).input.Fault? {
        outcome := SendFailed;
      } else {
        var raced := FindByKey(rows, req.key, req.senderId);
        outcome := if raced.Some? then SendReplied(raced.value, InsideTransaction(to)) else Create(to);
      }
      longer := Perform(me, Nothing, SendCall(req, outcome), turns, 4, longer);
      if outcome.Create? {
        outcome, longer := SendCreate(req, me, to, turns, longer);
      }
    }

    /** The insert under the unique key. */
    method SendCreate(req: SendRequest, me: nat, to: string, turns: Schedule, ghost path: seq<Store>)
      returns (outcome: SendPc, ghost longer: seq<Store>)
      requires me < |calls| && calls[me] == SendCall(req, Create(to)) && Alien(turns, me)
      requires On(me, turns, path)
      modifies this
      ensures On(me, turns, longer) && path <= longer && me < |calls| && calls[me] == SendCall(req, outcome)
      ensures outcome.SendReplied? || outcome.SendFailed?
    {
      longer := path;
      Wait(me, turns, 5);
      var row := Row(req.senderId, req.recipientAccountId, StoredTerms(req, to), PENDING, None, req.key, FromSend(me));
      var insert := Nothing;
      if turns(5).input.Fault? {
        outcome := SendFailed;
      } else if !KeyTaken(rows, row.key) {
        insert, outcome := InsertRow(row), SendReplied(|rows|, ByCreate(to));
      } else {
        outcome := Lost(to);
      }
      longer := Perform(me, insert, SendCall(req, outcome), turns, 5, longer);
      if outcome.Lost? {
        outcome, longer := SendLost(req, me, to, turns, longer);
      }
    }

    /** Lost the unique key: fold to the winner when it is this transfer. */
    method SendLost(req: SendRequest, me: nat, to: string, turns: Schedule, ghost path: seq<Store>)
      returns (outcome: SendPc, ghost longer: seq<Store>)
      requires me < |calls| && calls[me] == SendCall(req, Lost(to)) && Alien(turns, me)
      requires On(me, turns, path)
      modifies this
      ensures On(me, turns, longer) && path <= longer && me < |calls| && calls[me] == SendCall(req, outcome)
      ensures outcome.SendReplied? || outcome.SendFailed?
    {
      longer := path;
      Wait(me, turns, 6);
      outcome := SendFailed;
      if !turns(6).input.Fault? {
        var winner := FindByKey(rows, req.key, req.senderId);
        if winner.Some? && MatchesIntent(rows[winner.value].terms, req, Some(to)) {
          outcome := SendReplied(winner.value, ByWinner(to));
        }
      }
      longer := Perform(me, Nothing, SendCall(req, outcome), turns, 6, longer);
    }

    // ----- broadcast

    /**
     * `broadcast`. Under any schedule the store becomes exactly what following the call gives; whether it
     * replies or throws, it has let go of the row.
     */
    method Broadcast(req: BroadcastRequest, turns: Schedule) returns (me: nat, outcome: BroadcastPc)
      requires Valid() && Alien(turns, |calls|)
      modifies this
      ensures me == old(|calls|)
      ensures Valid() && Leads(verify, me, turns, Begun(old(View()), BroadcastCall(req, Get)), View())
      ensures me < |calls| && calls[me] == BroadcastCall(req, outcome)
      ensures outcome.BroadcastReplied? || outcome.BroadcastFailed?
      ensures !HoldsRow(calls[me], req.row)
      ensures Quiet(turns) ==>
                var end := BroadcastEnds(old(View()), req, turns(0).input, Throws(turns));
                && outcome == end.1 && View() == Begun(end.0, BroadcastCall(req, outcome))
                && (Faultless(turns) && turns(0).input.Account? ==>
                      BroadcastAnswered(old(View()), req, turns(0).input.accountId, outcome, end.0))
    {
      ghost var start := View();
      me := |calls|;
      calls := calls + [BroadcastCall(req, Get)];
      ghost var begun := View();
      ghost var path;
      outcome, path := BroadcastGet(req, me, turns, [begun]);
      assert PathBetween(verify, me, turns, path, begun, View());
      BroadcastConcludes(verify, start, me, req, outcome, turns, View());
    }

    /** `getById`, then what its status allows. */
    method BroadcastGet(req: BroadcastRequest, me: nat, turns: Schedule, ghost path: seq<Store>)
      returns (outcome: BroadcastPc, ghost longer: seq<Store>)
      requires me < |calls| && calls[me] == BroadcastCall(req, Get) && Alien(turns, me)
      requires On(me, turns, path)
      modifies this
      ensures On(me, turns, longer) && path <= longer && me < |calls| && calls[me] == BroadcastCall(req, outcome)
      ensures outcome.BroadcastReplied? || outcome.BroadcastFailed?
    {
      longer := path;
      Wait(me, turns, 0);
      if !turns(0).input.Account? || req.row >= |rows|
         || !Visible(rows[req.row], req.userId, turns(0).input.accountId) {
        outcome := BroadcastFailed();
      } else if rows[req.row].status == PENDING {
        outcome := ClaimPending;
      } else if rows[req.row].status == PROCESSING {
        outcome := BroadcastReplied;
      } else {
        outcome := BroadcastFailed();
      }
      longer := Perform(me, Nothing, BroadcastCall(req, outcome), turns, 0, longer);
      if outcome.ClaimPending? {
        outcome, longer := BroadcastClaim(req, me, turns, longer);
      }
    }

    /** `updateMany` PENDING -> PROCESSING. */
    method BroadcastClaim(req: BroadcastRequest, me: nat, turns: Schedule, ghost path: seq<Store>)
      returns (outcome: BroadcastPc, ghost longer: seq<Store>)
      requires me < |calls| && calls[me] == BroadcastCall(req, ClaimPending) && Alien(turns, me)
      requires On(me, turns, path)
      modifies this
      ensures On(me, turns, longer) && path <= longer && me < |calls| && calls[me] == BroadcastCall(req, outcome)
      ensures outcome.BroadcastReplied? || outcome.BroadcastFailed?
    {
      longer := path;
      Wait(me, turns, 1);
      var claim := ClaimRow(req.row, req.userId);
      if turns(1).input.Fault? {
        claim, outcome := Nothing, BroadcastFailed();
      } else if Matches(View(), claim) {
        outcome := Hand;
      } else {
        claim, outcome := Nothing, BroadcastReplied;
      }
      longer := Perform(me, claim, BroadcastCall(req, outcome), turns, 1, longer);
      if outcome.Hand? {
        outcome, longer := BroadcastHand(req, me, turns, longer);
      }
    }

    /** Enqueue, or release the claim and throw. */
    method BroadcastHand(req: BroadcastRequest, me: nat, turns: Schedule, ghost path: seq<Store>)
      returns (outcome: BroadcastPc, ghost longer: seq<Store>)
      requires me < |calls| && calls[me] == BroadcastCall(req, Hand) && Alien(turns, me)
      requires On(me, turns, path)
      modifies this
      ensures On(me, turns, longer) && path <= longer && me < |calls| && calls[me] == BroadcastCall(req, outcome)
      ensures outcome.BroadcastReplied? || outcome.BroadcastFailed?
    {
      longer := path;
      Wait(me, turns, 2);
      if !turns(2).input.Fault? {
        outcome := BroadcastReplied;
        longer := Perform(me, Enqueue(Job(req.row, Process(req.signedTx), ByBroadcast(me), Start)),
                          BroadcastCall(req, outcome), turns, 2, longer);
        return;
      }
      longer := Perform(me, Nothing, BroadcastCall(req, Release), turns, 2, longer);
      Wait(me, turns, 3);
      outcome := BroadcastFailed(turns(3).input.Fault?);
      var release := if turns(3).input.Fault? then Nothing else ReleaseRow(req.row);
      longer := Perform(me, release, BroadcastCall(req, outcome), turns, 3, longer);
    }

    // ----- the worker

    /** Everyone else runs; job `me` stays where it is. */
    method WaitJob(me: nat, turns: Schedule, k: nat)
      requires me < |jobs| && ForeignToJob(turns(k).others, me)
      modifies this
      ensures View() == Run(verify, old(View()), turns(k).others)
      ensures me < |jobs| && jobs[me] == old(jobs[me])
    {
      OthersLeaveJob(verify, View(), turns(k).others, me);
      Restore(Run(verify, View(), turns(k).others));
    }

    /**
     * Job `me` performs a statement and moves on, as its control flow says; with the wait before it, this is
     * one turn.
     */
    method PerformJob(me: nat, q: Statement, at: JobPc, turns: Schedule, k: nat, ghost path: seq<Store>)
      returns (ghost longer: seq<Store>)
      requires |path| > 0 && JobPath(verify, me, turns, path)
      requires var before := path[|path| - 1];
               me < |before.jobs| && JobPlace(before.jobs[me].at) == k < END
               && View() == Run(verify, before, turns(k).others)
      requires me < |jobs| && JobNext(View(), me, jobs[me], turns(k).input) == (q, at)
      modifies this
      ensures OnJob(me, turns, longer) && path <= longer
      ensures me < |jobs| && jobs[me] == old(jobs[me]).(at := at, heard := jobs[me].heard)
    {
      var job := jobs[me];
      ghost var seen := View();
      StatementLeavesJobs(seen, q, me);
      Apply(q);
      jobs := jobs[me := job.(at := at, heard := Noted(job, turns(k).input))];
      assert View() == RunJob(seen, me, turns(k).input);
      JobPathGrows(verify, me, turns, path, View());
      longer := path + [View()];
    }

    /**
     * The queue processor, run once for job `me`. Under any schedule the store becomes exactly what following
     * the job gives, and a verdict the job wrote is what its tracked row says; with nothing else running
     * job and tables end as `JobEnds` says, whichever statements throw.
     */
    method ProcessJob(me: nat, turns: Schedule)
      requires Valid() && me < |jobs| && jobs[me].at.Start?
      requires AlienToJob(turns, me)
      modifies this
      ensures Valid() && JobLeads(verify, me, turns, old(View()), View())
      ensures me < |jobs| && !Live(jobs[me]) && jobs[me] == old(jobs[me]).(at := jobs[me].at, heard := jobs[me].heard)
      ensures Tracked(View(), jobs[me].row) ==> Took(rows[jobs[me].row], jobs[me])
      ensures Quiet(turns) ==>
                && old(jobs[me].row) < |old(rows)|
                && var end := JobEnds(old(View()), me, turns(ChainTurn(old(jobs[me]))).input, Throws(turns));
                   me < |end.left.jobs| && View() == AtJob(end.left, me, end.at, end.heard)
    {
      ghost var start := View();
      ghost var path := RunJobOnce(me, turns, [start]);
      assert JobPathBetween(verify, me, turns, path, start, View());
      JobConcludes(verify, start, me, turns, View());
    }

    method RunJobOnce(me: nat, turns: Schedule, ghost path: seq<Store>) returns (ghost longer: seq<Store>)
      requires me < |jobs| && jobs[me].at.Start?
      requires OnJob(me, turns, path)
      requires AlienToJob(turns, me)
      modifies this
      ensures OnJob(me, turns, longer) && path <= longer
      ensures me < |jobs| && !Live(jobs[me]) && jobs[me] == old(jobs[me]).(at := jobs[me].at, heard := jobs[me].heard)
    {
      longer := path;
      WaitJob(me, turns, 0);
      var job := jobs[me];
      if turns(0).input.Fault? || job.row >= |rows| {
        longer := PerformJob(me, Nothing, Crashed, turns, 0, longer);
      } else if job.body.Check? && job.body.txHash != "" {
        longer := PerformJob(me, Nothing, Poll, turns, 0, longer);
        longer := CheckStatus(me, job, turns, longer);
      } else if job.body.Check? || job.body.signedTx == "" {
        longer := PerformJob(me, Nothing, NoSignature, turns, 0, longer);
        longer := RefuseUnsigned(me, job, turns, longer);
      } else {
        longer := PerformJob(me, Nothing, MarkProcessing, turns, 0, longer);
        longer := BroadcastSigned(me, job, turns, longer);
      }
    }

    /** Nothing to broadcast: the row is FAILED. */
    method RefuseUnsigned(me: nat, job: Job, turns: Schedule, ghost path: seq<Store>) returns (ghost longer: seq<Store>)
      requires me < |jobs| && jobs[me] == job.(at := NoSignature, heard := jobs[me].heard)
      requires OnJob(me, turns, path)
      requires AlienToJob(turns, me)
      modifies this
      ensures OnJob(me, turns, longer) && path <= longer
      ensures me < |jobs| && !Live(jobs[me]) && jobs[me] == job.(at := jobs[me].at, heard := jobs[me].heard)
    {
      WaitJob(me, turns, 1);
      var mark := if turns(1).input.Fault? then Nothing else SetStatus(job.row, FAILED);
      longer := PerformJob(me, mark, Crashed, turns, 1, path);
    }

    /** `checkOnly`: settle on what the chain answered, or look again later. */
    method CheckStatus(me: nat, job: Job, turns: Schedule, ghost path: seq<Store>) returns (ghost longer: seq<Store>)
      requires me < |jobs| && jobs[me] == job.(at := Poll, heard := jobs[me].heard)
      requires OnJob(me, turns, path)
      requires AlienToJob(turns, me)
      modifies this
      ensures OnJob(me, turns, longer) && path <= longer
      ensures me < |jobs| && !Live(jobs[me]) && jobs[me] == job.(at := jobs[me].at, heard := jobs[me].heard)
    {
      longer := path;
      WaitJob(me, turns, 1);
      if !turns(1).input.ChainStatus? {
        longer := PerformJob(me, Nothing, Crashed, turns, 1, longer);
        return;
      }
      var status := turns(1).input.status;
      if status.Pending? {
        longer := PerformJob(me, Nothing, Requeue, turns, 1, longer);
        WaitJob(me, turns, 2);
        if turns(2).input.Fault? {
          longer := PerformJob(me, Nothing, Crashed, turns, 2, longer);
        } else {
          longer := PerformJob(me, Enqueue(Job(job.row, job.body, ByJob(me), Start)), Finished, turns, 2, longer);
        }
        return;
      }
      longer := PerformJob(me, Nothing, Settle(status.Confirmed?), turns, 1, longer);
      longer := SettleStatus(me, job, status.Confirmed?, turns, longer);
    }

    /** Write the terminal status, and the receipt of a confirmed transfer. */
    method SettleStatus(me: nat, job: Job, confirmed: bool, turns: Schedule, ghost path: seq<Store>)
      returns (ghost longer: seq<Store>)
      requires me < |jobs| && jobs[me] == job.(at := Settle(confirmed), heard := jobs[me].heard)
      requires OnJob(me, turns, path)
      requires AlienToJob(turns, me)
      modifies this
      ensures OnJob(me, turns, longer) && path <= longer
      ensures me < |jobs| && !Live(jobs[me]) && jobs[me] == job.(at := jobs[me].at, heard := jobs[me].heard)
    {
      longer := path;
      WaitJob(me, turns, 2);
      if turns(2).input.Fault? {
        longer := PerformJob(me, Nothing, Crashed, turns, 2, longer);
        return;
      }
      if !confirmed {
        longer := PerformJob(me, SetStatus(job.row, FAILED), Finished, turns, 2, longer);
        return;
      }
      longer := PerformJob(me, SetStatus(job.row, COMPLETED), WriteReceipt, turns, 2, longer);
      WaitJob(me, turns, 3);
      if turns(3).input.Fault? {
        longer := PerformJob(me, Nothing, Crashed, turns, 3, longer);
      } else {
        longer := PerformJob(me, UpsertReceipt(job.row), Finished, turns, 3, longer);
      }
    }

    /** Broadcast, record the hash, queue the check; any failure after PROCESSING marks the row FAILED. */
    method BroadcastSigned(me: nat, job: Job, turns: Schedule, ghost path: seq<Store>)
      returns (ghost longer: seq<Store>)
      requires me < |jobs| && jobs[me] == job.(at := MarkProcessing, heard := jobs[me].heard)
      requires OnJob(me, turns, path)
      requires AlienToJob(turns, me)
      modifies this
      ensures OnJob(me, turns, longer) && path <= longer
      ensures me < |jobs| && !Live(jobs[me]) && jobs[me] == job.(at := jobs[me].at, heard := jobs[me].heard)
    {
      longer := path;
      WaitJob(me, turns, 1);
      if turns(1).input.Fault? {
        longer := PerformJob(me, Nothing, Crashed, turns, 1, longer);
        return;
      }
      longer := PerformJob(me, SetStatus(job.row, PROCESSING), SendToChain, turns, 1, longer);
      WaitJob(me, turns, 2);
      if !turns(2).input.ChainHash? {
        longer := PerformJob(me, Nothing, Fail, turns, 2, longer);
        longer := FailBroadcast(me, job, turns, longer);
        return;
      }
      var hash := turns(2).input.hash;
      longer := PerformJob(me, Nothing, Record(hash), turns, 2, longer);
      longer := RecordHash(me, job, hash, turns, longer);
    }

    /** The chain took the transaction: record its hash and queue the first status check. */
    method RecordHash(me: nat, job: Job, hash: string, turns: Schedule, ghost path: seq<Store>)
      returns (ghost longer: seq<Store>)
      requires me < |jobs| && jobs[me] == job.(at := Record(hash), heard := jobs[me].heard)
      requires OnJob(me, turns, path)
      requires AlienToJob(turns, me)
      modifies this
      ensures OnJob(me, turns, longer) && path <= longer
      ensures me < |jobs| && !Live(jobs[me]) && jobs[me] == job.(at := jobs[me].at, heard := jobs[me].heard)
    {
      longer := path;
      WaitJob(me, turns, 3);
      if turns(3).input.Fault? {
        longer := PerformJob(me, Nothing, Fail, turns, 3, longer);
        longer := FailBroadcast(me, job, turns, longer);
        return;
      }
      longer := PerformJob(me, SetHash(job.row, hash), QueueCheck(hash), turns, 3, longer);
      WaitJob(me, turns, 4);
      if turns(4).input.Fault? {
        longer := PerformJob(me, Nothing, Fail, turns, 4, longer);
        longer := FailBroadcast(me, job, turns, longer);
        return;
      }
      longer := PerformJob(me, Enqueue(Job(job.row, Check(hash), ByJob(me), Start)), Finished, turns, 4, longer);
    }

    method FailBroadcast(me: nat, job: Job, turns: Schedule, ghost path: seq<Store>) returns (ghost longer: seq<Store>)
      requires me < |jobs| && jobs[me] == job.(at := Fail, heard := jobs[me].heard)
      requires OnJob(me, turns, path)
      requires AlienToJob(turns, me)
      modifies this
      ensures OnJob(me, turns, longer) && path <= longer
      ensures me < |jobs| && jobs[me] == job.(at := Crashed, heard := jobs[me].heard)
    {
      longer := path;
      WaitJob(me, turns, 5);
      var mark := if turns(5).input.Fault? then Nothing else SetStatus(job.row, FAILED);
      longer := PerformJob(me, mark, Crashed, turns, 5, longer);
    }
  }
}
