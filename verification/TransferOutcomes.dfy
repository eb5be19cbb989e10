/** What each service answers and leaves behind when nothing else runs, as a function of the tables. */
module TransferOutcomes {
  import opened Common
  import DecimalColumn
  import Money
  import opened Evm
  import opened Transfers
  import opened TransferInvariants
  import opened TransferSchedules

  ghost predicate Quiet(turns: Schedule) {
    forall k: nat :: turns(k).others == []
  }

  ghost predicate Faultless(turns: Schedule) {
    forall k: nat :: !turns(k).input.Fault?
  }

  /** Where the newest call, begun in `from`, has come to: the tables are those of `s`, the call stands at `c`. */
  ghost predicate Comes(verify: Verifier, turns: Schedule, from: Store, s: Store, c: Call) {
    Leads(verify, |s.calls|, turns, from, Begun(s, c))
  }

  /** A quiet turn is the call's own statement. */
  lemma QuietStep(verify: Verifier, turns: Schedule, from: Store, s: Store, c: Call, q: Statement, next: Call)
    requires Quiet(turns) && !Ended(c) && Comes(verify, turns, from, s, c)
    requires CallNext(verify, Begun(s, c), |s.calls|, turns(Place(c)).input) == (q, next)
    ensures Comes(verify, turns, from, Execute(s, q), next)
  {
    var me, t := |s.calls|, Begun(s, c);
    StatementSparesCalls(s, q, c, next);
    assert TakeTurn(verify, t, me, turns) == RunCall(verify, t, me, turns(Place(c)).input);
    LeadsOn(verify, me, turns, from, t, Begun(Execute(s, q), next));
  }

  lemma QuietSubmit(
    verify: Verifier, turns: Schedule, from: Store, s: Store, req: SubmitRequest, at: SubmitPc, q: Statement,
    next: SubmitPc)
    requires Quiet(turns) && SubmitPlace(at) < END && Comes(verify, turns, from, s, SubmitCall(req, at))
    requires SubmitNext(verify, Begun(s, SubmitCall(req, at)), |s.calls|, req, at, turns(SubmitPlace(at)).input)
               == (q, next)
    ensures Comes(verify, turns, from, Execute(s, q), SubmitCall(req, next))
  {
    QuietStep(verify, turns, from, s, SubmitCall(req, at), q, SubmitCall(req, next));
  }

  lemma QuietSend(
    verify: Verifier, turns: Schedule, from: Store, s: Store, req: SendRequest, at: SendPc, q: Statement, next: SendPc)
    requires Quiet(turns) && SendPlace(at) < END && Comes(verify, turns, from, s, SendCall(req, at))
    requires SendNext(Begun(s, SendCall(req, at)), |s.calls|, req, at, turns(SendPlace(at)).input) == (q, next)
    ensures Comes(verify, turns, from, Execute(s, q), SendCall(req, next))
  {
    QuietStep(verify, turns, from, s, SendCall(req, at), q, SendCall(req, next));
  }

  lemma QuietBroadcast(
    verify: Verifier, turns: Schedule, from: Store, s: Store, req: BroadcastRequest, at: BroadcastPc, q: Statement,
    next: BroadcastPc)
    requires Quiet(turns) && BroadcastPlace(at) < END && Comes(verify, turns, from, s, BroadcastCall(req, at))
    requires BroadcastNext(Begun(s, BroadcastCall(req, at)), |s.calls|, req, at, turns(BroadcastPlace(at)).input)
               == (q, next)
    ensures Comes(verify, turns, from, Execute(s, q), BroadcastCall(req, next))
  {
    QuietStep(verify, turns, from, s, BroadcastCall(req, at), q, BroadcastCall(req, next));
  }

  lemma StatementSparesCalls(s: Store, q: Statement, c: Call, next: Call)
    ensures Execute(Begun(s, c), q).(calls := Begun(s, c).calls[|s.calls| := next]) == Begun(Execute(s, q), next)
  {
    assert (s.calls + [c])[|s.calls| := next] == s.calls + [next];
  }

  /** Which statements throw. */
  function Throws(turns: Schedule): nat -> bool {
    (k: nat) => turns(k).input.Fault?
  }

  // ----- submit

  /** Why an intent cannot be claimed. */
  function Diagnosis(s: Store, req: SubmitRequest): Refusal {
    if req.intent >= |s.intents| || s.intents[req.intent].userId != req.userId then NotFound
    else if s.intents[req.intent].status == USED then AlreadySubmitted
    else Expired
  }

  /** The user's own READY intent, before it expires. */
  predicate Claimable(s: Store, req: SubmitRequest) {
    && req.intent < |s.intents| && s.intents[req.intent].userId == req.userId
    && s.intents[req.intent].status == READY && s.now < s.intents[req.intent].expiresAt
  }

  function Spent(s: Store, n: nat): Store
    requires n < |s.intents|
  {
    s.(intents := s.intents[n := s.intents[n].(status := USED, usedAt := Some(s.now))])
  }

  /** The intent is released, unless that write is lost too. */
  function GivenBack(s: Store, req: SubmitRequest, why: Refusal, lost: bool): (Store, SubmitPc)
    requires req.intent < |s.intents|
  {
    (if lost then Spent(s, req.intent) else s, RolledBack(why, !lost))
  }

  /** The row is marked FAILED, unless that write is lost too. */
  function ClosedRow(t: Store, r: nat, lost: bool): (Store, SubmitPc)
    requires r < |t.rows|
  {
    (if lost then t else t.(rows := t.rows[r := t.rows[r].(status := FAILED)]), MarkedFailed(r, !lost))
  }

  function SubmitRow(s: Store, req: SubmitRequest): Row
    requires req.intent < |s.intents|
  {
    Row(req.userId, None, s.intents[req.intent].terms, PENDING, None, req.key, FromIntent(|s.calls|, req.intent))
  }

  function Inserted(s: Store, req: SubmitRequest): Store
    requires req.intent < |s.intents|
  {
    Spent(s, req.intent).(rows := s.rows + [SubmitRow(s, req)])
  }

  function WithLink(s: Store, n: nat, r: nat): Store
    requires n < |s.intents|
  {
    s.(intents := s.intents[n := s.intents[n].(transactionId := Some(r))])
  }

  /** A row of its own, then the link and the job. */
  function Made(s: Store, req: SubmitRequest, throws: nat -> bool): (Store, SubmitPc)
    requires req.intent < |s.intents|
  {
    var r := |s.rows|;
    var linked := WithLink(Inserted(s, req), req.intent, r);
    if throws(8) then ClosedRow(Inserted(s, req), r, throws(10))
    else if throws(9) then ClosedRow(linked, r, throws(10))
    else (linked.(jobs := s.jobs + [Job(r, Process(req.signedTx), BySubmit(|s.calls|), Start)]), Created(r))
  }

  /** A claimed intent: the signature, then the key. */
  function Judged(verify: Verifier, s: Store, req: SubmitRequest, throws: nat -> bool): (Store, SubmitPc)
    requires req.intent < |s.intents|
  {
    if throws(4) then GivenBack(s, req, Internal, throws(10))
    else match verify(s.intents[req.intent].terms, req.signedTx)
      case Err(why) => GivenBack(s, req, Rejected(why), throws(10))
      case Ok(_) =>
        if throws(5) then GivenBack(s, req, Internal, throws(10))
        else if !KeyTaken(s.rows, req.key) then Made(s, req, throws)
        else GivenBack(s, req, if throws(6) then Internal else KeyConflict, throws(10))
  }

  /** What one `submit` leaves and answers, whichever of its statements throw. */
  function SubmitEnds(verify: Verifier, s: Store, req: SubmitRequest, throws: nat -> bool): (Store, SubmitPc) {
    if throws(0) then (s, Refused(Internal))
    else match FindByKey(s.rows, req.key, req.userId)
      case Some(r) => (s, Replayed(r))
      case None =>
        if throws(1) then (s, Refused(Internal))
        else if Claimable(s, req) then Judged(verify, s, req, throws)
        else (s, Refused(if throws(2) || throws(3) then Internal else Diagnosis(s, req)))
  }

  /** What it comes to when nothing throws, and what it leaves. */
  function SubmitResult(verify: Verifier, s: Store, req: SubmitRequest): SubmitPc {
    SubmitEnds(verify, s, req, k => false).1
  }

  function SubmitEffect(verify: Verifier, s: Store, req: SubmitRequest): Store {
    SubmitEnds(verify, s, req, k => false).0
  }

  /** Where a submit begun in `from` has come to. */
  ghost predicate SubmitComes(
    verify: Verifier, turns: Schedule, from: Store, req: SubmitRequest, end: (Store, SubmitPc)) {
    Comes(verify, turns, from, end.0, SubmitCall(req, end.1))
  }

  lemma GivenBackQuietly(verify: Verifier, turns: Schedule, from: Store, s: Store, req: SubmitRequest, why: Refusal)
    requires IntentsOk(s) && Quiet(turns) && Claimable(s, req)
    requires SubmitComes(verify, turns, from, req, (Spent(s, req.intent), Rollback(why)))
    ensures SubmitComes(verify, turns, from, req, GivenBack(s, req, why, Throws(turns)(10)))
  {
    var spent := Spent(s, req.intent);
    if Throws(turns)(10) {
      QuietSubmit(verify, turns, from, spent, req, Rollback(why), Nothing, RolledBack(why, false));
    } else {
      QuietSubmit(verify, turns, from, spent, req, Rollback(why), ReleaseIntent(req.intent), RolledBack(why, true));
      assert Execute(spent, ReleaseIntent(req.intent)).intents == s.intents;
      assert Execute(spent, ReleaseIntent(req.intent)) == s;
    }
  }

  lemma ClosedQuietly(verify: Verifier, turns: Schedule, from: Store, t: Store, req: SubmitRequest, r: nat)
    requires Quiet(turns) && r < |t.rows| && SubmitComes(verify, turns, from, req, (t, MarkFailed(r)))
    ensures SubmitComes(verify, turns, from, req, ClosedRow(t, r, Throws(turns)(10)))
  {
    if Throws(turns)(10) {
      QuietSubmit(verify, turns, from, t, req, MarkFailed(r), Nothing, MarkedFailed(r, false));
    } else {
      QuietSubmit(verify, turns, from, t, req, MarkFailed(r), SetStatus(r, FAILED), MarkedFailed(r, true));
    }
  }

  lemma QueuedQuietly(verify: Verifier, turns: Schedule, from: Store, t: Store, req: SubmitRequest, r: nat)
    requires Quiet(turns) && r < |t.rows| && SubmitComes(verify, turns, from, req, (t, Queue(r)))
    ensures var job := Job(r, Process(req.signedTx), BySubmit(|t.calls|), Start);
            SubmitComes(verify, turns, from, req,
                        if Throws(turns)(9) then ClosedRow(t, r, Throws(turns)(10))
                        else (t.(jobs := t.jobs + [job]), Created(r)))
  {
    if Throws(turns)(9) {
      QuietSubmit(verify, turns, from, t, req, Queue(r), Nothing, MarkFailed(r));
      ClosedQuietly(verify, turns, from, t, req, r);
    } else {
      var job := Job(r, Process(req.signedTx), BySubmit(|t.calls|), Start);
      QuietSubmit(verify, turns, from, t, req, Queue(r), Enqueue(job), Created(r));
    }
  }

  lemma MadeQuietly(verify: Verifier, turns: Schedule, from: Store, s: Store, req: SubmitRequest)
    requires Quiet(turns) && req.intent < |s.intents|
    requires SubmitComes(verify, turns, from, req, (Inserted(s, req), Link(|s.rows|)))
    ensures SubmitComes(verify, turns, from, req, Made(s, req, Throws(turns)))
  {
    var (r, t) := (|s.rows|, Inserted(s, req));
    if Throws(turns)(8) {
      QuietSubmit(verify, turns, from, t, req, Link(r), Nothing, MarkFailed(r));
      ClosedQuietly(verify, turns, from, t, req, r);
    } else {
      QuietSubmit(verify, turns, from, t, req, Link(r), LinkIntent(req.intent, r), Queue(r));
      QueuedQuietly(verify, turns, from, WithLink(t, req.intent, r), req, r);
    }
  }

  /** The key is another user's. */
  lemma TakenQuietly(verify: Verifier, turns: Schedule, from: Store, s: Store, req: SubmitRequest, terms: Terms)
    requires IntentsOk(s) && Quiet(turns) && Claimable(s, req)
    requires FindByKey(s.rows, req.key, req.userId).None? && KeyTaken(s.rows, req.key) && !Throws(turns)(5)
    requires SubmitComes(verify, turns, from, req, (Spent(s, req.intent), Insert(terms)))
    ensures var why := if Throws(turns)(6) then Internal else KeyConflict;
            SubmitComes(verify, turns, from, req, GivenBack(s, req, why, Throws(turns)(10)))
  {
    var why := if Throws(turns)(6) then Internal else KeyConflict;
    QuietSubmit(verify, turns, from, Spent(s, req.intent), req, Insert(terms), Nothing, Winner);
    QuietSubmit(verify, turns, from, Spent(s, req.intent), req, Winner, Nothing, Rollback(why));
    GivenBackQuietly(verify, turns, from, s, req, why);
  }

  lemma InsertQuietly(verify: Verifier, turns: Schedule, from: Store, s: Store, req: SubmitRequest)
    requires IntentsOk(s) && Quiet(turns) && Claimable(s, req) && FindByKey(s.rows, req.key, req.userId).None?
    requires verify(s.intents[req.intent].terms, req.signedTx).Ok? && !Throws(turns)(4)
    requires SubmitComes(verify, turns, from, req, (Spent(s, req.intent), Insert(s.intents[req.intent].terms)))
    ensures SubmitComes(verify, turns, from, req, Judged(verify, s, req, Throws(turns)))
  {
    var (spent, terms) := (Spent(s, req.intent), s.intents[req.intent].terms);
    if Throws(turns)(5) {
      QuietSubmit(verify, turns, from, spent, req, Insert(terms), Nothing, Rollback(Internal));
      GivenBackQuietly(verify, turns, from, s, req, Internal);
    } else if KeyTaken(s.rows, req.key) {
      TakenQuietly(verify, turns, from, s, req, terms);
    } else {
      QuietSubmit(verify, turns, from, spent, req, Insert(terms), InsertRow(SubmitRow(s, req)), Link(|s.rows|));
      MadeQuietly(verify, turns, from, s, req);
    }
  }

  lemma JudgedQuietly(verify: Verifier, turns: Schedule, from: Store, s: Store, req: SubmitRequest)
    requires IntentsOk(s) && Quiet(turns) && Claimable(s, req) && FindByKey(s.rows, req.key, req.userId).None?
    requires SubmitComes(verify, turns, from, req, (Spent(s, req.intent), Load))
    ensures SubmitComes(verify, turns, from, req, Judged(verify, s, req, Throws(turns)))
  {
    var (spent, terms) := (Spent(s, req.intent), s.intents[req.intent].terms);
    if Throws(turns)(4) {
      QuietSubmit(verify, turns, from, spent, req, Load, Nothing, Rollback(Internal));
      GivenBackQuietly(verify, turns, from, s, req, Internal);
    } else {
      match verify(terms, req.signedTx)
      case Err(why) =>
        QuietSubmit(verify, turns, from, spent, req, Load, Nothing, Rollback(Rejected(why)));
        GivenBackQuietly(verify, turns, from, s, req, Rejected(why));
      case Ok(_) =>
        QuietSubmit(verify, turns, from, spent, req, Load, Nothing, Insert(terms));
        InsertQuietly(verify, turns, from, s, req);
    }
  }

  lemma RefusedQuietly(verify: Verifier, turns: Schedule, from: Store, s: Store, req: SubmitRequest)
    requires Quiet(turns) && FindByKey(s.rows, req.key, req.userId).None? && !Claimable(s, req)
    requires SubmitComes(verify, turns, from, req, (s, Raced))
    ensures SubmitComes(verify, turns, from, req,
                        (s, Refused(if Throws(turns)(2) || Throws(turns)(3) then Internal else Diagnosis(s, req))))
  {
    if Throws(turns)(2) {
      QuietSubmit(verify, turns, from, s, req, Raced, Nothing, Refused(Internal));
    } else {
      QuietSubmit(verify, turns, from, s, req, Raced, Nothing, Diagnose);
      var why := if Throws(turns)(3) then Internal else Diagnosis(s, req);
      QuietSubmit(verify, turns, from, s, req, Diagnose, Nothing, Refused(why));
    }
  }

  lemma ClaimQuietly(verify: Verifier, turns: Schedule, from: Store, s: Store, req: SubmitRequest)
    requires IntentsOk(s) && Quiet(turns) && FindByKey(s.rows, req.key, req.userId).None? && !Throws(turns)(0)
    requires SubmitComes(verify, turns, from, req, (s, Claim))
    ensures SubmitComes(verify, turns, from, req, SubmitEnds(verify, s, req, Throws(turns)))
  {
    if Throws(turns)(1) {
      QuietSubmit(verify, turns, from, s, req, Claim, Nothing, Refused(Internal));
    } else if Claimable(s, req) {
      QuietSubmit(verify, turns, from, s, req, Claim, ClaimIntent(req.intent, req.userId), Load);
      JudgedQuietly(verify, turns, from, s, req);
    } else {
      QuietSubmit(verify, turns, from, s, req, Claim, Nothing, Raced);
      RefusedQuietly(verify, turns, from, s, req);
    }
  }

  /**
   * `submit` with nothing else running, whichever of its statements throw: a replay answers with the user's
   * row; an intent that cannot be claimed is refused for its reason; a rejected signature, a key another user
   * holds or a statement that throws before the row exists leaves every table as it was; one that throws after
   * it leaves the row FAILED; otherwise one row, one link and one job.
   */
  lemma SubmitQuietly(verify: Verifier, s: Store, req: SubmitRequest, turns: Schedule)
    requires IntentsOk(s) && Quiet(turns)
    ensures SubmitComes(verify, turns, Begun(s, SubmitCall(req, Replay)), req,
                        SubmitEnds(verify, s, req, Throws(turns)))
  {
    var from := Begun(s, SubmitCall(req, Replay));
    LeadsHere(verify, |s.calls|, turns, from);
    if Throws(turns)(0) {
      QuietSubmit(verify, turns, from, s, req, Replay, Nothing, Refused(Internal));
    } else {
      match FindByKey(s.rows, req.key, req.userId)
      case Some(r) => QuietSubmit(verify, turns, from, s, req, Replay, Nothing, Replayed(r));
      case None =>
        QuietSubmit(verify, turns, from, s, req, Replay, Nothing, Claim);
        ClaimQuietly(verify, turns, from, s, req);
    }
  }

  /** And with no statement throwing. */
  lemma SubmitFaultlessly(verify: Verifier, s: Store, req: SubmitRequest, turns: Schedule)
    requires Faultless(turns)
    ensures SubmitEnds(verify, s, req, Throws(turns)) == (SubmitEffect(verify, s, req), SubmitResult(verify, s, req))
  {
  }

  // ----- send

  /** The validated recipient the lookup gives, if it gives one. */
  function Found(req: SendRequest, input: Input): Option<string> {
    if input.Resolved? && (req.recipientAccountId.Some? || req.recipientAddress == Some(input.address))
    then Some(input.address) else None
  }

  function SendRow(s: Store, req: SendRequest, to: string): Row {
    Row(req.senderId, req.recipientAccountId, StoredTerms(req, to), PENDING, None, req.key, FromSend(|s.calls|))
  }

  /** A recipient is known and no row of the user's has the key. */
  function SendMade(s: Store, req: SendRequest, to: string, throws: nat -> bool): (Store, SendPc) {
    if throws(4) || throws(5) || KeyTaken(s.rows, req.key) then (s, SendFailed)
    else (s.(rows := s.rows + [SendRow(s, req, to)]), SendReplied(|s.rows|, ByCreate(to)))
  }

  /** Past the fast path, with what the recipient lookup gave. */
  function SendGoesOn(s: Store, req: SendRequest, found: Option<string>, throws: nat -> bool): (Store, SendPc) {
    match found
    case None => (s, SendFailed)
    case Some(to) =>
      if throws(3) then (s, SendFailed)
      else match FindByKey(s.rows, req.key, req.senderId)
        case Some(r) =>
          (s, if MatchesIntent(s.rows[r].terms, req, Some(to)) then SendReplied(r, ByReuse(to)) else SendFailed)
        case None => SendMade(s, req, to, throws)
  }

  /** What one `send` leaves and answers, whichever of its statements throw. */
  function SendEnds(s: Store, req: SendRequest, found: Option<string>, throws: nat -> bool): (Store, SendPc) {
    var key := FindByKey(s.rows, req.key, req.senderId);
    if throws(0) || throws(1) then (s, SendFailed)
    else if key.Some? && MatchesIntent(s.rows[key.value].terms, req, req.recipientAddress)
    then (s, SendReplied(key.value, ByFastPath))
    else SendGoesOn(s, req, found, throws)
  }

  /** What it comes to when nothing throws and its recipient is `to`, and what it leaves. */
  function SendResult(s: Store, req: SendRequest, to: string): SendPc {
    SendEnds(s, req, Some(to), k => false).1
  }

  function SendEffect(s: Store, req: SendRequest, to: string): Store {
    SendEnds(s, req, Some(to), k => false).0
  }

  ghost predicate SendComes(verify: Verifier, turns: Schedule, from: Store, req: SendRequest, end: (Store, SendPc)) {
    Comes(verify, turns, from, end.0, SendCall(req, end.1))
  }

  lemma InsertedQuietly(verify: Verifier, turns: Schedule, from: Store, s: Store, req: SendRequest, to: string)
    requires Quiet(turns) && !Throws(turns)(5) && !KeyTaken(s.rows, req.key)
    requires SendComes(verify, turns, from, req, (s, Create(to)))
    ensures SendComes(verify, turns, from, req,
                      (s.(rows := s.rows + [SendRow(s, req, to)]), SendReplied(|s.rows|, ByCreate(to))))
  {
    var (row, t) := (SendRow(s, req, to), Begun(s, SendCall(req, Create(to))));
    assert Matches(t, InsertRow(row)) && Matches(s, InsertRow(row));
    QuietSend(verify, turns, from, s, req, Create(to), InsertRow(row), SendReplied(|s.rows|, ByCreate(to)));
  }

  lemma LostQuietly(verify: Verifier, turns: Schedule, from: Store, s: Store, req: SendRequest, to: string)
    requires Quiet(turns) && !Throws(turns)(5) && KeyTaken(s.rows, req.key)
    requires FindByKey(s.rows, req.key, req.senderId).None?
    requires SendComes(verify, turns, from, req, (s, Create(to)))
    ensures SendComes(verify, turns, from, req, (s, SendFailed))
  {
    assert !Matches(s, InsertRow(SendRow(s, req, to)));
    QuietSend(verify, turns, from, s, req, Create(to), Nothing, Lost(to));
    QuietSend(verify, turns, from, s, req, Lost(to), Nothing, SendFailed);
  }

  lemma CreateQuietly(verify: Verifier, turns: Schedule, from: Store, s: Store, req: SendRequest, to: string)
    requires Quiet(turns) && FindByKey(s.rows, req.key, req.senderId).None? && !Throws(turns)(4)
    requires SendComes(verify, turns, from, req, (s, Create(to)))
    ensures SendComes(verify, turns, from, req, SendMade(s, req, to, Throws(turns)))
  {
    if Throws(turns)(5) {
      QuietSend(verify, turns, from, s, req, Create(to), Nothing, SendFailed);
    } else if KeyTaken(s.rows, req.key) {
      LostQuietly(verify, turns, from, s, req, to);
    } else {
      InsertedQuietly(verify, turns, from, s, req, to);
    }
  }

  /** The key is not used by the user. */
  lemma UnusedQuietly(verify: Verifier, turns: Schedule, from: Store, s: Store, req: SendRequest, to: string)
    requires Quiet(turns) && FindByKey(s.rows, req.key, req.senderId).None?
    requires SendComes(verify, turns, from, req, (s, InTransaction(to)))
    ensures SendComes(verify, turns, from, req, SendMade(s, req, to, Throws(turns)))
  {
    if Throws(turns)(4) {
      QuietSend(verify, turns, from, s, req, InTransaction(to), Nothing, SendFailed);
    } else {
      QuietSend(verify, turns, from, s, req, InTransaction(to), Nothing, Create(to));
      CreateQuietly(verify, turns, from, s, req, to);
    }
  }

  lemma ReusedQuietly(verify: Verifier, turns: Schedule, from: Store, s: Store, req: SendRequest, to: string)
    requires Quiet(turns) && SendComes(verify, turns, from, req, (s, Reused(to)))
    ensures SendComes(verify, turns, from, req, SendGoesOn(s, req, Some(to), Throws(turns)))
  {
    if Throws(turns)(3) {
      QuietSend(verify, turns, from, s, req, Reused(to), Nothing, SendFailed);
    } else if FindByKey(s.rows, req.key, req.senderId).Some? {
      QuietSend(verify, turns, from, s, req, Reused(to), Nothing, SendGoesOn(s, req, Some(to), Throws(turns)).1);
    } else {
      QuietSend(verify, turns, from, s, req, Reused(to), Nothing, InTransaction(to));
      UnusedQuietly(verify, turns, from, s, req, to);
    }
  }

  lemma ResolveQuietly(verify: Verifier, turns: Schedule, from: Store, s: Store, req: SendRequest)
    requires Quiet(turns) && SendComes(verify, turns, from, req, (s, Resolve))
    ensures SendComes(verify, turns, from, req, SendGoesOn(s, req, Found(req, turns(2).input), Throws(turns)))
  {
    match Found(req, turns(2).input)
    case None => QuietSend(verify, turns, from, s, req, Resolve, Nothing, SendFailed);
    case Some(to) =>
      QuietSend(verify, turns, from, s, req, Resolve, Nothing, Reused(to));
      ReusedQuietly(verify, turns, from, s, req, to);
  }

  lemma FastPathQuietly(verify: Verifier, turns: Schedule, from: Store, s: Store, req: SendRequest)
    requires Quiet(turns) && !Throws(turns)(0) && SendComes(verify, turns, from, req, (s, FastPath))
    ensures SendComes(verify, turns, from, req, SendEnds(s, req, Found(req, turns(2).input), Throws(turns)))
  {
    var key := FindByKey(s.rows, req.key, req.senderId);
    if Throws(turns)(1) {
      QuietSend(verify, turns, from, s, req, FastPath, Nothing, SendFailed);
    } else if key.Some? && MatchesIntent(s.rows[key.value].terms, req, req.recipientAddress) {
      QuietSend(verify, turns, from, s, req, FastPath, Nothing, SendReplied(key.value, ByFastPath));
    } else {
      QuietSend(verify, turns, from, s, req, FastPath, Nothing, Resolve);
      ResolveQuietly(verify, turns, from, s, req);
    }
  }

  /**
   * `send` with nothing else running, whichever of its statements throw: a key of the same user replays its
   * row when chain, asset and amount agree and so does the recipient, or the request names no address;
   * otherwise it is refused. A key another user holds is refused; a free key creates one row; and a statement
   * that throws, or a recipient that is not found, leaves every table as it was.
   */
  lemma SendQuietly(verify: Verifier, s: Store, req: SendRequest, turns: Schedule)
    requires Quiet(turns)
    ensures SendComes(verify, turns, Begun(s, SendCall(req, Authorize)), req,
                      SendEnds(s, req, Found(req, turns(2).input), Throws(turns)))
  {
    var from := Begun(s, SendCall(req, Authorize));
    LeadsHere(verify, |s.calls|, turns, from);
    if Throws(turns)(0) {
      QuietSend(verify, turns, from, s, req, Authorize, Nothing, SendFailed);
    } else {
      QuietSend(verify, turns, from, s, req, Authorize, Nothing, FastPath);
      FastPathQuietly(verify, turns, from, s, req);
    }
  }

  lemma SendFaultlessly(s: Store, req: SendRequest, to: string, turns: Schedule)
    requires Faultless(turns) && Found(req, turns(2).input) == Some(to)
    ensures SendEnds(s, req, Found(req, turns(2).input), Throws(turns))
              == (SendEffect(s, req, to), SendResult(s, req, to))
  {
  }

  /**
   * A retry of the very request that made a row, its recipient resolving as before, matches the row exactly
   * when the amount was typed without redundant leading zeros and is not tiny; otherwise it is refused as a
   * different transfer.
   */
  lemma RetryMatchesIff(req: SendRequest, to: string)
    requires Money.IsPlainDecimal(req.amount)
    ensures MatchesIntent(StoredTerms(req, to), req, Some(to)) <==>
              Money.RedundantZeros(req.amount) == 0 && !DecimalColumn.IsTiny(req.amount)
  {
    DecimalColumn.RetryRecognisedIff(req.amount);
  }

  // ----- broadcast

  /** The sender of a PENDING row claims it and hands it over, or lets go of it again. */
  function BroadcastClaims(s: Store, req: BroadcastRequest, throws: nat -> bool): (Store, BroadcastPc)
    requires req.row < |s.rows|
  {
    var row := s.rows[req.row];
    var claimed := s.(rows := s.rows[req.row := row.(status := PROCESSING)]);
    if throws(1) then (s, BroadcastFailed(false))
    else if row.senderId != req.userId then (s, BroadcastReplied)
    else if throws(2) then (if throws(3) || row.txHash.Some? then claimed else s, BroadcastFailed(throws(3)))
    else (claimed.(jobs := s.jobs + [Job(req.row, Process(req.signedTx), ByBroadcast(|s.calls|), Start)]),
          BroadcastReplied)
  }

  /** What one `broadcast` leaves and answers, for a caller with what the account lookup gave. */
  function BroadcastEnds(s: Store, req: BroadcastRequest, account: Input, throws: nat -> bool): (Store, BroadcastPc) {
    if !account.Account? || req.row >= |s.rows| || !Visible(s.rows[req.row], req.userId, account.accountId)
    then (s, BroadcastFailed(false))
    else match s.rows[req.row].status
      case PENDING => BroadcastClaims(s, req, throws)
      case PROCESSING => (s, BroadcastReplied)
      case _ => (s, BroadcastFailed(false))
  }

  function BroadcastResult(s: Store, req: BroadcastRequest, accountId: Option<string>): BroadcastPc {
    BroadcastEnds(s, req, Account(accountId), k => false).1
  }

  function BroadcastEffect(s: Store, req: BroadcastRequest, accountId: Option<string>): Store {
    BroadcastEnds(s, req, Account(accountId), k => false).0
  }

  ghost predicate BroadcastComes(
    verify: Verifier, turns: Schedule, from: Store, req: BroadcastRequest, end: (Store, BroadcastPc)) {
    Comes(verify, turns, from, end.0, BroadcastCall(req, end.1))
  }

  lemma HandQuietly(verify: Verifier, turns: Schedule, from: Store, s: Store, req: BroadcastRequest)
    requires Quiet(turns) && req.row < |s.rows| && s.rows[req.row].status == PENDING
    requires s.rows[req.row].senderId == req.userId && !Throws(turns)(1)
    requires BroadcastComes(verify, turns, from, req, (Execute(s, ClaimRow(req.row, req.userId)), Hand))
    ensures BroadcastComes(verify, turns, from, req, BroadcastClaims(s, req, Throws(turns)))
  {
    var claimed := Execute(s, ClaimRow(req.row, req.userId));
    if !Throws(turns)(2) {
      QuietBroadcast(verify, turns, from, claimed, req, Hand,
                     Enqueue(Job(req.row, Process(req.signedTx), ByBroadcast(|s.calls|), Start)), BroadcastReplied);
    } else {
      QuietBroadcast(verify, turns, from, claimed, req, Hand, Nothing, Release);
      var release := if Throws(turns)(3) then Nothing else ReleaseRow(req.row);
      QuietBroadcast(verify, turns, from, claimed, req, Release, release, BroadcastFailed(Throws(turns)(3)));
      if !Throws(turns)(3) && s.rows[req.row].txHash == None { assert Execute(claimed, release).rows == s.rows; }
    }
  }

  /** The row is there to claim. */
  lemma PendingQuietly(verify: Verifier, turns: Schedule, from: Store, s: Store, req: BroadcastRequest)
    requires Quiet(turns) && req.row < |s.rows| && s.rows[req.row].status == PENDING
    requires BroadcastComes(verify, turns, from, req, (s, ClaimPending))
    ensures BroadcastComes(verify, turns, from, req, BroadcastClaims(s, req, Throws(turns)))
  {
    if Throws(turns)(1) {
      QuietBroadcast(verify, turns, from, s, req, ClaimPending, Nothing, BroadcastFailed(false));
    } else if s.rows[req.row].senderId == req.userId {
      QuietBroadcast(verify, turns, from, s, req, ClaimPending, ClaimRow(req.row, req.userId), Hand);
      HandQuietly(verify, turns, from, s, req);
    } else {
      QuietBroadcast(verify, turns, from, s, req, ClaimPending, Nothing, BroadcastReplied);
    }
  }

  /**
   * `broadcast` with nothing else running, whichever of its statements throw: the sender of a PENDING row moves
   * it to PROCESSING with one job, or lets go of it when the queue fails; a PROCESSING row is replayed; a
   * recipient who may read a PENDING row is told PROCESSING though nothing happens.
   */
  lemma BroadcastQuietly(verify: Verifier, s: Store, req: BroadcastRequest, turns: Schedule)
    requires Quiet(turns)
    ensures BroadcastComes(verify, turns, Begun(s, BroadcastCall(req, Get)), req,
                           BroadcastEnds(s, req, turns(0).input, Throws(turns)))
  {
    var (from, account) := (Begun(s, BroadcastCall(req, Get)), turns(0).input);
    LeadsHere(verify, |s.calls|, turns, from);
    if account.Account? && req.row < |s.rows| && Visible(s.rows[req.row], req.userId, account.accountId)
       && s.rows[req.row].status == PENDING {
      QuietBroadcast(verify, turns, from, s, req, Get, Nothing, ClaimPending);
      PendingQuietly(verify, turns, from, s, req);
    } else {
      QuietBroadcast(verify, turns, from, s, req, Get, Nothing, BroadcastEnds(s, req, account, Throws(turns)).1);
    }
  }

  lemma BroadcastFaultlessly(s: Store, req: BroadcastRequest, accountId: Option<string>, turns: Schedule)
    requires Faultless(turns) && turns(0).input == Account(accountId)
    ensures BroadcastEnds(s, req, turns(0).input, Throws(turns))
         == (BroadcastEffect(s, req, accountId), BroadcastResult(s, req, accountId))
  {
  }

  // ----- the worker

  /** The tables of `s`, with job `me` standing at `at` and having heard `heard`. */
  function AtJob(s: Store, me: nat, at: JobPc, heard: Option<Input>): Store
    requires me < |s.jobs|
  {
    s.(jobs := s.jobs[me := s.jobs[me].(at := at, heard := heard)])
  }

  ghost predicate JobComes(
    verify: Verifier, turns: Schedule, from: Store, s: Store, me: nat, at: JobPc, heard: Option<Input>)
    requires me < |s.jobs|
  {
    JobLeads(verify, me, turns, from, AtJob(s, me, at, heard))
  }

  /** A quiet turn is the job's own statement. */
  lemma QuietJob(
    verify: Verifier, turns: Schedule, from: Store, s: Store, me: nat, at: JobPc, heard: Option<Input>, q: Statement,
    next: JobPc)
    requires Quiet(turns) && me < |s.jobs| && JobPlace(at) < END && !at.Poll? && !at.SendToChain?
             && JobComes(verify, turns, from, s, me, at, heard)
    requires JobNext(AtJob(s, me, at, heard), me, AtJob(s, me, at, heard).jobs[me], turns(JobPlace(at)).input)
               == (q, next)
    ensures me < |Execute(s, q).jobs| && Execute(s, q).jobs[me] == s.jobs[me]
    ensures JobComes(verify, turns, from, Execute(s, q), me, next, heard)
  {
    var t := AtJob(s, me, at, heard);
    StatementLeavesJobs(s, q, me);
    StatementSparesJob(s, me, at, heard, q, next);
    assert TakeJobTurn(verify, t, me, turns) == RunJob(t, me, turns(JobPlace(at)).input);
    JobLeadsOn(verify, me, turns, from, t, AtJob(Execute(s, q), me, next, heard));
  }

  /** Asking the chain notes its answer. */
  lemma QuietChain(
    verify: Verifier, turns: Schedule, from: Store, s: Store, me: nat, at: JobPc, heard: Option<Input>, next: JobPc)
    requires Quiet(turns) && me < |s.jobs| && (at.Poll? || at.SendToChain?)
             && JobComes(verify, turns, from, s, me, at, heard)
    requires var t := AtJob(s, me, at, heard);
             JobNext(t, me, t.jobs[me], turns(JobPlace(at)).input) == (Nothing, next)
    ensures JobComes(verify, turns, from, s, me, next,
                     Noted(AtJob(s, me, at, heard).jobs[me], turns(JobPlace(at)).input))
  {
    var t := AtJob(s, me, at, heard);
    var answer := Noted(t.jobs[me], turns(JobPlace(at)).input);
    assert t.jobs[me := t.jobs[me].(at := next, heard := answer)] == AtJob(s, me, next, answer).jobs;
    assert TakeJobTurn(verify, t, me, turns) == RunJob(t, me, turns(JobPlace(at)).input);
    JobLeadsOn(verify, me, turns, from, t, AtJob(s, me, next, answer));
  }

  lemma StatementSparesJob(s: Store, me: nat, at: JobPc, heard: Option<Input>, q: Statement, next: JobPc)
    requires me < |s.jobs| && me < |Execute(s, q).jobs| && Execute(s, q).jobs[me] == s.jobs[me]
    ensures var u := Execute(AtJob(s, me, at, heard), q);
            me < |u.jobs|
            && u.(jobs := u.jobs[me := u.jobs[me].(at := next, heard := heard)])
                 == AtJob(Execute(s, q), me, next, heard)
  {
    var u := Execute(AtJob(s, me, at, heard), q);
    assert u.jobs[me := u.jobs[me].(at := next, heard := heard)] == AtJob(Execute(s, q), me, next, heard).jobs;
  }

  function WithRow(s: Store, r: nat, row: Row): Store
    requires r < |s.rows|
  {
    s.(rows := s.rows[r := row])
  }

  function Receipted(s: Store, r: nat): Store {
    s.(receipts := if r in s.receipts then s.receipts else s.receipts + [r])
  }

  function FailedRow(s: Store, r: nat): Store
    requires r < |s.rows|
  {
    WithRow(s, r, s.rows[r].(status := FAILED))
  }

  /** What a job asks the chain, and where in its schedule the answer comes. */
  predicate Polls(job: Job) { job.body.Check? && job.body.txHash != "" }

  predicate Sends(job: Job) { job.body.Process? && job.body.signedTx != "" }

  function ChainTurn(job: Job): nat { if Polls(job) then 1 else 2 }

  /** What a job leaves in the tables, where it ends and what it has heard. */
  datatype JobOutcome = JobOutcome(left: Store, at: JobPc, heard: Option<Input>)

  /** A check that was answered: the verdict and its receipt, or another check. */
  function Checked(s: Store, me: nat, answer: Input, throws: nat -> bool): JobOutcome
    requires me < |s.jobs| && s.jobs[me].row < |s.rows| && answer.ChainStatus?
  {
    var (job, r, heard) := (s.jobs[me], s.jobs[me].row, Some(answer));
    if throws(2) then JobOutcome(s, Crashed, heard)
    else match answer.status
      case Pending => JobOutcome(s.(jobs := s.jobs + [Job(r, job.body, ByJob(me), Start)]), Finished, heard)
      case Reverted => JobOutcome(FailedRow(s, r), Finished, heard)
      case Confirmed =>
        var completed := WithRow(s, r, s.rows[r].(status := COMPLETED));
        if throws(3)
             then JobOutcome(completed, Crashed, heard) else JobOutcome(Receipted(completed, r), Finished, heard)
  }

  /** The row is marked FAILED, unless that write throws too. */
  function GivenUp(s: Store, r: nat, lost: bool, heard: Option<Input>): JobOutcome
    requires r < |s.rows|
  {
    JobOutcome(if lost then s else FailedRow(s, r), Crashed, heard)
  }

  /** The transaction was sent, and `s` has the row PROCESSING: its hash and its check, or FAILED. */
  function Sent(s: Store, me: nat, answer: Input, throws: nat -> bool): JobOutcome
    requires me < |s.jobs| && s.jobs[me].row < |s.rows|
  {
    var (r, row) := (s.jobs[me].row, s.rows[s.jobs[me].row]);
    if !answer.ChainHash? then GivenUp(s, r, throws(5), s.jobs[me].heard)
    else if throws(3) then GivenUp(s, r, throws(5), Some(answer))
    else
      var hashed := WithRow(s, r, row.(status := PROCESSING, txHash := Some(answer.hash)));
      if throws(4) then GivenUp(hashed, r, throws(5), Some(answer))
      else JobOutcome(hashed.(jobs := s.jobs + [Job(r, Check(answer.hash), ByJob(me), Start)]), Finished, Some(answer))
  }

  /** What one job comes to, whichever of its statements throw. */
  function JobEnds(s: Store, me: nat, answer: Input, throws: nat -> bool): JobOutcome
    requires me < |s.jobs| && s.jobs[me].row < |s.rows|
  {
    var (job, r) := (s.jobs[me], s.jobs[me].row);
    if throws(0) then JobOutcome(s, Crashed, job.heard)
    else if Polls(job) then
      if answer.ChainStatus? then Checked(s, me, answer, throws) else JobOutcome(s, Crashed, job.heard)
    else if !Sends(job) then GivenUp(s, r, throws(1), job.heard)
    else if throws(1) then JobOutcome(s, Crashed, job.heard)
    else Sent(WithRow(s, r, s.rows[r].(status := PROCESSING)), me, answer, throws)
  }

  ghost predicate FaultlessBut(turns: Schedule, place: nat) {
    forall k: nat :: k != place ==> !turns(k).input.Fault?
  }

  /** Where job `me` has come to; its own record is still in place. */
  ghost predicate JobReaches(verify: Verifier, turns: Schedule, from: Store, me: nat, end: JobOutcome) {
    me < |end.left.jobs| && JobComes(verify, turns, from, end.left, me, end.at, end.heard)
  }

  lemma GivenUpQuietly(
    verify: Verifier, turns: Schedule, from: Store, s: Store, me: nat, at: JobPc, heard: Option<Input>)
    requires Quiet(turns) && me < |s.jobs| && s.jobs[me].row < |s.rows| && (at.Fail? || at.NoSignature?)
    requires JobReaches(verify, turns, from, me, JobOutcome(s, at, heard))
    ensures JobReaches(verify, turns, from, me, GivenUp(s, s.jobs[me].row, Throws(turns)(JobPlace(at)), heard))
  {
    if Throws(turns)(JobPlace(at)) {
      QuietJob(verify, turns, from, s, me, at, heard, Nothing, Crashed);
    } else {
      QuietJob(verify, turns, from, s, me, at, heard, SetStatus(s.jobs[me].row, FAILED), Crashed);
    }
  }

  lemma ConfirmedQuietly(verify: Verifier, turns: Schedule, from: Store, s: Store, me: nat)
    requires Quiet(turns) && me < |s.jobs| && s.jobs[me].row < |s.rows| && !Throws(turns)(2)
    requires turns(1).input == ChainStatus(Confirmed)
    requires JobReaches(verify, turns, from, me, JobOutcome(s, Settle(true), Some(turns(1).input)))
    ensures JobReaches(verify, turns, from, me, Checked(s, me, turns(1).input, Throws(turns)))
  {
    var (r, heard) := (s.jobs[me].row, Some(turns(1).input));
    QuietJob(verify, turns, from, s, me, Settle(true), heard, SetStatus(r, COMPLETED), WriteReceipt);
    var completed := Execute(s, SetStatus(r, COMPLETED));
    if Throws(turns)(3) {
      QuietJob(verify, turns, from, completed, me, WriteReceipt, heard, Nothing, Crashed);
    } else {
      QuietJob(verify, turns, from, completed, me, WriteReceipt, heard, UpsertReceipt(r), Finished);
    }
  }

  /** The verdict, or another check. */
  lemma AnsweredQuietly(verify: Verifier, turns: Schedule, from: Store, s: Store, me: nat, at: JobPc)
    requires Quiet(turns) && me < |s.jobs| && s.jobs[me].row < |s.rows| && turns(1).input.ChainStatus?
    requires at == if turns(1).input.status.Pending? then Requeue else Settle(turns(1).input.status.Confirmed?)
    requires JobReaches(verify, turns, from, me, JobOutcome(s, at, Some(turns(1).input)))
    ensures JobReaches(verify, turns, from, me, Checked(s, me, turns(1).input, Throws(turns)))
  {
    var (r, heard) := (s.jobs[me].row, Some(turns(1).input));
    if Throws(turns)(2) {
      QuietJob(verify, turns, from, s, me, at, heard, Nothing, Crashed);
    } else {
      match turns(1).input.status
      case Pending =>
        QuietJob(verify, turns, from, s, me, at, heard, Enqueue(Job(r, s.jobs[me].body, ByJob(me), Start)), Finished);
      case Reverted => QuietJob(verify, turns, from, s, me, at, heard, SetStatus(r, FAILED), Finished);
      case Confirmed => ConfirmedQuietly(verify, turns, from, s, me);
    }
  }

  lemma PolledQuietly(verify: Verifier, turns: Schedule, from: Store, s: Store, me: nat)
    requires Quiet(turns) && me < |s.jobs| && s.jobs[me].row < |s.rows| && Polls(s.jobs[me]) && !Throws(turns)(0)
    requires JobReaches(verify, turns, from, me, JobOutcome(s, Poll, s.jobs[me].heard))
    ensures JobReaches(verify, turns, from, me, JobEnds(s, me, turns(1).input, Throws(turns)))
  {
    var (answer, heard) := (turns(1).input, s.jobs[me].heard);
    if !answer.ChainStatus? {
      QuietChain(verify, turns, from, s, me, Poll, heard, Crashed);
    } else {
      var at := if answer.status.Pending? then Requeue else Settle(answer.status.Confirmed?);
      QuietChain(verify, turns, from, s, me, Poll, heard, at);
      AnsweredQuietly(verify, turns, from, s, me, at);
    }
  }

  /** The hash is recorded. */
  lemma HashedQuietly(verify: Verifier, turns: Schedule, from: Store, s: Store, me: nat)
    requires Quiet(turns) && me < |s.jobs| && s.jobs[me].row < |s.rows| && turns(2).input.ChainHash?
             && !Throws(turns)(3)
    requires JobReaches(verify, turns, from, me, JobOutcome(s, Record(turns(2).input.hash), Some(turns(2).input)))
    ensures JobReaches(verify, turns, from, me, Sent(s, me, turns(2).input, Throws(turns)))
  {
    var (r, h, heard) := (s.jobs[me].row, turns(2).input.hash, Some(turns(2).input));
    QuietJob(verify, turns, from, s, me, Record(h), heard, SetHash(r, h), QueueCheck(h));
    var hashed := Execute(s, SetHash(r, h));
    if Throws(turns)(4) {
      QuietJob(verify, turns, from, hashed, me, QueueCheck(h), heard, Nothing, Fail);
      GivenUpQuietly(verify, turns, from, hashed, me, Fail, heard);
    } else {
      QuietJob(verify, turns, from, hashed, me, QueueCheck(h), heard, Enqueue(Job(r, Check(h), ByJob(me), Start)),
               Finished);
    }
  }

  lemma SentQuietly(verify: Verifier, turns: Schedule, from: Store, s: Store, me: nat)
    requires Quiet(turns) && me < |s.jobs| && s.jobs[me].row < |s.rows|
    requires JobReaches(verify, turns, from, me, JobOutcome(s, SendToChain, s.jobs[me].heard))
    ensures JobReaches(verify, turns, from, me, Sent(s, me, turns(2).input, Throws(turns)))
  {
    var (answer, was) := (turns(2).input, s.jobs[me].heard);
    if !answer.ChainHash? {
      QuietChain(verify, turns, from, s, me, SendToChain, was, Fail);
      GivenUpQuietly(verify, turns, from, s, me, Fail, was);
    } else {
      QuietChain(verify, turns, from, s, me, SendToChain, was, Record(answer.hash));
      if Throws(turns)(3) {
        QuietJob(verify, turns, from, s, me, Record(answer.hash), Some(answer), Nothing, Fail);
        GivenUpQuietly(verify, turns, from, s, me, Fail, Some(answer));
      } else {
        HashedQuietly(verify, turns, from, s, me);
      }
    }
  }

  lemma MarkedQuietly(verify: Verifier, turns: Schedule, from: Store, s: Store, me: nat)
    requires Quiet(turns) && me < |s.jobs| && s.jobs[me].row < |s.rows| && Sends(s.jobs[me]) && !Throws(turns)(0)
    requires JobReaches(verify, turns, from, me, JobOutcome(s, MarkProcessing, s.jobs[me].heard))
    ensures JobReaches(verify, turns, from, me, JobEnds(s, me, turns(2).input, Throws(turns)))
  {
    var (r, heard) := (s.jobs[me].row, s.jobs[me].heard);
    if Throws(turns)(1) {
      QuietJob(verify, turns, from, s, me, MarkProcessing, heard, Nothing, Crashed);
    } else {
      QuietJob(verify, turns, from, s, me, MarkProcessing, heard, SetStatus(r, PROCESSING), SendToChain);
      SentQuietly(verify, turns, from, Execute(s, SetStatus(r, PROCESSING)), me);
    }
  }

  /**
   * A job with nothing else running, whichever of its statements throw: a check completes the row with its
   * receipt, fails it, or asks again later; a signed transaction ends PROCESSING with its hash and one check
   * queued, or FAILED when the chain, the hash or the queue fails; a job with nothing to send fails the row.
   */
  lemma JobQuietly(verify: Verifier, s: Store, me: nat, turns: Schedule)
    requires me < |s.jobs| && s.jobs[me].row < |s.rows| && s.jobs[me].at.Start? && Quiet(turns)
    ensures JobReaches(verify, turns, s, me, JobEnds(s, me, turns(ChainTurn(s.jobs[me])).input, Throws(turns)))
  {
    var heard := s.jobs[me].heard;
    assert s.jobs[me := s.jobs[me].(at := Start, heard := heard)] == s.jobs;
    JobLeadsHere(verify, me, turns, s);
    if Throws(turns)(0) {
      QuietJob(verify, turns, s, s, me, Start, heard, Nothing, Crashed);
    } else if Polls(s.jobs[me]) {
      QuietJob(verify, turns, s, s, me, Start, heard, Nothing, Poll);
      PolledQuietly(verify, turns, s, s, me);
    } else if Sends(s.jobs[me]) {
      QuietJob(verify, turns, s, s, me, Start, heard, Nothing, MarkProcessing);
      MarkedQuietly(verify, turns, s, s, me);
    } else {
      QuietJob(verify, turns, s, s, me, Start, heard, Nothing, NoSignature);
      GivenUpQuietly(verify, turns, s, s, me, NoSignature, heard);
    }
  }

  lemma JobFaultlessly(s: Store, me: nat, turns: Schedule)
    requires me < |s.jobs| && s.jobs[me].row < |s.rows| && FaultlessBut(turns, ChainTurn(s.jobs[me]))
    ensures var answer := turns(ChainTurn(s.jobs[me])).input;
            JobEnds(s, me, answer, Throws(turns)) == JobEnds(s, me, answer, k => false)
  {
  }
}
