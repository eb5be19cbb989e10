/**
 * The transfer protocol as a state machine: intents, ledger rows, queue and receipts, changed one
 * database statement, queue insertion or chain call at a time, by any number of interleaved
 * `submit`, `send` and `broadcast` calls and worker jobs
 * (src/services/transaction/externalTransfer.service.ts, src/services/transaction/transaction.service.ts,
 * src/jobs/transaction.worker.ts).
 */
module Transfers {
  import opened Common
  import Money
  import DecimalColumn
  import opened Evm

  /** The signed-transaction check `submit` runs; the protocol holds for any. */
  type Verifier = (Terms, string) -> Result<Verified, Rejection>

  // ----- tables

  datatype IntentStatus = READY | USED

  datatype Intent = Intent(
    userId: string, terms: Terms, status: IntentStatus, usedAt: Option<int>, expiresAt: int,
    transactionId: Option<nat>)

  datatype RowStatus = PENDING | PROCESSING | COMPLETED | FAILED

  /** Which call inserted a row; history kept for the proofs, not a column. */
  datatype RowOrigin = FromSend(call: nat) | FromIntent(call: nat, intent: nat)

  datatype Row = Row(
    senderId: string, recipientAccountId: Option<string>, terms: Terms, status: RowStatus,
    txHash: Option<string>, key: string, origin: RowOrigin)

  datatype JobBody = Process(signedTx: string) | Check(txHash: string)

  /** Who enqueued a job; history, like `RowOrigin`. */
  datatype JobOrigin = BySubmit(call: nat) | ByBroadcast(call: nat) | ByJob(job: nat)

  /** Where a job's single run stands. */
  datatype JobPc =
    | Start | NoSignature | MarkProcessing | SendToChain | Record(hash: string) | QueueCheck(hash: string) | Fail
    | Poll | Settle(confirmed: bool) | WriteReceipt | Requeue
    | Finished | Crashed

  /** `heard` is history: what the chain answered the job, a hash for its transaction or a status for its check. */
  datatype Job = Job(row: nat, body: JobBody, origin: JobOrigin, at: JobPc, heard: Option<Input> := None)

  // ----- calls in flight

  datatype SubmitRequest = SubmitRequest(userId: string, intent: nat, signedTx: string, key: string)

  datatype Refusal =
    | Internal | NotFound | AlreadySubmitted | Expired | NotSubmittable | Rejected(why: Rejection) | KeyConflict

  /** `stranded` and `written` say whether the last write before the answer threw or landed. */
  datatype SubmitPc =
    | Replay | Claim | Raced | Diagnose
    | Load | Insert(terms: Terms) | Winner | ReleaseDuplicate(row: nat)
    | Link(row: nat) | Queue(row: nat)
    | Rollback(why: Refusal) | MarkFailed(row: nat)
    | Replayed(row: nat, stranded: bool := false) | Created(row: nat)
    | Refused(why: Refusal) | RolledBack(why: Refusal, written: bool) | MarkedFailed(row: nat, written: bool)

  datatype SendRequest = SendRequest(
    senderId: string, recipientAccountId: Option<string>, recipientAddress: Option<string>,
    asset: string, amount: string, network: string, key: string)

  /** Which lookup a reply of `send` came from, or that it created the row; `to` is the resolved recipient, history. */
  datatype Via =
    | ByFastPath | ByReuse(to: string) | InsideTransaction(to: string) | ByCreate(to: string) | ByWinner(to: string)

  datatype SendPc =
    | Authorize | FastPath | Resolve | Reused(to: string) | InTransaction(to: string) | Create(to: string)
    | Lost(to: string)
    | SendReplied(row: nat, via: Via) | SendFailed

  datatype BroadcastRequest = BroadcastRequest(userId: string, row: nat, signedTx: string)

  datatype BroadcastPc =
    | Get | ClaimPending | Hand | Release | BroadcastReplied | BroadcastFailed(stranded: bool := false)

  datatype Call =
    | SubmitCall(submit: SubmitRequest, submitAt: SubmitPc)
    | SendCall(send: SendRequest, sendAt: SendPc)
    | BroadcastCall(broadcast: BroadcastRequest, broadcastAt: BroadcastPc)

  datatype Store = Store(
    intents: seq<Intent>, rows: seq<Row>, receipts: seq<nat>, jobs: seq<Job>, calls: seq<Call>, now: int)

  // ----- statements

  /** One database statement or queue insertion; `where` clauses are part of the statement. */
  datatype Statement =
    | Nothing
    | ClaimIntent(intent: nat, userId: string)
    | ReleaseIntent(intent: nat)
    | LinkIntent(intent: nat, row: nat)
    | InsertRow(newRow: Row)
    | ClaimRow(row: nat, userId: string)
    | ReleaseRow(row: nat)
    | SetStatus(row: nat, status: RowStatus)
    | SetHash(row: nat, hash: string)
    | UpsertReceipt(row: nat)
    | Enqueue(job: Job)

  /** Does any record match the statement's `where` (for an insert: is the unique key free)? */
  predicate Matches(s: Store, q: Statement) {
    match q
    case Nothing => true
    case ClaimIntent(n, u) =>
      n < |s.intents| && s.intents[n].userId == u && s.intents[n].status == READY && s.intents[n].expiresAt > s.now
    case ReleaseIntent(n) => n < |s.intents| && s.intents[n].status == USED && s.intents[n].transactionId == None
    case LinkIntent(n, r) => n < |s.intents|
    case InsertRow(row) => !KeyTaken(s.rows, row.key)
    case ClaimRow(r, u) => r < |s.rows| && s.rows[r].senderId == u && s.rows[r].status == PENDING
    case ReleaseRow(r) => r < |s.rows| && s.rows[r].status == PROCESSING && s.rows[r].txHash == None
    case SetStatus(r, st) => r < |s.rows|
    case SetHash(r, h) => r < |s.rows|
    case UpsertReceipt(r) => r !in s.receipts
    case Enqueue(j) => true
  }

  function Execute(s: Store, q: Statement): (t: Store)
    ensures t.calls == s.calls && t.now == s.now
  {
    if !Matches(s, q) then s
    else match q
      case Nothing => s
      case ClaimIntent(n, u) => s.(intents := s.intents[n := s.intents[n].(status := USED, usedAt := Some(s.now))])
      case ReleaseIntent(n) => s.(intents := s.intents[n := s.intents[n].(status := READY, usedAt := None)])
      case LinkIntent(n, r) => s.(intents := s.intents[n := s.intents[n].(transactionId := Some(r))])
      case InsertRow(row) => s.(rows := s.rows + [row])
      case ClaimRow(r, u) => s.(rows := s.rows[r := s.rows[r].(status := PROCESSING)])
      case ReleaseRow(r) => s.(rows := s.rows[r := s.rows[r].(status := PENDING)])
      case SetStatus(r, st) => s.(rows := s.rows[r := s.rows[r].(status := st)])
      case SetHash(r, h) => s.(rows := s.rows[r := s.rows[r].(txHash := Some(h), status := PROCESSING)])
      case UpsertReceipt(r) => s.(receipts := s.receipts + [r])
      case Enqueue(j) => s.(jobs := s.jobs + [j])
  }

  predicate KeyTaken(rows: seq<Row>, key: string) {
    exists r :: 0 <= r < |rows| && rows[r].key == key
  }

  function RowWithKey(rows: seq<Row>, key: string): (r: Option<nat>)
    ensures r.Some? ==> r.value < |rows| && rows[r.value].key == key
    ensures r.None? ==> !KeyTaken(rows, key)
  {
    if rows == [] then None
    else if rows[|rows| - 1].key == key then Some(|rows| - 1)
    else
      var before := rows[..|rows| - 1];
      assert forall i :: 0 <= i < |before| ==> before[i] == rows[i];
      RowWithKey(before, key)
  }

  /** `findByIdempotencyKey`: the row with the key, if the user sent it. */
  function FindByKey(rows: seq<Row>, key: string, userId: string): (r: Option<nat>)
    ensures r.Some? ==> r.value < |rows| && rows[r.value].key == key && rows[r.value].senderId == userId
  {
    match RowWithKey(rows, key)
    case Some(r) => if rows[r].senderId == userId then Some(r) else None
    case None => None
  }

  /** `matchesIntent`; an absent or empty recipient is not compared. */
  predicate MatchesIntent(stored: Terms, req: SendRequest, to: Option<string>) {
    && stored.chain == req.network
    && stored.asset == req.asset
    && Money.NormalizeAmount(stored.amount) == Money.NormalizeAmount(req.amount)
    && (to.None? || to.value == "" || ToLower(stored.recipient) == ToLower(to.value))
  }

  /** What `send` stores; the amount is what its column gives back. */
  function StoredTerms(req: SendRequest, to: string): Terms {
    Terms(req.network, req.asset, DecimalColumn.ReadBack(req.amount), to)
  }

  // ----- control flow

  datatype TxStatus = Pending | Confirmed | Reverted

  /** What a step's environment answers: success, a thrown error, or a value from outside. */
  datatype Input =
    | Fine | Fault | Resolved(address: string) | Account(accountId: Option<string>)
    | ChainHash(hash: string) | ChainStatus(status: TxStatus)

  /** `submit`: call `i` at `at` runs its next statement and moves on. */
  function SubmitNext(
    verify: Verifier, s: Store, i: nat, req: SubmitRequest, at: SubmitPc, input: Input): (Statement, SubmitPc) {
    match at
    case Replay =>
      if input.Fault? then (Nothing, Refused(Internal))
      else (match FindByKey(s.rows, req.key, req.userId)
            case Some(r) => (Nothing, Replayed(r))
            case None => (Nothing, Claim))
    case Claim =>
      var claim := ClaimIntent(req.intent, req.userId);
      if input.Fault? then (Nothing, Refused(Internal))
      else if Matches(s, claim) then (claim, Load)
      else (Nothing, Raced)
    case Raced =>
      if input.Fault? then (Nothing, Refused(Internal))
      else (match FindByKey(s.rows, req.key, req.userId)
            case Some(r) => (Nothing, Replayed(r))
            case None => (Nothing, Diagnose))
    case Diagnose =>
      if input.Fault? then (Nothing, Refused(Internal))
      else if req.intent >= |s.intents| || s.intents[req.intent].userId != req.userId then (Nothing, Refused(NotFound))
      else if s.intents[req.intent].status == USED then (Nothing, Refused(AlreadySubmitted))
      else if s.intents[req.intent].expiresAt <= s.now then (Nothing, Refused(Expired))
      else (Nothing, Refused(NotSubmittable))
    case Load =>
      if input.Fault? || req.intent >= |s.intents| then (Nothing, Rollback(Internal))
      else (match verify(s.intents[req.intent].terms, req.signedTx)
            case Err(why) => (Nothing, Rollback(Rejected(why)))
            case Ok(_) => (Nothing, Insert(s.intents[req.intent].terms)))
    case Insert(terms) =>
      var row := Row(req.userId, None, terms, PENDING, None, req.key, FromIntent(i, req.intent));
      if input.Fault? then (Nothing, Rollback(Internal))
      else if !Matches(s, InsertRow(row)) then (Nothing, Winner)
      else (InsertRow(row), Link(|s.rows|))
    case Winner =>
      if input.Fault? then (Nothing, Rollback(Internal))
      else (match FindByKey(s.rows, req.key, req.userId)
            case Some(r) => (Nothing, ReleaseDuplicate(r))
            case None => (Nothing, Rollback(KeyConflict)))
    case ReleaseDuplicate(r) =>
      (if input.Fault? then Nothing else ReleaseIntent(req.intent), Replayed(r, input.Fault?))
    case Link(r) =>
      if input.Fault? then (Nothing, MarkFailed(r)) else (LinkIntent(req.intent, r), Queue(r))
    case Queue(r) =>
      if input.Fault? then (Nothing, MarkFailed(r))
      else (Enqueue(Job(r, Process(req.signedTx), BySubmit(i), Start)), Created(r))
    case Rollback(why) =>
      (if input.Fault? then Nothing else ReleaseIntent(req.intent), RolledBack(why, !input.Fault?))
    case MarkFailed(r) =>
      (if input.Fault? then Nothing else SetStatus(r, FAILED), MarkedFailed(r, !input.Fault?))
    case _ => (Nothing, at)
  }

  /** `send`, after the PIN check; `Resolved` is the validated recipient. */
  function SendNext(s: Store, i: nat, req: SendRequest, at: SendPc, input: Input): (Statement, SendPc) {
    if input.Fault? && !at.SendReplied? then (Nothing, SendFailed)
    else match at
      case Authorize => (Nothing, FastPath)
      case FastPath =>
        (match FindByKey(s.rows, req.key, req.senderId)
         case Some(r) =>
           var same := MatchesIntent(s.rows[r].terms, req, req.recipientAddress);
           (Nothing, if same then SendReplied(r, ByFastPath) else Resolve)
         case None => (Nothing, Resolve))
      case Resolve =>
        if input.Resolved? && (req.recipientAccountId.Some? || req.recipientAddress == Some(input.address))
        then (Nothing, Reused(input.address)) else (Nothing, SendFailed)
      case Reused(to) =>
        (match FindByKey(s.rows, req.key, req.senderId)
         case Some(r) =>
           (Nothing, if MatchesIntent(s.rows[r].terms, req, Some(to)) then SendReplied(r, ByReuse(to)) else SendFailed)
         case None => (Nothing, InTransaction(to)))
      case InTransaction(to) =>
        (match FindByKey(s.rows, req.key, req.senderId)
         case Some(r) => (Nothing, SendReplied(r, InsideTransaction(to)))
         case None => (Nothing, Create(to)))
      case Create(to) =>
        var row := Row(req.senderId, req.recipientAccountId, StoredTerms(req, to), PENDING, None, req.key, FromSend(i));
        if Matches(s, InsertRow(row))
        then (InsertRow(row), SendReplied(|s.rows|, ByCreate(to))) else (Nothing, Lost(to))
      case Lost(to) =>
        (match FindByKey(s.rows, req.key, req.senderId)
         case Some(r) =>
           (Nothing, if MatchesIntent(s.rows[r].terms, req, Some(to)) then SendReplied(r, ByWinner(to)) else SendFailed)
         case None => (Nothing, SendFailed))
      case _ => (Nothing, at)
  }

  /** Who may read a row: its sender, or the owner of the account id it pays. */
  predicate Visible(row: Row, userId: string, accountId: Option<string>) {
    row.senderId == userId || (accountId.Some? && row.recipientAccountId == accountId)
  }

  /** `broadcast`; `Account` is the caller's account id, read before the row. */
  function BroadcastNext(
    s: Store, i: nat, req: BroadcastRequest, at: BroadcastPc, input: Input): (Statement, BroadcastPc) {
    match at
    case Get =>
      if !input.Account? || req.row >= |s.rows| || !Visible(s.rows[req.row], req.userId, input.accountId)
      then (Nothing, BroadcastFailed())
      else if s.rows[req.row].status == PENDING then (Nothing, ClaimPending)
      else if s.rows[req.row].status == PROCESSING then (Nothing, BroadcastReplied)
      else (Nothing, BroadcastFailed())
    case ClaimPending =>
      var claim := ClaimRow(req.row, req.userId);
      if input.Fault? then (Nothing, BroadcastFailed())
      else if Matches(s, claim) then (claim, Hand)
      else (Nothing, BroadcastReplied)
    case Hand =>
      if input.Fault? then (Nothing, Release)
      else (Enqueue(Job(req.row, Process(req.signedTx), ByBroadcast(i), Start)), BroadcastReplied)
    case Release => (if input.Fault? then Nothing else ReleaseRow(req.row), BroadcastFailed(input.Fault?))
    case _ => (Nothing, at)
  }

  /** The worker's processor, for job `j`. */
  function JobNext(s: Store, j: nat, job: Job, input: Input): (Statement, JobPc) {
    match job.at
    case Start =>
      if input.Fault? || job.row >= |s.rows| then (Nothing, Crashed)
      else if job.body.Check? && job.body.txHash != "" then (Nothing, Poll)
      else if job.body.Process? && job.body.signedTx != "" then (Nothing, MarkProcessing)
      else (Nothing, NoSignature)
    case NoSignature => (if input.Fault? then Nothing else SetStatus(job.row, FAILED), Crashed)
    case MarkProcessing => if input.Fault? then (Nothing, Crashed) else (SetStatus(job.row, PROCESSING), SendToChain)
    case SendToChain => if input.ChainHash? then (Nothing, Record(input.hash)) else (Nothing, Fail)
    case Record(h) => if input.Fault? then (Nothing, Fail) else (SetHash(job.row, h), QueueCheck(h))
    case QueueCheck(h) =>
      if input.Fault? then (Nothing, Fail) else (Enqueue(Job(job.row, Check(h), ByJob(j), Start)), Finished)
    case Fail => (if input.Fault? then Nothing else SetStatus(job.row, FAILED), Crashed)
    case Poll =>
      if !input.ChainStatus? then (Nothing, Crashed)
      else if input.status.Pending? then (Nothing, Requeue)
      else (Nothing, Settle(input.status.Confirmed?))
    case Settle(confirmed) =>
      if input.Fault? then (Nothing, Crashed)
      else (SetStatus(job.row, if confirmed then COMPLETED else FAILED), if confirmed then WriteReceipt else Finished)
    case WriteReceipt => if input.Fault? then (Nothing, Crashed) else (UpsertReceipt(job.row), Finished)
    case Requeue =>
      if input.Fault? then (Nothing, Crashed) else (Enqueue(Job(job.row, job.body, ByJob(j), Start)), Finished)
    case _ => (Nothing, job.at)
  }

  function CallNext(verify: Verifier, s: Store, i: nat, input: Input): (Statement, Call)
    requires i < |s.calls|
  {
    var c := s.calls[i];
    match c
    case SubmitCall(req, at) =>
      var (q, next) := SubmitNext(verify, s, i, req, at, input);
      (q, c.(submitAt := next))
    case SendCall(req, at) =>
      var (q, next) := SendNext(s, i, req, at, input);
      (q, c.(sendAt := next))
    case BroadcastCall(req, at) =>
      var (q, next) := BroadcastNext(s, i, req, at, input);
      (q, c.(broadcastAt := next))
  }

  // ----- the machine

  const INTENT_TTL_MS: int := 10 * 60 * 1000

  datatype Action =
    | Tick(ms: nat)
    | Prepare(userId: string, terms: Terms)
    | BeginSubmit(submit: SubmitRequest)
    | BeginSend(send: SendRequest)
    | BeginBroadcast(broadcast: BroadcastRequest)
    | CallStep(call: nat, input: Input)
    | JobStep(job: nat, input: Input)

  function RunCall(verify: Verifier, s: Store, i: nat, input: Input): Store
    requires i < |s.calls|
  {
    var (q, c) := CallNext(verify, s, i, input);
    Execute(s, q).(calls := s.calls[i := c])
  }

  /** A broadcast or a status check notes the answer. */
  function Noted(job: Job, input: Input): Option<Input> {
    if (job.at.Poll? && input.ChainStatus?) || (job.at.SendToChain? && input.ChainHash?) then Some(input) else job.heard
  }

  function RunJob(s: Store, j: nat, input: Input): Store
    requires j < |s.jobs|
  {
    var (q, at) := JobNext(s, j, s.jobs[j], input);
    var t := Execute(s, q);
    t.(jobs := t.jobs[j := t.jobs[j].(at := at, heard := Noted(s.jobs[j], input))])
  }

  /** One step. An action naming no call or job in the store does nothing. */
  function Step(verify: Verifier, s: Store, a: Action): Store {
    match a
    case Tick(ms) => s.(now := s.now + ms)
    case Prepare(u, terms) =>
      s.(intents := s.intents + [Intent(u, terms, READY, None, s.now + INTENT_TTL_MS, None)])
    case BeginSubmit(req) => s.(calls := s.calls + [SubmitCall(req, Replay)])
    case BeginSend(req) => s.(calls := s.calls + [SendCall(req, Authorize)])
    case BeginBroadcast(req) => s.(calls := s.calls + [BroadcastCall(req, Get)])
    case CallStep(i, input) => if i < |s.calls| then RunCall(verify, s, i, input) else s
    case JobStep(j, input) => if j < |s.jobs| then RunJob(s, j, input) else s
  }

  /** A run: any actions, in any order. */
  function Run(verify: Verifier, s: Store, actions: seq<Action>): Store {
    if actions == [] then s
    else Step(verify, Run(verify, s, actions[..|actions| - 1]), actions[|actions| - 1])
  }

  function EmptyStore(now: int): Store {
    Store([], [], [], [], [], now)
  }

  lemma {:induction false} RunConcat(verify: Verifier, s: Store, a: seq<Action>, b: seq<Action>)
    ensures Run(verify, s, a + b) == Run(verify, Run(verify, s, a), b)
  {
    if b == [] {
      assert a + b == a;
    } else {
      assert (a + b)[..|a + b| - 1] == a + b[..|b| - 1];
      RunConcat(verify, s, a, b[..|b| - 1]);
    }
  }
}
