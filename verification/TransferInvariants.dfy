/** What every step of the transfer protocol keeps. */
module TransferInvariants {
  import opened Common
  import opened Evm
  import opened Transfers

  // ----- who may still write

  /** The call has claimed intent `n` and has not yet inserted a row for it. */
  predicate OwnsIntent(c: Call, n: nat) {
    && c.SubmitCall? && c.submit.intent == n
    && (c.submitAt.Load? || c.submitAt.Insert? || c.submitAt.Winner? || c.submitAt.ReleaseDuplicate?
        || c.submitAt.Rollback?)
  }

  /** The call inserted row `r` (now or earlier), or is done with it. */
  predicate Inserted(c: Call, r: nat) {
    && c.SubmitCall?
    && (c.submitAt == Link(r) || c.submitAt == Queue(r) || c.submitAt == MarkFailed(r) || c.submitAt == Created(r)
        || (c.submitAt.MarkedFailed? && c.submitAt.row == r))
  }

  /** The call may still hand row `r` to the queue or close it. */
  predicate HoldsRow(c: Call, r: nat) {
    || (c.SubmitCall? && (c.submitAt == Link(r) || c.submitAt == Queue(r) || c.submitAt == MarkFailed(r)))
    || (c.BroadcastCall? && c.broadcast.row == r && (c.broadcastAt.Hand? || c.broadcastAt.Release?))
  }

  predicate Live(j: Job) { !j.at.Finished? && !j.at.Crashed? }

  // ----- intents

  ghost predicate IntentsOk(s: Store) {
    forall n :: 0 <= n < |s.intents| ==>
      && (s.intents[n].status == READY ==> s.intents[n].usedAt == None && s.intents[n].transactionId == None)
      && (s.intents[n].transactionId.Some? ==>
            && s.intents[n].transactionId.value < |s.rows|
            && s.rows[s.intents[n].transactionId.value].origin.FromIntent?
            && s.rows[s.intents[n].transactionId.value].origin.intent == n)
  }

  ghost predicate OwnerOk(verify: Verifier, s: Store, c: Call) {
    c.SubmitCall? && OwnsIntent(c, c.submit.intent) ==>
      && c.submit.intent < |s.intents|
      && s.intents[c.submit.intent].status == USED
      && s.intents[c.submit.intent].transactionId == None
      && s.intents[c.submit.intent].userId == c.submit.userId
      && (c.submitAt.Insert? ==>
            && c.submitAt.terms == s.intents[c.submit.intent].terms
            && verify(c.submitAt.terms, c.submit.signedTx).Ok?)
  }

  ghost predicate OwnersOk(verify: Verifier, s: Store) {
    && (forall i :: 0 <= i < |s.calls| ==> OwnerOk(verify, s, s.calls[i]))
    && (forall i, k ::
          0 <= i < k < |s.calls| && s.calls[i].SubmitCall? && OwnsIntent(s.calls[i], s.calls[i].submit.intent) ==>
          !OwnsIntent(s.calls[k], s.calls[i].submit.intent))
    && (forall i, r :: 0 <= i < |s.calls| && 0 <= r < |s.rows| && s.rows[r].origin.FromIntent? ==>
          !OwnsIntent(s.calls[i], s.rows[r].origin.intent))
  }

  // ----- rows and the calls that name them

  ghost predicate RowOk(verify: Verifier, s: Store, r: nat)
    requires r < |s.rows|
  {
    var row := s.rows[r];
    match row.origin
    case FromIntent(c, n) =>
      && c < |s.calls| && Inserted(s.calls[c], r)
      && s.calls[c].submit.intent == n && s.calls[c].submit.userId == row.senderId && s.calls[c].submit.key == row.key
      && n < |s.intents| && s.intents[n].status == USED && s.intents[n].userId == row.senderId
      && s.intents[n].terms == row.terms
      && verify(row.terms, s.calls[c].submit.signedTx).Ok?
    case FromSend(c) =>
      && c < |s.calls| && s.calls[c].SendCall? && s.calls[c].sendAt == SendReplied(r, ByCreate(row.terms.recipient))
      && var req := s.calls[c].send;
         && row.senderId == req.senderId && row.key == req.key && row.recipientAccountId == req.recipientAccountId
         && row.terms == StoredTerms(req, row.terms.recipient)
         && Payee(req, row.terms.recipient)
  }

  /** The recipient of a send: what an account id resolved to, or the address the caller gave. */
  predicate Payee(req: SendRequest, to: string) {
    req.recipientAccountId.Some? || req.recipientAddress == Some(to)
  }

  ghost predicate RowsOk(verify: Verifier, s: Store) {
    && (forall r :: 0 <= r < |s.rows| ==> RowOk(verify, s, r))
    && (forall r, q :: 0 <= r < q < |s.rows| ==> s.rows[r].key != s.rows[q].key)
    && (forall r, q :: 0 <= r < q < |s.rows| && s.rows[r].origin.FromIntent? && s.rows[q].origin.FromIntent? ==>
          s.rows[r].origin.intent != s.rows[q].origin.intent)
  }

  /** Row `r` answers to the user and key of the call. */
  predicate Answers(s: Store, r: nat, userId: string, key: string) {
    r < |s.rows| && s.rows[r].senderId == userId && s.rows[r].key == key
  }

  predicate Linked(s: Store, n: nat, r: nat) {
    n < |s.intents| && s.intents[n].transactionId == Some(r)
  }

  /**
   * What the lookup a reply of `send` came from has compared: the recipient on the fast path only when the
   * request names it, and nothing inside the transaction.
   */
  predicate Vouched(s: Store, i: nat, req: SendRequest, r: nat, via: Via)
    requires r < |s.rows|
  {
    match via
    case ByFastPath => MatchesIntent(s.rows[r].terms, req, req.recipientAddress)
    case ByReuse(to) => MatchesIntent(s.rows[r].terms, req, Some(to)) && Payee(req, to)
    case ByWinner(to) => MatchesIntent(s.rows[r].terms, req, Some(to)) && Payee(req, to)
    case ByCreate(to) => s.rows[r].origin == FromSend(i) && s.rows[r].terms == StoredTerms(req, to) && Payee(req, to)
    case InsideTransaction(to) => Payee(req, to)
  }

  ghost predicate CallOk(s: Store, i: nat)
    requires i < |s.calls|
  {
    match s.calls[i]
    case SubmitCall(req, at) =>
      (match at
       case Link(r) => r < |s.rows| && s.rows[r].origin == FromIntent(i, req.intent) && req.intent < |s.intents|
                       && s.intents[req.intent].transactionId == None
       case Queue(r) => r < |s.rows| && s.rows[r].origin == FromIntent(i, req.intent) && Linked(s, req.intent, r)
       case MarkFailed(r) => r < |s.rows| && s.rows[r].origin == FromIntent(i, req.intent)
       case Created(r) => r < |s.rows| && s.rows[r].origin == FromIntent(i, req.intent) && Linked(s, req.intent, r)
       case MarkedFailed(r, _) => r < |s.rows| && s.rows[r].origin == FromIntent(i, req.intent)
       case ReleaseDuplicate(r) => Answers(s, r, req.userId, req.key)
       case Replayed(r, _) => Answers(s, r, req.userId, req.key)
       case _ => true)
    case SendCall(req, at) =>
      && (at.SendReplied? ==> Answers(s, at.row, req.senderId, req.key) && Vouched(s, i, req, at.row, at.via))
      && (at.Reused? || at.InTransaction? || at.Create? || at.Lost? ==> Payee(req, at.to))
    case BroadcastCall(req, at) =>
      at.ClaimPending? || at.Hand? || at.Release? || at.BroadcastReplied? ==> req.row < |s.rows|
  }

  ghost predicate CallsOk(s: Store) {
    forall i :: 0 <= i < |s.calls| ==> CallOk(s, i)
  }

  // ----- jobs

  ghost predicate JobOk(s: Store, j: nat)
    requires j < |s.jobs|
  {
    var job := s.jobs[j];
    && job.row < |s.rows|
    && (match job.origin
        case BySubmit(c) =>
          && c < |s.calls| && s.calls[c].SubmitCall? && s.calls[c].submitAt == Created(job.row)
          && job.body == Process(s.calls[c].submit.signedTx)
        case ByBroadcast(c) =>
          && c < |s.calls| && s.calls[c].BroadcastCall? && s.calls[c].broadcastAt.BroadcastReplied?
          && s.calls[c].broadcast.row == job.row && job.body == Process(s.calls[c].broadcast.signedTx)
        case ByJob(k) => job.body.Check?)
    && (job.at.Poll? || job.at.Settle? || job.at.WriteReceipt? || job.at.Requeue? ==> job.body.Check?)
    && (job.at.MarkProcessing? || job.at.SendToChain? || job.at.Record? || job.at.QueueCheck? || job.at.Fail? ==>
          job.body.Process?)
  }

  ghost predicate JobsOk(s: Store) {
    && (forall j :: 0 <= j < |s.jobs| ==> JobOk(s, j))
    && (forall j, k :: 0 <= j < k < |s.jobs| && !s.jobs[j].origin.ByJob? ==> s.jobs[j].origin != s.jobs[k].origin)
  }

  ghost predicate Inv(verify: Verifier, s: Store) {
    IntentsOk(s) && OwnersOk(verify, s) && RowsOk(verify, s) && CallsOk(s) && JobsOk(s)
  }

  // ----- preservation: a call or a job moves on without touching a table

  /** A call may move on when it takes on no new duty and drops none that a row or job relies on. */
  ghost predicate MayBecome(verify: Verifier, s: Store, i: nat, c: Call)
    requires i < |s.calls|
  {
    var b := s.calls[i];
    && (b.SubmitCall? <==> c.SubmitCall?) && (b.SendCall? <==> c.SendCall?)
    && (c.SubmitCall? ==> c.submit == b.submit)
    && (c.SendCall? ==> c.send == b.send)
    && (c.BroadcastCall? ==> c.broadcast == b.broadcast)
    && (c.SubmitCall? && OwnsIntent(c, c.submit.intent) ==> OwnsIntent(b, c.submit.intent))
    && (forall r: nat :: Inserted(b, r) ==> Inserted(c, r))
    && (b.SubmitCall? && b.submitAt.Created? ==> c == b)
    && (b.SendCall? && b.sendAt.SendReplied? ==> c == b)
    && (b.BroadcastCall? && b.broadcastAt.BroadcastReplied? ==> c == b)
    && OwnerOk(verify, s, c)
    && CallOk(s.(calls := s.calls[i := c]), i)
  }

  lemma ControlKeepsInv(verify: Verifier, s: Store, i: nat, c: Call)
    requires Inv(verify, s) && i < |s.calls| && MayBecome(verify, s, i, c)
    ensures Inv(verify, s.(calls := s.calls[i := c]))
  {
    ControlKeepsOwners(verify, s, i, c);
    ControlKeepsRows(verify, s, i, c);
    ControlKeepsTheRest(verify, s, i, c);
  }

  lemma ControlKeepsOwners(verify: Verifier, s: Store, i: nat, c: Call)
    requires Inv(verify, s) && i < |s.calls| && MayBecome(verify, s, i, c)
    ensures OwnersOk(verify, s.(calls := s.calls[i := c]))
  {
  }

  lemma ControlKeepsRows(verify: Verifier, s: Store, i: nat, c: Call)
    requires Inv(verify, s) && i < |s.calls| && MayBecome(verify, s, i, c)
    ensures RowsOk(verify, s.(calls := s.calls[i := c]))
  {
    var t := s.(calls := s.calls[i := c]);
    forall r | 0 <= r < |t.rows| ensures RowOk(verify, t, r) { assert RowOk(verify, s, r); }
  }

  lemma ControlKeepsTheRest(verify: Verifier, s: Store, i: nat, c: Call)
    requires Inv(verify, s) && i < |s.calls| && MayBecome(verify, s, i, c)
    ensures CallsOk(s.(calls := s.calls[i := c])) && JobsOk(s.(calls := s.calls[i := c]))
  {
    var t := s.(calls := s.calls[i := c]);
    forall k | 0 <= k < |t.calls| ensures CallOk(t, k) { if k != i { assert CallOk(s, k); } }
    forall j | 0 <= j < |t.jobs| ensures JobOk(t, j) { assert JobOk(s, j); }
  }

  /** Status and hash are read by no clause of the invariant. */
  lemma StatusKeepsInv(verify: Verifier, s: Store, r: nat, status: RowStatus, hash: Option<string>)
    requires Inv(verify, s) && r < |s.rows|
    ensures Inv(verify, s.(rows := s.rows[r := s.rows[r].(status := status, txHash := hash)]))
  {
    var t := s.(rows := s.rows[r := s.rows[r].(status := status, txHash := hash)]);
    assert RowsOk(verify, t) by {
      forall q | 0 <= q < |t.rows| ensures RowOk(verify, t, q) { assert RowOk(verify, s, q); }
    }
    assert CallsOk(t) by {
      forall k | 0 <= k < |t.calls| ensures CallOk(t, k) { assert CallOk(s, k); }
    }
    assert JobsOk(t) by {
      forall j | 0 <= j < |t.jobs| ensures JobOk(t, j) { assert JobOk(s, j); }
    }
  }

  lemma ReceiptsKeepInv(verify: Verifier, s: Store, receipts: seq<nat>)
    requires Inv(verify, s)
    ensures Inv(verify, s.(receipts := receipts))
  {
    var t := s.(receipts := receipts);
    forall r | 0 <= r < |t.rows| ensures RowOk(verify, t, r) { assert RowOk(verify, s, r); }
    forall k | 0 <= k < |t.calls| ensures CallOk(t, k) { assert CallOk(s, k); }
    forall j | 0 <= j < |t.jobs| ensures JobOk(t, j) { assert JobOk(s, j); }
  }

  /** An intent nobody owns and no row came from may be released. */
  lemma ReleaseKeepsInv(verify: Verifier, s: Store, n: nat)
    requires Inv(verify, s) && Matches(s, ReleaseIntent(n))
    requires forall k :: 0 <= k < |s.calls| ==> !OwnsIntent(s.calls[k], n)
    requires forall r :: 0 <= r < |s.rows| && s.rows[r].origin.FromIntent? ==> s.rows[r].origin.intent != n
    ensures Inv(verify, Execute(s, ReleaseIntent(n)))
  {
    var t := Execute(s, ReleaseIntent(n));
    assert RowsOk(verify, t) by {
      forall r | 0 <= r < |t.rows| ensures RowOk(verify, t, r) { assert RowOk(verify, s, r); }
    }
    assert CallsOk(t) by {
      forall k | 0 <= k < |t.calls| ensures CallOk(t, k) { assert CallOk(s, k); }
    }
    assert JobsOk(t) by {
      forall j | 0 <= j < |t.jobs| ensures JobOk(t, j) { assert JobOk(s, j); }
    }
  }

  lemma EnqueueKeepsInv(verify: Verifier, s: Store, job: Job)
    requires Inv(verify, s)
    requires JobOk(s.(jobs := s.jobs + [job]), |s.jobs|)
    requires forall j :: 0 <= j < |s.jobs| && !s.jobs[j].origin.ByJob? ==> s.jobs[j].origin != job.origin
    ensures Inv(verify, s.(jobs := s.jobs + [job]))
  {
    var t := s.(jobs := s.jobs + [job]);
    assert RowsOk(verify, t) by {
      forall r | 0 <= r < |t.rows| ensures RowOk(verify, t, r) { assert RowOk(verify, s, r); }
    }
    assert CallsOk(t) by {
      forall k | 0 <= k < |t.calls| ensures CallOk(t, k) { assert CallOk(s, k); }
    }
    assert JobsOk(t) by {
      forall j | 0 <= j < |t.jobs| ensures JobOk(t, j) { if j < |s.jobs| { assert JobOk(s, j); } }
    }
  }

  lemma JobControlKeepsInv(verify: Verifier, s: Store, j: nat, at: JobPc, heard: Option<Input>)
    requires Inv(verify, s) && j < |s.jobs|
    requires at.Poll? || at.Settle? || at.WriteReceipt? || at.Requeue? ==> s.jobs[j].body.Check?
    requires at.MarkProcessing? || at.SendToChain? || at.Record? || at.QueueCheck? || at.Fail? ==>
               s.jobs[j].body.Process?
    ensures Inv(verify, s.(jobs := s.jobs[j := s.jobs[j].(at := at, heard := heard)]))
  {
    var t := s.(jobs := s.jobs[j := s.jobs[j].(at := at, heard := heard)]);
    assert RowsOk(verify, t) by {
      forall r | 0 <= r < |t.rows| ensures RowOk(verify, t, r) { assert RowOk(verify, s, r); }
    }
    assert CallsOk(t) by {
      forall k | 0 <= k < |t.calls| ensures CallOk(t, k) { assert CallOk(s, k); }
    }
    assert JobsOk(t) by {
      forall k | 0 <= k < |t.jobs| ensures JobOk(t, k) { assert JobOk(s, k); }
    }
  }

  // ----- preservation: the steps of `submit` that change a table

  lemma ClaimKeepsInv(verify: Verifier, s: Store, i: nat)
    requires Inv(verify, s) && i < |s.calls| && s.calls[i].SubmitCall? && s.calls[i].submitAt.Claim?
    requires Matches(s, ClaimIntent(s.calls[i].submit.intent, s.calls[i].submit.userId))
    ensures Inv(verify, RunCall(verify, s, i, Fine))
  {
    var req := s.calls[i].submit;
    var t := Execute(s, ClaimIntent(req.intent, req.userId));
    var u := RunCall(verify, s, i, Fine);
    assert u == t.(calls := s.calls[i := SubmitCall(req, Load)]);
    forall r | 0 <= r < |s.rows| && s.rows[r].origin.FromIntent? ensures s.rows[r].origin.intent != req.intent {
      assert RowOk(verify, s, r);
    }
    assert OwnersOk(verify, u) by {
      forall k | 0 <= k < |s.calls| ensures !OwnsIntent(s.calls[k], req.intent) {
        assert OwnerOk(verify, s, s.calls[k]);
      }
      forall k | 0 <= k < |u.calls| ensures OwnerOk(verify, u, u.calls[k]) {
        if k != i { assert OwnerOk(verify, s, s.calls[k]); }
      }
    }
    assert RowsOk(verify, u) by {
      forall r | 0 <= r < |u.rows| ensures RowOk(verify, u, r) { assert RowOk(verify, s, r); }
    }
    assert CallsOk(u) by {
      forall k | 0 <= k < |u.calls| ensures CallOk(u, k) { assert CallOk(s, k); }
    }
    assert JobsOk(u) by {
      forall j | 0 <= j < |u.jobs| ensures JobOk(u, j) { assert JobOk(s, j); }
    }
  }

  /** When call `i` inserts `row` and becomes `c`. */
  ghost predicate MayInsert(verify: Verifier, s: Store, i: nat, c: Call, row: Row) {
    var t := s.(rows := s.rows + [row], calls := if i < |s.calls| then s.calls[i := c] else s.calls);
    && i < |s.calls| && !s.calls[i].BroadcastCall? && !c.BroadcastCall? && !KeyTaken(s.rows, row.key)
    && (forall n :: !OwnsIntent(c, n))
    && (forall r: nat :: !Inserted(s.calls[i], r))
    && (s.calls[i].SendCall? ==> !s.calls[i].sendAt.SendReplied?)
    && RowOk(verify, t, |s.rows|) && CallOk(t, i)
    && (row.origin.FromIntent? ==>
          && (forall k :: 0 <= k < |t.calls| ==> !OwnsIntent(t.calls[k], row.origin.intent))
          && (forall r :: 0 <= r < |s.rows| && s.rows[r].origin.FromIntent? ==>
                s.rows[r].origin.intent != row.origin.intent))
  }

  lemma InsertKeepsOwners(verify: Verifier, s: Store, i: nat, c: Call, row: Row)
    requires Inv(verify, s) && MayInsert(verify, s, i, c, row)
    ensures OwnersOk(verify, s.(rows := s.rows + [row], calls := s.calls[i := c]))
  {
    var t := s.(rows := s.rows + [row], calls := s.calls[i := c]);
    forall k | 0 <= k < |t.calls| ensures OwnerOk(verify, t, t.calls[k]) {
      if k != i { assert OwnerOk(verify, s, s.calls[k]); }
    }
  }

  lemma InsertKeepsRows(verify: Verifier, s: Store, i: nat, c: Call, row: Row)
    requires Inv(verify, s) && MayInsert(verify, s, i, c, row)
    ensures RowsOk(verify, s.(rows := s.rows + [row], calls := s.calls[i := c]))
  {
    var t := s.(rows := s.rows + [row], calls := s.calls[i := c]);
    forall r | 0 <= r < |t.rows| ensures RowOk(verify, t, r) { if r < |s.rows| { assert RowOk(verify, s, r); } }
  }

  lemma InsertKeepsInv(verify: Verifier, s: Store, i: nat, c: Call, row: Row)
    requires Inv(verify, s) && MayInsert(verify, s, i, c, row)
    ensures Inv(verify, s.(rows := s.rows + [row], calls := s.calls[i := c]))
  {
    var t := s.(rows := s.rows + [row], calls := s.calls[i := c]);
    InsertKeepsOwners(verify, s, i, c, row);
    InsertKeepsRows(verify, s, i, c, row);
    forall k | 0 <= k < |t.calls| ensures CallOk(t, k) { if k != i { assert CallOk(s, k); } }
    forall j | 0 <= j < |t.jobs| ensures JobOk(t, j) {
      assert JobOk(s, j) && !Inserted(s.calls[i], s.jobs[j].row);
    }
  }

  lemma LinkKeepsOwners(verify: Verifier, s: Store, i: nat)
    requires Inv(verify, s) && i < |s.calls| && s.calls[i].SubmitCall? && s.calls[i].submitAt.Link?
    ensures OwnersOk(verify, RunCall(verify, s, i, Fine))
  {
    var t := RunCall(verify, s, i, Fine);
    assert CallOk(s, i);
    forall k | 0 <= k < |t.calls| ensures OwnerOk(verify, t, t.calls[k]) {
      if k != i { assert OwnerOk(verify, s, s.calls[k]); }
    }
  }

  lemma LinkKeepsInv(verify: Verifier, s: Store, i: nat)
    requires Inv(verify, s) && i < |s.calls| && s.calls[i].SubmitCall? && s.calls[i].submitAt.Link?
    ensures Inv(verify, RunCall(verify, s, i, Fine))
  {
    var req, r := s.calls[i].submit, s.calls[i].submitAt.row;
    assert CallOk(s, i) && RowOk(verify, s, r);
    var t := s.(intents := s.intents[req.intent := s.intents[req.intent].(transactionId := Some(r))],
                calls := s.calls[i := SubmitCall(req, Queue(r))]);
    assert t == RunCall(verify, s, i, Fine);
    LinkKeepsOwners(verify, s, i);
    assert RowsOk(verify, t) by {
      forall q | 0 <= q < |t.rows| ensures RowOk(verify, t, q) { assert RowOk(verify, s, q); }
    }
    assert CallsOk(t) by {
      forall k | 0 <= k < |t.calls| ensures CallOk(t, k) {
        if k != i {
          assert CallOk(s, k);
          if s.calls[k].SubmitCall? && s.calls[k].submitAt.Link? {
            var q := s.calls[k].submitAt.row;
            assert s.rows[q].origin == FromIntent(k, s.calls[k].submit.intent);
          }
        }
      }
    }
    assert JobsOk(t) by {
      forall j | 0 <= j < |t.jobs| ensures JobOk(t, j) { assert JobOk(s, j); }
    }
  }

  /** Dropping ownership and then releasing, as the rollback and the duplicate path do. */
  lemma ReleaseStepKeepsInv(verify: Verifier, s: Store, i: nat)
    requires Inv(verify, s) && i < |s.calls| && s.calls[i].SubmitCall?
    requires s.calls[i].submitAt.Rollback? || s.calls[i].submitAt.ReleaseDuplicate?
    ensures Inv(verify, RunCall(verify, s, i, Fine))
  {
    var n := s.calls[i].submit.intent;
    var (q, c) := CallNext(verify, s, i, Fine);
    assert CallOk(s, i) && OwnerOk(verify, s, s.calls[i]) && OwnsIntent(s.calls[i], n);
    var t := s.(calls := s.calls[i := c]);
    ControlKeepsInv(verify, s, i, c);
    ReleaseKeepsInv(verify, t, n);
    assert RunCall(verify, s, i, Fine) == Execute(t, q);
  }

  lemma SubmitKeepsInv(verify: Verifier, s: Store, i: nat, input: Input)
    requires Inv(verify, s) && i < |s.calls| && s.calls[i].SubmitCall?
    ensures Inv(verify, RunCall(verify, s, i, input))
  {
    var (q, c) := CallNext(verify, s, i, input);
    var at := s.calls[i].submitAt;
    var req := s.calls[i].submit;
    assert CallOk(s, i) && OwnerOk(verify, s, s.calls[i]);
    var t := s.(calls := s.calls[i := c]);
    match q
    case Nothing =>
      assert RunCall(verify, s, i, input) == t;
      NothingMayBecome(verify, s, i, input);
      ControlKeepsInv(verify, s, i, c);
    case ClaimIntent(_, _) =>
      assert RunCall(verify, s, i, input) == RunCall(verify, s, i, Fine);
      ClaimKeepsInv(verify, s, i);
    case ReleaseIntent(_) =>
      assert RunCall(verify, s, i, input) == RunCall(verify, s, i, Fine);
      ReleaseStepKeepsInv(verify, s, i);
    case LinkIntent(_, _) =>
      assert RunCall(verify, s, i, input) == RunCall(verify, s, i, Fine);
      LinkKeepsInv(verify, s, i);
    case InsertRow(row) =>
      SubmitInsertKeepsInv(verify, s, i, input);
    case Enqueue(job) => SubmitEnqueueKeepsInv(verify, s, i, input);
    case SetStatus(r, status) => SubmitMarkKeepsInv(verify, s, i, input);
  }

  lemma SubmitEnqueueKeepsInv(verify: Verifier, s: Store, i: nat, input: Input)
    requires Inv(verify, s) && i < |s.calls| && s.calls[i].SubmitCall? && CallNext(verify, s, i, input).0.Enqueue?
    ensures Inv(verify, RunCall(verify, s, i, input))
  {
    var (q, c) := CallNext(verify, s, i, input);
    assert CallOk(s, i) && OwnerOk(verify, s, s.calls[i]);
    ControlKeepsInv(verify, s, i, c);
    forall j | 0 <= j < |s.jobs| && !s.jobs[j].origin.ByJob? ensures s.jobs[j].origin != q.job.origin {
      assert JobOk(s, j);
    }
    EnqueueKeepsInv(verify, s.(calls := s.calls[i := c]), q.job);
  }

  lemma SubmitMarkKeepsInv(verify: Verifier, s: Store, i: nat, input: Input)
    requires Inv(verify, s) && i < |s.calls| && s.calls[i].SubmitCall? && CallNext(verify, s, i, input).0.SetStatus?
    ensures Inv(verify, RunCall(verify, s, i, input))
  {
    var (q, c) := CallNext(verify, s, i, input);
    var t := s.(calls := s.calls[i := c]);
    assert CallOk(s, i) && OwnerOk(verify, s, s.calls[i]);
    ControlKeepsInv(verify, s, i, c);
    StatusKeepsInv(verify, t, q.row, q.status, t.rows[q.row].txHash);
  }

  lemma NothingMayBecome(verify: Verifier, s: Store, i: nat, input: Input)
    requires Inv(verify, s) && i < |s.calls| && s.calls[i].SubmitCall?
    requires CallNext(verify, s, i, input).0 == Nothing
    ensures MayBecome(verify, s, i, CallNext(verify, s, i, input).1)
  {
    assert CallOk(s, i) && OwnerOk(verify, s, s.calls[i]);
  }

  lemma SubmitInsertKeepsInv(verify: Verifier, s: Store, i: nat, input: Input)
    requires Inv(verify, s) && i < |s.calls| && s.calls[i].SubmitCall?
    requires CallNext(verify, s, i, input).0.InsertRow?
    ensures Inv(verify, RunCall(verify, s, i, input))
  {
    var (q, c) := CallNext(verify, s, i, input);
    SubmitMayInsert(verify, s, i, s.calls[i].submitAt.terms);
    InsertKeepsInv(verify, s, i, c, q.newRow);
  }

  lemma SubmitMayInsert(verify: Verifier, s: Store, i: nat, terms: Terms)
    requires Inv(verify, s) && i < |s.calls| && s.calls[i].SubmitCall? && s.calls[i].submitAt == Insert(terms)
    requires !KeyTaken(s.rows, s.calls[i].submit.key)
    ensures var req := s.calls[i].submit;
            MayInsert(verify, s, i, SubmitCall(req, Link(|s.rows|)),
                      Row(req.userId, None, terms, PENDING, None, req.key, FromIntent(i, req.intent)))
  {
    var req := s.calls[i].submit;
    var c := SubmitCall(req, Link(|s.rows|));
    var row := Row(req.userId, None, terms, PENDING, None, req.key, FromIntent(i, req.intent));
    var t := s.(rows := s.rows + [row], calls := s.calls[i := c]);
    assert OwnerOk(verify, s, s.calls[i]) && OwnsIntent(s.calls[i], req.intent);
    assert RowOk(verify, t, |s.rows|) by { assert t.rows[|s.rows|] == row; }
    assert CallOk(t, i) by { assert t.rows[|s.rows|] == row; }
    forall k | 0 <= k < |t.calls| ensures !OwnsIntent(t.calls[k], req.intent) {
    }
  }

  lemma SendKeepsInv(verify: Verifier, s: Store, i: nat, input: Input)
    requires Inv(verify, s) && i < |s.calls| && s.calls[i].SendCall?
    ensures Inv(verify, RunCall(verify, s, i, input))
  {
    var (q, c) := CallNext(verify, s, i, input);
    assert CallOk(s, i);
    match q
    case Nothing =>
      SendMayBecome(verify, s, i, input);
      ControlKeepsInv(verify, s, i, c);
    case InsertRow(row) =>
      SendMayInsert(verify, s, i, input);
      InsertKeepsInv(verify, s, i, c, row);
  }

  lemma SendMayBecome(verify: Verifier, s: Store, i: nat, input: Input)
    requires Inv(verify, s) && i < |s.calls| && s.calls[i].SendCall? && CallNext(verify, s, i, input).0 == Nothing
    ensures MayBecome(verify, s, i, CallNext(verify, s, i, input).1)
  {
    assert CallOk(s, i);
  }

  lemma SendMayInsert(verify: Verifier, s: Store, i: nat, input: Input)
    requires Inv(verify, s) && i < |s.calls| && s.calls[i].SendCall? && CallNext(verify, s, i, input).0.InsertRow?
    ensures MayInsert(verify, s, i, CallNext(verify, s, i, input).1, CallNext(verify, s, i, input).0.newRow)
    ensures var (insert, next) := CallNext(verify, s, i, input);
            RunCall(verify, s, i, input) == s.(rows := s.rows + [insert.newRow], calls := s.calls[i := next])
  {
    assert CallOk(s, i);
  }

  lemma BroadcastKeepsInv(verify: Verifier, s: Store, i: nat, input: Input)
    requires Inv(verify, s) && i < |s.calls| && s.calls[i].BroadcastCall?
    ensures Inv(verify, RunCall(verify, s, i, input))
  {
    var (q, c) := CallNext(verify, s, i, input);
    var t := s.(calls := s.calls[i := c]);
    BroadcastMayBecome(verify, s, i, input);
    ControlKeepsInv(verify, s, i, c);
    match q
    case Nothing =>
    case ClaimRow(r, _) => BroadcastStatusKeepsInv(verify, t, q);
    case ReleaseRow(r) => BroadcastStatusKeepsInv(verify, t, q);
    case Enqueue(job) =>
      forall j | 0 <= j < |s.jobs| && !s.jobs[j].origin.ByJob? ensures s.jobs[j].origin != job.origin {
        assert JobOk(s, j);
      }
      EnqueueKeepsInv(verify, t, job);
  }

  lemma BroadcastMayBecome(verify: Verifier, s: Store, i: nat, input: Input)
    requires Inv(verify, s) && i < |s.calls| && s.calls[i].BroadcastCall?
    ensures MayBecome(verify, s, i, CallNext(verify, s, i, input).1)
  {
    assert CallOk(s, i);
  }

  lemma BroadcastStatusKeepsInv(verify: Verifier, t: Store, q: Statement)
    requires Inv(verify, t) && (q.ClaimRow? || q.ReleaseRow?)
    ensures Inv(verify, Execute(t, q))
  {
    if Matches(t, q) {
      StatusKeepsInv(verify, t, q.row, if q.ClaimRow? then PROCESSING else PENDING, t.rows[q.row].txHash);
    }
  }

  lemma JobMoves(s: Store, j: nat, input: Input)
    requires j < |s.jobs| && JobOk(s, j)
    ensures var (q, at) := JobNext(s, j, s.jobs[j], input);
            && (at.Poll? || at.Settle? || at.WriteReceipt? || at.Requeue? ==> s.jobs[j].body.Check?)
            && (at.MarkProcessing? || at.SendToChain? || at.Record? || at.QueueCheck? || at.Fail? ==>
                  s.jobs[j].body.Process?)
            && (q.Nothing? || q.SetStatus? || q.SetHash? || q.UpsertReceipt? || q.Enqueue?)
            && (q.SetStatus? ==> q.row == s.jobs[j].row) && (q.SetHash? ==> q.row == s.jobs[j].row)
            && (q.Enqueue? ==>
                  q.job.row == s.jobs[j].row && q.job.origin == ByJob(j) && q.job.at.Start? && q.job.body.Check?)
  {
  }

  lemma JobKeepsInv(verify: Verifier, s: Store, j: nat, input: Input)
    requires Inv(verify, s) && j < |s.jobs|
    ensures Inv(verify, RunJob(s, j, input))
  {
    var (q, at) := JobNext(s, j, s.jobs[j], input);
    assert JobOk(s, j);
    JobMoves(s, j, input);
    var heard := Noted(s.jobs[j], input);
    JobControlKeepsInv(verify, s, j, at, heard);
    JobStatementKeepsInv(verify, s.(jobs := s.jobs[j := s.jobs[j].(at := at, heard := heard)]), j, q);
    assert RunJob(s, j, input) == Execute(s.(jobs := s.jobs[j := s.jobs[j].(at := at, heard := heard)]), q);
  }

  lemma JobStatementKeepsInv(verify: Verifier, t: Store, j: nat, q: Statement)
    requires Inv(verify, t) && j < |t.jobs|
    requires q.Nothing? || q.SetStatus? || q.SetHash? || q.UpsertReceipt? || q.Enqueue?
    requires q.Enqueue? ==>
               q.job.row == t.jobs[j].row && q.job.origin == ByJob(j) && q.job.at.Start? && q.job.body.Check?
    ensures Inv(verify, Execute(t, q))
  {
    if Matches(t, q) {
      match q
      case Nothing =>
      case SetStatus(r, status) => StatusKeepsInv(verify, t, r, status, t.rows[r].txHash);
      case SetHash(r, h) => StatusKeepsInv(verify, t, r, PROCESSING, Some(h));
      case UpsertReceipt(r) => ReceiptsKeepInv(verify, t, t.receipts + [r]);
      case Enqueue(job) =>
        assert JobOk(t, j);
        EnqueueKeepsInv(verify, t, job);
    }
  }

  lemma BeginCallKeepsInv(verify: Verifier, s: Store, c: Call)
    requires Inv(verify, s)
    requires c.SubmitCall? ==> c.submitAt.Replay?
    requires c.SendCall? ==> c.sendAt.Authorize?
    requires c.BroadcastCall? ==> c.broadcastAt.Get?
    ensures Inv(verify, s.(calls := s.calls + [c]))
  {
    var t := s.(calls := s.calls + [c]);
    assert RowsOk(verify, t) by {
      forall r | 0 <= r < |t.rows| ensures RowOk(verify, t, r) { assert RowOk(verify, s, r); }
    }
    assert CallsOk(t) by {
      forall k | 0 <= k < |t.calls| ensures CallOk(t, k) { if k < |s.calls| { assert CallOk(s, k); } }
    }
    assert JobsOk(t) by {
      forall j | 0 <= j < |t.jobs| ensures JobOk(t, j) { assert JobOk(s, j); }
    }
  }

  lemma PrepareKeepsInv(verify: Verifier, s: Store, intents: seq<Intent>, now: int)
    requires Inv(verify, s) && |s.intents| <= |intents| && intents[..|s.intents|] == s.intents
    requires forall n :: |s.intents| <= n < |intents| ==>
               intents[n].status == READY && intents[n].usedAt == None && intents[n].transactionId == None
    ensures Inv(verify, s.(intents := intents, now := now))
  {
    var t := s.(intents := intents, now := now);
    assert forall n :: 0 <= n < |s.intents| ==> intents[n] == intents[..|s.intents|][n];
    assert OwnersOk(verify, t) by {
      forall k | 0 <= k < |t.calls| ensures OwnerOk(verify, t, t.calls[k]) { assert OwnerOk(verify, s, s.calls[k]); }
    }
    assert RowsOk(verify, t) by {
      forall r | 0 <= r < |t.rows| ensures RowOk(verify, t, r) { assert RowOk(verify, s, r); }
    }
    assert CallsOk(t) by {
      forall k | 0 <= k < |t.calls| ensures CallOk(t, k) { assert CallOk(s, k); }
    }
    assert JobsOk(t) by {
      forall j | 0 <= j < |t.jobs| ensures JobOk(t, j) { assert JobOk(s, j); }
    }
  }

  lemma BeginKeepsInv(verify: Verifier, s: Store, a: Action)
    requires Inv(verify, s) && !a.CallStep? && !a.JobStep?
    ensures Inv(verify, Step(verify, s, a))
  {
    match a
    case Tick(ms) =>
      assert s.intents[..|s.intents|] == s.intents;
      PrepareKeepsInv(verify, s, s.intents, s.now + ms);
    case Prepare(u, terms) =>
      PrepareKeepsInv(verify, s, s.intents + [Intent(u, terms, READY, None, s.now + INTENT_TTL_MS, None)], s.now);
    case BeginSubmit(req) => BeginCallKeepsInv(verify, s, SubmitCall(req, Replay));
    case BeginSend(req) => BeginCallKeepsInv(verify, s, SendCall(req, Authorize));
    case BeginBroadcast(req) => BeginCallKeepsInv(verify, s, BroadcastCall(req, Get));
  }

  lemma StepKeepsInv(verify: Verifier, s: Store, a: Action)
    requires Inv(verify, s)
    ensures Inv(verify, Step(verify, s, a))
  {
    match a
    case CallStep(i, input) =>
      if i < |s.calls| {
        match s.calls[i]
        case SubmitCall(_, _) => SubmitKeepsInv(verify, s, i, input);
        case SendCall(_, _) => SendKeepsInv(verify, s, i, input);
        case BroadcastCall(_, _) => BroadcastKeepsInv(verify, s, i, input);
      }
    case JobStep(j, input) => if j < |s.jobs| { JobKeepsInv(verify, s, j, input); }
    case _ => BeginKeepsInv(verify, s, a);
  }

  /** Every reachable store keeps the invariant, whatever interleaving reached it. */
  lemma {:induction false} RunKeepsInv(verify: Verifier, s: Store, actions: seq<Action>)
    requires Inv(verify, s)
    ensures Inv(verify, Run(verify, s, actions))
  {
    if actions != [] {
      RunKeepsInv(verify, s, actions[..|actions| - 1]);
      StepKeepsInv(verify, Run(verify, s, actions[..|actions| - 1]), actions[|actions| - 1]);
    }
  }
}
