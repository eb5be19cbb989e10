/**
 * What an undisturbed call answers and leaves, read off the fields of the tables alone: who holds the key,
 * whose intent it is and until when, and which transfer the row under the key is.
 */
module TransferAnswers {
  import opened Common
  import opened Evm
  import opened Transfers
  import opened TransferTerms
  import opened TransferInvariants
  import opened TransferOutcomes

  ghost predicate DistinctKeys(s: Store) {
    forall r, q :: 0 <= r < q < |s.rows| ==> s.rows[r].key != s.rows[q].key
  }

  ghost predicate SomeRowHas(s: Store, key: string) {
    exists r :: 0 <= r < |s.rows| && s.rows[r].key == key
  }

  /** Row `r` is the user's, under the key. */
  predicate IsUsersRow(s: Store, r: nat, key: string, userId: string) {
    r < |s.rows| && s.rows[r].key == key && s.rows[r].senderId == userId
  }

  ghost predicate UserHas(s: Store, key: string, userId: string) {
    exists r: nat :: IsUsersRow(s, r, key, userId)
  }

  /** The lookup finds the user's row whenever there is one. */
  lemma LookupFinds(s: Store, key: string, userId: string)
    requires DistinctKeys(s)
    ensures FindByKey(s.rows, key, userId).Some? <==> UserHas(s, key, userId)
    ensures forall r: nat :: IsUsersRow(s, r, key, userId) ==> FindByKey(s.rows, key, userId) == Some(r)
    ensures KeyTaken(s.rows, key) <==> SomeRowHas(s, key)
  {
    if FindByKey(s.rows, key, userId).Some? {
      assert IsUsersRow(s, FindByKey(s.rows, key, userId).value, key, userId);
    }
  }

  // ----- submit

  /** One row of the intent's terms, its intent spent now and linked to it, and one job with the signature. */
  predicate SubmitCreated(s: Store, req: SubmitRequest, t: Store)
    requires req.intent < |s.intents|
  {
    var (was, n, r) := (s.intents[req.intent], req.intent, |s.rows|);
    && t.rows == s.rows + [Row(req.userId, None, was.terms, PENDING, None, req.key, FromIntent(|s.calls|, n))]
    && t.intents == s.intents[n := Intent(was.userId, was.terms, USED, Some(s.now), was.expiresAt, Some(r))]
    && t.jobs == s.jobs + [Job(r, Process(req.signedTx), BySubmit(|s.calls|), Start, None)]
    && t.receipts == s.receipts && t.calls == s.calls && t.now == s.now
  }

  /** What `submit` answers, and what it leaves in the tables. */
  ghost predicate SubmitAnswered(verify: Verifier, s: Store, req: SubmitRequest, outcome: SubmitPc, t: Store) {
    if UserHas(s, req.key, req.userId) then
      outcome.Replayed? && !outcome.stranded && IsUsersRow(s, outcome.row, req.key, req.userId) && t == s
    else if req.intent >= |s.intents| || s.intents[req.intent].userId != req.userId then
      outcome == Refused(NotFound) && t == s
    else if s.intents[req.intent].status == USED then outcome == Refused(AlreadySubmitted) && t == s
    else if s.intents[req.intent].expiresAt <= s.now then outcome == Refused(Expired) && t == s
    else match verify(s.intents[req.intent].terms, req.signedTx)
      case Err(why) => outcome == RolledBack(Rejected(why), true) && t == s
      case Ok(_) =>
        if SomeRowHas(s, req.key) then outcome == RolledBack(KeyConflict, true) && t == s
        else outcome == Created(|s.rows|) && SubmitCreated(s, req, t)
  }

  lemma SubmitAnswers(verify: Verifier, s: Store, req: SubmitRequest)
    requires DistinctKeys(s)
    ensures SubmitAnswered(verify, s, req, SubmitResult(verify, s, req), SubmitEffect(verify, s, req))
  {
    LookupFinds(s, req.key, req.userId);
  }

  // ----- send

  /** What `send` answers once its recipient is `to`, and what it leaves. */
  ghost predicate SendAnswered(s: Store, req: SendRequest, to: string, outcome: SendPc, t: Store) {
    if UserHas(s, req.key, req.senderId) then
      t == s && exists r: nat ::
                  IsUsersRow(s, r, req.key, req.senderId) && SendRepeated(s.rows[r].terms, req, to, outcome, r)
    else if SomeRowHas(s, req.key) then outcome == SendFailed && t == s
    else
      && outcome == SendReplied(|s.rows|, ByCreate(to)) && |t.rows| == |s.rows| + 1 && t == s.(rows := t.rows)
      && t.rows[..|s.rows|] == s.rows
      && var row := t.rows[|s.rows|];
         && row.senderId == req.senderId && row.key == req.key && row.recipientAccountId == req.recipientAccountId
         && row.status == PENDING && row.txHash == None && row.origin == FromSend(|s.calls|)
         && row.terms.chain == req.network && row.terms.asset == req.asset && row.terms.recipient == to
         && SameNumber(row.terms.amount, req.amount)
  }

  /** A key already used: the row is replayed for the transfer it is, and the request refused for any other. */
  ghost predicate SendRepeated(terms: Terms, req: SendRequest, to: string, outcome: SendPc, r: nat) {
    if FiguresMatch(terms, req) && PayeeMatches(terms, req.recipientAddress) then outcome == SendReplied(r, ByFastPath)
    else if FiguresMatch(terms, req) && PayeeMatches(terms, Some(to)) then outcome == SendReplied(r, ByReuse(to))
    else outcome == SendFailed
  }

  lemma SendAnswers(s: Store, req: SendRequest, to: string)
    requires DistinctKeys(s)
    ensures SendAnswered(s, req, to, SendResult(s, req, to), SendEffect(s, req, to))
  {
    LookupFinds(s, req.key, req.senderId);
    var found := FindByKey(s.rows, req.key, req.senderId);
    if found.Some? {
      MatchesIff(s.rows[found.value].terms, req, req.recipientAddress);
      MatchesIff(s.rows[found.value].terms, req, Some(to));
      assert IsUsersRow(s, found.value, req.key, req.senderId);
    } else if !KeyTaken(s.rows, req.key) {
      ReadBackIsSameNumber(req.amount);
    }
  }

  // ----- broadcast

  /** What `broadcast` answers, and what it leaves: only the sender of a PENDING row starts anything. */
  predicate BroadcastAnswered(
    s: Store, req: BroadcastRequest, accountId: Option<string>, outcome: BroadcastPc, t: Store) {
    if req.row >= |s.rows| then outcome == BroadcastFailed(false) && t == s
    else
      var row := s.rows[req.row];
      if row.senderId != req.userId && (accountId.None? || row.recipientAccountId != accountId) then
        outcome == BroadcastFailed(false) && t == s
      else match row.status
        case PENDING =>
          && outcome == BroadcastReplied
          && t == if row.senderId != req.userId then s
                  else s.(rows := s.rows[req.row := row.(status := PROCESSING)],
                          jobs := s.jobs + [Job(req.row, Process(req.signedTx), ByBroadcast(|s.calls|), Start, None)])
        case PROCESSING => outcome == BroadcastReplied && t == s
        case _ => outcome == BroadcastFailed(false) && t == s
  }

  lemma BroadcastAnswers(s: Store, req: BroadcastRequest, accountId: Option<string>)
    ensures BroadcastAnswered(s, req, accountId, BroadcastResult(s, req, accountId), BroadcastEffect(s, req, accountId))
  {
  }
}
