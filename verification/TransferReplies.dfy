/**
 * What a reply of `send` tells about the transfer that was asked for: the key alone finds the row, and not
 * every lookup compares the rest (src/services/transaction/transaction.service.ts:119-200).
 */
module TransferReplies {
  import opened Common
  import Money
  import DecimalColumn
  import opened Evm
  import opened Transfers
  import opened TransferTerms
  import opened TransferAnswers
  import opened TransferInvariants
  import opened TransferTheorems
  import opened TransferSchedules
  import opened TransferOutcomes
  import opened TransferRuns

  // ----- every run

  /** The recipient of a send, once the call has got it. */
  function ResolvedTo(at: SendPc): Option<string> {
    match at
    case Reused(to) => Some(to)
    case InTransaction(to) => Some(to)
    case Create(to) => Some(to)
    case Lost(to) => Some(to)
    case SendReplied(_, via) => if via.ByFastPath? then None else Some(via.to)
    case _ => None
  }

  /** The terms a call asks for, as typed: of a send once it has a recipient, of a submit its intent's. */
  function Asks(s: Store, c: Call): Option<Terms> {
    match c
    case SubmitCall(req, _) => if req.intent < |s.intents| then Some(s.intents[req.intent].terms) else None
    case SendCall(req, at) =>
      (match ResolvedTo(at)
       case Some(to) => Some(Terms(req.network, req.asset, req.amount, to))
       case None => None)
    case BroadcastCall(_, _) => None
  }

  /** Call `c` is of the user and under the key of `req`. */
  predicate Rivals(req: SendRequest, c: Call) {
    KeyOf(c) == Some(req.key) && UserOf(c) == req.senderId
  }

  /** Call `i` was answered with the row that call `c` made. */
  predicate ToldOf(s: Store, i: nat, c: nat) {
    && i < |s.calls| && s.calls[i].SendCall? && s.calls[i].sendAt.SendReplied? && s.calls[i].sendAt.row < |s.rows|
    && s.rows[s.calls[i].sendAt.row].origin.call == c < |s.calls|
  }

  /** The row says what its maker asked for; a send's amount as its column gives it back. */
  predicate Keeps(row: Row, asked: Terms) {
    && row.terms.chain == asked.chain && row.terms.asset == asked.asset && row.terms.recipient == asked.recipient
    && row.terms.amount == if row.origin.FromSend? then DecimalColumn.ReadBack(asked.amount) else asked.amount
  }

  /** A row has the terms its maker asked for, and the user and key of everyone told of it. */
  lemma MakerAsked(verify: Verifier, s: Store, i: nat)
    requires Inv(verify, s) && i < |s.calls| && s.calls[i].SendCall? && s.calls[i].sendAt.SendReplied?
    ensures var (req, at) := (s.calls[i].send, s.calls[i].sendAt);
            && at.row < |s.rows|
            && var c := s.rows[at.row].origin.call;
               && ToldOf(s, i, c) && Rivals(req, s.calls[c])
               && Asks(s, s.calls[c]).Some? && Keeps(s.rows[at.row], Asks(s, s.calls[c]).value)
               && (c == i <==> at.via.ByCreate?)
  {
    var (req, at) := (s.calls[i].send, s.calls[i].sendAt);
    assert CallOk(s, i);
    assert RowOk(verify, s, at.row);
    match s.rows[at.row].origin
    case FromIntent(c, n) => assert s.calls[c].SubmitCall? && s.calls[c].submit.intent == n;
    case FromSend(c) =>
      assert s.calls[c].SendCall? && ResolvedTo(s.calls[c].sendAt) == Some(s.rows[at.row].terms.recipient);
  }

  /**
   * In every run a reply names the row of one call of the same user under the same key: its own, or one that
   * asked for the transfer `req` describes at its recipient, but for two lookups. The fast path leaves the
   * recipient out when the request names an account id, and the look inside the transaction leaves out all.
   */
  lemma SendRepliesMatch(verify: Verifier, now: int, actions: seq<Action>, i: nat, to: string)
    requires var s := Run(verify, EmptyStore(now), actions);
             && i < |s.calls| && s.calls[i].SendCall? && s.calls[i].sendAt.SendReplied?
             && Payee(s.calls[i].send, to)
             && (ResolvedTo(s.calls[i].sendAt).Some? ==> ResolvedTo(s.calls[i].sendAt).value == to)
    ensures ReplyOf(Run(verify, EmptyStore(now), actions), i, to)
  {
    RunIsFine(verify, now, actions);
    ReplyMatches(verify, Run(verify, EmptyStore(now), actions), i, to);
  }

  /** Call `i`, paid to `to`, was answered with the row of a call that asked for as much as the lookup compares. */
  ghost predicate ReplyOf(s: Store, i: nat, to: string)
    requires i < |s.calls| && s.calls[i].SendCall? && s.calls[i].sendAt.SendReplied?
  {
    exists c: nat :: ToldOf(s, i, c) && ReplyFrom(s, i, c, to)
  }

  ghost predicate ReplyFrom(s: Store, i: nat, c: nat, to: string)
    requires ToldOf(s, i, c)
  {
    var (req, at) := (s.calls[i].send, s.calls[i].sendAt);
    && Rivals(req, s.calls[c]) && Asks(s, s.calls[c]).Some?
    && var asked := Asks(s, s.calls[c]).value;
       && Keeps(s.rows[at.row], asked)
       && match at.via
          case ByCreate(_) => c == i
          case ByReuse(_) => SameTransfer(asked, req, to)
          case ByWinner(_) => SameTransfer(asked, req, to)
          case ByFastPath =>
            if req.recipientAddress == Some(to) then SameTransfer(asked, req, to)
            else req.recipientAccountId.Some? && SameFigures(asked, req)
          case InsideTransaction(_) => c != i
  }

  lemma ReplyMatches(verify: Verifier, s: Store, i: nat, to: string)
    requires Inv(verify, s) && i < |s.calls| && s.calls[i].SendCall? && s.calls[i].sendAt.SendReplied?
    requires Payee(s.calls[i].send, to)
    requires ResolvedTo(s.calls[i].sendAt).Some? ==> ResolvedTo(s.calls[i].sendAt).value == to
    ensures ReplyOf(s, i, to)
  {
    var (req, at) := (s.calls[i].send, s.calls[i].sendAt);
    MakerAsked(verify, s, i);
    assert CallOk(s, i);
    var c := s.rows[at.row].origin.call;
    var asked := Asks(s, s.calls[c]).value;
    match at.via {
      case ByReuse(_) => MatchIsSame(s.rows[at.row], asked, req, Some(to));
      case ByWinner(_) => MatchIsSame(s.rows[at.row], asked, req, Some(to));
      case ByFastPath => MatchIsSame(s.rows[at.row], asked, req, req.recipientAddress);
      case _ =>
    }
    assert ReplyFrom(s, i, c, to);
  }

  /** A row that passes for what `req` describes was asked for as the same transfer. */
  lemma MatchIsSame(row: Row, asked: Terms, req: SendRequest, to: Option<string>)
    requires Keeps(row, asked) && MatchesIntent(row.terms, req, to)
    ensures SameFigures(asked, req) && (to.Some? ==> SameTransfer(asked, req, to.value))
  {
    MatchesIff(row.terms, req, to);
    if row.origin.FromSend? { StoredIsSameNumber(asked.amount, req.amount); }
  }

  /** All other calls of the user under the key ask for the transfer `req` describes, paid to `to`. */
  ghost predicate RivalsAgree(s: Store, i: nat, req: SendRequest, to: string) {
    forall c :: 0 <= c < |s.calls| && c != i && Rivals(req, s.calls[c]) && Asks(s, s.calls[c]).Some? ==>
      SameTransfer(Asks(s, s.calls[c]).value, req, to)
  }

  /** Row `r` is the one call `i` made, or was asked for as what `req` describes, paid to `to`. */
  ghost predicate Describes(s: Store, i: nat, req: SendRequest, r: nat, to: string) {
    && r < |s.rows|
    && (s.rows[r].origin == FromSend(i)
        || exists asked: Terms :: Keeps(s.rows[r], asked) && SameTransfer(asked, req, to))
  }

  /** What makes every reply describe its request, whatever runs: that all calls of the user under the key agree. */
  lemma RepliesMatchWhenRivalsAgree(verify: Verifier, now: int, actions: seq<Action>, i: nat, to: string)
    requires var s := Run(verify, EmptyStore(now), actions);
             && i < |s.calls| && s.calls[i].SendCall? && s.calls[i].sendAt.SendReplied?
             && RivalsAgree(s, i, s.calls[i].send, to)
    ensures var s := Run(verify, EmptyStore(now), actions);
            Describes(s, i, s.calls[i].send, s.calls[i].sendAt.row, to)
  {
    RunIsFine(verify, now, actions);
    AgreedReply(verify, Run(verify, EmptyStore(now), actions), i, to);
  }

  lemma AgreedReply(verify: Verifier, s: Store, i: nat, to: string)
    requires Inv(verify, s) && i < |s.calls| && s.calls[i].SendCall? && s.calls[i].sendAt.SendReplied?
    requires RivalsAgree(s, i, s.calls[i].send, to)
    ensures Describes(s, i, s.calls[i].send, s.calls[i].sendAt.row, to)
  {
    MakerAsked(verify, s, i);
    assert CallOk(s, i);
  }

  // ----- nothing else running: the recipient left out

  /** What the request schema lets through: an account id or an address, not both. */
  predicate OnePayee(req: SendRequest) {
    (req.recipientAccountId.Some? <==> req.recipientAddress.None?) && req.recipientAddress != Some("")
  }

  /** The row pays another recipient than `to`. */
  predicate PaysAnother(terms: Terms, to: string) { to != "" && !SameLetters(terms.recipient, to) }

  /**
   * Of an undisturbed reply from a row already there: it describes another transfer exactly when the row
   * matches in what the fast path compares and pays someone else. By schema these are the requests by account
   * id that agree with the row in chain, asset and amount; a request by address is never answered so.
   */
  lemma QuietReplayPaysAnotherIff(s: Store, req: SendRequest, to: string, r: nat)
    requires Payee(req, to) && DistinctKeys(s) && IsUsersRow(s, r, req.key, req.senderId)
    ensures var terms := s.rows[r].terms;
            var misled := SendResult(s, req, to).SendReplied?
                          && !(FiguresMatch(terms, req) && PayeeMatches(terms, Some(to)));
            && (misled <==>
                  FiguresMatch(terms, req) && PayeeMatches(terms, req.recipientAddress) && PaysAnother(terms, to))
            && (OnePayee(req) ==>
                  (misled <==> req.recipientAccountId.Some? && FiguresMatch(terms, req) && PaysAnother(terms, to)))
  {
    LookupFinds(s, req.key, req.senderId);
    MatchesIff(s.rows[r].terms, req, req.recipientAddress);
    MatchesIff(s.rows[r].terms, req, Some(to));
  }

  /**
   * So a key reused for another account id is answered, with nothing else running, with the row that pays the
   * first: here the row of `first`, for the same amount sent to `payee` instead.
   */
  lemma AnotherPayeeIsToldOfTheFirst(
    verify: Verifier, now: int, first: SendRequest, payee: string, paid: string, to: string)
    returns (actions: seq<Action>)
    requires first.recipientAccountId.Some? && first.recipientAccountId != Some(payee) && first.recipientAddress == None
    requires Money.IsPlainDecimal(first.amount) && Money.RedundantZeros(first.amount) == 0
             && !DecimalColumn.IsTiny(first.amount)
    requires to != "" && !SameLetters(paid, to)
    ensures var second := first.(recipientAccountId := Some(payee));
            var s := Run(verify, EmptyStore(now), actions);
            && s.calls
                 == [SendCall(first, SendReplied(0, ByCreate(paid))), SendCall(second, SendReplied(0, ByFastPath))]
            && |s.rows| == 1 && s.rows[0].recipientAccountId != second.recipientAccountId
            && PaysAnother(s.rows[0].terms, to)
  {
    var (e, second) := (EmptyStore(now), first.(recipientAccountId := Some(payee)));
    var row := Row(first.senderId, first.recipientAccountId, StoredTerms(first, paid), PENDING, None, first.key,
                   FromSend(0));
    var s := OneSend(now, row, [SendCall(first, SendReplied(0, ByCreate(paid)))]);
    var one := SendRuns(verify, e, first, paid);
    assert SendResult(e, first, paid) == SendReplied(0, ByCreate(paid));
    var two := SendRuns(verify, s, second, to);
    FastPathTakes(s, second, to);
    Then(verify, e, one, s, two, Begun(s, SendCall(second, SendReplied(0, ByFastPath))));
    actions := one + two;
  }

  function OneSend(now: int, row: Row, calls: seq<Call>): Store {
    Store([], [row], [], [], calls, now)
  }

  /** A row under the key for the same amount is all a request by account id needs. */
  lemma FastPathTakes(s: Store, req: SendRequest, to: string)
    requires |s.rows| == 1 && s.rows[0].key == req.key && s.rows[0].senderId == req.senderId
             && req.recipientAddress == None
    requires s.rows[0].terms == StoredTerms(req, s.rows[0].terms.recipient)
    requires Money.IsPlainDecimal(req.amount) && Money.RedundantZeros(req.amount) == 0
             && !DecimalColumn.IsTiny(req.amount)
    ensures SendResult(s, req, to) == SendReplied(0, ByFastPath) && SendEffect(s, req, to) == s
  {
    DecimalColumn.RetryRecognisedIff(req.amount);
    assert FindByKey(s.rows, req.key, req.senderId) == Some(0);
  }

  // ----- the look inside the transaction: nothing compared

  /** A waiting send is told whatever row has the key by then. */
  lemma WaiterIsTold(verify: Verifier, s: Store, slow: SendRequest, to: string) returns (actions: seq<Action>)
    requires |s.calls| > 0 && s.calls[0] == SendCall(slow, InTransaction(to)) && |s.rows| == 1
    requires s.rows[0].key == slow.key && s.rows[0].senderId == slow.senderId
    ensures Run(verify, s, actions) == s.(calls := s.calls[0 := SendCall(slow, SendReplied(0, InsideTransaction(to)))])
  {
    actions := [CallStep(0, Fine)];
    assert actions[..0] == [];
    assert FindByKey(s.rows, slow.key, slow.senderId) == Some(0);
    assert Run(verify, s, actions) == Step(verify, s, CallStep(0, Fine));
  }

  /** The slow request waits at the transaction while the fast one makes its row, and is told of it. */
  lemma SlowIsToldOfFast(verify: Verifier, now: int, slow: SendRequest, to: string, fast: SendRequest, paid: string)
    returns (actions: seq<Action>)
    requires slow.key == fast.key && slow.senderId == fast.senderId && Payee(slow, to) && Payee(fast, paid)
    ensures var s := Run(verify, EmptyStore(now), actions);
            && s.calls
                 == [SendCall(slow, SendReplied(0, InsideTransaction(to))),
                     SendCall(fast, SendReplied(0, ByCreate(paid)))]
            && |s.rows| == 1 && s.rows[0].terms == StoredTerms(fast, paid) && s.rows[0].origin == FromSend(1)
  {
    var e := EmptyStore(now);
    var waiting := ReachTransaction(verify, e, slow, to);
    var s := Run(verify, e, waiting);
    var making := SendRuns(verify, s, fast, paid);
    var t := Run(verify, s, making);
    assert t.rows
             == [Row(fast.senderId, fast.recipientAccountId, StoredTerms(fast, paid), PENDING, None, fast.key,
                     FromSend(1))];
    var telling := WaiterIsTold(verify, t, slow, to);
    Then(verify, e, waiting, s, making, t);
    Then(verify, e, waiting + making, t, telling, Run(verify, t, telling));
    actions := waiting + making + telling;
  }

  /** `slow` was answered with the row of `fast`, which describes another transfer. */
  ghost predicate Confused(s: Store, slow: SendRequest, to: string, fast: SendRequest, paid: string, i: nat, c: nat) {
    && ToldOf(s, i, c) && i != c
    && s.calls[i].send == slow && (ResolvedTo(s.calls[i].sendAt) == Some(to))
    && s.calls[c] == SendCall(fast, SendReplied(s.calls[i].sendAt.row, ByCreate(paid)))
    && !PassesFor(s.rows[s.calls[i].sendAt.row].terms, slow, to)
  }

  /** Chain, asset and amount are those of `req`, and the recipient is `to`. */
  ghost predicate PassesFor(terms: Terms, req: SendRequest, to: string) {
    FiguresMatch(terms, req) && PayeeMatches(terms, Some(to))
  }

  ghost predicate MayConfuse(
    verify: Verifier, now: int, slow: SendRequest, to: string, fast: SendRequest, paid: string) {
    exists actions, i: nat, c: nat :: Confused(Run(verify, EmptyStore(now), actions), slow, to, fast, paid, i, c)
  }

  /**
   * Of two requests of one user under one key, resolved to `to` and `paid`, one can be answered with the
   * other's row though that is another transfer exactly when what the other stores does not match it, be it
   * by chain, asset, amount or recipient: no check stands in the way.
   */
  lemma InsideReplayConfusesIff(
    verify: Verifier, now: int, slow: SendRequest, to: string, fast: SendRequest, paid: string)
    requires slow.key == fast.key && slow.senderId == fast.senderId && Payee(slow, to) && Payee(fast, paid)
    ensures MayConfuse(verify, now, slow, to, fast, paid) <==>
              !PassesFor(Terms(fast.network, fast.asset, DecimalColumn.ReadBack(fast.amount), paid), slow, to)
  {
    if !PassesFor(StoredTerms(fast, paid), slow, to) {
      var actions := SlowIsToldOfFast(verify, now, slow, to, fast, paid);
      assert Confused(Run(verify, EmptyStore(now), actions), slow, to, fast, paid, 0, 1);
    }
    if actions, i: nat, c: nat :| Confused(Run(verify, EmptyStore(now), actions), slow, to, fast, paid, i, c) {
      var s := Run(verify, EmptyStore(now), actions);
      RunIsFine(verify, now, actions);
      assert CallOk(s, c);
    }
  }

  /** The same with a submitted intent in place of the fast request: the send is told of the intent's row. */
  lemma InsideReplayNamesAnIntent(
    verify: Verifier, now: int, slow: SendRequest, to: string, terms: Terms, signedTx: string)
    returns (actions: seq<Action>)
    requires Payee(slow, to) && verify(terms, signedTx).Ok?
    ensures var s := Run(verify, EmptyStore(now), actions);
            && |s.calls| == 2 && s.calls[0] == SendCall(slow, SendReplied(0, InsideTransaction(to)))
            && s.calls[1] == SubmitCall(SubmitRequest(slow.senderId, 0, signedTx, slow.key), Created(0))
            && |s.rows| == 1 && s.rows[0].terms == terms && s.rows[0].origin == FromIntent(1, 0)
  {
    var submit := SubmitRequest(slow.senderId, 0, signedTx, slow.key);
    var p := OnePrepared(now, slow.senderId, terms);
    PrepareRuns(verify, now, slow.senderId, terms);
    var waiting := ReachTransaction(verify, p, slow, to);
    var s := Begun(p, SendCall(slow, InTransaction(to)));
    var making := SubmitRuns(verify, s, submit);
    IntentMade(verify, now, s, submit);
    var t := Begun(SubmitEffect(verify, s, submit), SubmitCall(submit, Created(0)));
    var telling := WaiterIsTold(verify, t, slow, to);
    Then(verify, p, waiting, s, making, t);
    Then(verify, p, waiting + making, t, telling, Run(verify, t, telling));
    var rest := waiting + making + telling;
    Then(verify, EmptyStore(now), [Prepare(slow.senderId, terms)], p, rest, Run(verify, t, telling));
    actions := [Prepare(slow.senderId, terms)] + rest;
  }

  /** The one prepared intent, submitted with no row yet under any key. */
  lemma IntentMade(verify: Verifier, now: int, s: Store, submit: SubmitRequest)
    requires |s.intents| == 1 && s.rows == [] && submit.intent == 0 && Matches(s, ClaimIntent(0, submit.userId))
    requires verify(s.intents[0].terms, submit.signedTx).Ok?
    ensures SubmitResult(verify, s, submit) == Created(0)
    ensures SubmitEffect(verify, s, submit).rows
         == [Row(submit.userId, None, s.intents[0].terms, PENDING, None, submit.key, FromIntent(|s.calls|, 0))]
    ensures SubmitEffect(verify, s, submit).calls == s.calls
  {
  }
}
