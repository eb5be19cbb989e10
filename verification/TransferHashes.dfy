/** What a recorded hash says: when one transaction on chain settles one row, and when it settles two. */
module TransferHashes {
  import opened Common
  import opened Evm
  import opened Transfers
  import opened TransferInvariants
  import opened TransferLifecycle
  import opened TransferTheorems
  import opened TransferSettlement
  import opened TransferFailures
  import opened TransferSchedules
  import opened TransferOutcomes
  import opened TransferRuns

  /** Whatever the chain takes, it names by the transaction's own hash. */
  ghost predicate NamedBy(s: Store, hash: string -> string) {
    forall j :: 0 <= j < |s.jobs| && s.jobs[j].body.Process? && s.jobs[j].heard.Some? ==>
      s.jobs[j].heard == Some(ChainHash(hash(s.jobs[j].body.signedTx)))
  }

  ghost predicate Injective(hash: string -> string) {
    forall a, b :: hash(a) == hash(b) ==> a == b
  }

  /** The signed transaction a call hands over. */
  function Carries(c: Call): Option<string> {
    match c
    case SubmitCall(req, _) => Some(req.signedTx)
    case SendCall(_, _) => None
    case BroadcastCall(req, _) => Some(req.signedTx)
  }

  /** Call `c` queued the process job of row `r`. */
  ghost predicate HandedOver(s: Store, c: nat, r: nat) {
    c < |s.calls| && exists j :: 0 <= j < |s.jobs| && QueuedFor(s.jobs[j], c, r)
  }

  predicate QueuedFor(job: Job, c: nat, r: nat) {
    job.row == r && job.body.Process? && !job.origin.ByJob? && job.origin.call == c
  }

  /** The hash of a row is that of the transaction its one call handed over. */
  lemma HashIsOfHandOver(verify: Verifier, s: Store, hash: string -> string, r: nat) returns (c: nat)
    requires Good(verify, s) && Tracked(s, r) && s.rows[r].txHash.Some? && NamedBy(s, hash)
    ensures HandedOver(s, c, r) && Carries(s.calls[c]).Some?
            && s.rows[r].txHash == Some(hash(Carries(s.calls[c]).value))
    ensures forall d: nat :: HandedOver(s, d, r) ==> d == c
  {
    assert LifeOk(s, r) && HashTaken(s, r);
    var j: nat :| Taken(s, j, r, s.rows[r].txHash.value);
    QueuedBy(verify, s, j);
    assert JobOk(s, j);
    c := s.jobs[j].origin.call;
    forall d: nat | HandedOver(s, d, r) ensures d == c {
      var k :| 0 <= k < |s.jobs| && QueuedFor(s.jobs[k], d, r);
      OneProcessJob(s, r, j, k);
    }
  }

  /** A call hands over one row. */
  lemma HandsOverOne(verify: Verifier, s: Store, c: nat, r: nat, q: nat)
    requires Inv(verify, s) && HandedOver(s, c, r) && HandedOver(s, c, q)
    ensures r == q
  {
    var j :| 0 <= j < |s.jobs| && QueuedFor(s.jobs[j], c, r);
    var k :| 0 <= k < |s.jobs| && QueuedFor(s.jobs[k], c, q);
    QueuedBy(verify, s, j);
    QueuedBy(verify, s, k);
  }

  /**
   * Where the chain names a transaction by an injective hash: in every run two tracked rows carry one hash,
   * and so are settled by one transaction, exactly when two different calls handed that transaction over for
   * them. Nothing in the code stops two calls from doing so.
   */
  lemma ShareHashIff(verify: Verifier, now: int, actions: seq<Action>, hash: string -> string, r: nat, q: nat)
    requires var s := Run(verify, EmptyStore(now), actions);
             && Tracked(s, r) && Tracked(s, q) && r != q && s.rows[r].txHash.Some? && s.rows[q].txHash.Some?
             && NamedBy(s, hash) && Injective(hash)
    ensures var s := Run(verify, EmptyStore(now), actions);
            s.rows[r].txHash == s.rows[q].txHash <==>
              exists c: nat, d: nat ::
                c != d && HandedOver(s, c, r) && HandedOver(s, d, q) && Carries(s.calls[c]) == Carries(s.calls[d])
  {
    var s := Run(verify, EmptyStore(now), actions);
    RunIsGood(verify, now, actions);
    var c := HashIsOfHandOver(verify, s, hash, r);
    var d := HashIsOfHandOver(verify, s, hash, q);
    if c == d { HandsOverOne(verify, s, c, r, q); }
  }

  /** And with the real verifier, submitted rows that share a transaction are held to one movement. */
  lemma SharedTransactionIsOneMovement(cfg: Config, now: int, actions: seq<Action>, j: nat, k: nat)
    requires var s := Run((t, tx) => VerifySignedTransaction(cfg, t, tx), EmptyStore(now), actions);
             && j < |s.jobs| && k < |s.jobs| && s.jobs[j].origin.BySubmit? && s.jobs[k].origin.BySubmit?
             && s.jobs[j].body == s.jobs[k].body
    ensures var s := Run((t, tx) => VerifySignedTransaction(cfg, t, tx), EmptyStore(now), actions);
            && s.jobs[j].row < |s.rows| && s.jobs[k].row < |s.rows|
            && Held(cfg, s.rows[s.jobs[j].row].terms).Some?
            && Held(cfg, s.rows[s.jobs[j].row].terms) == Held(cfg, s.rows[s.jobs[k].row].terms)
  {
    var verify: Verifier := (t, tx) => VerifySignedTransaction(cfg, t, tx);
    var s := Run(verify, EmptyStore(now), actions);
    SubmitJobsVerified(verify, now, actions, j);
    SubmitJobsVerified(verify, now, actions, k);
    AcceptedIntentsAgree(cfg, s.rows[s.jobs[j].row].terms, s.rows[s.jobs[k].row].terms, s.jobs[j].body.signedTx);
  }

  // ----- one transaction, two rows

  /** An intent ready to be paid under a free key. */
  predicate Payable(verify: Verifier, s: Store, req: SubmitRequest) {
    && Matches(s, ClaimIntent(req.intent, req.userId)) && !KeyTaken(s.rows, req.key)
    && verify(s.intents[req.intent].terms, req.signedTx).Ok? && req.signedTx != ""
  }

  /** The tables after `req` is paid under hash `h`: one more row, COMPLETED, with a receipt. */
  predicate Paid(s: Store, t: Store, req: SubmitRequest, h: string)
    requires req.intent < |s.intents|
  {
    && t.now == s.now && |t.intents| == |s.intents|
    && (forall n :: 0 <= n < |s.intents| && n != req.intent ==> t.intents[n] == s.intents[n])
    && t.receipts == s.receipts + [|s.rows|]
    && |t.rows| == |s.rows| + 1 && t.rows[..|s.rows|] == s.rows
    && t.rows[|s.rows|] == Row(req.userId, None, s.intents[req.intent].terms, COMPLETED, Some(h), req.key,
                               FromIntent(|s.calls|, req.intent))
  }

  lemma SubmitPays(verify: Verifier, s: Store, req: SubmitRequest, h: string) returns (actions: seq<Action>)
    requires Inv(verify, s) && Lives(s) && Payable(verify, s, req) && h != ""
    ensures Paid(s, Run(verify, s, actions), req, h)
  {
    var r, j := |s.rows|, |s.jobs|;
    NoRowYet(s, req.key, req.userId);
    var submitting := SubmitRuns(verify, s, req);
    var u := Begun(SubmitEffect(verify, s, req), SubmitCall(req, SubmitResult(verify, s, req)));
    var sending := JobRuns(verify, u, j, ChainHash(h));
    var v := Run(verify, u, sending);
    assert v.rows == u.rows[r := u.rows[r].(status := PROCESSING, txHash := Some(h))];
    assert |v.jobs| == j + 2 && v.jobs[j + 1] == Job(r, Check(h), ByJob(j), Start);
    var checking := JobRuns(verify, v, j + 1, ChainStatus(Confirmed));
    Then(verify, s, submitting, u, sending, v);
    Then(verify, s, submitting + sending, v, checking, Run(verify, v, checking));
    actions := submitting + sending + checking;
  }

  lemma NoRowYet(s: Store, key: string, userId: string)
    requires !KeyTaken(s.rows, key)
    ensures FindByKey(s.rows, key, userId).None?
  {
  }

  function TwoPrepared(now: int, userId: string, terms: Terms): Store {
    var intent := Intent(userId, terms, READY, None, now + INTENT_TTL_MS, None);
    EmptyStore(now).(intents := [intent, intent])
  }

  lemma PreparedTwice(verify: Verifier, now: int, userId: string, terms: Terms) returns (actions: seq<Action>)
    ensures Run(verify, EmptyStore(now), actions) == TwoPrepared(now, userId, terms)
  {
    var (e, a) := (EmptyStore(now), Prepare(userId, terms));
    actions := [a, a];
    assert actions[..1] == [a] && [a][..0] == [];
    assert Run(verify, e, [a]) == Step(verify, e, a);
    assert Run(verify, e, actions) == Step(verify, Step(verify, e, a), a);
  }

  /** The second intent is as payable after the first has been paid under another key. */
  lemma StillPayable(
    verify: Verifier, s: Store, t: Store, first: SubmitRequest, second: SubmitRequest, h: string)
    requires Payable(verify, s, first) && Payable(verify, s, second) && Paid(s, t, first, h)
    requires first.intent != second.intent && first.key != second.key
    ensures Payable(verify, t, second) && t.intents[second.intent].terms == s.intents[second.intent].terms
  {
    forall r | 0 <= r < |t.rows| ensures t.rows[r].key != second.key {
      if r < |s.rows| { assert t.rows[r] == t.rows[..|s.rows|][r]; }
    }
  }

  /** The two rows, each under its intent. */
  predicate PaidTwice(t: Store, terms: Terms, h: string) {
    && |t.rows| == 2 && t.receipts == [0, 1]
    && forall r :: 0 <= r < 2 ==>
         && t.rows[r].status == COMPLETED && t.rows[r].txHash == Some(h) && t.rows[r].terms == terms
         && t.rows[r].origin.FromIntent? && t.rows[r].origin.intent == r
  }

  lemma BothPaid(p: Store, s: Store, t: Store, first: SubmitRequest, second: SubmitRequest, terms: Terms, h: string)
    requires |p.rows| == 0 && p.receipts == [] && |p.intents| == 2 && p.intents[0].terms == p.intents[1].terms == terms
    requires first.intent == 0 && second.intent == 1 && Paid(p, s, first, h) && Paid(s, t, second, h)
    ensures PaidTwice(t, terms, h)
  {
    assert t.rows[0] == t.rows[..1][0];
  }

  /**
   * A user who prepares one payment twice and submits both with one signature has two COMPLETED rows for one
   * transaction.
   */
  lemma OneTransactionTwoRows(
    verify: Verifier, now: int, userId: string, terms: Terms, signedTx: string, key: string, otherKey: string,
    h: string)
    returns (actions: seq<Action>)
    requires verify(terms, signedTx).Ok? && signedTx != "" && h != "" && key != otherKey
    ensures PaidTwice(Run(verify, EmptyStore(now), actions), terms, h)
  {
    var e := EmptyStore(now);
    var preparing := PreparedTwice(verify, now, userId, terms);
    var p := Run(verify, e, preparing);
    var (first, second) := (SubmitRequest(userId, 0, signedTx, key), SubmitRequest(userId, 1, signedTx, otherKey));
    RunIsFine(verify, now, preparing);
    var one := SubmitPays(verify, p, first, h);
    var s := Run(verify, p, one);
    RunConcat(verify, e, preparing, one);
    RunIsFine(verify, now, preparing + one);
    StillPayable(verify, p, s, first, second, h);
    var two := SubmitPays(verify, s, second, h);
    BothPaid(p, s, Run(verify, s, two), first, second, terms, h);
    Then(verify, e, preparing + one, s, two, Run(verify, s, two));
    actions := preparing + one + two;
  }
}
