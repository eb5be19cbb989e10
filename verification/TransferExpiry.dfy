/** An intent is good for ten minutes: what every run says about when it was prepared and when it was spent. */
module TransferExpiry {
  import opened Common
  import opened Evm
  import opened Transfers
  import opened TransferInvariants
  import opened TransferOutcomes
  import opened TransferRuns

  /** The `k`-th action prepared intent `n`. */
  predicate PreparedBy(verify: Verifier, now: int, actions: seq<Action>, k: nat, n: nat, intent: Intent) {
    && k < |actions| && actions[k] == Prepare(intent.userId, intent.terms)
    && var s := Run(verify, EmptyStore(now), actions[..k]);
       |s.intents| == n && intent.expiresAt == s.now + 600_000
  }

  /** The `k`-th action is a submit of the intent's own user claiming it, before it expires. */
  predicate ClaimedBy(verify: Verifier, now: int, actions: seq<Action>, k: nat, n: nat, intent: Intent) {
    && k < |actions| && actions[k].CallStep?
    && var s := Run(verify, EmptyStore(now), actions[..k]);
       && actions[k].call < |s.calls| && s.calls[actions[k].call].SubmitCall?
       && var c := s.calls[actions[k].call];
          && c.submitAt.Claim? && c.submit.intent == n && c.submit.userId == intent.userId
          && n < |s.intents| && s.intents[n].status == READY
          && intent.usedAt == Some(s.now) && s.now < intent.expiresAt
  }

  ghost predicate Timed(verify: Verifier, now: int, actions: seq<Action>, n: nat, intent: Intent) {
    && (exists k: nat :: PreparedBy(verify, now, actions, k, n, intent))
    && (intent.status == USED ==> exists k: nat :: ClaimedBy(verify, now, actions, k, n, intent))
  }

  /** A step adds at most one READY intent, keeps what an intent was prepared with, and spends by a claim alone. */
  lemma IntentStep(verify: Verifier, s: Store, a: Action, n: nat)
    requires n < |Step(verify, s, a).intents|
    ensures var t := Step(verify, s, a);
            if n < |s.intents| then
              && t.intents[n].userId == s.intents[n].userId && t.intents[n].terms == s.intents[n].terms
              && t.intents[n].expiresAt == s.intents[n].expiresAt
              && (t.intents[n].status == USED ==>
                    || (s.intents[n].status == USED && t.intents[n].usedAt == s.intents[n].usedAt)
                    || (a.CallStep? && ClaimStep(s, a.call, n, t.intents[n])))
            else
              && n == |s.intents| && a == Prepare(t.intents[n].userId, t.intents[n].terms)
              && t.intents[n].status == READY && t.intents[n].expiresAt == s.now + 600_000
  {
    match a
    case CallStep(i, input) =>
      if i < |s.calls| {
        StatementOnIntent(s, CallNext(verify, s, i, input).0, n);
        OnlyClaimClaims(verify, s, i, input);
      }
    case JobStep(j, input) =>
      if j < |s.jobs| { StatementOnIntent(s, JobNext(s, j, s.jobs[j], input).0, n); }
    case _ =>
  }

  predicate ClaimStep(s: Store, i: nat, n: nat, intent: Intent) {
    && i < |s.calls| && s.calls[i].SubmitCall? && s.calls[i].submitAt.Claim? && s.calls[i].submit.intent == n
    && s.calls[i].submit.userId == intent.userId && n < |s.intents| && s.intents[n].status == READY
    && intent.usedAt == Some(s.now) && s.now < intent.expiresAt
  }

  lemma StatementOnIntent(s: Store, q: Statement, n: nat)
    requires n < |Execute(s, q).intents|
    ensures var t := Execute(s, q);
            && |t.intents| == |s.intents|
            && t.intents[n].userId == s.intents[n].userId && t.intents[n].terms == s.intents[n].terms
            && t.intents[n].expiresAt == s.intents[n].expiresAt
            && (t.intents[n].status == USED ==>
                  || (s.intents[n].status == USED && t.intents[n].usedAt == s.intents[n].usedAt)
                  || (q == ClaimIntent(n, s.intents[n].userId) && s.intents[n].status == READY
                      && t.intents[n].usedAt == Some(s.now) && s.now < s.intents[n].expiresAt))
  {
  }

  lemma OnlyClaimClaims(verify: Verifier, s: Store, i: nat, input: Input)
    requires i < |s.calls|
    ensures var q := CallNext(verify, s, i, input).0;
            q.ClaimIntent? ==>
              s.calls[i].SubmitCall? && s.calls[i].submitAt.Claim? && s.calls[i].submit.intent == q.intent
              && s.calls[i].submit.userId == q.userId
  {
  }

  /**
   * In every run each intent was prepared for its user with its terms and expires ten minutes after that; and
   * a USED one was claimed by a submit of its own user, at the time it says, before it expired.
   */
  lemma {:induction false} IntentsTimed(verify: Verifier, now: int, actions: seq<Action>, n: nat)
    requires n < |Run(verify, EmptyStore(now), actions).intents|
    ensures Timed(verify, now, actions, n, Run(verify, EmptyStore(now), actions).intents[n])
  {
    var last := |actions| - 1;
    var before := actions[..last];
    var s := Run(verify, EmptyStore(now), before);
    var t := Run(verify, EmptyStore(now), actions);
    assert t == Step(verify, s, actions[last]);
    IntentStep(verify, s, actions[last], n);
    if n < |s.intents| {
      IntentsTimed(verify, now, before, n);
      TimedStays(verify, now, actions, n, s.intents[n], t.intents[n]);
    } else {
      assert PreparedBy(verify, now, actions, last, n, t.intents[n]);
    }
  }

  lemma TimedStays(verify: Verifier, now: int, actions: seq<Action>, n: nat, was: Intent, intent: Intent)
    requires actions != [] && Timed(verify, now, actions[..|actions| - 1], n, was)
    requires intent.userId == was.userId && intent.terms == was.terms && intent.expiresAt == was.expiresAt
    requires intent.status == USED ==>
               || (was.status == USED && intent.usedAt == was.usedAt)
               || ClaimedBy(verify, now, actions, |actions| - 1, n, intent)
    ensures Timed(verify, now, actions, n, intent)
  {
    var before := actions[..|actions| - 1];
    var k: nat :| PreparedBy(verify, now, before, k, n, was);
    assert before[..k] == actions[..k] && PreparedBy(verify, now, actions, k, n, intent);
    if intent.status == USED && was.status == USED && intent.usedAt == was.usedAt {
      var j: nat :| ClaimedBy(verify, now, before, j, n, was);
      assert before[..j] == actions[..j] && ClaimedBy(verify, now, actions, j, n, intent);
    }
  }

  /** No statement gives back an intent that is linked to its row. */
  lemma LinkedStaysUsed(s: Store, q: Statement, n: nat)
    requires n < |s.intents| && s.intents[n].status == USED && s.intents[n].transactionId.Some?
    ensures n < |Execute(s, q).intents| && Execute(s, q).intents[n].status == USED
    ensures Execute(s, q).intents[n].usedAt == s.intents[n].usedAt
  {
  }

  /** Ten minutes to the millisecond: an intent submitted `late` after it was prepared, with nothing else running. */
  lemma TenMinutes(
    verify: Verifier, now: int, userId: string, terms: Terms, signedTx: string, key: string, late: nat)
    returns (actions: seq<Action>)
    requires verify(terms, signedTx).Ok?
    ensures var s := Run(verify, EmptyStore(now), actions);
            && |s.calls| == 1 && |s.intents| == 1 && s.now == now + late
            && s.calls[0] == SubmitCall(SubmitRequest(userId, 0, signedTx, key),
                                        if late < 600_000 then Created(0) else Refused(Expired))
            && (late >= 600_000 ==> s.rows == [] && s.jobs == [] && s.intents[0].status == READY)
  {
    var e := EmptyStore(now);
    var (p, req) := (OnePrepared(now, userId, terms), SubmitRequest(userId, 0, signedTx, key));
    var s := p.(now := now + late);
    PrepareRuns(verify, now, userId, terms);
    Ticked(verify, p, late);
    Then(verify, e, [Prepare(userId, terms)], p, [Tick(late)], s);
    var submitting := SubmitRuns(verify, s, req);
    Then(verify, e, [Prepare(userId, terms)] + [Tick(late)], s, submitting, Run(verify, s, submitting));
    actions := [Prepare(userId, terms)] + [Tick(late)] + submitting;
  }

  lemma Ticked(verify: Verifier, s: Store, ms: nat)
    ensures Run(verify, s, [Tick(ms)]) == s.(now := s.now + ms)
  {
    assert [Tick(ms)][..0] == [];
    assert Run(verify, s, [Tick(ms)]) == Step(verify, s, Tick(ms));
  }
}
