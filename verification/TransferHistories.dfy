/** What a call answered, it saw: the step of the run at which each refusal and each reply was true. */
module TransferHistories {
  import opened Common
  import opened Evm
  import opened Transfers
  import opened TransferInvariants
  import opened TransferTheorems
  import opened TransferAnswers

  /** The store the `k`-th action finds. */
  function Before(verify: Verifier, now: int, actions: seq<Action>, k: nat): Store
    requires k <= |actions|
  {
    Run(verify, EmptyStore(now), actions[..k])
  }

  /** The `k`-th action is a step of call `i`. */
  predicate StepsAt(verify: Verifier, now: int, actions: seq<Action>, k: nat, i: nat) {
    k < |actions| && actions[k].CallStep? && actions[k].call == i && i < |Before(verify, now, actions, k).calls|
  }

  lemma StepsAtStays(verify: Verifier, now: int, actions: seq<Action>, n: nat, k: nat, i: nat)
    requires n <= |actions| && StepsAt(verify, now, actions[..n], k, i)
    ensures StepsAt(verify, now, actions, k, i)
            && Before(verify, now, actions, k) == Before(verify, now, actions[..n], k)
  {
    assert actions[..n][..k] == actions[..k];
  }

  // ----- refusals of submit

  /** The call looks for a replay of its own after losing the claim, and there is none. */
  predicate LooksInVain(s: Store, i: nat) {
    && i < |s.calls| && s.calls[i].SubmitCall? && s.calls[i].submitAt.Raced?
    && var req := s.calls[i].submit; forall r :: 0 <= r < |s.rows| ==> !IsUsersRow(s, r, req.key, req.userId)
  }

  /** The call looks at its intent, and it is as the refusal says. */
  predicate SeesReason(s: Store, i: nat, why: Refusal) {
    && i < |s.calls| && s.calls[i].SubmitCall? && s.calls[i].submitAt.Diagnose?
    && var req := s.calls[i].submit;
       var own := req.intent < |s.intents| && s.intents[req.intent].userId == req.userId;
       match why
       case NotFound => !own
       case AlreadySubmitted => own && s.intents[req.intent].status == USED
       case Expired => own && s.intents[req.intent].status == READY && s.intents[req.intent].expiresAt <= s.now
       case NotSubmittable => own && s.intents[req.intent].status == READY && s.now < s.intents[req.intent].expiresAt
       case _ => false
  }

  ghost predicate HasLooked(verify: Verifier, now: int, actions: seq<Action>, i: nat) {
    exists k: nat :: StepsAt(verify, now, actions, k, i) && LooksInVain(Before(verify, now, actions, k), i)
  }

  ghost predicate HasSeen(verify: Verifier, now: int, actions: seq<Action>, i: nat, why: Refusal) {
    exists k: nat :: StepsAt(verify, now, actions, k, i) && SeesReason(Before(verify, now, actions, k), i, why)
  }

  lemma SubmitStepSees(verify: Verifier, s: Store, i: nat, input: Input)
    requires DistinctKeys(s) && i < |s.calls| && s.calls[i].SubmitCall?
    ensures var (was, at) := (s.calls[i].submitAt, CallNext(verify, s, i, input).1.submitAt);
            && (at.Diagnose? ==> LooksInVain(s, i))
            && (at.Refused? && at.why != Internal && at != was ==> SeesReason(s, i, at.why))
            && (at.Refused? && at.why != Internal ==> at == was || was.Diagnose?)
  {
    LookupFinds(s, s.calls[i].submit.key, s.calls[i].submit.userId);
  }

  /**
   * In every run a submit that is refused had lost its claim, had looked for a row of its own under the key in
   * vain, and then saw its intent as the refusal says: missing or another's, USED, past its expiry, or READY again.
   */
  lemma {:induction false} RefusalsSeen(verify: Verifier, now: int, actions: seq<Action>, i: nat)
    requires i < |Run(verify, EmptyStore(now), actions).calls|
             && Run(verify, EmptyStore(now), actions).calls[i].SubmitCall?
    ensures var at := Run(verify, EmptyStore(now), actions).calls[i].submitAt;
            && (at.Diagnose? || (at.Refused? && at.why != Internal) ==> HasLooked(verify, now, actions, i))
            && (at.Refused? && at.why != Internal ==> HasSeen(verify, now, actions, i, at.why))
  {
    if actions != [] {
      var n := |actions| - 1;
      var (s, a) := (Before(verify, now, actions, n), actions[n]);
      assert Run(verify, EmptyStore(now), actions) == Step(verify, s, a);
      if i < |s.calls| {
        KindStays(verify, s, a, i);
        RefusalsSeen(verify, now, actions[..n], i);
        RefusalsStay(verify, now, actions, i);
        if a.CallStep? && a.call == i {
          RunIsFine(verify, now, actions[..n]);
          SubmitStepSees(verify, s, i, a.input);
          assert StepsAt(verify, now, actions, n, i);
        }
      }
    }
  }

  lemma KindStays(verify: Verifier, s: Store, a: Action, i: nat)
    requires i < |s.calls|
    ensures var t := Step(verify, s, a);
            && i < |t.calls| && (t.calls[i].SubmitCall? <==> s.calls[i].SubmitCall?)
            && (t.calls[i].SendCall? <==> s.calls[i].SendCall?)
            && t.calls[i] == if a.CallStep? && a.call == i then CallNext(verify, s, i, a.input).1 else s.calls[i]
  {
  }

  lemma RefusalsStay(verify: Verifier, now: int, actions: seq<Action>, i: nat)
    requires actions != []
    ensures var before := actions[..|actions| - 1];
            && (HasLooked(verify, now, before, i) ==> HasLooked(verify, now, actions, i))
            && forall why :: HasSeen(verify, now, before, i, why) ==> HasSeen(verify, now, actions, i, why)
  {
    var n := |actions| - 1;
    forall k: nat | StepsAt(verify, now, actions[..n], k, i)
      ensures StepsAt(verify, now, actions, k, i)
              && Before(verify, now, actions, k) == Before(verify, now, actions[..n], k) {
      StepsAtStays(verify, now, actions, n, k, i);
    }
  }

  // ----- replies of send

  /** The call stands at the lookup, or the insert, that `via` names, and finds row `r`, or makes it. */
  predicate SeesRow(s: Store, i: nat, r: nat, via: Via) {
    && i < |s.calls| && s.calls[i].SendCall?
    && var (req, at) := (s.calls[i].send, s.calls[i].sendAt);
       && (match via
           case ByFastPath => at == FastPath
           case ByReuse(to) => at == Reused(to)
           case InsideTransaction(to) => at == InTransaction(to)
           case ByWinner(to) => at == Lost(to)
           case ByCreate(to) => at == Create(to))
       && if via.ByCreate? then r == |s.rows| && forall q :: 0 <= q < r ==> s.rows[q].key != req.key
          else IsUsersRow(s, r, req.key, req.senderId)
  }

  ghost predicate HasSeenRow(verify: Verifier, now: int, actions: seq<Action>, i: nat, r: nat, via: Via) {
    exists k: nat :: StepsAt(verify, now, actions, k, i) && SeesRow(Before(verify, now, actions, k), i, r, via)
  }

  lemma SendStepSees(verify: Verifier, s: Store, i: nat, input: Input)
    requires DistinctKeys(s) && i < |s.calls| && s.calls[i].SendCall?
    ensures var (was, at) := (s.calls[i].sendAt, CallNext(verify, s, i, input).1.sendAt);
            at.SendReplied? ==> at == was || SeesRow(s, i, at.row, at.via)
  {
    LookupFinds(s, s.calls[i].send.key, s.calls[i].send.senderId);
  }

  /** In every run a reply of `send` was given at the very lookup it names, which found the row, or made it. */
  lemma {:induction false} RepliesSeen(verify: Verifier, now: int, actions: seq<Action>, i: nat)
    requires i < |Run(verify, EmptyStore(now), actions).calls|
             && Run(verify, EmptyStore(now), actions).calls[i].SendCall?
    ensures var at := Run(verify, EmptyStore(now), actions).calls[i].sendAt;
            at.SendReplied? ==> HasSeenRow(verify, now, actions, i, at.row, at.via)
  {
    if actions != [] {
      var n := |actions| - 1;
      var (s, a) := (Before(verify, now, actions, n), actions[n]);
      assert Run(verify, EmptyStore(now), actions) == Step(verify, s, a);
      if i < |s.calls| {
        KindStays(verify, s, a, i);
        RepliesSeen(verify, now, actions[..n], i);
        RowsSeenStay(verify, now, actions, i);
        if a.CallStep? && a.call == i {
          RunIsFine(verify, now, actions[..n]);
          SendStepSees(verify, s, i, a.input);
          assert StepsAt(verify, now, actions, n, i);
        }
      }
    }
  }

  lemma RowsSeenStay(verify: Verifier, now: int, actions: seq<Action>, i: nat)
    requires actions != []
    ensures forall r: nat, via :: HasSeenRow(verify, now, actions[..|actions| - 1], i, r, via) ==>
              HasSeenRow(verify, now, actions, i, r, via)
  {
    var n := |actions| - 1;
    forall k: nat | StepsAt(verify, now, actions[..n], k, i)
      ensures StepsAt(verify, now, actions, k, i)
              && Before(verify, now, actions, k) == Before(verify, now, actions[..n], k) {
      StepsAtStays(verify, now, actions, n, k, i);
    }
  }
}
