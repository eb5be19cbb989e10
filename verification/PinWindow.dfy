/**
 * How many PINs are compared under one lock window: the comparison comes before the count
 * (src/services/auth/pinLockout.service.ts:136-166), so calls already past the lock check still compare theirs.
 */
module PinWindow {
  import opened Common
  import opened PinLockout

  // ----- counting attempts and steps

  function HowMany(attempts: seq<Attempt>, p: Attempt -> bool): nat {
    if attempts == [] then 0
    else HowMany(attempts[..|attempts| - 1], p) + (if p(attempts[|attempts| - 1]) then 1 else 0)
  }

  /** How many steps of the run satisfy `q` where they are taken. */
  function Steps(s: State, acts: seq<Action>, q: (State, Action) -> bool): nat {
    if acts == [] then 0
    else
      var before := acts[..|acts| - 1];
      Steps(s, before, q) + (if q(Run(s, before), acts[|acts| - 1]) then 1 else 0)
  }

  /** Past the lock check, its PIN not yet compared. */
  predicate AtHash(a: Attempt) { a.at.LoadHash? }

  /** Compared, found wrong, and not yet counted. */
  predicate InLoop(a: Attempt) { a.at.ReadCounter? || a.at.Swap? }

  predicate PastCheck(a: Attempt) { AtHash(a) || InLoop(a) }

  predicate At(s: State, i: nat, p: Attempt -> bool) { i < |s.attempts| && p(s.attempts[i]) }

  predicate Compares(s: State, act: Action) { act.Advance? && s.stored.Some? && At(s, act.attempt, AtHash) }

  /** The call dies between the comparison and the count. */
  predicate DropsCount(s: State, act: Action) { act.Abort? && At(s, act.attempt, InLoop) }

  predicate DropsCompare(s: State, act: Action) { act.Abort? && At(s, act.attempt, AtHash) }

  lemma {:induction false} HowManyUpdate(attempts: seq<Attempt>, i: nat, a: Attempt, p: Attempt -> bool)
    requires i < |attempts|
    ensures HowMany(attempts[i := a], p)
              == HowMany(attempts, p) + (if p(a) then 1 else 0) - (if p(attempts[i]) then 1 else 0)
  {
    var n := |attempts| - 1;
    if i < n {
      assert attempts[i := a][..n] == attempts[..n][i := a];
      HowManyUpdate(attempts[..n], i, a, p);
    } else {
      assert attempts[i := a][..n] == attempts[..n];
    }
  }

  lemma {:induction false} HowManyOfEither(attempts: seq<Attempt>)
    ensures HowMany(attempts, PastCheck) == HowMany(attempts, AtHash) + HowMany(attempts, InLoop)
  {
    if attempts != [] { HowManyOfEither(attempts[..|attempts| - 1]); }
  }

  lemma {:induction false} StepsConcat(s: State, a: seq<Action>, b: seq<Action>, q: (State, Action) -> bool)
    ensures Steps(s, a + b, q) == Steps(s, a, q) + Steps(Run(s, a), b, q)
  {
    if b == [] {
      assert a + b == a;
    } else {
      var n := |b| - 1;
      assert (a + b)[..|a + b| - 1] == a + b[..n];
      StepsConcat(s, a, b[..n], q);
      RunConcat(s, a, b[..n]);
    }
  }

  // ----- before the lock: every comparison is counted, about to be, or dropped

  /** What one step does to the number of attempts that satisfy `p`. */
  lemma StepHowMany(s: State, act: Action, p: Attempt -> bool)
    requires forall gate, pin :: !p(Attempt(gate, pin, Enter(gate, pin), false, false, 0, 0))
    ensures var t := Step(s, act);
            var i := if act.Advance? || act.Abort? then act.attempt else |s.attempts|;
            HowMany(t.attempts, p) - HowMany(s.attempts, p)
              == (if At(t, i, p) then 1 else 0) - (if At(s, i, p) then 1 else 0)
  {
    var t := Step(s, act);
    match act
    case Tick(_) =>
    case Begin(gate, pin) => assert t.attempts[..|s.attempts|] == s.attempts;
    case Advance(i) =>
      if i < |s.attempts| {
        assert t.attempts == s.attempts[i := t.attempts[i]];
        HowManyUpdate(s.attempts, i, t.attempts[i], p);
      }
    case Abort(i) =>
      if i < |s.attempts| {
        assert t.attempts == s.attempts[i := t.attempts[i]];
        HowManyUpdate(s.attempts, i, t.attempts[i], p);
      }
  }

  /** Failures counted, and those on their way to be. */
  function Counted(s: State): nat { s.tally.counted + HowMany(s.attempts, InLoop) }

  lemma UnlockedStep(s: State, act: Action, pin: string)
    requires OnlyWrong(s, pin) && s.tally.armings == 0
    ensures Counted(Step(s, act)) + (if DropsCount(s, act) then 1 else 0)
              == Counted(s) + (if Compares(s, act) then 1 else 0)
  {
    StepHowMany(s, act, InLoop);
    if act.Advance? && act.attempt < |s.attempts| { assert WrongSoFar(s.attempts[act.attempt], pin, false); }
  }

  lemma {:induction false} UnlockedRun(s: State, acts: seq<Action>, pin: string)
    requires OnlyWrong(s, pin) && NoExpiry(s, acts)
    requires forall i :: 0 <= i < |Run(s, acts).attempts| ==> Run(s, acts).attempts[i].pin != pin
    requires acts != [] ==> Run(s, acts[..|acts| - 1]).tally.armings == 0
    ensures Counted(Run(s, acts)) + Steps(s, acts, DropsCount) == Counted(s) + Steps(s, acts, Compares)
  {
    if acts != [] {
      var before, act := acts[..|acts| - 1], acts[|acts| - 1];
      WrongBefore(s, acts, |before|, pin);
      WrongAttemptsStayWrong(s, before, pin);
      if before != [] { ArmingsStay(Run(s, before[..|before| - 1]), before[|before| - 1]); }
      UnlockedRun(s, before, pin);
      UnlockedStep(Run(s, before), act, pin);
    }
  }

  lemma ArmingsStay(s: State, act: Action)
    ensures s.tally.armings <= Step(s, act).tally.armings
  {
  }

  /** A prefix of a run of wrong PINs is one. */
  lemma {:induction false} WrongBefore(s: State, acts: seq<Action>, k: nat, pin: string)
    requires k <= |acts| && NoExpiry(s, acts)
    requires forall i :: 0 <= i < |Run(s, acts).attempts| ==> Run(s, acts).attempts[i].pin != pin
    ensures NoExpiry(s, acts[..k])
    ensures forall i :: 0 <= i < |Run(s, acts[..k]).attempts| ==> Run(s, acts[..k]).attempts[i].pin != pin
    decreases |acts| - k
  {
    forall j | 0 <= j <= k ensures !ExpiredLock(Run(s, acts[..k][..j])) { assert acts[..k][..j] == acts[..j]; }
    if k < |acts| {
      WrongBefore(s, acts, k + 1, pin);
      assert acts[..k + 1][..k] == acts[..k];
      AttemptsStay(Run(s, acts[..k]), acts[k]);
      forall i | 0 <= i < |Run(s, acts[..k]).attempts| ensures Run(s, acts[..k]).attempts[i].pin != pin {
        assert Run(s, acts[..k + 1]).attempts[i].pin == Run(s, acts[..k]).attempts[i].pin;
      }
    } else {
      assert acts[..k] == acts;
    }
  }

  // ----- under the lock: nobody new gets past the check

  lemma LockedStep(s: State, act: Action, pin: string)
    requires OnlyWrong(s, pin) && ActiveLock(s)
    ensures HowMany(Step(s, act).attempts, AtHash) + (if Compares(s, act) then 1 else 0)
              + (if DropsCompare(s, act) then 1 else 0)
         == HowMany(s.attempts, AtHash)
    ensures Step(s, act).lockedUntil.Some?
  {
    StepHowMany(s, act, AtHash);
    if act.Advance? && act.attempt < |s.attempts| {
      assert WrongSoFar(s.attempts[act.attempt], pin, s.tally.armings > 0);
    }
  }

  lemma {:induction false} LockedRun(s: State, acts: seq<Action>, pin: string)
    requires OnlyWrong(s, pin) && ActiveLock(s) && NoExpiry(s, acts)
    requires forall i :: 0 <= i < |Run(s, acts).attempts| ==> Run(s, acts).attempts[i].pin != pin
    ensures ActiveLock(Run(s, acts))
    ensures HowMany(Run(s, acts).attempts, AtHash) + Steps(s, acts, Compares) + Steps(s, acts, DropsCompare)
         == HowMany(s.attempts, AtHash)
  {
    if acts != [] {
      var before, act := acts[..|acts| - 1], acts[|acts| - 1];
      WrongBefore(s, acts, |before|, pin);
      LockedRun(s, before, pin);
      WrongAttemptsStayWrong(s, before, pin);
      LockedStep(Run(s, before), act, pin);
      assert acts[..|acts|] == acts && !ExpiredLock(Run(s, acts[..|acts|]));
    }
  }

  // ----- one window

  /** A run from a clean row with wrong PINs alone and no expiry, in which the step after `before` arms the lock. */
  ghost predicate Arms(pin: string, now: int, before: seq<Action>, arming: Action, after: seq<Action>) {
    var (s, acts) := (Initial(0, None, Some(pin), now), before + [arming] + after);
    && NoExpiry(s, acts)
    && (forall i :: 0 <= i < |Run(s, acts).attempts| ==> Run(s, acts).attempts[i].pin != pin)
    && Run(s, before).tally.armings == 0 && Run(s, before + [arming]).tally.armings > 0
  }

  lemma AtTheArming(pin: string, now: int, before: seq<Action>, arming: Action, after: seq<Action>)
    requires Arms(pin, now, before, arming, after)
    ensures var s := Initial(0, None, Some(pin), now);
            var t := Run(s, before + [arming]);
            && OnlyWrong(t, pin) && ActiveLock(t) && NoExpiry(t, after) && t.tally.counted == 5
            && Counted(t) + Steps(s, before + [arming], DropsCount) == Steps(s, before + [arming], Compares)
  {
    var (s, acts) := (Initial(0, None, Some(pin), now), before + [arming] + after);
    var armed := before + [arming];
    assert acts[..|armed|] == armed && armed[..|before|] == before;
    WrongBefore(s, acts, |armed|, pin);
    WrongBefore(s, armed, |before|, pin);
    WrongAttemptsStayWrong(s, armed, pin);
    WrongAttemptsStayWrong(s, before, pin);
    UnlockedRun(s, armed, pin);
    assert Run(s, armed) == Step(Run(s, before), arming);
    assert !ExpiredLock(Run(s, armed[..|armed|]));
    assert armed[..|armed|] == armed;
    forall k | 0 <= k <= |after| ensures !ExpiredLock(Run(Run(s, armed), after[..k])) {
      RunConcat(s, armed, after[..k]);
      assert acts[..|armed| + k] == armed + after[..k];
    }
  }

  /**
   * The PINs compared up to the end of the window: the five that are counted, one for every call that is past
   * the lock check as the lock is armed and lives to compare, and those whose call died before its count.
   */
  lemma ComparedPerWindow(pin: string, now: int, before: seq<Action>, arming: Action, after: seq<Action>)
    requires Arms(pin, now, before, arming, after)
    ensures var s := Initial(0, None, Some(pin), now);
            var t := Run(s, before + [arming]);
            var compared := Steps(s, before + [arming] + after, Compares);
            && compared + Steps(t, after, DropsCompare) + HowMany(Run(t, after).attempts, AtHash)
               == 5 + HowMany(t.attempts, PastCheck) + Steps(s, before + [arming], DropsCount)
            && compared <= 5 + HowMany(t.attempts, PastCheck) + Steps(s, before + [arming], DropsCount)
  {
    var s := Initial(0, None, Some(pin), now);
    var armed := before + [arming];
    var t := Run(s, armed);
    AtTheArming(pin, now, before, arming, after);
    RunConcat(s, armed, after);
    LockedRun(t, after, pin);
    StepsConcat(s, armed, after, Compares);
    HowManyOfEither(t.attempts);
  }

  // ----- how long a lock lasts

  /** The step counts a fifth failure. */
  predicate CountsFifth(s: State, act: Action) {
    && act.Advance? && act.attempt < |s.attempts|
    && var at := s.attempts[act.attempt].at; at.Swap? && !at.expired && at.raw == 4 && s.failed == 4
  }

  /** The step is a reset, or the swap of a snapshot that read an expired lock. */
  predicate Unlocks(s: State, act: Action) {
    && act.Advance? && act.attempt < |s.attempts|
    && var at := s.attempts[act.attempt].at; at.Reset? || (at.Swap? && at.expired && at.raw == s.failed)
  }

  ghost predicate NeverUnlocked(s: State, acts: seq<Action>) {
    forall k :: 0 <= k < |acts| ==> !Unlocks(Run(s, acts[..k]), acts[k])
  }

  /** Nor is the lock written again. */
  ghost predicate LockLeftAlone(s: State, acts: seq<Action>) {
    NeverUnlocked(s, acts) && forall k :: 0 <= k < |acts| ==> !CountsFifth(Run(s, acts[..k]), acts[k])
  }

  lemma StepKeepsLockAtLeast(s: State, act: Action, until: int)
    requires 0 <= s.failed <= 4 && s.lockedUntil.Some? && until <= s.lockedUntil.value && until <= s.now + 900_000
    requires !Unlocks(s, act)
    ensures var t := Step(s, act);
            && t.lockedUntil.Some? && until <= t.lockedUntil.value && until <= t.now + 900_000 && s.now <= t.now
            && (!CountsFifth(s, act) ==> t.lockedUntil == s.lockedUntil)
  {
  }

  lemma {:induction false} LockKept(s: State, acts: seq<Action>, until: int)
    requires 0 <= s.failed <= 4 && s.lockedUntil == Some(until) && until <= s.now + 900_000 && NeverUnlocked(s, acts)
    ensures var t := Run(s, acts);
            && t.lockedUntil.Some? && until <= t.lockedUntil.value && until <= t.now + 900_000 && s.now <= t.now
            && (LockLeftAlone(s, acts) ==> t.lockedUntil == s.lockedUntil)
  {
    if acts != [] {
      var n := |acts| - 1;
      var before := acts[..n];
      forall k | 0 <= k < n ensures before[..k] == acts[..k] && before[k] == acts[k] { }
      LockKept(s, before, until);
      CounterBelowThreshold(s, before);
      StepKeepsLockAtLeast(Run(s, before), acts[n], until);
    }
  }

  lemma FifthLocks(s: State, act: Action)
    requires CountsFifth(s, act)
    ensures Step(s, act).lockedUntil == Some(s.now + 900_000) && Step(s, act).now == s.now && Step(s, act).failed == 0
  {
  }

  /**
   * A fifth counted failure at time t keeps everyone out for fifteen minutes: in every continuation without a
   * reset or the swap of an expired snapshot, whoever comes to the lock check before t + 900000 is refused,
   * right PIN or not. And if nothing writes the lock, whoever comes at that time or later goes on to have the
   * PIN compared.
   */
  lemma LockLastsFifteenMinutes(s: State, arming: Action, acts: seq<Action>, i: nat)
    requires 0 <= s.failed <= 4 && CountsFifth(s, arming) && NeverUnlocked(Step(s, arming), acts)
    requires var t := Run(Step(s, arming), acts); i < |t.attempts| && t.attempts[i].at.LockCheck?
    ensures var t := Run(Step(s, arming), acts);
            t.now < s.now + 900_000 ==>
              i < |Step(t, Advance(i)).attempts| && Step(t, Advance(i)).attempts[i].at == Answered(LockedOut)
    ensures var t := Run(Step(s, arming), acts);
            LockLeftAlone(Step(s, arming), acts) && t.now >= s.now + 900_000 ==>
              Compared(t, i, Step(Step(t, Advance(i)), Advance(i)))
  {
    FifthLocks(s, arming);
    LockKept(Step(s, arming), acts, s.now + 900_000);
    var t := Run(Step(s, arming), acts);
    if t.now < s.now + 900_000 { CheckRefuses(t, i); } else if !ActiveLock(t) { CheckPasses(t, i); }
  }

  lemma CheckRefuses(t: State, i: nat)
    requires i < |t.attempts| && t.attempts[i].at.LockCheck? && ActiveLock(t)
    ensures i < |Step(t, Advance(i)).attempts| && Step(t, Advance(i)).attempts[i].at == Answered(LockedOut)
  {
  }

  lemma CheckPasses(t: State, i: nat)
    requires i < |t.attempts| && t.attempts[i].at.LockCheck? && !ActiveLock(t)
    ensures Compared(t, i, Step(Step(t, Advance(i)), Advance(i)))
  {
    var u := Step(t, Advance(i));
    assert u.attempts[i].at.LoadHash? && u.stored == t.stored && u.attempts[i].pin == t.attempts[i].pin;
  }

  /** Attempt `i` has gone on from `t` to the comparison: no PIN, the right one, or a wrong one to be counted. */
  predicate Compared(t: State, i: nat, u: State)
    requires i < |t.attempts|
  {
    i < |u.attempts|
    && u.attempts[i].at == (if t.stored.None? then Answered(NoPin)
                            else if t.stored.value == t.attempts[i].pin then Reset
                            else ReadCounter)
  }
}
