/**
 * The shared PIN counter: a lock-free compare-and-swap over one user row, entered from the login,
 * transfer and change-PIN gates (src/services/auth/pinLockout.service.ts, src/services/auth/auth.service.ts).
 */
module PinLockout {
  import opened Common

  const PIN_MAX_ATTEMPTS: int := 5
  const PIN_LOCKOUT_MS: int := 15 * 60 * 1000

  datatype Gate = Login | Transfer | ChangePin(newPin: string)

  datatype Reply = Passed | LockedOut | Incorrect | NoPin | BadFormat | Errored

  /** Where one authorization stands. `Swap` holds the counter it read, and how many writes it had seen. */
  datatype AttemptPc =
    | Precheck | LockCheck | LoadHash
    | ReadCounter | Swap(raw: int, expired: bool, seen: nat)
    | Reset | StorePin
    | Answered(reply: Reply)

  /** `wrote`, `counted`, `lost` and `entered` are history: writes landed, failures counted, swaps lost. */
  datatype Attempt = Attempt(gate: Gate, pin: string, at: AttemptPc, wrote: bool, counted: bool, lost: nat,
                             entered: nat)

  /** Totals kept for the proofs. */
  datatype Tally = Tally(counted: nat, armings: nat, discarded: int, writes: nat)

  /** The user row, the clock and the authorizations in flight. A PIN stands for its hash. */
  datatype State = State(
    failed: int, lockedUntil: Option<int>, stored: Option<string>, now: int,
    attempts: seq<Attempt>, tally: Tally)

  datatype Action = Tick(ms: nat) | Begin(gate: Gate, pin: string) | Advance(attempt: nat) | Abort(attempt: nat)

  predicate SixDigits(pin: string) {
    |pin| == 6 && forall i :: 0 <= i < 6 ==> '0' <= pin[i] <= '9'
  }

  predicate ActiveLock(s: State) { s.lockedUntil.Some? && s.lockedUntil.value > s.now }

  predicate ExpiredLock(s: State) { s.lockedUntil.Some? && s.lockedUntil.value <= s.now }

  /** `verifyPin` and `changePin` check the format first; `changePin` also looks for a PIN before the gate. */
  function Enter(gate: Gate, pin: string): AttemptPc {
    match gate
    case Login => if SixDigits(pin) then LockCheck else Answered(BadFormat)
    case Transfer => LockCheck
    case ChangePin(newPin) => if SixDigits(newPin) then Precheck else Answered(BadFormat)
  }

  function SetAttempt(s: State, i: nat, a: Attempt): State
    requires i < |s.attempts|
  {
    s.(attempts := s.attempts[i := a])
  }

  /** The conditional write of `recordFailure`, which compares the counter alone. */
  function Swapped(s: State, raw: int, expired: bool): State {
    var next := (if expired then 0 else raw) + 1;
    var locking := next >= PIN_MAX_ATTEMPTS;
    s.(failed := if locking then 0 else next,
       lockedUntil := if locking then Some(s.now + PIN_LOCKOUT_MS) else if expired then None else s.lockedUntil,
       tally := Tally(s.tally.counted + 1, s.tally.armings + (if locking then 1 else 0),
                      s.tally.discarded + (if expired then raw else 0), s.tally.writes + 1))
  }

  function Cleared(s: State): State {
    s.(failed := 0, lockedUntil := None,
       tally := s.tally.(discarded := s.tally.discarded + s.failed, writes := s.tally.writes + 1))
  }

  /** Attempt `i` performs its next database statement. */
  function AdvanceAttempt(s: State, i: nat): State
    requires i < |s.attempts|
  {
    var a := s.attempts[i];
    match a.at
    case Precheck => SetAttempt(s, i, a.(at := if s.stored.None? then Answered(NoPin) else LockCheck))
    case LockCheck => SetAttempt(s, i, a.(at := if ActiveLock(s) then Answered(LockedOut) else LoadHash))
    case LoadHash =>
      SetAttempt(s, i, if s.stored.None? then a.(at := Answered(NoPin))
                       else if s.stored.value == a.pin then a.(at := Reset)
                       else a.(at := ReadCounter, entered := s.tally.writes))
    case ReadCounter =>
      SetAttempt(s, i, a.(at := if ActiveLock(s) then Answered(LockedOut)
                                else Swap(s.failed, ExpiredLock(s), s.tally.writes)))
    case Swap(raw, expired, _) =>
      if s.failed != raw then SetAttempt(s, i, a.(at := ReadCounter, lost := a.lost + 1))
      else
        var next := (if expired then 0 else raw) + 1;
        SetAttempt(Swapped(s, raw, expired), i,
                   a.(at := Answered(if next >= PIN_MAX_ATTEMPTS then LockedOut else Incorrect), wrote := true,
                      counted := true))
    case Reset =>
      SetAttempt(Cleared(s), i, a.(at := if a.gate.ChangePin? then StorePin else Answered(Passed), wrote := true))
    case StorePin =>
      SetAttempt(s.(stored := if a.gate.ChangePin? then Some(a.gate.newPin) else s.stored), i,
                 a.(at := Answered(Passed)))
    case Answered(_) => s
  }

  function Step(s: State, act: Action): State {
    match act
    case Tick(ms) => s.(now := s.now + ms)
    case Begin(gate, pin) => s.(attempts := s.attempts + [Attempt(gate, pin, Enter(gate, pin), false, false, 0, 0)])
    case Advance(i) => if i < |s.attempts| then AdvanceAttempt(s, i) else s
    case Abort(i) =>
      if i < |s.attempts| && !s.attempts[i].at.Answered?
      then SetAttempt(s, i, s.attempts[i].(at := Answered(Errored))) else s
  }

  function Run(s: State, acts: seq<Action>): State {
    if acts == [] then s else Step(Run(s, acts[..|acts| - 1]), acts[|acts| - 1])
  }

  lemma {:induction false} RunConcat(s: State, a: seq<Action>, b: seq<Action>)
    ensures Run(s, a + b) == Run(Run(s, a), b)
  {
    if b == [] {
      assert a + b == a;
    } else {
      assert (a + b)[..|a + b| - 1] == a + b[..|b| - 1];
      RunConcat(s, a, b[..|b| - 1]);
    }
  }

  /** A row with nothing in flight. */
  function Initial(failed: int, lockedUntil: Option<int>, stored: Option<string>, now: int): State {
    State(failed, lockedUntil, stored, now, [], Tally(0, 0, 0, 0))
  }

  // ----- conservation

  /** Every counted failure is in an arming, in the counter, or was discarded; the counter stays below the threshold. */
  ghost predicate Balanced(s: State, initial: int) {
    && 0 <= s.failed <= 4
    && s.tally.counted + initial == 5 * s.tally.armings + s.failed + s.tally.discarded
  }

  lemma {:induction false} Conservation(
    failed: int, lockedUntil: Option<int>, stored: Option<string>, now: int, acts: seq<Action>)
    requires 0 <= failed <= 4
    ensures Balanced(Run(Initial(failed, lockedUntil, stored, now), acts), failed)
  {
    if acts != [] {
      Conservation(failed, lockedUntil, stored, now, acts[..|acts| - 1]);
    }
  }

  /** The counter never reaches the threshold, from any row and with anything in flight. */
  lemma {:induction false} CounterBelowThreshold(s: State, acts: seq<Action>)
    requires 0 <= s.failed <= 4
    ensures 0 <= Run(s, acts).failed <= 4
  {
    if acts != [] {
      CounterBelowThreshold(s, acts[..|acts| - 1]);
    }
  }

  // ----- counting over attempts

  function CountedIn(attempts: seq<Attempt>): (n: nat)
    ensures n <= |attempts|
  {
    if attempts == [] then 0
    else CountedIn(attempts[..|attempts| - 1]) + (if attempts[|attempts| - 1].counted then 1 else 0)
  }

  function WritersIn(attempts: seq<Attempt>): (n: nat)
    ensures n <= |attempts|
  {
    if attempts == [] then 0
    else WritersIn(attempts[..|attempts| - 1]) + (if attempts[|attempts| - 1].wrote then 1 else 0)
  }

  lemma {:induction false} CountUpdate(attempts: seq<Attempt>, i: nat, a: Attempt)
    requires i < |attempts|
    ensures CountedIn(attempts[i := a])
              == CountedIn(attempts) + (if a.counted then 1 else 0) - (if attempts[i].counted then 1 else 0)
    ensures WritersIn(attempts[i := a])
              == WritersIn(attempts) + (if a.wrote then 1 else 0) - (if attempts[i].wrote then 1 else 0)
  {
    var n := |attempts| - 1;
    if i < n {
      assert attempts[i := a][..n] == attempts[..n][i := a];
      CountUpdate(attempts[..n], i, a);
    } else {
      assert attempts[i := a][..n] == attempts[..n];
    }
  }

  lemma {:induction false} AllCounted(attempts: seq<Attempt>)
    requires forall i :: 0 <= i < |attempts| ==> attempts[i].counted
    ensures CountedIn(attempts) == |attempts|
  {
    if attempts != [] {
      AllCounted(attempts[..|attempts| - 1]);
    }
  }

  lemma {:induction false} SomeoneHasNotWritten(attempts: seq<Attempt>, i: nat)
    requires i < |attempts| && !attempts[i].wrote
    ensures WritersIn(attempts) < |attempts|
  {
    var n := |attempts| - 1;
    if i < n {
      SomeoneHasNotWritten(attempts[..n], i);
    }
  }

  /** An attempt that wrote is past its loop, and an answer of 401 was counted. */
  predicate Consistent(a: Attempt) {
    && (a.counted ==> a.wrote)
    && (a.wrote ==> a.at.StorePin? || a.at.Answered?)
    && (a.at == Answered(Incorrect) ==> a.counted)
  }

  /** The totals agree with the attempts. */
  ghost predicate Tallied(s: State) {
    && s.tally.counted == CountedIn(s.attempts)
    && s.tally.writes == WritersIn(s.attempts)
    && forall i :: 0 <= i < |s.attempts| ==> Consistent(s.attempts[i])
  }

  /** A step of attempt `i` moves the totals by what it did. */
  lemma AttemptStepTallies(s: State, i: nat, act: Action)
    requires i < |s.attempts| && Consistent(s.attempts[i]) && (act == Advance(i) || act == Abort(i))
    ensures var t := Step(s, act);
            && |t.attempts| == |s.attempts| && t.attempts == s.attempts[i := t.attempts[i]] && Consistent(t.attempts[i])
            && t.tally.counted - s.tally.counted
                 == (if t.attempts[i].counted then 1 else 0) - (if s.attempts[i].counted then 1 else 0)
            && t.tally.writes - s.tally.writes
                 == (if t.attempts[i].wrote then 1 else 0) - (if s.attempts[i].wrote then 1 else 0)
  {
  }

  lemma UpdateKeepsTally(s: State, t: State, i: nat)
    requires Tallied(s) && i < |s.attempts| == |t.attempts| && t.attempts == s.attempts[i := t.attempts[i]]
             && Consistent(t.attempts[i])
    requires t.tally.counted - s.tally.counted
               == (if t.attempts[i].counted then 1 else 0) - (if s.attempts[i].counted then 1 else 0)
    requires t.tally.writes - s.tally.writes
               == (if t.attempts[i].wrote then 1 else 0) - (if s.attempts[i].wrote then 1 else 0)
    ensures Tallied(t)
  {
    CountUpdate(s.attempts, i, t.attempts[i]);
    forall j | 0 <= j < |t.attempts| ensures Consistent(t.attempts[j]) {
      if j != i { assert t.attempts[j] == s.attempts[j]; }
    }
  }

  lemma AdditionKeepsTally(s: State, a: Attempt)
    requires Tallied(s) && Consistent(a) && !a.counted && !a.wrote
    ensures Tallied(s.(attempts := s.attempts + [a]))
  {
    assert (s.attempts + [a])[..|s.attempts|] == s.attempts;
  }

  lemma StepKeepsTally(s: State, act: Action)
    requires Tallied(s)
    ensures Tallied(Step(s, act))
  {
    match act
    case Tick(_) =>
    case Begin(gate, pin) => AdditionKeepsTally(s, Attempt(gate, pin, Enter(gate, pin), false, false, 0, 0));
    case Advance(i) => if i < |s.attempts| { AttemptStepTallies(s, i, act); UpdateKeepsTally(s, Step(s, act), i); }
    case Abort(i) => if i < |s.attempts| { AttemptStepTallies(s, i, act); UpdateKeepsTally(s, Step(s, act), i); }
  }

  // ----- the retry loop is lock-free

  /** What attempt `a` has lost is covered by writes that landed since it entered its loop. */
  ghost predicate LossesCharged(s: State, a: Attempt) {
    && (a.at.ReadCounter? ==> a.entered <= s.tally.writes && a.lost <= s.tally.writes - a.entered)
    && (a.at.Swap? ==>
          && a.entered <= a.at.seen <= s.tally.writes && a.lost <= a.at.seen - a.entered
          && (a.at.seen == s.tally.writes ==> s.failed == a.at.raw))
    && a.lost <= s.tally.writes
    && (!a.at.ReadCounter? && !a.at.Swap? && !a.at.Answered? && !a.at.StorePin? ==> a.lost == 0)
  }

  ghost predicate LockFree(s: State) {
    Tallied(s) && forall i :: 0 <= i < |s.attempts| ==> LossesCharged(s, s.attempts[i])
  }

  lemma LossStaysCharged(s: State, act: Action, i: nat)
    requires i < |s.attempts| && LossesCharged(s, s.attempts[i])
    ensures i < |Step(s, act).attempts| && LossesCharged(Step(s, act), Step(s, act).attempts[i])
  {
  }

  lemma StepKeepsLockFree(s: State, act: Action)
    requires LockFree(s)
    ensures LockFree(Step(s, act))
  {
    StepKeepsTally(s, act);
    var t := Step(s, act);
    AttemptsStay(s, act);
    forall i | 0 <= i < |t.attempts| ensures LossesCharged(t, t.attempts[i]) {
      if i < |s.attempts| { LossStaysCharged(s, act, i); }
    }
  }

  /** No step forgets an attempt or what it asked; at most one is added, at its entry point. */
  lemma AttemptsStay(s: State, act: Action)
    ensures var t := Step(s, act);
            && |s.attempts| <= |t.attempts| <= |s.attempts| + 1
            && (|t.attempts| > |s.attempts| ==>
                  act.Begin?
                  && t.attempts[|s.attempts|]
                       == Attempt(act.gate, act.pin, Enter(act.gate, act.pin), false, false, 0, 0))
            && forall i :: 0 <= i < |s.attempts| ==>
                 t.attempts[i].pin == s.attempts[i].pin && t.attempts[i].gate == s.attempts[i].gate
  {
  }

  lemma {:induction false} RunKeepsLockFree(s: State, acts: seq<Action>)
    requires LockFree(s)
    ensures LockFree(Run(s, acts))
  {
    if acts != [] {
      RunKeepsLockFree(s, acts[..|acts| - 1]);
      StepKeepsLockFree(Run(s, acts[..|acts| - 1]), acts[|acts| - 1]);
    }
  }

  /**
   * With N attempts in a run, one still in its loop has lost at most N - 1 swaps, so it is in at most its
   * N-th iteration; its losses never exceed the writes that landed since it entered; and a swap that
   * follows its read with no write in between wins.
   */
  lemma IterationsBounded(
    failed: int, lockedUntil: Option<int>, stored: Option<string>, now: int, acts: seq<Action>, i: nat)
    requires i < |Run(Initial(failed, lockedUntil, stored, now), acts).attempts|
    ensures var s := Run(Initial(failed, lockedUntil, stored, now), acts);
            var a := s.attempts[i];
            (a.at.ReadCounter? || a.at.Swap? ==>
              && a.lost + 1 <= |s.attempts|
              && a.entered <= s.tally.writes && a.lost <= s.tally.writes - a.entered
              && (a.at.Swap? && a.at.seen == s.tally.writes ==> Step(s, Advance(i)).attempts[i].counted))
  {
    var s := Run(Initial(failed, lockedUntil, stored, now), acts);
    RunKeepsLockFree(Initial(failed, lockedUntil, stored, now), acts);
    assert LossesCharged(s, s.attempts[i]);
    if s.attempts[i].at.ReadCounter? || s.attempts[i].at.Swap? {
      SomeoneHasNotWritten(s.attempts, i);
    }
  }

  /** How far an attempt is from its answer while nobody writes; a stale swap must still be lost once. */
  function Weight(a: Attempt, writes: nat): nat {
    match a.at
    case Precheck => 7
    case LockCheck => 6
    case LoadHash => 5
    case ReadCounter => 2
    case Swap(_, _, seen) => if seen == writes then 1 else 3
    case Reset => 2
    case StorePin => 1
    case Answered(_) => 0
  }

  /** Attempts that may still write the counter. */
  function Pending(attempts: seq<Attempt>): nat {
    if attempts == [] then 0
    else
      var last := attempts[|attempts| - 1];
      Pending(attempts[..|attempts| - 1]) + (if !last.wrote && !last.at.Answered? then 1 else 0)
  }

  function TotalWeight(attempts: seq<Attempt>, writes: nat): nat {
    if attempts == [] then 0
    else TotalWeight(attempts[..|attempts| - 1], writes) + Weight(attempts[|attempts| - 1], writes)
  }

  lemma {:induction false} MeasureUpdate(attempts: seq<Attempt>, i: nat, a: Attempt, writes: nat)
    requires i < |attempts|
    ensures TotalWeight(attempts[i := a], writes)
              == TotalWeight(attempts, writes) + Weight(a, writes) - Weight(attempts[i], writes)
    ensures Pending(attempts[i := a]) == Pending(attempts)
              + (if !a.wrote && !a.at.Answered? then 1 else 0)
              - (if !attempts[i].wrote && !attempts[i].at.Answered? then 1 else 0)
  {
    var n := |attempts| - 1;
    if i < n {
      assert attempts[i := a][..n] == attempts[..n][i := a];
      MeasureUpdate(attempts[..n], i, a, writes);
    } else {
      assert attempts[i := a][..n] == attempts[..n];
    }
  }

  /** A step of an unanswered attempt settles it, or lowers its weight while writing nothing. */
  lemma AttemptStepWeighs(s: State, i: nat, act: Action)
    requires i < |s.attempts| && !s.attempts[i].at.Answered? && (act == Advance(i) || act == Abort(i))
    requires Consistent(s.attempts[i]) && LossesCharged(s, s.attempts[i])
    ensures var t := Step(s, act);
            && |t.attempts| == |s.attempts| && t.attempts == s.attempts[i := t.attempts[i]]
            && ((!s.attempts[i].wrote && (t.attempts[i].wrote || t.attempts[i].at.Answered?))
                || (t.tally.writes == s.tally.writes
                    && Weight(t.attempts[i], t.tally.writes) < Weight(s.attempts[i], s.tally.writes)
                    && (t.attempts[i].wrote || t.attempts[i].at.Answered? || !s.attempts[i].wrote)))
  {
  }

  /**
   * Lock freedom: every step of an unanswered attempt lowers (attempts that may still write, total weight)
   * lexicographically, so under any schedule finitely many attempts finish in finitely many steps.
   */
  lemma EveryAttemptStepMakesProgress(failed: int, lockedUntil: Option<int>, stored: Option<string>, now: int,
                                      acts: seq<Action>, i: nat, act: Action)
    requires var s := Run(Initial(failed, lockedUntil, stored, now), acts);
             i < |s.attempts| && !s.attempts[i].at.Answered? && (act == Advance(i) || act == Abort(i))
    ensures var s := Run(Initial(failed, lockedUntil, stored, now), acts);
            var t := Step(s, act);
            || Pending(t.attempts) < Pending(s.attempts)
            || (Pending(t.attempts) == Pending(s.attempts)
                && TotalWeight(t.attempts, t.tally.writes) < TotalWeight(s.attempts, s.tally.writes))
  {
    var s := Run(Initial(failed, lockedUntil, stored, now), acts);
    RunKeepsLockFree(Initial(failed, lockedUntil, stored, now), acts);
    assert LossesCharged(s, s.attempts[i]);
    AttemptStepWeighs(s, i, act);
    MeasureUpdate(s.attempts, i, Step(s, act).attempts[i], s.tally.writes);
  }

  // ----- N wrong attempts

  ghost predicate NoExpiry(s: State, acts: seq<Action>) {
    forall k :: 0 <= k <= |acts| ==> !ExpiredLock(Run(s, acts[..k]))
  }

  predicate WrongSoFar(a: Attempt, pin: string, armed: bool) {
    && a.pin != pin
    && !a.at.Reset? && !a.at.StorePin? && a.at != Answered(Passed) && a.at != Answered(NoPin)
    && (a.at.Swap? ==> !a.at.expired)
    && (a.at == Answered(LockedOut) ==> armed)
  }

  /** Nobody knows the PIN: no attempt gets past the comparison, no snapshot is expired, nothing is discarded. */
  ghost predicate OnlyWrong(s: State, pin: string) {
    && s.stored == Some(pin) && s.tally.discarded == 0
    && s.tally.counted == 5 * s.tally.armings + s.failed && 0 <= s.failed <= 4
    && (forall i :: 0 <= i < |s.attempts| ==> WrongSoFar(s.attempts[i], pin, s.tally.armings > 0))
    && (s.tally.armings == 0 ==> s.lockedUntil == None)
  }

  lemma StepKeepsOnlyWrong(s: State, act: Action, pin: string)
    requires OnlyWrong(s, pin) && !ExpiredLock(s)
    requires act.Begin? ==> act.pin != pin
    ensures OnlyWrong(Step(s, act), pin)
  {
    var t := Step(s, act);
    if act.Advance? && act.attempt < |s.attempts| {
      assert WrongSoFar(s.attempts[act.attempt], pin, s.tally.armings > 0);
      assert t.tally.armings >= s.tally.armings;
      forall i | 0 <= i < |t.attempts| && i != act.attempt ensures t.attempts[i] == s.attempts[i] { }
    }
  }

  lemma {:induction false} WrongAttemptsStayWrong(s: State, acts: seq<Action>, pin: string)
    requires OnlyWrong(s, pin) && NoExpiry(s, acts)
    requires forall i :: 0 <= i < |Run(s, acts).attempts| ==> Run(s, acts).attempts[i].pin != pin
    ensures OnlyWrong(Run(s, acts), pin)
  {
    if acts != [] {
      var before, act := acts[..|acts| - 1], acts[|acts| - 1];
      var t, u := Run(s, before), Run(s, acts);
      forall k | 0 <= k <= |before| ensures !ExpiredLock(Run(s, before[..k])) { assert before[..k] == acts[..k]; }
      AttemptsStay(t, act);
      assert u == Step(t, act);
      forall i | 0 <= i < |t.attempts| ensures t.attempts[i].pin != pin {
        assert u.attempts[i].pin == t.attempts[i].pin;
      }
      assert act.Begin? ==> u.attempts[|t.attempts|].pin == act.pin;
      WrongAttemptsStayWrong(s, before, pin);
      assert before == acts[..|before|];
      StepKeepsOnlyWrong(t, act, pin);
    }
  }

  lemma {:induction false} RunKeepsTally(s: State, acts: seq<Action>)
    requires Tallied(s)
    ensures Tallied(Run(s, acts))
  {
    if acts != [] {
      RunKeepsTally(s, acts[..|acts| - 1]);
      StepKeepsTally(Run(s, acts[..|acts| - 1]), acts[|acts| - 1]);
    }
  }

  /**
   * From a clean row, with no expiry, N >= 5 attempts with a wrong PIN that all get an answer arm the
   * lockout at least once and at most N / 5 times, under any schedule and any mix of gates.
   */
  lemma WrongBurstArms(pin: string, now: int, acts: seq<Action>)
    requires NoExpiry(Initial(0, None, Some(pin), now), acts)
    requires var s := Run(Initial(0, None, Some(pin), now), acts);
             && |s.attempts| >= 5
             && forall i :: 0 <= i < |s.attempts| ==>
                  s.attempts[i].pin != pin
                  && (s.attempts[i].at == Answered(LockedOut) || s.attempts[i].at == Answered(Incorrect))
    ensures var s := Run(Initial(0, None, Some(pin), now), acts);
            && 1 <= s.tally.armings <= |s.attempts| / 5
            && (|s.attempts| <= 9 ==> s.tally.armings == 1)
  {
    var s := Run(Initial(0, None, Some(pin), now), acts);
    WrongAttemptsStayWrong(Initial(0, None, Some(pin), now), acts, pin);
    RunKeepsTally(Initial(0, None, Some(pin), now), acts);
    if s.tally.armings == 0 {
      forall i | 0 <= i < |s.attempts| ensures s.attempts[i].counted {
        assert WrongSoFar(s.attempts[i], pin, false) && Consistent(s.attempts[i]);
      }
      AllCounted(s.attempts);
    }
  }

  // ----- lock stability

  /** A lock is active and every attempt in flight is still before its lock check. */
  ghost predicate Quiet(s: State, until: int) {
    && s.lockedUntil == Some(until) && s.now < until
    && forall i :: 0 <= i < |s.attempts| ==>
         (s.attempts[i].at.Precheck? && s.attempts[i].gate.ChangePin?) || s.attempts[i].at.LockCheck?
         || s.attempts[i].at.Answered?
  }

  /** 423, unless the request was malformed, failed, or asked to change a PIN that does not exist. */
  predicate Refused(a: Attempt) {
    a.at.Answered?
    && (a.at.reply.LockedOut? || a.at.reply.Errored? || a.at.reply.BadFormat?
        || (a.at.reply.NoPin? && a.gate.ChangePin?))
  }

  lemma QuietStep(s: State, until: int, act: Action)
    requires Quiet(s, until) && Step(s, act).now < until
    ensures var t := Step(s, act);
            && Quiet(t, until) && t.failed == s.failed && t.stored == s.stored && t.tally == s.tally
            && |s.attempts| <= |t.attempts|
            && forall i :: 0 <= i < |t.attempts| && t.attempts[i].at.Answered? ==>
                 (i < |s.attempts| && s.attempts[i] == t.attempts[i]) || Refused(t.attempts[i])
  {
  }

  /**
   * While a quiet lock lasts, nothing changes the counter, the lock or the PIN, nothing is counted, and
   * whoever is answered meanwhile is refused, even with the right PIN.
   */
  lemma {:induction false} QuietLockHolds(s: State, until: int, acts: seq<Action>)
    requires Quiet(s, until) && Run(s, acts).now < until
    ensures var t := Run(s, acts);
            && Quiet(t, until) && t.failed == s.failed && t.lockedUntil == s.lockedUntil && t.stored == s.stored
            && t.tally == s.tally
            && |s.attempts| <= |t.attempts|
            && forall i :: 0 <= i < |t.attempts| && t.attempts[i].at.Answered? ==>
                 (i < |s.attempts| && s.attempts[i] == t.attempts[i]) || Refused(t.attempts[i])
  {
    if acts != [] {
      var before, act := acts[..|acts| - 1], acts[|acts| - 1];
      assert Run(s, before).now <= Run(s, acts).now;
      QuietLockHolds(s, until, before);
      QuietStep(Run(s, before), until, act);
    }
  }

  /**
   * Without quiet, exactly two kinds of step move an active lock: a successful entry's reset, and a swap
   * that still matches the counter and either read an expired lock or arms a window of another end.
   */
  lemma ActiveLockMovesIff(s: State, act: Action)
    requires ActiveLock(s)
    ensures Step(s, act).lockedUntil != s.lockedUntil
       <==> && act.Advance? && act.attempt < |s.attempts|
            && var at := s.attempts[act.attempt].at;
               || at.Reset?
               || (at.Swap? && at.raw == s.failed
                   && (at.expired || (at.raw >= 4 && s.lockedUntil != Some(s.now + 900_000))))
  {
  }

  // ----- what moves a lock, in runs

  /** The step is a reset, or counts a fifth failure that was read without a lock or with an expired one. */
  predicate ClearsOrArms(s: State, act: Action) {
    act.Advance? && act.attempt < |s.attempts|
    && var at := s.attempts[act.attempt].at;
       at.Reset? || (at.Swap? && !at.expired && at.raw == s.failed && s.failed == 4)
  }

  ghost predicate FreshSnapshots(s: State) {
    && (forall i :: 0 <= i < |s.attempts| && s.attempts[i].at.Swap? ==> !s.attempts[i].at.expired)
    && 0 <= s.failed <= 4
    && (s.lockedUntil.Some? ==> s.lockedUntil.value <= s.now + PIN_LOCKOUT_MS)
  }

  lemma StepKeepsFreshSnapshots(s: State, act: Action)
    requires FreshSnapshots(s) && !ExpiredLock(s)
    ensures FreshSnapshots(Step(s, act))
  {
  }

  lemma {:induction false} RunKeepsFreshSnapshots(s: State, acts: seq<Action>)
    requires FreshSnapshots(s) && NoExpiry(s, acts)
    ensures FreshSnapshots(Run(s, acts))
  {
    if acts != [] {
      var before := acts[..|acts| - 1];
      forall k | 0 <= k <= |before| ensures !ExpiredLock(Run(s, before[..k])) { assert before[..k] == acts[..k]; }
      RunKeepsFreshSnapshots(s, before);
      assert before == acts[..|before|];
      StepKeepsFreshSnapshots(Run(s, before), acts[|acts| - 1]);
    }
  }

  lemma FreshLockMove(s: State, act: Action)
    requires FreshSnapshots(s)
    ensures var t := Step(s, act);
            && (t.lockedUntil != s.lockedUntil ==> ClearsOrArms(s, act))
            && (t.lockedUntil != s.lockedUntil && !s.attempts[act.attempt].at.Reset? ==>
                  t.lockedUntil == Some(s.now + 900_000)
                  && (s.lockedUntil.Some? ==> s.lockedUntil.value < t.lockedUntil.value))
  {
  }

  /**
   * In a run from a row without a lock, as long as no lock expires, no snapshot is ever an expired one; so
   * only a reset or a fifth count moves the lock, and a fifth count never shortens it.
   */
  lemma LockMovesOnlyByResetOrFifth(failed: int, stored: Option<string>, now: int, acts: seq<Action>, act: Action)
    requires 0 <= failed <= 4 && NoExpiry(Initial(failed, None, stored, now), acts)
    ensures var s := Run(Initial(failed, None, stored, now), acts);
            var t := Step(s, act);
            && (t.lockedUntil != s.lockedUntil ==> ClearsOrArms(s, act))
            && (t.lockedUntil != s.lockedUntil && !s.attempts[act.attempt].at.Reset? ==>
                  t.lockedUntil == Some(s.now + 900_000)
                  && (s.lockedUntil.Some? ==> s.lockedUntil.value < t.lockedUntil.value))
  {
    RunKeepsFreshSnapshots(Initial(failed, None, stored, now), acts);
    FreshLockMove(Run(Initial(failed, None, stored, now), acts), act);
  }

  // ----- a stale swap that takes a lock away

  /** One wrong login from start to answer, as the `i`-th attempt. */
  function WrongLogin(i: nat, pin: string): seq<Action> {
    [Begin(Login, pin), Advance(i), Advance(i), Advance(i), Advance(i)]
  }

  lemma FiveSteps(s: State, acts: seq<Action>)
    requires |acts| == 5
    ensures Run(s, acts) == Step(Step(Step(Step(Step(s, acts[0]), acts[1]), acts[2]), acts[3]), acts[4])
  {
    assert acts[..5] == acts && Run(s, acts[..0]) == s;
    forall k | 0 <= k < 5 ensures Run(s, acts[..k + 1]) == Step(Run(s, acts[..k]), acts[k]) {
      assert acts[..k + 1][..k] == acts[..k];
    }
  }

  /** `s` with one more login, standing at `at`. */
  function WithLogin(s: State, pin: string, at: AttemptPc, entered: nat): State {
    s.(attempts := s.attempts + [Attempt(Login, pin, at, false, false, 0, entered)])
  }

  lemma LoginMoves(s: State, pin: string, at: AttemptPc, entered: nat, next: AttemptPc, entered': nat)
    requires AdvanceAttempt(WithLogin(s, pin, at, entered), |s.attempts|)
          == SetAttempt(WithLogin(s, pin, at, entered), |s.attempts|,
                        Attempt(Login, pin, next, false, false, 0, entered'))
    ensures Step(WithLogin(s, pin, at, entered), Advance(|s.attempts|)) == WithLogin(s, pin, next, entered')
  {
    var (a, b) := (Attempt(Login, pin, at, false, false, 0, entered),
                   Attempt(Login, pin, next, false, false, 0, entered'));
    assert (s.attempts + [a])[|s.attempts| := b] == s.attempts + [b];
  }

  lemma LoginReachesSwap(s: State, pin: string)
    requires SixDigits(pin) && s.stored.Some? && s.stored.value != pin && !ActiveLock(s)
    ensures Step(Step(Step(Step(s, Begin(Login, pin)), Advance(|s.attempts|)), Advance(|s.attempts|)),
                 Advance(|s.attempts|))
         == WithLogin(s, pin, Swap(s.failed, ExpiredLock(s), s.tally.writes), s.tally.writes)
  {
    assert Step(s, Begin(Login, pin)) == WithLogin(s, pin, LockCheck, 0);
    LoginMoves(s, pin, LockCheck, 0, LoadHash, 0);
    LoginMoves(s, pin, LoadHash, 0, ReadCounter, s.tally.writes);
    LoginMoves(s, pin, ReadCounter, s.tally.writes, Swap(s.failed, ExpiredLock(s), s.tally.writes), s.tally.writes);
  }

  /** The row after a wrong login that nobody disturbs. */
  ghost predicate AfterWrongLogin(s: State, t: State, pin: string) {
    && t.now == s.now && t.stored == s.stored && |t.attempts| == |s.attempts| + 1
    && t.attempts[|s.attempts|].gate.Login? && t.attempts[|s.attempts|].pin == pin
    && (forall i :: 0 <= i < |s.attempts| ==> t.attempts[i] == s.attempts[i])
    && t.failed == (if ExpiredLock(s) then 1 else (s.failed + 1) % 5)
    && t.lockedUntil == (if !ExpiredLock(s) && s.failed == 4 then Some(s.now + PIN_LOCKOUT_MS) else None)
  }

  lemma SwapAlone(s: State, pin: string, entered: nat)
    requires !ActiveLock(s) && 0 <= s.failed <= 4
    ensures var swapping := WithLogin(s, pin, Swap(s.failed, ExpiredLock(s), s.tally.writes), entered);
            AfterWrongLogin(s, Step(swapping, Advance(|s.attempts|)), pin)
  {
  }

  lemma WrongLoginAlone(s: State, pin: string)
    requires SixDigits(pin) && s.stored.Some? && s.stored.value != pin && !ActiveLock(s) && 0 <= s.failed <= 4
    ensures AfterWrongLogin(s, Run(s, WrongLogin(|s.attempts|, pin)), pin)
  {
    LoginReachesSwap(s, pin);
    SwapAlone(s, pin, s.tally.writes);
    FiveSteps(s, WrongLogin(|s.attempts|, pin));
  }

  ghost predicate AfterBurst(s: State, n: nat, t: State, pin: string) {
    && t.now == s.now && t.stored == s.stored && |t.attempts| == |s.attempts| + n
    && (forall i :: |s.attempts| <= i < |t.attempts| ==> t.attempts[i].gate.Login? && t.attempts[i].pin == pin)
    && (forall i :: 0 <= i < |s.attempts| ==> t.attempts[i] == s.attempts[i])
    && t.failed == n % 5
    && t.lockedUntil == (if n == 0 then s.lockedUntil else if n == 5 then Some(s.now + PIN_LOCKOUT_MS) else None)
  }

  lemma OneMoreInBurst(s: State, n: nat, t: State, u: State, pin: string)
    requires ExpiredLock(s) && n < 5 && AfterBurst(s, n, t, pin) && AfterWrongLogin(t, u, pin)
    ensures AfterBurst(s, n + 1, u, pin)
  {
    forall i | 0 <= i < |t.attempts| ensures u.attempts[i] == t.attempts[i] { }
  }

  /** The row after `n` wrong logins in a row. */
  function Burst(s: State, n: nat, pin: string): State {
    if n == 0 then s else NextLogin(Burst(s, n - 1, pin), |s.attempts| + n - 1, pin)
  }

  function NextLogin(s: State, i: nat, pin: string): State {
    Run(s, WrongLogin(i, pin))
  }

  lemma LoginActs(s: State, i: nat, pin: string) returns (login: seq<Action>)
    ensures Run(s, login) == NextLogin(s, i, pin)
  {
    login := WrongLogin(i, pin);
  }

  lemma {:induction false} BurstIsARun(s: State, n: nat, pin: string) returns (acts: seq<Action>)
    ensures Run(s, acts) == Burst(s, n, pin)
  {
    if n == 0 {
      acts := [];
    } else {
      var before := BurstIsARun(s, n - 1, pin);
      var login := LoginActs(Burst(s, n - 1, pin), |s.attempts| + n - 1, pin);
      RunConcat(s, before, login);
      acts := before + login;
    }
  }

  lemma {:induction false} BurstAfterExpiry(s: State, n: nat, pin: string)
    requires SixDigits(pin) && s.stored.Some? && s.stored.value != pin && ExpiredLock(s) && s.failed == 0 && n <= 5
    ensures AfterBurst(s, n, Burst(s, n, pin), pin)
  {
    if n > 0 {
      BurstAfterExpiry(s, n - 1, pin);
      var (t, i) := (Burst(s, n - 1, pin), |s.attempts| + n - 1);
      assert i == |t.attempts|;
      WrongLoginAlone(t, pin);
      OneMoreInBurst(s, n - 1, t, NextLogin(t, i, pin), pin);
    }
  }

  /**
   * A lock that five wrong logins have just armed is removed by the first of six, which had read the expired
   * lock before them: its swap compares the counter alone, which is 0 again. All six carry a wrong PIN.
   */
  lemma StaleSwapRemovesLock(stored: string, pin: string) returns (acts: seq<Action>)
    requires SixDigits(pin) && stored != pin
    ensures var s := Run(Initial(0, Some(0), Some(stored), 1), acts);
            && ActiveLock(s) && s.stored == Some(stored) && |s.attempts| == 6
            && (forall i :: 0 <= i < 6 ==> s.attempts[i].gate.Login? && s.attempts[i].pin == pin)
            && Step(s, Advance(0)).lockedUntil == None && Step(s, Advance(0)).failed == 1
  {
    var s0 := Initial(0, Some(0), Some(stored), 1);
    var s1 := WithLogin(s0, pin, Swap(0, true, 0), 0);
    var first := ReadsExpired(s0, pin);
    BurstAfterExpiry(s1, 5, pin);
    var burst := BurstIsARun(s1, 5, pin);
    RunConcat(s0, first, burst);
    acts := first + burst;
    var s := Burst(s1, 5, pin);
    assert s.attempts[0] == s1.attempts[0];
  }

  /** One login gets as far as its swap. */
  lemma ReadsExpired(s: State, pin: string) returns (acts: seq<Action>)
    requires SixDigits(pin) && s.stored.Some? && s.stored.value != pin && !ActiveLock(s) && s.attempts == []
    ensures Run(s, acts) == WithLogin(s, pin, Swap(s.failed, ExpiredLock(s), s.tally.writes), s.tally.writes)
  {
    acts := [Begin(Login, pin), Advance(0), Advance(0), Advance(0)];
    FiveSteps(s, acts + [Tick(0)]);
    assert (acts + [Tick(0)])[..4] == acts;
    LoginReachesSwap(s, pin);
    assert Run(s, acts + [Tick(0)]) == Step(Run(s, acts), Tick(0)) == Run(s, acts);
  }

  // ----- whose PIN is stored

  /** The stored PIN is the first one, or was set by a change that passed the gate. */
  ghost predicate HasAuthor(s: State, first: Option<string>) {
    s.stored == first
    || exists i :: 0 <= i < |s.attempts| && s.attempts[i].gate.ChangePin? && s.attempts[i].at == Answered(Passed)
                   && s.stored == Some(s.attempts[i].gate.newPin)
  }

  lemma StepKeepsAuthor(s: State, act: Action, first: Option<string>)
    requires HasAuthor(s, first)
    ensures HasAuthor(Step(s, act), first)
  {
    var t := Step(s, act);
    AttemptsStay(s, act);
    if s.stored != first {
      var i :| 0 <= i < |s.attempts| && s.attempts[i].gate.ChangePin? && s.attempts[i].at == Answered(Passed)
               && s.stored == Some(s.attempts[i].gate.newPin);
      assert t.attempts[i] == s.attempts[i];
    }
    if t.stored != s.stored { assert t.attempts[act.attempt].at == Answered(Passed); }
  }

  /** In every run, the stored PIN changes only to what a passed change asked for. */
  lemma {:induction false} StoredPinHasAuthor(
    failed: int, lockedUntil: Option<int>, stored: Option<string>, now: int, acts: seq<Action>)
    ensures HasAuthor(Run(Initial(failed, lockedUntil, stored, now), acts), stored)
  {
    if acts != [] {
      StoredPinHasAuthor(failed, lockedUntil, stored, now, acts[..|acts| - 1]);
      StepKeepsAuthor(Run(Initial(failed, lockedUntil, stored, now), acts[..|acts| - 1]), acts[|acts| - 1], stored);
    }
  }

  // ----- one attempt with nobody else about

  /** What the gate looks at: the user row and the clock. */
  datatype UserRow = UserRow(failed: int, lockedUntil: Option<int>, stored: Option<string>, now: int)

  predicate Locked(row: UserRow) { row.lockedUntil.Some? && row.lockedUntil.value > row.now }

  /** The failure count this attempt would record. */
  function NextCount(row: UserRow): int {
    (if row.lockedUntil.Some? && row.lockedUntil.value <= row.now then 0 else row.failed) + 1
  }

  /** 423 under a lock, 409 without a PIN, a pass for the PIN, else 401, or 423 on the fifth. */
  function GateReply(row: UserRow, pin: string): Reply {
    if Locked(row) then LockedOut
    else if row.stored.None? then NoPin
    else if row.stored.value == pin then Passed
    else if NextCount(row) >= PIN_MAX_ATTEMPTS then LockedOut
    else Incorrect
  }

  /** The row afterwards: untouched, cleared, armed, or counted. */
  function GateRow(row: UserRow, pin: string): UserRow {
    if Locked(row) || row.stored.None? then row
    else if row.stored.value == pin then row.(failed := 0, lockedUntil := None)
    else CountedRow(row)
  }

  function CountedRow(row: UserRow): UserRow {
    if NextCount(row) >= PIN_MAX_ATTEMPTS then row.(failed := 0, lockedUntil := Some(row.now + PIN_LOCKOUT_MS))
    else row.(failed := NextCount(row), lockedUntil := None)
  }

  /**
   * What a gate answers and leaves, in figures: an active lock refuses anyone and changes nothing; the PIN
   * clears the row; a fifth wrong PIN locks for fifteen minutes; an expired lock starts again from one.
   */
  predicate GateAnswers(was: UserRow, pin: string, reply: Reply, row: UserRow) {
    if was.lockedUntil.Some? && was.now < was.lockedUntil.value then reply == LockedOut && row == was
    else if was.stored.None? then reply == NoPin && row == was
    else if was.stored.value == pin then reply == Passed && row == UserRow(0, None, was.stored, was.now)
    else if was.lockedUntil.Some? then reply == Incorrect && row == UserRow(1, None, was.stored, was.now)
    else if was.failed >= 4 then reply == LockedOut && row == UserRow(0, Some(was.now + 900_000), was.stored, was.now)
    else reply == Incorrect && row == UserRow(was.failed + 1, None, was.stored, was.now)
  }

  lemma GateMeans(row: UserRow, pin: string)
    ensures GateAnswers(row, pin, GateReply(row, pin), GateRow(row, pin))
  {
  }
}
