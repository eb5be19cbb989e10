/**
 * The PIN gates as programs over the user row: `recordFailure` keeps its retry loop, and every statement
 * runs after whatever other authorizations did meanwhile. Each execution is proved a run of the machine.
 */
module PinService {
  import opened Common
  import opened PinLockout

  /** Before one statement: what the others do, and whether the statement then throws. */
  datatype Turn = Turn(others: seq<Action>, throws: bool)

  /** The two statements of one loop iteration. */
  datatype Round = Round(read: Turn, swap: Turn)

  /** A gate's statements in order; the last four only where they are reached. */
  datatype Turns = Turns(precheck: Turn, check: Turn, load: Turn, reset: Turn, store: Turn, rounds: seq<Round>)

  const NOW: Turn := Turn([], false)

  ghost predicate Foreign(others: seq<Action>, me: nat) {
    forall a :: a in others ==> a != Advance(me) && a != Abort(me)
  }

  ghost predicate ForeignRounds(rounds: seq<Round>, me: nat) {
    forall k :: 0 <= k < |rounds| ==> Foreign(rounds[k].read.others, me) && Foreign(rounds[k].swap.others, me)
  }

  ghost predicate ForeignTurns(turns: Turns, me: nat) {
    && Foreign(turns.precheck.others, me) && Foreign(turns.check.others, me) && Foreign(turns.load.others, me)
    && Foreign(turns.reset.others, me) && Foreign(turns.store.others, me) && ForeignRounds(turns.rounds, me)
  }

  /** Nobody else acts and nothing throws. */
  predicate Calm(turns: Turns) {
    turns == Turns(NOW, NOW, NOW, NOW, NOW, [])
  }

  ghost predicate SomeRoundThrows(rounds: seq<Round>) {
    exists k :: 0 <= k < |rounds| && (rounds[k].read.throws || rounds[k].swap.throws)
  }

  ghost predicate SomethingThrows(turns: Turns) {
    turns.precheck.throws || turns.check.throws || turns.load.throws || turns.reset.throws || turns.store.throws
    || SomeRoundThrows(turns.rounds)
  }

  lemma {:induction false} OthersLeaveAttempt(s: State, others: seq<Action>, me: nat)
    requires me < |s.attempts| && Foreign(others, me)
    ensures me < |Run(s, others).attempts| && Run(s, others).attempts[me] == s.attempts[me]
  {
    if others != [] {
      var before := others[..|others| - 1];
      assert others[|others| - 1] in others;
      forall a | a in before ensures a in others { }
      OthersLeaveAttempt(s, before, me);
    }
  }

  datatype Progress = Again | Ended(result: Option<int>)

  class Pins {
    var failed: int
    var lockedUntil: Option<int>
    var stored: Option<string>
    var now: int
    var attempts: seq<Attempt>
    var tally: Tally

    function View(): State
      reads this
    {
      State(failed, lockedUntil, stored, now, attempts, tally)
    }

    ghost predicate Valid()
      reads this
    {
      0 <= failed <= 4 && LockFree(View())
    }

    constructor (stored: Option<string>, now: int)
      ensures View() == Initial(0, None, stored, now) && Valid()
    {
      failed, lockedUntil, attempts, tally := 0, None, [], Tally(0, 0, 0, 0);
      this.stored, this.now := stored, now;
    }

    /** Everyone else runs; attempt `me` stays where it is. */
    method Wait(me: nat, others: seq<Action>, ghost start: State, ghost trace: seq<Action>)
      returns (ghost longer: seq<Action>)
      requires me < |attempts| && Foreign(others, me) && View() == Run(start, trace)
      modifies this
      ensures me < |attempts| && attempts[me] == old(attempts[me])
      ensures longer == trace + others && View() == Run(start, longer)
      ensures others == [] ==> View() == old(View())
    {
      longer := trace + others;
      RunConcat(start, trace, others);
      OthersLeaveAttempt(View(), others, me);
      var s := Run(View(), others);
      failed, lockedUntil, stored := s.failed, s.lockedUntil, s.stored;
      now, attempts, tally := s.now, s.attempts, s.tally;
    }

    /** Attempt `me` takes note of what it read, and moves on. */
    method Note(me: nat, next: Attempt, ghost start: State, ghost trace: seq<Action>)
      returns (ghost longer: seq<Action>)
      requires me < |attempts| && View() == Run(start, trace)
      requires AdvanceAttempt(View(), me) == SetAttempt(View(), me, next)
      modifies this`attempts
      ensures attempts == old(attempts)[me := next]
      ensures longer == trace + [Advance(me)] && View() == Run(start, longer)
    {
      longer := trace + [Advance(me)];
      assert longer[..|longer| - 1] == trace;
      attempts := attempts[me := next];
    }

    /** The statement throws, and the request with it. */
    method Throw(me: nat, ghost start: State, ghost trace: seq<Action>) returns (ghost longer: seq<Action>)
      requires me < |attempts| && !attempts[me].at.Answered? && View() == Run(start, trace)
      modifies this`attempts
      ensures attempts == old(attempts)[me := old(attempts[me]).(at := Answered(Errored))]
      ensures longer == trace + [Abort(me)] && View() == Run(start, longer)
    {
      longer := trace + [Abort(me)];
      assert longer[..|longer| - 1] == trace;
      attempts := attempts[me := attempts[me].(at := Answered(Errored))];
    }

    /** Everyone else runs, and the statement throws if it must. */
    method Await(me: nat, turn: Turn, ghost start: State, ghost trace: seq<Action>)
      returns (ok: bool, ghost longer: seq<Action>)
      requires me < |attempts| && Foreign(turn.others, me) && !attempts[me].at.Answered? && View() == Run(start, trace)
      modifies this
      ensures me < |attempts| && View() == Run(start, longer) && ok == !turn.throws
      ensures attempts[me] == if ok then old(attempts[me]) else old(attempts[me]).(at := Answered(Errored))
      ensures turn == NOW ==> View() == old(View())
    {
      longer := Wait(me, turn.others, start, trace);
      ok := !turn.throws;
      if !ok {
        longer := Throw(me, start, longer);
      }
    }

    function Row(): UserRow
      reads this
    {
      UserRow(failed, lockedUntil, stored, now)
    }

    /** `getLockState`. */
    method GetLockState() returns (locked: bool, until: Option<int>)
      ensures locked <==> lockedUntil.Some? && lockedUntil.value > now
      ensures until == if locked then lockedUntil else None
    {
      if lockedUntil.None? || lockedUntil.value <= now {
        return false, None;
      }
      return true, lockedUntil;
    }

    /** `updateMany where pinFailedAttempts = raw`: counts the failure, or reports that the counter moved. */
    method CompareAndSwap(raw: int, expired: bool) returns (count: nat)
      modifies this`failed, this`lockedUntil, this`tally
      ensures count == (if old(failed) == raw then 1 else 0)
      ensures View() == if old(failed) == raw then Swapped(old(View()), raw, expired) else old(View())
      ensures old(failed) == raw ==>
                && failed == (if expired then 1 else if raw >= 4 then 0 else raw + 1)
                && lockedUntil == (if expired then None else if raw >= 4 then Some(now + 900_000) else old(lockedUntil))
    {
      if failed != raw {
        return 0;
      }
      var current := if expired then 0 else raw;
      var next := current + 1;
      var isLockingAttempt := next >= PIN_MAX_ATTEMPTS;
      tally := Tally(tally.counted + 1, tally.armings + (if isLockingAttempt then 1 else 0),
                     tally.discarded + (if expired then raw else 0), tally.writes + 1);
      failed := if isLockingAttempt then 0 else next;
      if isLockingAttempt {
        lockedUntil := Some(now + PIN_LOCKOUT_MS);
      } else if expired {
        lockedUntil := None;
      }
      return 1;
    }

    /**
     * The first half of one iteration of `recordFailure`: what the row said, and whether an active lock ends
     * the loop.
     */
    method ReadRow(me: nat, ghost start: State, ghost trace: seq<Action>)
      returns (raw: int, expired: bool, locked: bool, ghost longer: seq<Action>)
      requires me < |attempts| && attempts[me].at.ReadCounter? && View() == Run(start, trace)
      requires 0 <= start.failed <= 4
      modifies this`attempts
      ensures View() == Run(start, longer) && me < |attempts|
      ensures raw == failed && 0 <= raw <= 4
      ensures expired <==> lockedUntil.Some? && lockedUntil.value <= now
      ensures locked <==> lockedUntil.Some? && lockedUntil.value > now
      ensures locked ==> attempts[me] == old(attempts[me]).(at := Answered(LockedOut))
      ensures !locked ==> attempts[me] == old(attempts[me]).(at := Swap(raw, expired, tally.writes))
    {
      longer := trace;
      CounterBelowThreshold(start, longer);
      raw, expired, locked := failed, lockedUntil.Some? && lockedUntil.value <= now, false;
      if !expired && lockedUntil.Some? {
        locked := true;
        longer := Note(me, attempts[me].(at := Answered(LockedOut)), start, longer);
      } else {
        longer := Note(me, attempts[me].(at := Swap(raw, expired, tally.writes)), start, longer);
      }
    }

    /** One iteration of `recordFailure`. */
    method OneRound(me: nat, round: Round, ghost start: State, ghost before: seq<Action>)
      returns (progress: Progress, ghost trace: seq<Action>)
      requires me < |attempts| && attempts[me].at.ReadCounter? && !attempts[me].wrote && View() == Run(start, before)
      requires 0 <= start.failed <= 4 && Foreign(round.read.others, me) && Foreign(round.swap.others, me)
      modifies this
      ensures View() == Run(start, trace) && me < |attempts|
      ensures attempts[me].gate == old(attempts[me].gate) && attempts[me].pin == old(attempts[me].pin)
      ensures progress.Again? ==>
                attempts[me].at.ReadCounter? && !attempts[me].wrote
                && attempts[me].lost == old(attempts[me].lost) + 1 && round != Round(NOW, NOW)
      ensures progress.Ended? && progress.result.None? ==>
                attempts[me].at == Answered(Errored) && (round.read.throws || round.swap.throws)
      ensures progress.Ended? && progress.result.Some? ==>
                && 1 <= progress.result.value <= 5
                && attempts[me].at
                     == Answered(if progress.result.value >= 5 then LockedOut else Incorrect)
                && attempts[me].lost == old(attempts[me].lost)
                && (attempts[me].wrote && progress.result.value < 5 ==> failed == progress.result.value)
                && (attempts[me].wrote && progress.result.value == 5 ==>
                      failed == 0 && lockedUntil == Some(now + 900_000))
                && (!attempts[me].wrote ==> progress.result.value == 5 && lockedUntil.Some? && lockedUntil.value > now)
      ensures round == Round(NOW, NOW) && old(Locked(Row())) ==>
                progress == Ended(Some(5)) && Row() == old(Row())
      ensures round == Round(NOW, NOW) && !old(Locked(Row())) ==>
                progress == Ended(Some(NextCount(old(Row())))) && Row() == CountedRow(old(Row()))
    {
      var ok;
      ok, trace := Await(me, round.read, start, before);
      if !ok {
        return Ended(None), trace;
      }
      var raw, expired, locked;
      raw, expired, locked, trace := ReadRow(me, start, trace);
      if locked {
        return Ended(Some(PIN_MAX_ATTEMPTS)), trace;
      }
      progress, trace := WriteRow(me, raw, expired, round.swap, start, trace);
    }

    /** The conditional write of one iteration, once the others have had their turn. */
    method WriteRow(me: nat, raw: int, expired: bool, turn: Turn, ghost start: State, ghost before: seq<Action>)
      returns (progress: Progress, ghost trace: seq<Action>)
      requires me < |attempts| && View() == Run(start, before) && 0 <= raw <= 4 && Foreign(turn.others, me)
      requires attempts[me].at.Swap? && attempts[me].at.raw == raw && attempts[me].at.expired == expired
               && !attempts[me].wrote
      modifies this
      ensures View() == Run(start, trace) && me < |attempts|
      ensures attempts[me].gate == old(attempts[me].gate) && attempts[me].pin == old(attempts[me].pin)
      ensures progress.Again? ==>
                attempts[me].at.ReadCounter? && !attempts[me].wrote && attempts[me].lost == old(attempts[me].lost) + 1
                && (turn.others != [] || raw != old(failed))
      ensures progress.Ended? && progress.result.None? ==> attempts[me].at == Answered(Errored) && turn.throws
      ensures progress.Ended? && progress.result.Some? ==>
                && progress.result == Some((if expired then 0 else raw) + 1)
                && attempts[me].at
                     == Answered(if progress.result.value >= 5 then LockedOut else Incorrect)
                && attempts[me].lost == old(attempts[me].lost) && attempts[me].wrote
                && failed == (if progress.result.value >= 5 then 0 else progress.result.value)
                && (progress.result.value >= 5 ==> lockedUntil == Some(now + 900_000))
      ensures turn == NOW && raw == old(failed) ==>
                && progress == Ended(Some((if expired then 0 else raw) + 1)) && stored == old(stored) && now == old(now)
                && ((if expired then 0 else raw) + 1 < 5 ==>
                      lockedUntil == if expired then None else old(lockedUntil))
    {
      var ok;
      ok, trace := Await(me, turn, start, before);
      if !ok {
        return Ended(None), trace;
      }
      var recorded;
      recorded, trace := SwapOnce(me, raw, expired, start, trace);
      progress := if recorded.Some? then Ended(recorded) else Again;
    }

    /**
     * The second half of one iteration of `recordFailure`: the count recorded, or None when another write came
     * first.
     */
    method SwapOnce(me: nat, raw: int, expired: bool, ghost start: State, ghost trace: seq<Action>)
      returns (recorded: Option<int>, ghost longer: seq<Action>)
      requires me < |attempts| && View() == Run(start, trace)
      requires attempts[me].at.Swap? && attempts[me].at.raw == raw && attempts[me].at.expired == expired
      modifies this
      ensures longer == trace + [Advance(me)] && View() == Run(start, longer) && me < |attempts|
      ensures stored == old(stored) && now == old(now)
      ensures recorded.Some? && recorded.value < 5 ==>
                lockedUntil == if expired then None else old(lockedUntil)
      ensures recorded == if old(failed) == raw then Some((if expired then 0 else raw) + 1) else None
      ensures recorded.Some? ==>
                && (var reply := if recorded.value >= 5 then LockedOut else Incorrect;
                    attempts[me] == old(attempts[me]).(at := Answered(reply), wrote := true, counted := true))
                && failed == (if recorded.value >= 5 then 0 else recorded.value)
                && (recorded.value >= 5 ==> lockedUntil == Some(now + 900_000))
      ensures recorded.None? ==>
                attempts[me] == old(attempts[me]).(at := ReadCounter, lost := old(attempts[me]).lost + 1)
    {
      ghost var seen := View();
      var updated := CompareAndSwap(raw, expired);
      var a := attempts[me];
      if updated == 1 {
        var next := (if expired then 0 else raw) + 1;
        attempts := attempts[me := a.(at := Answered(if next >= PIN_MAX_ATTEMPTS then LockedOut else Incorrect),
                                      wrote := true, counted := true)];
        recorded := Some(next);
        assert View() == AdvanceAttempt(seen, me);
      } else {
        attempts := attempts[me := a.(at := ReadCounter, lost := a.lost + 1)];
        recorded := None;
        assert View() == AdvanceAttempt(seen, me);
      }
      longer := trace + [Advance(me)];
      assert longer[..|longer| - 1] == trace;
      assert Run(start, longer) == Step(seen, Advance(me));
    }

    /**
     * `recordFailure`: read, then compare and swap, until a swap lands, a lock is seen or a statement throws
     * (None). It retries at most once per round in which others interfere; the result is the count its own
     * write recorded, and undisturbed it counts exactly once, or not at all under a lock.
     */
    method RecordFailure(me: nat, rounds: seq<Round>, ghost start: State, ghost before: seq<Action>)
      returns (result: Option<int>, ghost trace: seq<Action>)
      requires me < |attempts| && attempts[me].at.ReadCounter? && View() == Run(start, before)
      requires LockFree(start) && 0 <= start.failed <= 4
      requires ForeignRounds(rounds, me)
      modifies this
      ensures View() == Run(start, trace) && me < |attempts|
      ensures attempts[me].gate == old(attempts[me].gate) && attempts[me].pin == old(attempts[me].pin)
      ensures result.None? ==> attempts[me].at == Answered(Errored) && SomeRoundThrows(rounds)
      ensures result.Some? ==>
                && 1 <= result.value <= 5
                && attempts[me].at == Answered(if result.value >= 5 then LockedOut else Incorrect)
                && attempts[me].lost <= old(attempts[me].lost) + |rounds|
                && (attempts[me].wrote && result.value < 5 ==> failed == result.value)
                && (attempts[me].wrote && result.value == 5 ==>
                      failed == 0 && lockedUntil == Some(now + 900_000))
                && (!attempts[me].wrote ==> result.value == 5 && lockedUntil.Some? && lockedUntil.value > now)
      ensures rounds == [] && old(Locked(Row())) ==> result == Some(5) && Row() == old(Row())
      ensures rounds == [] && !old(Locked(Row())) ==>
                result == Some(NextCount(old(Row()))) && Row() == CountedRow(old(Row()))
    {
      trace := before;
      RunKeepsLockFree(start, trace);
      assert Consistent(attempts[me]);
      var k := 0;
      while true
        invariant 0 <= k <= |rounds| && me < |attempts| && attempts[me].at.ReadCounter? && !attempts[me].wrote
        invariant View() == Run(start, trace)
        invariant attempts[me].lost == old(attempts[me].lost) + k
        invariant attempts[me].gate == old(attempts[me].gate) && attempts[me].pin == old(attempts[me].pin)
        invariant rounds == [] ==> Row() == old(Row())
        decreases |rounds| - k
      {
        var round := if k < |rounds| then rounds[k] else Round(NOW, NOW);
        var recorded;
        recorded, trace := OneRound(me, round, start, trace);
        if recorded.Ended? {
          return recorded.result, trace;
        }
        k := k + 1;
      }
    }

    /** `reset`: a successful entry clears the counter and any lock. */
    method ResetCounter(me: nat, ghost start: State, ghost before: seq<Action>) returns (ghost trace: seq<Action>)
      requires me < |attempts| && attempts[me].at.Reset? && View() == Run(start, before)
      modifies this
      ensures Row() == old(Row()).(failed := 0, lockedUntil := None)
      ensures View() == Run(start, trace)
      ensures me < |attempts| && attempts[me] == old(attempts[me]).(at := attempts[me].at, wrote := true)
      ensures attempts[me].at == if attempts[me].gate.ChangePin? then StorePin else Answered(Passed)
    {
      trace := before + [Advance(me)];
      assert trace[..|trace| - 1] == before;
      tally := tally.(discarded := tally.discarded + failed, writes := tally.writes + 1);
      failed, lockedUntil := 0, None;
      var a := attempts[me];
      attempts := attempts[me := a.(at := if a.gate.ChangePin? then StorePin else Answered(Passed), wrote := true)];
    }

    /**
     * The flow shared by every gate from its lock check on: `assertPinAuthorized`, and the body of
     * `verifyPin`. It fails only where a statement threw, and calm it answers as `GateReply` and leaves the
     * row as `GateRow` say.
     */
    method Authorize(me: nat, turns: Turns, ghost start: State, ghost before: seq<Action>)
      returns (reply: Reply, ghost trace: seq<Action>)
      requires me < |attempts| && attempts[me].at.LockCheck? && View() == Run(start, before)
      requires LockFree(start) && 0 <= start.failed <= 4 && ForeignTurns(turns, me)
      modifies this
      ensures View() == Run(start, trace) && me < |attempts|
      ensures attempts[me].gate == old(attempts[me].gate) && attempts[me].pin == old(attempts[me].pin)
      ensures reply != BadFormat && (reply == Errored ==> SomethingThrows(turns))
      ensures reply == Passed ==> failed == 0 && lockedUntil == None
      ensures attempts[me].at == if reply == Passed && attempts[me].gate.ChangePin? then StorePin else Answered(reply)
      ensures Calm(turns) ==>
                reply == GateReply(old(Row()), old(attempts[me].pin))
                && Row() == GateRow(old(Row()), old(attempts[me].pin))
                && GateAnswers(old(Row()), old(attempts[me].pin), reply, Row())
    {
      GateMeans(Row(), attempts[me].pin);
      var ok;
      ok, trace := Await(me, turns.check, start, before);
      if !ok {
        return Errored, trace;
      }
      var locked, _ := GetLockState();
      if locked {
        trace := Note(me, attempts[me].(at := Answered(LockedOut)), start, trace);
        return LockedOut, trace;
      }
      trace := Note(me, attempts[me].(at := LoadHash), start, trace);
      reply, trace := CompareHash(me, turns, start, trace);
    }

    /** Past the lock check: compare with the stored hash, then reset or record the failure. */
    method CompareHash(me: nat, turns: Turns, ghost start: State, ghost before: seq<Action>)
      returns (reply: Reply, ghost trace: seq<Action>)
      requires me < |attempts| && attempts[me].at.LoadHash? && View() == Run(start, before)
      requires LockFree(start) && 0 <= start.failed <= 4 && ForeignTurns(turns, me)
      modifies this
      ensures View() == Run(start, trace) && me < |attempts|
      ensures attempts[me].gate == old(attempts[me].gate) && attempts[me].pin == old(attempts[me].pin)
      ensures reply != BadFormat && (reply == Errored ==> SomethingThrows(turns))
      ensures reply == Passed ==> failed == 0 && lockedUntil == None
      ensures attempts[me].at == if reply == Passed && attempts[me].gate.ChangePin? then StorePin else Answered(reply)
      ensures Calm(turns) && !old(Locked(Row())) ==>
                reply == GateReply(old(Row()), old(attempts[me].pin))
                && Row() == GateRow(old(Row()), old(attempts[me].pin))
    {
      var ok;
      ok, trace := Await(me, turns.load, start, before);
      if !ok {
        return Errored, trace;
      }
      if stored.None? {
        trace := Note(me, attempts[me].(at := Answered(NoPin)), start, trace);
        return NoPin, trace;
      }
      if stored.value != attempts[me].pin {
        reply, trace := RecordWrong(me, turns, start, trace);
        return;
      }
      trace := Note(me, attempts[me].(at := Reset), start, trace);
      reply, trace := PassAndReset(me, turns, start, trace);
    }

    /** The PIN is wrong: the failure is recorded. */
    method RecordWrong(me: nat, turns: Turns, ghost start: State, ghost before: seq<Action>)
      returns (reply: Reply, ghost trace: seq<Action>)
      requires me < |attempts| && attempts[me].at.LoadHash? && View() == Run(start, before)
      requires stored.Some? && stored.value != attempts[me].pin
      requires LockFree(start) && 0 <= start.failed <= 4 && ForeignTurns(turns, me)
      modifies this
      ensures View() == Run(start, trace) && me < |attempts| && attempts[me].at == Answered(reply)
      ensures attempts[me].gate == old(attempts[me].gate) && attempts[me].pin == old(attempts[me].pin)
      ensures reply == LockedOut || reply == Incorrect || (reply == Errored && SomethingThrows(turns))
      ensures turns.rounds == [] && !old(Locked(Row())) ==>
                && reply == (if NextCount(old(Row())) >= 5 then LockedOut else Incorrect)
                && Row() == CountedRow(old(Row()))
    {
      trace := Note(me, attempts[me].(at := ReadCounter, entered := tally.writes), start, before);
      var recorded;
      recorded, trace := RecordFailure(me, turns.rounds, start, trace);
      reply := if recorded.None? then Errored else if recorded.value >= PIN_MAX_ATTEMPTS then LockedOut else Incorrect;
    }

    /** The PIN is right: the counter is cleared. */
    method PassAndReset(me: nat, turns: Turns, ghost start: State, ghost before: seq<Action>)
      returns (reply: Reply, ghost trace: seq<Action>)
      requires me < |attempts| && attempts[me].at.Reset? && View() == Run(start, before) && ForeignTurns(turns, me)
      modifies this
      ensures View() == Run(start, trace) && me < |attempts|
      ensures attempts[me].gate == old(attempts[me].gate) && attempts[me].pin == old(attempts[me].pin)
      ensures reply == (if turns.reset.throws then Errored else Passed)
      ensures reply == Passed ==> failed == 0 && lockedUntil == None
      ensures attempts[me].at == if reply == Passed && attempts[me].gate.ChangePin? then StorePin else Answered(reply)
      ensures Calm(turns) ==> Row() == old(Row()).(failed := 0, lockedUntil := None)
    {
      var ok;
      ok, trace := Await(me, turns.reset, start, before);
      if !ok {
        return Errored, trace;
      }
      trace := ResetCounter(me, start, trace);
      return Passed, trace;
    }

    /** `verifyPin`. */
    method VerifyPin(pin: string, turns: Turns) returns (reply: Reply, ghost trace: seq<Action>)
      requires Valid() && ForeignTurns(turns, |attempts|)
      modifies this
      ensures Valid() && View() == Run(old(View()), trace)
      ensures old(|attempts|) < |attempts| && attempts[old(|attempts|)].at == Answered(reply)
      ensures reply == BadFormat <==> !(|pin| == 6 && forall i :: 0 <= i < 6 ==> '0' <= pin[i] <= '9')
      ensures reply == Errored ==> SomethingThrows(turns)
      ensures reply == Passed ==> failed == 0 && lockedUntil == None
      ensures Calm(turns) && SixDigits(pin) ==>
                && reply == GateReply(old(Row()), pin) && Row() == GateRow(old(Row()), pin)
                && GateAnswers(old(Row()), pin, reply, Row())
    {
      ghost var start := View();
      var me := |attempts|;
      attempts := attempts + [Attempt(Login, pin, Enter(Login, pin), false, false, 0, 0)];
      trace := [Begin(Login, pin)];
      assert trace[..0] == [];
      if !SixDigits(pin) {
        reply := BadFormat;
      } else {
        reply, trace := Authorize(me, turns, start, trace);
      }
      RunKeepsLockFree(start, trace);
      CounterBelowThreshold(start, trace);
    }

    /** `assertPinAuthorized` at the transfer gate: no look at the format, any wrong PIN counts. */
    method AssertPinAuthorized(pin: string, turns: Turns) returns (reply: Reply, ghost trace: seq<Action>)
      requires Valid() && ForeignTurns(turns, |attempts|)
      modifies this
      ensures Valid() && View() == Run(old(View()), trace)
      ensures old(|attempts|) < |attempts| && attempts[old(|attempts|)].at == Answered(reply)
      ensures reply != BadFormat && (reply == Errored ==> SomethingThrows(turns))
      ensures reply == Passed ==> failed == 0 && lockedUntil == None
      ensures Calm(turns) ==> GateAnswers(old(Row()), pin, reply, Row())
    {
      ghost var start := View();
      var me := |attempts|;
      attempts := attempts + [Attempt(Transfer, pin, LockCheck, false, false, 0, 0)];
      trace := [Begin(Transfer, pin)];
      assert trace[..0] == [];
      reply, trace := Authorize(me, turns, start, trace);
      RunKeepsLockFree(start, trace);
      CounterBelowThreshold(start, trace);
    }

    /** The last statement of `changePin`. */
    method StoreNewPin(me: nat, newPin: string, ghost start: State, ghost trace: seq<Action>)
      returns (ghost longer: seq<Action>)
      requires me < |attempts| && View() == Run(start, trace)
      requires attempts[me].at.StorePin? && attempts[me].gate == ChangePin(newPin)
      modifies this`stored, this`attempts
      ensures Row() == old(Row()).(stored := Some(newPin))
              && attempts == old(attempts)[me := old(attempts[me]).(at := Answered(Passed))]
      ensures longer == trace + [Advance(me)] && View() == Run(start, longer)
    {
      longer := trace + [Advance(me)];
      assert longer[..|longer| - 1] == trace;
      stored := Some(newPin);
      attempts := attempts[me := attempts[me].(at := Answered(Passed))];
    }

    /** `changePin`. Calm, it stores the new PIN exactly when it passes. */
    method ChangePinOf(pin: string, newPin: string, turns: Turns) returns (reply: Reply, ghost trace: seq<Action>)
      requires Valid() && ForeignTurns(turns, |attempts|)
      modifies this
      ensures Valid() && View() == Run(old(View()), trace)
      ensures old(|attempts|) < |attempts| && attempts[old(|attempts|)].at == Answered(reply)
      ensures reply == BadFormat <==> !(|newPin| == 6 && forall i :: 0 <= i < 6 ==> '0' <= newPin[i] <= '9')
      ensures reply == Errored ==> SomethingThrows(turns)
      ensures reply == Passed ==> stored == Some(newPin)
      ensures Calm(turns) && SixDigits(newPin) ==>
                && reply == (if old(stored).None? then NoPin else GateReply(old(Row()), pin))
                && Row() == (if reply == Passed then GateRow(old(Row()), pin).(stored := Some(newPin))
                             else if old(stored).None? then old(Row()) else GateRow(old(Row()), pin))
                && (reply != Passed && old(stored).Some? ==> GateAnswers(old(Row()), pin, reply, Row()))
                && (reply == Passed ==> GateAnswers(old(Row()), pin, reply, Row().(stored := old(stored))))
    {
      GateMeans(Row(), pin);
      ghost var start := View();
      var me := |attempts|;
      var gate := ChangePin(newPin);
      attempts := attempts + [Attempt(gate, pin, Enter(gate, pin), false, false, 0, 0)];
      trace := [Begin(gate, pin)];
      assert trace[..0] == [];
      if !SixDigits(newPin) {
        reply := BadFormat;
      } else {
        reply, trace := ChangeChecked(me, newPin, turns, start, trace);
      }
      RunKeepsLockFree(start, trace);
      CounterBelowThreshold(start, trace);
    }

    method ChangeChecked(me: nat, newPin: string, turns: Turns, ghost start: State, ghost before: seq<Action>)
      returns (reply: Reply, ghost trace: seq<Action>)
      requires me < |attempts| && attempts[me].at.Precheck? && attempts[me].gate == ChangePin(newPin)
               && View() == Run(start, before)
      requires LockFree(start) && 0 <= start.failed <= 4 && ForeignTurns(turns, me)
      modifies this
      ensures View() == Run(start, trace) && me < |attempts| && attempts[me].at == Answered(reply)
      ensures reply != BadFormat && (reply == Errored ==> SomethingThrows(turns))
      ensures reply == Passed ==> stored == Some(newPin)
      ensures Calm(turns) ==>
                && reply == (if old(stored).None? then NoPin else GateReply(old(Row()), old(attempts[me].pin)))
                && Row() == (if reply == Passed then GateRow(old(Row()), old(attempts[me].pin)).(stored := Some(newPin))
                             else if old(stored).None? then old(Row()) else GateRow(old(Row()), old(attempts[me].pin)))
    {
      var ok;
      ok, trace := Await(me, turns.precheck, start, before);
      if !ok {
        return Errored, trace;
      }
      if stored.None? {
        trace := Note(me, attempts[me].(at := Answered(NoPin)), start, trace);
        return NoPin, trace;
      }
      trace := Note(me, attempts[me].(at := LockCheck), start, trace);
      reply, trace := Authorize(me, turns, start, trace);
      if reply == Passed {
        reply, trace := StoreAfterPass(me, newPin, turns.store, start, trace);
      }
    }

    method StoreAfterPass(me: nat, newPin: string, turn: Turn, ghost start: State, ghost before: seq<Action>)
      returns (reply: Reply, ghost trace: seq<Action>)
      requires me < |attempts| && attempts[me].at.StorePin? && attempts[me].gate == ChangePin(newPin)
               && View() == Run(start, before)
      requires Foreign(turn.others, me)
      modifies this
      ensures View() == Run(start, trace) && me < |attempts| && attempts[me].at == Answered(reply)
      ensures reply == (if turn.throws then Errored else Passed)
      ensures reply == Passed ==> stored == Some(newPin)
      ensures turn == NOW ==> Row() == old(Row()).(stored := Some(newPin))
    {
      var ok;
      ok, trace := Await(me, turn, start, before);
      if !ok {
        return Errored, trace;
      }
      trace := StoreNewPin(me, newPin, start, trace);
      return Passed, trace;
    }
  }
}
