/**
 * The code store as a program: the two scripts, and the flows that call them between plain reads, writes
 * and deletes while others act on the same key. Each execution is proved a run of the machine.
 */
module VerificationService {
  import opened Common
  import opened VerificationCodes

  ghost predicate Foreign(others: seq<Action>, me: nat) {
    forall a :: a in others ==> a != Advance(me) && a != Abort(me)
  }

  lemma {:induction false} OthersLeaveCall(c: Config, s: State, others: seq<Action>, me: nat)
    requires me < |s.calls| && Foreign(others, me)
    ensures me < |Run(c, s, others).calls| && Run(c, s, others).calls[me] == s.calls[me]
  {
    if others != [] {
      var before := others[..|others| - 1];
      assert others[|others| - 1] in others;
      forall a | a in before ensures a in others { }
      OthersLeaveCall(c, s, before, me);
    }
  }

  /** The key holds a record with a proper count. */
  predicate Counting(s: State) {
    s.entry.Some? && s.entry.value.value.Record? && s.entry.value.value.a >= 0
  }

  /** The last statement of a verification on a record it still finds as it read it. */
  predicate SettlesFrom(
    c: Config, found: Option<Entry>, redisNow: int, at: CallPc, outcome: Outcome, left: Option<Entry>) {
    match at
    case Drop(o) => outcome == o && left == None
    case Consume(h) => LiveWith(found, redisNow, h) ==> outcome == Verified && left == None
    case CountFailure(h) =>
      LiveWith(found, redisNow, h) ==>
        if found.value.dies - redisNow < 500 then outcome == Invalid && left == None
        else if found.value.value.a + 1 >= c.maxAttempts then outcome == AttemptsExhausted && left == None
        else
          && outcome == Invalid && left.Some? && left.value.serial == found.value.serial
          && left.value.value == Record(h, found.value.value.e, found.value.value.a + 1)
          && found.value.dies - 500 < left.value.dies <= found.value.dies + 500
          && (left.value.dies - redisNow) % 1000 == 0
    case _ => true
  }

  predicate LiveWith(found: Option<Entry>, redisNow: int, h: string) {
    found.Some? && redisNow <= found.value.dies && found.value.value.Record? && found.value.value.h == h
    && found.value.value.a >= 0
  }

  /** What the record the call read says about its answer, whatever others do. */
  predicate AnswersSeen(c: Config, seen: State, code: string, outcome: Outcome) {
    if !LiveRecord(seen) then outcome == NoCode
    else
      var (h, e) := (seen.entry.value.value.h, seen.entry.value.value.e);
      if e <= seen.now then outcome == Expired
      else if h == c.hash(code) then outcome == Verified || outcome == Invalid
      else outcome == AttemptsExhausted || outcome == Invalid
  }

  /** What a verification answers and leaves behind when nobody else acts, for each thing the key may hold. */
  predicate AnswersAlone(
    c: Config, found: Option<Entry>, now: int, redisNow: int, code: string, outcome: Outcome, left: Option<Entry>) {
    if found.None? || redisNow > found.value.dies then outcome == NoCode && left == found
    else match found.value.value
      case Record(h, e, a) =>
        if e <= now then outcome == Expired && left == None
        else if h == c.hash(code) then outcome == Verified && left == None
        else if found.value.dies - redisNow < 500 then outcome == Invalid && left == None
        else if a + 1 >= c.maxAttempts then outcome == AttemptsExhausted && left == None
        else
          && outcome == Invalid && left.Some? && left.value.value == Record(h, e, a + 1)
          && left.value.serial == found.value.serial && (left.value.dies - redisNow) % 1000 == 0
          && found.value.dies - 500 < left.value.dies <= found.value.dies + 500
      case _ => outcome == NoCode && left == None
  }

  /** Where a call stands after its read. */
  predicate Decides(c: Config, seen: State, code: string, at: CallPc) {
    if seen.entry.None? || seen.redisNow > seen.entry.value.dies then at == Done(NoCode)
    else match seen.entry.value.value
      case Record(h, e, _) =>
        if e <= seen.now then at == Drop(Expired) else at == if h == c.hash(code) then Consume(h) else CountFailure(h)
      case _ => at == Drop(NoCode)
  }

  /** The outcomes a statement can end in. */
  predicate MayEnd(at: CallPc, outcome: Outcome) {
    match at
    case Done(o) => outcome == o
    case Drop(o) => outcome == o
    case Consume(_) => outcome == Verified || outcome == Invalid
    case CountFailure(_) => outcome == AttemptsExhausted || outcome == Invalid
    case Read => false
  }

  lemma SeenFollows(c: Config, seen: State, code: string, at: CallPc, outcome: Outcome)
    requires Decides(c, seen, code, at) && MayEnd(at, outcome)
    ensures AnswersSeen(c, seen, code, outcome)
  {
  }

  lemma AloneFollows(c: Config, s: State, code: string, at: CallPc, outcome: Outcome, left: Option<Entry>)
    requires Decides(c, s, code, at) && RecordOk(c, s)
    requires if at.Done? then outcome == at.outcome && left == s.entry
             else SettlesFrom(c, s.entry, s.redisNow, at, outcome, left)
    ensures AnswersAlone(c, s.entry, s.now, s.redisNow, code, outcome, left)
  {
  }

  class CodeStore {
    const c: Config
    var entry: Option<Entry>
    var now: int
    var redisNow: int
    var issued: seq<Issued>
    var calls: seq<Call>

    function View(): State
      reads this
    {
      State(entry, now, redisNow, issued, calls)
    }

    ghost predicate Valid()
      reads this
    {
      Sound(c) && Inv(c, View())
    }

    constructor (c: Config, left: Option<Entry>, now: int, redisNow: int)
      requires Sound(c) && (left.Some? ==> !left.value.value.Record?)
      ensures this.c == c && View() == State(left, now, redisNow, [], []) && Valid()
    {
      this.c, entry, this.now, this.redisNow, issued, calls := c, left, now, redisNow, [], [];
    }

    /** Everyone else runs; call `me` stays where it is. */
    method Wait(me: nat, others: seq<Action>, ghost start: State, ghost trace: seq<Action>)
      returns (ghost longer: seq<Action>)
      requires me < |calls| && Foreign(others, me) && View() == Run(c, start, trace)
      modifies this
      ensures me < |calls| && calls[me] == old(calls[me])
      ensures longer == trace + others && View() == Run(c, start, longer) && View() == Run(c, old(View()), others)
    {
      longer := trace + others;
      RunConcat(c, start, trace, others);
      OthersLeaveCall(c, View(), others, me);
      var s := Run(c, View(), others);
      entry, now, redisNow, issued, calls := s.entry, s.now, s.redisNow, s.issued, s.calls;
    }

    /** `GET`. */
    method ReadKey() returns (raw: Option<Value>)
      ensures raw == Get(View())
      ensures raw.None? <==> entry.None? || redisNow > entry.value.dies
    {
      raw := None;
      if entry.Some? && redisNow <= entry.value.dies {
        raw := Some(entry.value.value);
      }
    }

    /** The consume script: 1 and an empty key exactly when the key held a record with this hash. */
    method ConsumeScript(h: string) returns (reply: int)
      modifies this`entry
      ensures reply == 1 || reply == 0
      ensures reply == 1 <==> old(Get(View())).Some? && old(Get(View())).value.Record? && old(Get(View())).value.h == h
      ensures reply == 1 ==> entry == None
      ensures reply == 0 ==> entry == old(entry) || (entry == None && old(Get(View())) == Some(Unparseable))
      ensures (View(), reply) == Consumed(old(View()), h)
    {
      var raw := ReadKey();
      if raw.None? {
        return 0;
      }
      if raw.value.Unparseable? {
        entry := None;
        return 0;
      }
      if raw.value.Misshapen? || raw.value.h != h {
        return 0;
      }
      entry := None;
      return 1;
    }

    /**
     * The failure script: it counts only against a record with this hash, keeps hash, expiry and identity,
     * and removes the record instead of storing a count that spends the budget.
     */
    method FailureScript(h: string, maxAttempts: nat) returns (reply: int)
      modifies this`entry
      ensures (View(), reply) == Failed(old(View()), h, maxAttempts)
      ensures old(Counting(View())) && reply == -1 ==>
                entry == None && old(entry.value.value.h) == h && old(entry.value.value.a) + 1 >= maxAttempts
      ensures old(Counting(View())) && reply > 0 ==>
                && entry.Some? && entry.value.value == old(entry.value.value).(a := reply)
                && reply == old(entry.value.value.a) + 1
                && reply < maxAttempts && entry.value.serial == old(entry.value.serial)
                && old(entry.value.dies) - 500 <= entry.value.dies <= old(entry.value.dies) + 500
    {
      var raw := ReadKey();
      if raw.None? {
        return 0;
      }
      if raw.value.Unparseable? {
        entry := None;
        return 0;
      }
      if raw.value.Misshapen? || raw.value.h != h {
        return 0;
      }
      var ttl := (entry.value.dies - redisNow + 500) / 1000;
      if ttl <= 0 {
        entry := None;
        return 0;
      }
      var attempts := raw.value.a + 1;
      if attempts >= maxAttempts {
        entry := None;
        return -1;
      }
      entry := Some(Entry(Record(raw.value.h, raw.value.e, attempts), redisNow + ttl * 1000, entry.value.serial));
      return attempts;
    }

    /** `SET key record EX ttl`. */
    method StoreRecord(code: string, e: int)
      modifies this`entry, this`issued
      ensures View() == Step(c, old(View()), Issue(code, e))
    {
      var dies := redisNow + (c.ttlSeconds + c.graceSeconds) * 1000;
      entry := Some(Entry(Record(c.hash(code), e, 0), dies, |issued|));
      issued := issued + [Issued(code, e, dies)];
    }

    /** `createVerificationCode`: the clock is read before the write, and others may act in between. */
    method CreateVerificationCode(code: string, others: seq<Action>) returns (ghost trace: seq<Action>)
      requires Valid()
      modifies this
      ensures Valid() && View() == Run(c, old(View()), trace)
      ensures |issued| > 0 && Holds(View(), |issued| - 1)
              && entry.value.value == Record(c.hash(code), old(now) + c.ttlSeconds * 1000, 0)
      ensures entry.value.dies == redisNow + (c.ttlSeconds + c.graceSeconds) * 1000
    {
      var e := now + c.ttlSeconds * 1000;
      ghost var start := View();
      var s := Run(c, View(), others);
      entry, now, redisNow, issued, calls := s.entry, s.now, s.redisNow, s.issued, s.calls;
      RunKeepsInv(c, start, others);
      StepKeepsInv(c, s, Issue(code, e));
      StoreRecord(code, e);
      trace := others + [Issue(code, e)];
      assert trace[..|trace| - 1] == others;
    }

    /** Call `me` performs the statement that ends it, which left `next` of the call. */
    method Finish(me: nat, next: Call, ghost start: State, ghost trace: seq<Action>, ghost before: State)
      returns (ghost longer: seq<Action>)
      requires me < |calls| == |before.calls| && before == Run(c, start, trace)
      requires AdvanceCall(c, before, me) == SetCall(View(), me, next)
      modifies this`calls
      ensures calls == old(calls)[me := next]
      ensures longer == trace + [Advance(me)] && View() == Run(c, start, longer)
    {
      longer := trace + [Advance(me)];
      assert longer[..|longer| - 1] == trace;
      calls := calls[me := next];
    }

    /** The read, and what the call goes on to do. */
    method ReadAndDecide(me: nat, others: seq<Action>, ghost start: State, ghost trace: seq<Action>)
      returns (ghost longer: seq<Action>)
      requires me < |calls| && calls[me].at.Read? && Foreign(others, me) && View() == Run(c, start, trace)
      modifies this
      ensures longer == trace + others + [Advance(me)] && View() == Run(c, start, longer)
      ensures var seen := Run(c, start, trace + others);
              && View() == seen.(calls := calls) && |calls| == |seen.calls|
              && me < |calls| && calls[me].code == old(calls[me].code)
              && Decides(c, seen, calls[me].code, calls[me].at)
    {
      longer := Wait(me, others, start, trace);
      var raw := ReadKey();
      var at;
      if raw.None? {
        at := Done(NoCode);
      } else if !raw.value.Record? {
        at := Drop(NoCode);
      } else if raw.value.e <= now {
        at := Drop(Expired);
      } else if raw.value.h != c.hash(calls[me].code) {
        at := CountFailure(raw.value.h);
      } else {
        at := Consume(raw.value.h);
      }
      var glance := None;
      if raw.Some? && raw.value.Record? { glance := Some(Glance(now, entry.value.serial, raw.value.e)); }
      longer := Finish(me, calls[me].(at := at, read := glance), start, longer, View());
    }

    /** The last statement of a verification whose read said what to do. */
    method Settle(me: nat, ghost start: State, ghost trace: seq<Action>)
      returns (outcome: Outcome, ghost longer: seq<Action>)
      requires me < |calls| && View() == Run(c, start, trace)
               && (calls[me].at.Drop? || calls[me].at.CountFailure? || calls[me].at.Consume?)
      modifies this
      requires Inv(c, View())
      ensures View() == Run(c, start, longer) && me < |calls| && calls[me].at == Done(outcome)
              && calls[me].code == old(calls[me].code)
      ensures longer == trace + [Advance(me)]
      ensures MayEnd(old(calls[me].at), outcome)
      ensures old(calls[me].at.Drop?) || outcome == AttemptsExhausted || outcome == Verified ==> entry == None
      ensures SettlesFrom(c, old(entry), old(redisNow), old(calls[me].at), outcome, entry)
    {
      ghost var before := View();
      var call := calls[me];
      var serial := if entry.Some? then Some(entry.value.serial) else None;
      match call.at {
        case Drop(o) =>
          entry := None;
          outcome := o;
          longer := Finish(me, call.(at := Done(outcome)), start, trace, before);
        case CountFailure(h) =>
          var count := FailureScript(h, c.maxAttempts);
          outcome := if count == -1 then AttemptsExhausted else Invalid;
          longer := Finish(me, call.(at := Done(outcome), hit := if count != 0 then serial else None), start, trace,
                           before);
        case Consume(h) =>
          var consumed := ConsumeScript(h);
          outcome := if consumed == 1 then Verified else Invalid;
          longer := Finish(me, call.(at := Done(outcome), took := if consumed == 1 then serial else None), start,
                           trace, before);
      }
    }

    /** `verifyVerificationCode`. */
    method VerifyVerificationCode(code: string, beforeRead: seq<Action>, beforeWrite: seq<Action>)
      returns (outcome: Outcome, ghost trace: seq<Action>)
      requires Valid() && Foreign(beforeRead, |calls|) && Foreign(beforeWrite, |calls|)
      modifies this
      ensures Valid() && View() == Run(c, old(View()), trace)
      ensures old(|calls|) < |calls| && calls[old(|calls|)].at == Done(outcome) && calls[old(|calls|)].code == code
      ensures outcome == BadCode <==> !(|code| == 6 && forall i :: 0 <= i < 6 ==> '0' <= code[i] <= '9')
      ensures outcome != BadCode ==> AnswersSeen(c, Run(c, old(View()), [Begin(code)] + beforeRead), code, outcome)
      ensures outcome != BadCode && beforeRead == beforeWrite == [] ==>
                AnswersAlone(c, old(entry), old(now), old(redisNow), code, outcome, entry)
      ensures outcome == BadCode ==> trace == [Begin(code)]
      ensures outcome != Errored
      ensures outcome == Verified || outcome == AttemptsExhausted || outcome == Expired ==> entry == None
      ensures outcome == Verified <==> calls[old(|calls|)].took.Some?
      ensures outcome == Verified ==>
                && calls[old(|calls|)].took.value < |issued|
                && c.hash(code) == c.hash(issued[calls[old(|calls|)].took.value].code)
                && ReadInTime(c, View(), calls[old(|calls|)])
    {
      ghost var start := View();
      var me := |calls|;
      calls := calls + [Call(code, if SixDigits(code) then Read else Done(BadCode), None, None)];
      trace := [Begin(code)];
      assert trace[..0] == [];
      assert Run(c, start, trace) == Step(c, start, Begin(code));
      assert Step(c, start, Begin(code)) == View();
      StepKeepsInv(c, start, Begin(code));
      if !SixDigits(code) {
        outcome := BadCode;
      } else {
        outcome, trace := VerifyWellFormed(me, beforeRead, beforeWrite, start, trace);
      }
      assert CallOk(c, View(), calls[me]);
    }

    method VerifyWellFormed(
      me: nat, beforeRead: seq<Action>, beforeWrite: seq<Action>, ghost start: State, ghost trace: seq<Action>)
      returns (outcome: Outcome, ghost longer: seq<Action>)
      requires me < |calls| && calls[me].at.Read? && Foreign(beforeRead, me) && Foreign(beforeWrite, me)
      requires Valid() && View() == Run(c, start, trace) && Sound(c) && Inv(c, start)
      modifies this
      ensures Valid() && View() == Run(c, start, longer) && me < |calls| && calls[me].at == Done(outcome)
      ensures calls[me].code == old(calls[me].code) && outcome != BadCode && outcome != Errored
      ensures AnswersSeen(c, Run(c, start, trace + beforeRead), calls[me].code, outcome)
      ensures outcome == Verified || outcome == AttemptsExhausted || outcome == Expired ==> entry == None
      ensures beforeRead == beforeWrite == [] ==>
                AnswersAlone(c, old(entry), old(now), old(redisNow), calls[me].code, outcome, entry)
    {
      ghost var was := View();
      longer := ReadAndDecide(me, beforeRead, start, trace);
      ghost var (seen, decided) := (Run(c, start, trace + beforeRead), View());
      ghost var at := calls[me].at;
      if beforeRead == [] { assert trace + beforeRead == trace; }
      RunKeepsInv(c, start, longer);
      if calls[me].at.Done? {
        outcome := NoCode;
      } else {
        longer := Wait(me, beforeWrite, start, longer);
        RunKeepsInv(c, start, longer);
        assert beforeWrite == [] ==> View() == decided;
        outcome, longer := Settle(me, start, longer);
        RunKeepsInv(c, start, longer);
      }
      SeenFollows(c, seen, calls[me].code, at, outcome);
      if beforeRead == beforeWrite == [] {
        AloneFollows(c, was, calls[me].code, at, outcome, entry);
      }
    }
  }
}
