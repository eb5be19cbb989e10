/**
 * One-time codes in Redis: two atomic scripts beside plain reads, writes and deletes, under resends and
 * expiry (src/services/auth/verificationCodeStore.ts). The machine is one key of that store.
 */
module VerificationCodes {
  import opened Common

  /** `hash` is the keyed HMAC; the other three come from the environment, which makes them positive. */
  datatype Config = Config(hash: string -> string, maxAttempts: nat, ttlSeconds: nat, graceSeconds: nat)

  predicate Sound(c: Config) {
    c.maxAttempts > 0 && c.ttlSeconds > 0 && c.graceSeconds > 0
  }

  /** A stored value: this store's record, text that is not JSON, or JSON without the fields of a record. */
  datatype Value = Record(h: string, e: int, a: int) | Unparseable | Misshapen

  /** The key with its Redis expiry in milliseconds; `serial` says which issue a record goes back to. */
  datatype Entry = Entry(value: Value, dies: int, serial: nat)

  datatype Outcome = Verified | Invalid | Expired | NoCode | AttemptsExhausted | BadCode | Errored

  datatype CallPc =
    | Read | Drop(outcome: Outcome) | CountFailure(h: string) | Consume(h: string) | Done(outcome: Outcome)

  /** When a call read a record, which issue it was, and when that expires. */
  datatype Glance = Glance(at: int, serial: nat, e: int)

  /** One `verifyVerificationCode` in flight: the issues it read, counted against and consumed are history. */
  datatype Call = Call(code: string, at: CallPc, hit: Option<nat>, took: Option<nat>, read: Option<Glance> := None)

  /** What an issue put into the store. */
  datatype Issued = Issued(code: string, e: int, dies: int)

  /** The API's clock and Redis's own clock are separate. */
  datatype State = State(entry: Option<Entry>, now: int, redisNow: int, issued: seq<Issued>, calls: seq<Call>)

  datatype Action =
    | Tick(api: nat, redis: nat)
    | Issue(code: string, e: int)
    | Delete
    | Begin(code: string)
    | Advance(call: nat)
    | Abort(call: nat)

  predicate SixDigits(code: string) {
    |code| == 6 && forall i :: 0 <= i < 6 ==> '0' <= code[i] <= '9'
  }

  /** A key past its expiry is not there. */
  function Get(s: State): Option<Value> {
    if s.entry.Some? && s.redisNow <= s.entry.value.dies then Some(s.entry.value.value) else None
  }

  /** `TTL` rounds to the nearest second. */
  function TtlSeconds(s: State): int
    requires s.entry.Some?
  {
    (s.entry.value.dies - s.redisNow + 500) / 1000
  }

  function SetCall(s: State, i: nat, a: Call): State
    requires i < |s.calls|
  {
    s.(calls := s.calls[i := a])
  }

  /** What the consume script leaves, and its reply. */
  function Consumed(s: State, h: string): (State, int) {
    match Get(s)
    case None => (s, 0)
    case Some(Unparseable) => (s.(entry := None), 0)
    case Some(Misshapen) => (s, 0)
    case Some(Record(stored, _, _)) => if stored != h then (s, 0) else (s.(entry := None), 1)
  }

  /** What the failure script leaves, and its reply. */
  function Failed(s: State, h: string, maxAttempts: nat): (State, int) {
    match Get(s)
    case None => (s, 0)
    case Some(Unparseable) => (s.(entry := None), 0)
    case Some(Misshapen) => (s, 0)
    case Some(Record(stored, e, a)) =>
      if stored != h then (s, 0)
      else
        var ttl := TtlSeconds(s);
        if ttl <= 0 then (s.(entry := None), 0)
        else if a + 1 >= maxAttempts then (s.(entry := None), -1)
        else (s.(entry := Some(Entry(Record(stored, e, a + 1), s.redisNow + ttl * 1000, s.entry.value.serial))), a + 1)
  }

  /** Where a call goes on from the value it read. */
  function AfterRead(c: Config, code: string, now: int, read: Option<Value>): CallPc {
    match read
    case None => Done(NoCode)
    case Some(Unparseable) => Drop(NoCode)
    case Some(Misshapen) => Drop(NoCode)
    case Some(Record(h, e, _)) =>
      if e <= now then Drop(Expired) else if h != c.hash(code) then CountFailure(h) else Consume(h)
  }

  function Glanced(s: State): Option<Glance> {
    if Get(s).Some? && Get(s).value.Record? then Some(Glance(s.now, s.entry.value.serial, Get(s).value.e)) else None
  }

  function AdvanceCall(c: Config, s: State, i: nat): State
    requires i < |s.calls|
  {
    var call := s.calls[i];
    match call.at
    case Read => SetCall(s, i, call.(at := AfterRead(c, call.code, s.now, Get(s)), read := Glanced(s)))
    case Drop(outcome) => SetCall(s.(entry := None), i, call.(at := Done(outcome)))
    case CountFailure(h) =>
      var (t, count) := Failed(s, h, c.maxAttempts);
      SetCall(t, i, call.(at := Done(if count == -1 then AttemptsExhausted else Invalid),
                          hit := if count != 0 && s.entry.Some? then Some(s.entry.value.serial) else None))
    case Consume(h) =>
      var (t, taken) := Consumed(s, h);
      SetCall(t, i, call.(at := Done(if taken == 1 then Verified else Invalid),
                          took := if taken == 1 && s.entry.Some? then Some(s.entry.value.serial) else None))
    case Done(_) => s
  }

  function Step(c: Config, s: State, act: Action): State {
    match act
    case Tick(api, redis) => s.(now := s.now + api, redisNow := s.redisNow + redis)
    case Issue(code, e) =>
      var dies := s.redisNow + (c.ttlSeconds + c.graceSeconds) * 1000;
      s.(entry := Some(Entry(Record(c.hash(code), e, 0), dies, |s.issued|)), issued := s.issued
           + [Issued(code, e, dies)])
    case Delete => s.(entry := None)
    case Begin(code) => s.(calls := s.calls + [Call(code, if SixDigits(code) then Read else Done(BadCode), None, None)])
    case Advance(i) => if i < |s.calls| then AdvanceCall(c, s, i) else s
    case Abort(i) =>
      if i < |s.calls| && !s.calls[i].at.Done? then SetCall(s, i, s.calls[i].(at := Done(Errored))) else s
  }

  function Run(c: Config, s: State, acts: seq<Action>): State {
    if acts == [] then s else Step(c, Run(c, s, acts[..|acts| - 1]), acts[|acts| - 1])
  }

  lemma {:induction false} RunConcat(c: Config, s: State, a: seq<Action>, b: seq<Action>)
    ensures Run(c, s, a + b) == Run(c, Run(c, s, a), b)
  {
    if b == [] {
      assert a + b == a;
    } else {
      assert (a + b)[..|a + b| - 1] == a + b[..|b| - 1];
      RunConcat(c, s, a, b[..|b| - 1]);
    }
  }

  /** No code issued and no call in flight; the key may hold something that is not a record. */
  predicate Initial(s: State) {
    s.issued == [] && s.calls == [] && (s.entry.Some? ==> !s.entry.value.value.Record?)
  }

  // ----- the guessing budget

  /** Wrong codes counted against issue `k`. */
  function Hits(calls: seq<Call>, k: nat): (n: nat)
    ensures n <= |calls|
  {
    if calls == [] then 0
    else Hits(calls[..|calls| - 1], k) + (if calls[|calls| - 1].hit == Some(k) then 1 else 0)
  }

  lemma {:induction false} HitsUpdate(calls: seq<Call>, i: nat, a: Call, k: nat)
    requires i < |calls|
    ensures Hits(calls[i := a], k)
         == Hits(calls, k) + (if a.hit == Some(k) then 1 else 0) - (if calls[i].hit == Some(k) then 1 else 0)
  {
    var n := |calls| - 1;
    if i < n {
      assert calls[i := a][..n] == calls[..n][i := a];
      HitsUpdate(calls[..n], i, a, k);
    } else {
      assert calls[i := a][..n] == calls[..n];
    }
  }

  /** Issue `k` is what the key holds. */
  predicate Holds(s: State, k: nat) {
    s.entry.Some? && s.entry.value.value.Record? && s.entry.value.serial == k
  }

  /**
   * The stored record is the issue it goes back to, with its failures counted and at most half a second gained
   * per failure.
   */
  ghost predicate RecordOk(c: Config, s: State) {
    s.entry.Some? && s.entry.value.value.Record? ==>
      var k, r := s.entry.value.serial, s.entry.value.value;
      && k < |s.issued|
      && r.h == c.hash(s.issued[k].code) && r.e == s.issued[k].e
      && r.a == Hits(s.calls, k) && 0 <= r.a < c.maxAttempts
      && s.entry.value.dies <= s.issued[k].dies + 500 * r.a
  }

  predicate CallOk(c: Config, s: State, call: Call) {
    && (call.took.Some? <==> call.at == Done(Verified))
    && (call.at == Done(AttemptsExhausted) ==> call.hit.Some?)
    && (call.hit.Some? ==> call.at == Done(Invalid) || call.at == Done(AttemptsExhausted))
    && (call.hit.Some? ==>
          call.at.Done? && call.hit.value < |s.issued| && c.hash(call.code) != c.hash(s.issued[call.hit.value].code))
    && (call.took.Some? ==> call.took.value < |s.issued| && !Holds(s, call.took.value)
                            && c.hash(call.code) == c.hash(s.issued[call.took.value].code))
    && (call.at.CountFailure? ==> call.at.h != c.hash(call.code))
    && (call.at.Consume? ==> call.at.h == c.hash(call.code))
    && (call.at.Drop? ==> call.at.outcome == NoCode || call.at.outcome == Expired)
    && (call.at.Consume? || call.took.Some? ==> ReadInTime(c, s, call))
  }

  /** The call read a record with the hash of its code before that record expired. */
  predicate ReadInTime(c: Config, s: State, call: Call) {
    && call.read.Some? && call.read.value.serial < |s.issued|
    && var issue := s.issued[call.read.value.serial];
       call.read.value.e == issue.e && call.read.value.at < issue.e && c.hash(call.code) == c.hash(issue.code)
  }

  ghost predicate Spent(c: Config, s: State, k: nat) {
    && Hits(s.calls, k) <= c.maxAttempts
    && (Hits(s.calls, k) == c.maxAttempts ==>
          !Holds(s, k) && forall i :: 0 <= i < |s.calls| ==> s.calls[i].took != Some(k))
  }

  ghost predicate OneWinner(s: State) {
    forall i, j :: 0 <= i < j < |s.calls| && s.calls[i].took.Some? ==> s.calls[i].took != s.calls[j].took
  }

  ghost predicate Inv(c: Config, s: State) {
    && RecordOk(c, s)
    && (forall i :: 0 <= i < |s.calls| ==> CallOk(c, s, s.calls[i]))
    && OneWinner(s)
    && (forall k :: k >= |s.issued| ==> Hits(s.calls, k) == 0)
    && (forall k :: 0 <= k < |s.issued| ==> Spent(c, s, k))
  }

  /** The key is emptied, or left as it is. */
  predicate Emptied(s: State, t: State) {
    t == s || t == s.(entry := None)
  }

  lemma EmptyingKeepsInv(c: Config, s: State, t: State)
    requires Inv(c, s) && Emptied(s, t)
    ensures Inv(c, t)
  {
    forall k | 0 <= k < |t.issued| ensures Spent(c, t, k) { assert Spent(c, s, k); }
    forall i | 0 <= i < |t.calls| ensures CallOk(c, t, t.calls[i]) { assert CallOk(c, s, s.calls[i]); }
  }

  /** A call moves on without counting or consuming anything. */
  lemma ControlKeepsInv(c: Config, s: State, i: nat, a: Call)
    requires Inv(c, s) && i < |s.calls| && !s.calls[i].at.Done?
    requires a.hit == s.calls[i].hit && a.took == s.calls[i].took && CallOk(c, s, a)
    ensures Inv(c, SetCall(s, i, a))
  {
    var t := SetCall(s, i, a);
    assert CallOk(c, s, s.calls[i]);
    forall k ensures Hits(t.calls, k) == Hits(s.calls, k) { HitsUpdate(s.calls, i, a, k); }
    forall j | 0 <= j < |t.calls| ensures CallOk(c, t, t.calls[j]) { assert CallOk(c, s, s.calls[j]); }
    forall k | 0 <= k < |t.issued| ensures Spent(c, t, k) { assert Spent(c, s, k); }
  }

  lemma IssueKeepsInv(c: Config, s: State, code: string, e: int)
    requires Inv(c, s) && Sound(c)
    ensures Inv(c, Step(c, s, Issue(code, e)))
  {
    var t := Step(c, s, Issue(code, e));
    var n := |s.issued|;
    assert Hits(s.calls, n) == 0;
    forall k | 0 <= k < |t.issued| ensures Spent(c, t, k) {
      if k < n { assert Spent(c, s, k); }
    }
    forall j | 0 <= j < |t.calls| ensures CallOk(c, t, t.calls[j]) { assert CallOk(c, s, s.calls[j]); }
  }

  lemma BeginKeepsInv(c: Config, s: State, code: string)
    requires Inv(c, s)
    ensures Inv(c, Step(c, s, Begin(code)))
  {
    var t := Step(c, s, Begin(code));
    assert t.calls[..|t.calls| - 1] == s.calls;
    forall k ensures Hits(t.calls, k) == Hits(s.calls, k) { }
    forall k | 0 <= k < |t.issued| ensures Spent(c, t, k) { assert Spent(c, s, k); }
    forall j | 0 <= j < |t.calls| ensures CallOk(c, t, t.calls[j]) {
      if j < |s.calls| { assert CallOk(c, s, s.calls[j]); }
    }
  }

  /** The consume script takes the record it was asked for. */
  lemma TakeKeepsInv(c: Config, s: State, i: nat)
    requires Inv(c, s) && i < |s.calls| && s.calls[i].at.Consume? && Consumed(s, s.calls[i].at.h).1 == 1
    ensures Inv(c, AdvanceCall(c, s, i))
  {
    var t, n := AdvanceCall(c, s, i), s.entry.value.serial;
    assert Holds(s, n) && CallOk(c, s, s.calls[i]) && Spent(c, s, n);
    forall k ensures Hits(t.calls, k) == Hits(s.calls, k) { HitsUpdate(s.calls, i, t.calls[i], k); }
    forall j | 0 <= j < |t.calls| ensures CallOk(c, t, t.calls[j]) { assert CallOk(c, s, s.calls[j]); }
    forall k | 0 <= k < |t.issued| ensures Spent(c, t, k) { assert Spent(c, s, k); }
  }

  /** The failure script counts a wrong code. */
  lemma CountKeepsInv(c: Config, s: State, i: nat)
    requires Inv(c, s) && i < |s.calls| && s.calls[i].at.CountFailure?
             && Failed(s, s.calls[i].at.h, c.maxAttempts).1 != 0
    ensures Inv(c, AdvanceCall(c, s, i))
  {
    var t, n := AdvanceCall(c, s, i), s.entry.value.serial;
    assert Holds(s, n) && CallOk(c, s, s.calls[i]) && Spent(c, s, n);
    forall k ensures Hits(t.calls, k) == Hits(s.calls, k) + (if k == n then 1 else 0) {
      HitsUpdate(s.calls, i, t.calls[i], k);
    }
    forall j | 0 <= j < |t.calls| ensures CallOk(c, t, t.calls[j]) { assert CallOk(c, s, s.calls[j]); }
    NobodyTookHeld(c, s, n);
    forall k | 0 <= k < |t.issued| ensures Spent(c, t, k) { assert Spent(c, s, k); }
  }

  /** The record on the key has been consumed by nobody. */
  lemma NobodyTookHeld(c: Config, s: State, n: nat)
    requires Inv(c, s) && Holds(s, n)
    ensures forall j :: 0 <= j < |s.calls| ==> s.calls[j].took != Some(n)
  {
    forall j | 0 <= j < |s.calls| ensures s.calls[j].took != Some(n) { assert CallOk(c, s, s.calls[j]); }
  }

  lemma AdvanceKeepsInv(c: Config, s: State, i: nat)
    requires Inv(c, s) && Sound(c) && i < |s.calls|
    ensures Inv(c, AdvanceCall(c, s, i))
  {
    var call := s.calls[i];
    assert CallOk(c, s, call);
    match call.at
    case Read => ControlKeepsInv(c, s, i, call.(at := AfterRead(c, call.code, s.now, Get(s)), read := Glanced(s)));
    case Drop(outcome) =>
      EmptyingKeepsInv(c, s, s.(entry := None));
      ControlKeepsInv(c, s.(entry := None), i, call.(at := Done(outcome)));
    case CountFailure(h) =>
      var (t, count) := Failed(s, h, c.maxAttempts);
      if count != 0 {
        CountKeepsInv(c, s, i);
      } else {
        EmptyingKeepsInv(c, s, t);
        ControlKeepsInv(c, t, i, call.(at := Done(Invalid)));
      }
    case Consume(h) =>
      var (t, taken) := Consumed(s, h);
      if taken == 1 {
        TakeKeepsInv(c, s, i);
      } else {
        EmptyingKeepsInv(c, s, t);
        ControlKeepsInv(c, t, i, call.(at := Done(Invalid)));
      }
    case Done(_) =>
  }

  lemma StepKeepsInv(c: Config, s: State, act: Action)
    requires Inv(c, s) && Sound(c)
    ensures Inv(c, Step(c, s, act))
  {
    match act
    case Tick(_, _) => TickKeepsInv(c, s, act);
    case Issue(code, e) => IssueKeepsInv(c, s, code, e);
    case Delete => EmptyingKeepsInv(c, s, s.(entry := None));
    case Begin(code) => BeginKeepsInv(c, s, code);
    case Advance(i) => if i < |s.calls| { AdvanceKeepsInv(c, s, i); }
    case Abort(i) =>
      if i < |s.calls| && !s.calls[i].at.Done? {
        assert CallOk(c, s, s.calls[i]);
        ControlKeepsInv(c, s, i, s.calls[i].(at := Done(Errored)));
      }
  }

  lemma TickKeepsInv(c: Config, s: State, act: Action)
    requires Inv(c, s) && act.Tick?
    ensures Inv(c, Step(c, s, act))
  {
    var t := Step(c, s, act);
    forall k | 0 <= k < |t.issued| ensures Spent(c, t, k) { assert Spent(c, s, k); }
    forall j | 0 <= j < |t.calls| ensures CallOk(c, t, t.calls[j]) { assert CallOk(c, s, s.calls[j]); }
  }

  lemma {:induction false} RunKeepsInv(c: Config, s: State, acts: seq<Action>)
    requires Inv(c, s) && Sound(c)
    ensures Inv(c, Run(c, s, acts))
  {
    if acts != [] {
      RunKeepsInv(c, s, acts[..|acts| - 1]);
      StepKeepsInv(c, Run(c, s, acts[..|acts| - 1]), acts[|acts| - 1]);
    }
  }

  /**
   * The budget of every issued code, in every interleaving of issues, verifications, deletions and expiry:
   * one "verified" at most; at most max counted failures, the last of which removes the record and leaves
   * the code unusable; so at most max - 1 beside a "verified". Only a wrong code is counted.
   */
  lemma BudgetHolds(c: Config, s: State, acts: seq<Action>, k: nat)
    requires Initial(s) && Sound(c) && k < |Run(c, s, acts).issued|
    ensures var t := Run(c, s, acts);
            && Hits(t.calls, k) <= c.maxAttempts
            && (forall i, j ::
                  0 <= i < |t.calls| && 0 <= j < |t.calls| && t.calls[i].took == t.calls[j].took == Some(k) ==> i == j)
            && (forall i :: 0 <= i < |t.calls| && t.calls[i].took == Some(k) ==>
                  Hits(t.calls, k) < c.maxAttempts && !Holds(t, k))
            && (forall i :: 0 <= i < |t.calls| && t.calls[i].hit == Some(k) ==>
                  c.hash(t.calls[i].code) != c.hash(t.issued[k].code))
            && (Hits(t.calls, k) == c.maxAttempts ==> !Holds(t, k))
            && (Holds(t, k) ==> t.entry.value.value.a == Hits(t.calls, k) < c.maxAttempts)
  {
    RunKeepsInv(c, s, acts);
    var t := Run(c, s, acts);
    assert Spent(c, t, k);
    forall i | 0 <= i < |t.calls| ensures CallOk(c, t, t.calls[i]) { }
  }

  /** "verified" is answered exactly when the call consumed one issued record, whose code had the same hash. */
  lemma VerifiedMatches(c: Config, s: State, acts: seq<Action>, i: nat)
    requires Initial(s) && Sound(c) && i < |Run(c, s, acts).calls|
    ensures var t := Run(c, s, acts);
            var call := t.calls[i];
            && (call.at == Done(Verified) <==> call.took.Some?)
            && (call.took.Some? ==>
                  call.took.value < |t.issued| && c.hash(call.code) == c.hash(t.issued[call.took.value].code))
  {
    RunKeepsInv(c, s, acts);
    assert CallOk(c, Run(c, s, acts), Run(c, s, acts).calls[i]);
  }

  /** A "verified" call read a record of its code before that record expired. */
  lemma VerifiedReadInTime(c: Config, s: State, acts: seq<Action>, i: nat)
    requires Initial(s) && Sound(c) && i < |Run(c, s, acts).calls| && Run(c, s, acts).calls[i].at == Done(Verified)
    ensures ReadInTime(c, Run(c, s, acts), Run(c, s, acts).calls[i])
  {
    RunKeepsInv(c, s, acts);
    assert CallOk(c, Run(c, s, acts), Run(c, s, acts).calls[i]);
  }

  /** The consumption itself does not look at the clock: a call that read in time is verified after the expiry. */
  lemma ConsumedAfterExpiry(c: Config, code: string)
    requires Sound(c) && SixDigits(code)
    ensures var e := c.ttlSeconds * 1000;
            var t := Run(c, State(None, 0, 0, [], []),
                         [Issue(code, e), Begin(code), Advance(0), Tick(e, e), Advance(0)]);
            |t.calls| == 1 && |t.issued| == 1 && t.calls[0].at == Done(Verified) && t.now >= t.issued[0].e
  {
    var e := c.ttlSeconds * 1000;
    var acts := [Issue(code, e), Begin(code), Advance(0), Tick(e, e), Advance(0)];
    var s0 := State(None, 0, 0, [], []);
    assert acts[..5] == acts && Run(c, s0, acts[..0]) == s0;
    forall k | 0 <= k < 5 ensures Run(c, s0, acts[..k + 1]) == Step(c, Run(c, s0, acts[..k]), acts[k]) {
      assert acts[..k + 1][..k] == acts[..k];
    }
    var s3 := Step(c, Step(c, Step(c, s0, acts[0]), acts[1]), acts[2]);
    assert s3.calls == [Call(code, Consume(c.hash(code)), None, None, Some(Glance(0, 0, e)))];
    var s5 := Step(c, Step(c, s3, acts[3]), acts[4]);
    assert s5.calls[0].at == Done(Verified);
    assert Run(c, s0, acts) == s5;
  }

  // ----- what the read decides

  /** The `k`-th action is call `i` reading the key. */
  predicate IsRead(c: Config, s: State, acts: seq<Action>, k: nat, i: nat) {
    && k < |acts| && acts[k] == Advance(i)
    && var t := Run(c, s, acts[..k]); i < |t.calls| && t.calls[i].at.Read?
  }

  /** In `t` the key holds a record that Redis still has. */
  predicate LiveRecord(t: State) {
    t.entry.Some? && t.redisNow <= t.entry.value.dies && t.entry.value.value.Record?
  }

  /** What may become of a call that read the key in `t`: the expiry comes first, whatever the code. */
  predicate FollowsRead(c: Config, t: State, call: Call) {
    if call.at == Done(Errored) then call.hit == None && call.took == None
    else if !LiveRecord(t) then
      && call.hit == None && call.took == None && call.read == None
      && (call.at == Done(NoCode) || (call.at == Drop(NoCode) && t.entry.Some? && t.redisNow <= t.entry.value.dies))
    else
      var (h, e) := (t.entry.value.value.h, t.entry.value.value.e);
      && call.read == Some(Glance(t.now, t.entry.value.serial, e))
      && (if e <= t.now then
            call.hit == None && call.took == None && (call.at == Drop(Expired) || call.at == Done(Expired))
          else if h == c.hash(call.code) then
            && call.hit == None && (call.at == Consume(h) || call.at == Done(Verified) || call.at == Done(Invalid))
            && (call.at == Consume(h) ==> call.took == None)
          else
            && call.took == None
            && (call.at == CountFailure(h) || call.at == Done(Invalid) || call.at == Done(AttemptsExhausted))
            && (call.at == CountFailure(h) ==> call.hit == None))
  }

  lemma ReadStepDecides(c: Config, s: State, i: nat)
    requires Inv(c, s) && i < |s.calls| && s.calls[i].at.Read?
    ensures FollowsRead(c, s, Step(c, s, Advance(i)).calls[i])
  {
    assert CallOk(c, s, s.calls[i]);
  }

  lemma DecidedStays(c: Config, t: State, s: State, act: Action, i: nat)
    requires i < |s.calls| && FollowsRead(c, t, s.calls[i])
    ensures i < |Step(c, s, act).calls| && FollowsRead(c, t, Step(c, s, act).calls[i])
  {
  }

  /** In every run, what a call found when it read the key decides what it can come to. */
  lemma {:induction false} ReadDecides(c: Config, s: State, acts: seq<Action>, k: nat, i: nat)
    requires Initial(s) && Sound(c) && IsRead(c, s, acts, k, i)
    ensures i < |Run(c, s, acts).calls| && FollowsRead(c, Run(c, s, acts[..k]), Run(c, s, acts).calls[i])
  {
    var n := |acts| - 1;
    RunKeepsInv(c, s, acts[..n]);
    if k == n {
      ReadStepDecides(c, Run(c, s, acts[..n]), i);
    } else {
      assert acts[..n][..k] == acts[..k];
      ReadDecides(c, s, acts[..n], k, i);
      DecidedStays(c, Run(c, s, acts[..k]), Run(c, s, acts[..n]), acts[n], i);
    }
  }

  /** A call that is past its read, and has not failed on the way, read the key at some step. */
  lemma {:induction false} EveryAnswerWasRead(c: Config, s: State, acts: seq<Action>, i: nat)
    requires s.calls == [] && i < |Run(c, s, acts).calls|
    requires var at := Run(c, s, acts).calls[i].at; !at.Read? && at != Done(Errored) && at != Done(BadCode)
    ensures exists k: nat :: IsRead(c, s, acts, k, i)
  {
    var n := |acts| - 1;
    var before := Run(c, s, acts[..n]);
    assert Run(c, s, acts) == Step(c, before, acts[n]);
    if i < |before.calls| && before.calls[i].at.Read? {
      assert IsRead(c, s, acts, n, i);
    } else {
      EveryAnswerWasRead(c, s, acts[..n], i);
      var k: nat :| IsRead(c, s, acts[..n], k, i);
      assert acts[..n][..k] == acts[..k] && IsRead(c, s, acts, k, i);
    }
  }

  /** The read found a record past its expiry. */
  predicate ReadsExpired(c: Config, s: State, acts: seq<Action>, k: nat, i: nat) {
    && IsRead(c, s, acts, k, i)
    && var t := Run(c, s, acts[..k]); LiveRecord(t) && t.entry.value.value.e <= t.now
  }

  /** The read found a record of another code than `code`, before its expiry. */
  predicate ReadsOther(c: Config, s: State, acts: seq<Action>, k: nat, i: nat, code: string) {
    && IsRead(c, s, acts, k, i)
    && var t := Run(c, s, acts[..k]);
       LiveRecord(t) && t.now < t.entry.value.value.e && t.entry.value.value.h != c.hash(code)
  }

  /**
   * In every run: a call is told its code has expired exactly when the record it read had, whatever code it
   * carried, unless it fails; and a failure is counted only by a call that read a record of another code
   * before that record expired.
   */
  lemma ExpiryComesFirst(c: Config, s: State, acts: seq<Action>, i: nat)
    requires Initial(s) && Sound(c) && i < |Run(c, s, acts).calls|
    ensures var call := Run(c, s, acts).calls[i];
            && (call.at == Drop(Expired) || call.at == Done(Expired) <==>
                  call.at != Done(Errored) && exists k: nat :: ReadsExpired(c, s, acts, k, i))
            && (call.hit.Some? ==> exists k: nat :: ReadsOther(c, s, acts, k, i, call.code))
  {
    var call := Run(c, s, acts).calls[i];
    RunKeepsInv(c, s, acts);
    assert CallOk(c, Run(c, s, acts), call);
    if call.hit.Some? || call.at == Drop(Expired) || call.at == Done(Expired) {
      EveryAnswerWasRead(c, s, acts, i);
      var k: nat :| IsRead(c, s, acts, k, i);
      ReadDecides(c, s, acts, k, i);
      assert ReadsExpired(c, s, acts, k, i) || ReadsOther(c, s, acts, k, i, call.code);
    }
    if k: nat :| ReadsExpired(c, s, acts, k, i) { ReadDecides(c, s, acts, k, i); }
  }

  // ----- what ends an issued code

  /**
   * Exactly these steps take a live record away: a resend, a deletion, the unconditional delete of a
   * request that read an unusable or expired value, the consumption of its hash, and the failure that
   * spends its budget (or finds under half a second of retention left).
   */
  lemma RecordLeavesIff(c: Config, s: State, k: nat, act: Action)
    requires Inv(c, s) && Holds(s, k) && s.redisNow <= s.entry.value.dies
    ensures !Holds(Step(c, s, act), k) <==>
              || act.Issue? || act.Delete?
              || (act.Advance? && act.call < |s.calls|
                  && var at := s.calls[act.call].at;
                     || at.Drop?
                     || (at.Consume? && at.h == c.hash(s.issued[k].code))
                     || (at.CountFailure? && at.h == c.hash(s.issued[k].code)
                         && (TtlSeconds(s) <= 0 || Hits(s.calls, k) + 1 >= c.maxAttempts)))
  {
  }

  /**
   * An answer of "verified" comes only from the step that consumes a live record holding the hash of the
   * submitted code.
   */
  lemma VerifiedAtConsumption(c: Config, s: State, act: Action, i: nat)
    requires Inv(c, s) && i < |s.calls| && s.calls[i].at != Done(Verified)
             && Step(c, s, act).calls[i].at == Done(Verified)
    ensures act == Advance(i) && Get(s).Some? && Get(s).value.Record? && Get(s).value.h == c.hash(s.calls[i].code)
    ensures Step(c, s, act).entry == None && Step(c, s, act).calls[i].took == Some(s.entry.value.serial)
  {
    assert CallOk(c, s, s.calls[i]);
  }

  /** An issue that has left the key stays out of it: no later step counts against it or consumes it. */
  lemma {:induction false} GoneStays(c: Config, s: State, k: nat, acts: seq<Action>)
    requires Inv(c, s) && Sound(c) && k < |s.issued| && !Holds(s, k)
    ensures var t := Run(c, s, acts);
            && !Holds(t, k) && Hits(t.calls, k) == Hits(s.calls, k)
            && |s.issued| <= |t.issued| && |s.calls| <= |t.calls|
            && forall i :: 0 <= i < |t.calls| && t.calls[i].took == Some(k) ==>
                 i < |s.calls| && s.calls[i].took == Some(k)
  {
    if acts != [] {
      var before, act := acts[..|acts| - 1], acts[|acts| - 1];
      GoneStays(c, s, k, before);
      RunKeepsInv(c, s, before);
      GoneStep(c, Run(c, s, before), k, act);
    }
  }

  lemma GoneStep(c: Config, s: State, k: nat, act: Action)
    requires Inv(c, s) && k < |s.issued| && !Holds(s, k)
    ensures var t := Step(c, s, act);
            && !Holds(t, k) && Hits(t.calls, k) == Hits(s.calls, k)
            && |s.issued| <= |t.issued| && |s.calls| <= |t.calls|
            && forall i :: 0 <= i < |t.calls| && t.calls[i].took == Some(k) ==>
                 i < |s.calls| && s.calls[i].took == Some(k)
  {
    var t := Step(c, s, act);
    match act
    case Begin(_) => assert t.calls[..|t.calls| - 1] == s.calls;
    case Advance(i) => if i < |s.calls| { GoneAdvance(c, s, k, i); HitsUpdate(s.calls, i, t.calls[i], k); }
    case Abort(i) => if i < |s.calls| { assert CallOk(c, s, s.calls[i]); HitsUpdate(s.calls, i, t.calls[i], k); }
    case _ =>
  }

  lemma GoneAdvance(c: Config, s: State, k: nat, i: nat)
    requires Inv(c, s) && k < |s.issued| && !Holds(s, k) && i < |s.calls|
    ensures var t := AdvanceCall(c, s, i);
            && !Holds(t, k) && t.issued == s.issued && t.calls == s.calls[i := t.calls[i]]
            && (t.calls[i].hit == Some(k) <==> s.calls[i].hit == Some(k))
            && (t.calls[i].took == Some(k) <==> s.calls[i].took == Some(k))
  {
    assert CallOk(c, s, s.calls[i]);
  }

  /**
   * The scripts protect a resent code from an older request, but the delete of an expired record does not:
   * a request that read the expired record and is overtaken by a resend deletes the fresh code, which then
   * cannot be verified.
   */
  lemma ExpiredRequestDropsNewCode(c: Config, stale: string, renewed: string)
    requires Sound(c) && SixDigits(stale) && SixDigits(renewed)
    ensures var late := c.ttlSeconds * 1000;
            var acts := [Issue(stale, late), Tick(late, late), Begin(stale), Advance(0), Issue(renewed, 2 * late),
                         Advance(0),
                         Begin(renewed), Advance(1)];
            var t := Run(c, State(None, 0, 0, [], []), acts);
            && |t.calls| == 2 && |t.issued| == 2
            && t.calls[0].at == Done(Expired) && t.calls[1].at == Done(NoCode) && t.now < t.issued[1].e
  {
    var late := c.ttlSeconds * 1000;
    var acts := [Issue(stale, late), Tick(late, late), Begin(stale), Advance(0), Issue(renewed, 2 * late), Advance(0),
                 Begin(renewed), Advance(1)];
    var s0 := State(None, 0, 0, [], []);
    EightSteps(c, s0, acts);
    var s4 := Step(c, Step(c, Step(c, Step(c, s0, acts[0]), acts[1]), acts[2]), acts[3]);
    assert s4.calls == [Call(stale, Drop(Expired), None, None, Some(Glance(late, 0, late)))];
    var s6 := Step(c, Step(c, s4, acts[4]), acts[5]);
    assert s6.entry == None && s6.calls == [Call(stale, Done(Expired), None, None, Some(Glance(late, 0, late)))]
           && s6.issued[1].e == 2 * late;
    var s8 := Step(c, Step(c, s6, acts[6]), acts[7]);
    assert s8.calls
             == [Call(stale, Done(Expired), None, None, Some(Glance(late, 0, late))),
                 Call(renewed, Done(NoCode), None, None)];
    assert Run(c, s0, acts) == s8;
  }

  lemma EightSteps(c: Config, s: State, acts: seq<Action>)
    requires |acts| == 8
    ensures Run(c, s, acts)
         == Step(c,
                 Step(c,
                      Step(c,
                           Step(c, Step(c, Step(c, Step(c, Step(c, s, acts[0]), acts[1]), acts[2]), acts[3]),
                                acts[4]), acts[5]), acts[6]), acts[7])
  {
    assert acts[..8] == acts && Run(c, s, acts[..0]) == s;
    forall k | 0 <= k < 8 ensures Run(c, s, acts[..k + 1]) == Step(c, Run(c, s, acts[..k]), acts[k]) {
      assert acts[..k + 1][..k] == acts[..k];
    }
  }

  // ----- the budget is exact

  /** One verification with nothing else running. */
  function Alone(c: Config, s: State, code: string): State {
    var n := |s.calls|;
    Step(c, Step(c, Step(c, s, Begin(code)), Advance(n)), Advance(n))
  }

  function AllAlone(c: Config, s: State, codes: seq<string>): State {
    if codes == [] then s else Alone(c, AllAlone(c, s, codes[..|codes| - 1]), codes[|codes| - 1])
  }

  lemma AloneIsARun(c: Config, s: State, code: string)
    ensures Alone(c, s, code) == Run(c, s, [Begin(code), Advance(|s.calls|), Advance(|s.calls|)])
  {
    var acts := [Begin(code), Advance(|s.calls|), Advance(|s.calls|)];
    assert acts[..2][..1] == acts[..1] && acts[..1][..0] == [];
    assert Run(c, s, acts[..1]) == Step(c, s, Begin(code));
    assert Run(c, s, acts[..2]) == Step(c, Run(c, s, acts[..1]), Advance(|s.calls|));
  }

  /** What one verification does alone to a live, unexpired record with no retention lost. */
  lemma AloneOnRecord(c: Config, s: State, code: string, h: string, e: int, a: nat, retention: nat, serial: nat)
    requires s.entry == Some(Entry(Record(h, e, a), s.redisNow + retention * 1000, serial))
    requires retention > 0 && e > s.now && SixDigits(code)
    ensures var t := Alone(c, s, code);
            && t == s.(entry := t.entry, calls := t.calls) && |t.calls| == |s.calls| + 1
            && t.calls[..|s.calls|] == s.calls
            && (c.hash(code) == h ==> t.entry == None && t.calls[|s.calls|].at == Done(Verified))
            && (c.hash(code) != h ==>
                  && t.entry
                       == (if a + 1 < c.maxAttempts then Some(s.entry.value.(value := Record(h, e, a + 1))) else None)
                  && t.calls[|s.calls|].at == Done(if a + 1 < c.maxAttempts then Invalid else AttemptsExhausted))
  {
    var n := |s.calls|;
    assert TtlSeconds(s) == retention;
    var s1 := Step(c, s, Begin(code));
    var s2 := Step(c, s1, Advance(n));
    assert s2
             == SetCall(s1, n,
                        Call(code, if h != c.hash(code)
                               then CountFailure(h) else Consume(h), None, None, Some(Glance(s.now, serial, e))));
    assert TtlSeconds(s2) == retention;
  }

  lemma AloneOnNothing(c: Config, s: State, code: string)
    requires s.entry == None && SixDigits(code)
    ensures Alone(c, s, code) == s.(calls := s.calls + [Call(code, Done(NoCode), None, None)])
  {
    var s1 := Step(c, s, Begin(code));
    assert Step(c, s1, Advance(|s.calls|)) == s.(calls := s.calls + [Call(code, Done(NoCode), None, None)]);
  }

  /** The answer to the n-th wrong guess. */
  function GuessOutcome(c: Config, n: int): Outcome {
    if n < c.maxAttempts then Invalid else if n == c.maxAttempts then AttemptsExhausted else NoCode
  }

  /** `n` wrong guesses alone after an issue in `s`: one attempt burnt each, expiry and retention as they were. */
  ghost predicate Guessed(c: Config, s: State, code: string, e: int, n: nat, t: State) {
    && t.now == s.now && t.redisNow == s.redisNow && |t.calls| == |s.calls| + n
    && (n < c.maxAttempts ==>
          t.entry
            == Some(Entry(Record(c.hash(code), e, n), s.redisNow + (c.ttlSeconds + c.graceSeconds) * 1000, |s.issued|)))
    && (n >= c.maxAttempts ==> t.entry == None)
    && forall j :: |s.calls| <= j < |t.calls| ==> t.calls[j].at == Done(GuessOutcome(c, j - |s.calls| + 1))
  }

  lemma OneMoreGuess(c: Config, s: State, code: string, e: int, n: nat, t: State, guess: string)
    requires Sound(c) && e > s.now && Guessed(c, s, code, e, n, t) && SixDigits(guess) && c.hash(guess) != c.hash(code)
    ensures Guessed(c, s, code, e, n + 1, Alone(c, t, guess))
  {
    var u := Alone(c, t, guess);
    if n < c.maxAttempts {
      AloneOnRecord(c, t, guess, c.hash(code), e, n, c.ttlSeconds + c.graceSeconds, |s.issued|);
    } else {
      AloneOnNothing(c, t, guess);
    }
    assert u.calls[..|t.calls|] == t.calls;
    forall j | |s.calls| <= j < |u.calls| ensures u.calls[j].at == Done(GuessOutcome(c, j - |s.calls| + 1)) {
      if j < |t.calls| { assert u.calls[j] == t.calls[j]; }
    }
  }

  lemma {:induction false} WrongGuessesAlone(c: Config, s: State, code: string, e: int, guesses: seq<string>)
    requires Sound(c) && e > s.now
    requires forall i :: 0 <= i < |guesses| ==> SixDigits(guesses[i]) && c.hash(guesses[i]) != c.hash(code)
    ensures Guessed(c, s, code, e, |guesses|, AllAlone(c, Step(c, s, Issue(code, e)), guesses))
  {
    if guesses != [] {
      var before := guesses[..|guesses| - 1];
      WrongGuessesAlone(c, s, code, e, before);
      OneMoreGuess(c, s, code, e, |before|, AllAlone(c, Step(c, s, Issue(code, e)), before), guesses[|before|]);
    }
  }

  /**
   * With nobody else about, max - 1 wrong guesses still leave the right code good, and max leave nothing:
   * the right code is then answered as if none had been issued.
   */
  lemma BudgetIsExact(c: Config, s: State, code: string, e: int, guesses: seq<string>)
    requires Sound(c) && e > s.now && SixDigits(code)
    requires forall i :: 0 <= i < |guesses| ==> SixDigits(guesses[i]) && c.hash(guesses[i]) != c.hash(code)
    ensures var t := Alone(c, AllAlone(c, Step(c, s, Issue(code, e)), guesses), code);
            |t.calls| == |s.calls| + |guesses| + 1
            && t.calls[|s.calls| + |guesses|].at == Done(if |guesses| < c.maxAttempts then Verified else NoCode)
  {
    WrongGuessesAlone(c, s, code, e, guesses);
    var u := AllAlone(c, Step(c, s, Issue(code, e)), guesses);
    if |guesses| < c.maxAttempts {
      AloneOnRecord(c, u, code, c.hash(code), e, |guesses|, c.ttlSeconds + c.graceSeconds, |s.issued|);
    } else {
      AloneOnNothing(c, u, code);
    }
  }
}
