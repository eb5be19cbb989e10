/**
 * Session tokens under key rotation (src/config/jwt.ts): signing and verifying are functions of the
 * configured keys and the clock, and a rotation history is a run of configurations.
 */
module Jwt {
  import opened Common

  /** A decoded token: the key that signed it, and the claims read here. Times are whole seconds. */
  datatype Token = Garbage | Signed(key: string, sub: Option<string>, exp: Option<int>)

  datatype RetireAt = Unset | Unparseable | At(ms: int)

  /** The environment; the lifetime is in seconds. */
  datatype Keys = Keys(current: string, previous: Option<string>, retire: RetireAt, lifetime: nat)

  datatype Failure = Malformed | Expired

  /** `jwt.verify`: the signature first, then the expiry. */
  function VerifyWith(token: Token, key: string, now: int): Result<Token, Failure> {
    if token.Garbage? || token.key != key then Err(Malformed)
    else if token.exp.Some? && now / 1000 >= token.exp.value then Err(Expired)
    else Ok(token)
  }

  /** What the environment schema asks of a secret. */
  predicate SecretOk(key: string) { |key| >= 32 }

  /** The previous key is consulted only when it is set, with a readable retire time in the future. */
  predicate PreviousSecretActive(k: Keys, now: int) {
    && k.previous.Some? && k.previous.value != ""
    && k.retire.At? && k.retire.ms > now
  }

  function CheckClaims(token: Token): Result<string, Failure>
    requires token.Signed?
  {
    if token.sub.None? || token.sub.value == "" then Err(Malformed) else Ok(token.sub.value)
  }

  function SignSessionToken(k: Keys, userId: string, now: int): Token {
    Signed(k.current, Some(userId), Some(now / 1000 + k.lifetime))
  }

  function VerifySessionToken(k: Keys, token: Token, now: int): Result<string, Failure> {
    match VerifyWith(token, k.current, now)
    case Ok(payload) => CheckClaims(payload)
    case Err(Expired) => Err(Expired)
    case Err(Malformed) =>
      if !PreviousSecretActive(k, now) then Err(Malformed)
      else match VerifyWith(token, k.previous.value, now)
        case Ok(payload) => CheckClaims(payload)
        case Err(reason) => Err(reason)
  }

  /** A key honoured at `now`. */
  predicate Honoured(k: Keys, key: string, now: int) {
    key == k.current || (k.previous == Some(key) && key != "" && k.retire.At? && now < k.retire.ms)
  }

  /**
   * A token is accepted exactly when an honoured key signed it, it names someone and it has not expired;
   * and it is called expired exactly when an honoured key signed it and it has.
   */
  lemma VerifyMeaning(k: Keys, token: Token, now: int)
    ensures var unexpired := token.Signed? && (token.exp.Some? ==> now / 1000 < token.exp.value);
            && (forall sub :: VerifySessionToken(k, token, now) == Ok(sub) <==>
                  unexpired && Honoured(k, token.key, now) && token.sub == Some(sub) && sub != "")
            && (VerifySessionToken(k, token, now) == Err(Expired) <==>
                  token.Signed? && !unexpired && Honoured(k, token.key, now))
  {
  }

  // ----- rotation histories

  /** `issued` are the tokens handed out so far, `used` the keys that were ever current. */
  datatype State = State(keys: Keys, now: int, issued: seq<Token>, used: set<string>)

  datatype Action =
    | Tick(ms: nat)
    | Login(userId: string)
    | Rotate(newKey: string, retireAt: int)
    | Retire

  function Step(s: State, act: Action): State {
    match act
    case Tick(ms) => s.(now := s.now + ms)
    case Login(userId) => s.(issued := s.issued + [SignSessionToken(s.keys, userId, s.now)])
    case Rotate(newKey, retireAt) =>
      s.(keys := Keys(newKey, Some(s.keys.current), At(retireAt), s.keys.lifetime), used := s.used + {newKey})
    case Retire => s.(keys := s.keys.(previous := None, retire := Unset))
  }

  function Run(s: State, acts: seq<Action>): State {
    if acts == [] then s else Step(Run(s, acts[..|acts| - 1]), acts[|acts| - 1])
  }

  /**
   * The documented procedure: a new key, a window of at least one lifetime, and no rotation or retirement
   * inside a window.
   */
  predicate Proper(s: State, act: Action) {
    match act
    case Tick(_) => true
    case Login(userId) => userId != ""
    case Rotate(newKey, retireAt) =>
      SecretOk(newKey) && newKey !in s.used && retireAt >= s.now + 1000 * s.keys.lifetime
      && !PreviousSecretActive(s.keys, s.now)
    case Retire => !PreviousSecretActive(s.keys, s.now)
  }

  ghost predicate Disciplined(s: State, acts: seq<Action>) {
    forall i :: 0 <= i < |acts| ==> Proper(Run(s, acts[..i]), acts[i])
  }

  function Initial(key: string, lifetime: nat, now: int): State {
    State(Keys(key, None, Unset, lifetime), now, [], {key})
  }

  /** A token in circulation: its key is current, or retiring no sooner than the token, or the token is over. */
  predicate TokenOk(s: State, token: Token) {
    && token.Signed? && token.sub.Some? && token.sub.value != "" && token.exp.Some? && token.key in s.used
    && token.exp.value <= s.now / 1000 + s.keys.lifetime
    && (token.key == s.keys.current
        || (s.keys.previous == Some(token.key) && token.key != "" && s.keys.retire.At?
            && 1000 * token.exp.value <= s.keys.retire.ms)
        || 1000 * token.exp.value <= s.now)
  }

  ghost predicate Inv(s: State) {
    && s.keys.current in s.used
    && (s.keys.previous.Some? ==> s.keys.previous.value in s.used && s.keys.previous.value != s.keys.current)
    && "" !in s.used
    && forall i :: 0 <= i < |s.issued| ==> TokenOk(s, s.issued[i])
  }

  lemma StepKeepsInv(s: State, act: Action)
    requires Inv(s) && Proper(s, act)
    ensures Inv(Step(s, act))
  {
    var t := Step(s, act);
    forall i | 0 <= i < |t.issued| ensures TokenOk(t, t.issued[i]) {
      if i < |s.issued| { assert TokenOk(s, s.issued[i]); }
    }
  }

  lemma {:induction false} RunKeepsInv(s: State, acts: seq<Action>)
    requires Inv(s) && Disciplined(s, acts)
    ensures Inv(Run(s, acts))
  {
    if acts != [] {
      var before := acts[..|acts| - 1];
      forall i | 0 <= i < |before| ensures Proper(Run(s, before[..i]), before[i]) { assert before[..i] == acts[..i]; }
      RunKeepsInv(s, before);
      assert acts[..|acts| - 1] == before;
      StepKeepsInv(Run(s, before), acts[|acts| - 1]);
    }
  }

  /**
   * Rotation without logout: after any history that follows the procedure, each token ever issued is
   * accepted, for the user it was issued to, exactly until its expiry; and once the retire time has come,
   * a token is accepted only under the current key.
   */
  lemma RotationLogsNobodyOut(key: string, lifetime: nat, start: int, acts: seq<Action>)
    requires SecretOk(key) && Disciplined(Initial(key, lifetime, start), acts)
    ensures var s := Run(Initial(key, lifetime, start), acts);
            && (forall i :: 0 <= i < |s.issued| ==>
                  && TokenOk(s, s.issued[i])
                  && (s.now / 1000 < s.issued[i].exp.value ==>
                        VerifySessionToken(s.keys, s.issued[i], s.now) == Ok(s.issued[i].sub.value))
                  && (s.now / 1000 >= s.issued[i].exp.value ==> VerifySessionToken(s.keys, s.issued[i], s.now).Err?))
            && (s.keys.retire.At? && s.keys.retire.ms <= s.now ==>
                  forall token :: VerifySessionToken(s.keys, token, s.now).Ok? ==>
                    token.Signed? && token.key == s.keys.current)
  {
    RunKeepsInv(Initial(key, lifetime, start), acts);
  }

  /** What the n-th login issues stays on record, so the theorem above is about it. */
  lemma {:induction false} IssuedStays(s: State, acts: seq<Action>, i: nat)
    requires i < |s.issued|
    ensures i < |Run(s, acts).issued| && Run(s, acts).issued[i] == s.issued[i]
  {
    if acts != [] {
      IssuedStays(s, acts[..|acts| - 1], i);
    }
  }

  /** After a rotation at `rotated`, every token of the old key is accepted until its expiry. */
  ghost predicate NoForcedLogout(retiring: Keys, newKey: string, retireAt: int, rotated: int) {
    forall userId, issued, now :: userId != "" && issued <= rotated <= now ==>
      var token := SignSessionToken(retiring, userId, issued);
      now / 1000 < token.exp.value ==>
        VerifySessionToken(Keys(newKey, Some(retiring.current), At(retireAt), retiring.lifetime), token, now)
          == Ok(userId)
  }

  /**
   * The exact condition on the retire time of one rotation: no session is cut off if and only if it is no
   * sooner than the expiry of a token signed at the moment of rotation, whole seconds and all.
   */
  lemma SafeRetireTimeIff(keys: Keys, newKey: string, retireAt: int, rotated: int)
    requires SecretOk(keys.current) && newKey != keys.current && keys.lifetime > 0
    ensures NoForcedLogout(keys, newKey, retireAt, rotated) <==> retireAt >= 1000 * (rotated / 1000 + keys.lifetime)
  {
    var last := 1000 * (rotated / 1000 + keys.lifetime) - 1;
    var token := SignSessionToken(keys, "u", rotated);
    if NoForcedLogout(keys, newKey, retireAt, rotated) {
      assert VerifySessionToken(Keys(newKey, Some(keys.current), At(retireAt), keys.lifetime), token, last) == Ok("u");
    }
  }

  /** An unset, unreadable or past retire time leaves only the current key, whatever the previous one is. */
  lemma ForgottenWindowHonoursOnlyCurrent(k: Keys, token: Token, now: int)
    requires k.retire.At? ==> k.retire.ms <= now
    ensures VerifySessionToken(k, token, now)
              == VerifySessionToken(Keys(k.current, None, Unset, k.lifetime), token, now)
  {
  }
}
