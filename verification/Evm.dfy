/**
 * The ERC-20 plan builder (src/chains/evm.adapter.ts) and the verifier of signed transactions
 * (src/services/transaction/externalTransfer.service.ts).
 */
module Evm {
  import opened Common
  import Money
  import DecimalColumn
  import opened Registry

  // ----- addresses

  const ADDRESS_LIMIT: nat := 0x1_0000000000_0000000000_0000000000_0000000000

  /** A 20-byte account, as a number. */
  type Address = n: nat | n < ADDRESS_LIMIT

  function HexValue(c: char): (v: nat)
    requires IsHexDigit(c)
    ensures v < 16
  {
    if '0' <= c <= '9' then c as int - '0' as int
    else if 'a' <= c <= 'f' then c as int - 'a' as int + 10
    else c as int - 'A' as int + 10
  }

  function LowerHexDigit(v: nat): (c: char)
    requires v < 16
    ensures IsHexDigit(c) && HexValue(c) == v && LowerChar(c) == c
  {
    if v < 10 then ('0' as int + v) as char else ('a' as int + v - 10) as char
  }

  predicate AllHex(s: string) { forall i :: 0 <= i < |s| ==> IsHexDigit(s[i]) }

  function Pow16(k: nat): (p: nat)
    ensures p >= 1
  {
    if k == 0 then 1 else 16 * Pow16(k - 1)
  }

  function HexNumber(s: string): (n: nat)
    requires AllHex(s)
    ensures n < Pow16(|s|)
  {
    if s == "" then 0 else 16 * HexNumber(s[..|s| - 1]) + HexValue(s[|s| - 1])
  }

  /** `n` in `k` lower-case hex digits. */
  function LowerHex(n: nat, k: nat): (s: string)
    ensures |s| == k
  {
    if k == 0 then "" else LowerHex(n / 16, k - 1) + [LowerHexDigit(n % 16)]
  }

  /** What `toLowerCase()` of the checksummed spelling of an address is. */
  function LowerAddress(a: Address): string {
    "0x" + LowerHex(a, 40)
  }

  lemma Pow16Is20Bytes()
    ensures Pow16(40) == ADDRESS_LIMIT
  {
    assert Pow16(5) == 0x10_0000;
    assert Pow16(10) == 0x100_0000_0000;
    assert Pow16(15) == 0x1000_0000_0000_0000;
    assert Pow16(20) == 0x1_0000000000_0000000000;
    assert Pow16(25) == 0x10_0000_0000000000_0000000000;
    assert Pow16(30) == 0x1_0000000000_0000000000_0000000000;
    assert Pow16(35) == 0x10_0000_0000000000_0000000000_0000000000;
  }

  /** The account an address string names, in any letter case. */
  function AddressValue(s: string): (a: Address)
    requires IsAddress(s)
  {
    Pow16Is20Bytes();
    HexNumber(s[2..])
  }

  lemma LowerDigit(c: char)
    requires IsHexDigit(c)
    ensures LowerHexDigit(HexValue(c)) == LowerChar(c)
  {
  }

  lemma {:induction false} LowerHexOfNumber(s: string)
    requires AllHex(s)
    ensures LowerHex(HexNumber(s), |s|) == ToLower(s)
  {
    if s != "" {
      var p, c := s[..|s| - 1], s[|s| - 1];
      LowerHexOfNumber(p);
      LowerDigit(c);
      assert HexNumber(s) / 16 == HexNumber(p) && HexNumber(s) % 16 == HexValue(c);
      assert ToLower(s) == ToLower(p) + [LowerChar(c)];
    }
  }

  /** Lower-casing an address string names the same account as parsing it. */
  lemma LowerAddressOfString(s: string)
    requires IsAddress(s)
    ensures ToLower(s) == LowerAddress(AddressValue(s))
  {
    LowerHexOfNumber(s[2..]);
    assert s == "0x" + s[2..];
    assert ToLower(s) == "0x" + ToLower(s[2..]);
  }

  lemma {:induction false} LowerHexInjective(a: nat, b: nat, k: nat)
    requires a < Pow16(k) && b < Pow16(k) && LowerHex(a, k) == LowerHex(b, k)
    ensures a == b
  {
    if k > 0 {
      assert LowerHex(a, k)[..k - 1] == LowerHex(a / 16, k - 1);
      assert LowerHex(b, k)[..k - 1] == LowerHex(b / 16, k - 1);
      LowerHexInjective(a / 16, b / 16, k - 1);
      assert LowerHex(a, k)[k - 1] == LowerHex(b, k)[k - 1];
    }
  }

  lemma LowerAddressInjective(a: Address, b: Address)
    requires LowerAddress(a) == LowerAddress(b)
    ensures a == b
  {
    Pow16Is20Bytes();
    assert LowerAddress(a)[2..] == LowerHex(a, 40) && LowerAddress(b)[2..] == LowerHex(b, 40);
    LowerHexInjective(a, b, 40);
  }

  // ----- ABI words

  function BigEndian(v: nat, k: nat): (b: seq<byte>)
    ensures |b| == k
  {
    if k == 0 then [] else BigEndian(v / 256, k - 1) + [(v % 256) as byte]
  }

  function ReadBigEndian(b: seq<byte>): nat {
    if b == [] then 0 else 256 * ReadBigEndian(b[..|b| - 1]) + b[|b| - 1] as nat
  }

  lemma {:induction false} WordReadAfterWrite(v: nat, k: nat)
    requires v < Pow256(k)
    ensures ReadBigEndian(BigEndian(v, k)) == v
  {
    if k > 0 {
      WordReadAfterWrite(v / 256, k - 1);
      assert BigEndian(v, k)[..k - 1] == BigEndian(v / 256, k - 1);
    }
  }

  lemma DivMod256(v: nat, c: byte)
    ensures (256 * v + c as nat) / 256 == v && (256 * v + c as nat) % 256 == c as nat
  {
  }

  lemma {:induction false} WordWriteAfterRead(b: seq<byte>)
    ensures ReadBigEndian(b) < Pow256(|b|)
    ensures BigEndian(ReadBigEndian(b), |b|) == b
  {
    if b != [] {
      WordWriteAfterRead(b[..|b| - 1]);
      DivMod256(ReadBigEndian(b[..|b| - 1]), b[|b| - 1]);
      assert b == b[..|b| - 1] + [b[|b| - 1]];
    }
  }

  /** Byte `i` of a `k`-byte word is the digit of `v` to base 256 that has `k - 1 - i` digits after it. */
  lemma {:induction false} WordByte(v: nat, k: nat, i: nat)
    requires i < k
    ensures BigEndian(v, k)[i] as nat == v / Pow256(k - 1 - i) % 256
  {
    if i < k - 1 {
      WordByte(v / 256, k - 1, i);
      assert BigEndian(v, k)[i] == BigEndian(v / 256, k - 1)[i];
      DivideTwice(v, Pow256(k - 2 - i));
    }
  }

  lemma WordIs256Bits()
    ensures Pow256(32) == Money.TWO_256
  {
    assert Pow256(4) == 0x1_0000_0000;
    assert Pow256(8) == 0x1_0000000000000000;
    assert Pow256(12) == 0x1_00000000_0000000000000000;
    assert Pow256(16) == 0x1_0000000000000000_0000000000000000;
    assert Pow256(20) == 0x1_00000000_0000000000000000_0000000000000000;
    assert Pow256(24) == 0x1_0000000000000000_0000000000000000_0000000000000000;
    assert Pow256(28) == 0x1_00000000_0000000000000000_0000000000000000_0000000000000000;
  }

  /** The first four bytes of the hash of `transfer(address,uint256)`. */
  const TRANSFER_SELECTOR: seq<byte> := [0xa9, 0x05, 0x9c, 0xbb]

  /** `encodeFunctionData("transfer", [to, amount])`. */
  function EncodeTransfer(to: Address, amount: nat): (data: seq<byte>)
    ensures |data| == 68
  {
    TRANSFER_SELECTOR + BigEndian(to, 32) + BigEndian(amount, 32)
  }

  /** The call data: the selector `a9059cbb`, the payee and the amount as big-endian words of 32 bytes. */
  lemma CallLayout(to: Address, amount: nat)
    ensures var data := EncodeTransfer(to, amount);
            && |data| == 68 && data[0] == 0xa9 && data[1] == 0x05 && data[2] == 0x9c && data[3] == 0xbb
            && IsWord(data[4..36], to) && IsWord(data[36..68], amount)
  {
    var data := EncodeTransfer(to, amount);
    assert data[4..36] == BigEndian(to, 32) && data[36..68] == BigEndian(amount, 32);
    WordLayout(to);
    WordLayout(amount);
  }

  /** The 32 bytes of `v`, the most significant first. */
  predicate IsWord(b: seq<byte>, v: nat) {
    |b| == 32 && forall i :: 0 <= i < 32 ==> b[i] as nat == v / Pow256(31 - i) % 256
  }

  lemma WordLayout(v: nat)
    ensures IsWord(BigEndian(v, 32), v)
  {
    forall i | 0 <= i < 32 ensures BigEndian(v, 32)[i] as nat == v / Pow256(31 - i) % 256 { WordByte(v, 32, i); }
  }

  /** `decodeFunctionData("transfer", data)`: reads the selector and two words; None where it throws. */
  function DecodeTransfer(data: seq<byte>): Option<(Address, nat)> {
    if |data| < 68 || data[..4] != TRANSFER_SELECTOR then None
    else
      var to := ReadBigEndian(data[4..36]);
      if to < ADDRESS_LIMIT then Some((to, ReadBigEndian(data[36..68]))) else None
  }

  lemma AddressFitsWord()
    ensures ADDRESS_LIMIT <= Pow256(32)
  {
    WordIs256Bits();
  }

  /** Call data decodes to a transfer exactly when it starts with that transfer's encoding. */
  lemma DecodeIffPrefix(data: seq<byte>, to: Address, amount: nat)
    requires amount < Money.TWO_256
    ensures DecodeTransfer(data) == Some((to, amount)) <==> |data| >= 68 && data[..68] == EncodeTransfer(to, amount)
  {
    WordIs256Bits();
    AddressFitsWord();
    WordReadAfterWrite(to, 32);
    WordReadAfterWrite(amount, 32);
    if |data| >= 68 {
      assert data[..68] == data[..4] + data[4..36] + data[36..68];
      WordWriteAfterRead(data[4..36]);
      WordWriteAfterRead(data[36..68]);
      var e := EncodeTransfer(to, amount);
      assert e[..4] == TRANSFER_SELECTOR && e[4..36] == BigEndian(to, 32) && e[36..68] == BigEndian(amount, 32);
      if data[..68] == e {
        assert data[..4] == e[..4] && data[4..36] == e[4..36] && data[36..68] == e[36..68];
      }
    }
  }

  lemma DecodedAmountFits(data: seq<byte>)
    requires DecodeTransfer(data).Some?
    ensures DecodeTransfer(data).value.1 < Money.TWO_256
  {
    WordIs256Bits();
    WordWriteAfterRead(data[36..68]);
  }

  // ----- configuration and transactions

  /** The money-moving fields of `Transaction.from(signedTx)`. */
  datatype Decoded = Decoded(chainId: int, to: Option<Address>, value: nat, data: seq<byte>)

  /** What an intent, and the row copied from it, says to move. `amount` is the stored decimal's rendering. */
  datatype Terms = Terms(chain: string, asset: string, amount: string, recipient: string)

  /** What verification consults: the networks, `resolveToken`, and the transaction parser. */
  datatype Config = Config(net: Networks, resolve: (string, string) -> Option<Token>, decode: string -> Option<Decoded>)

  /** The configuration of a deployment with these overrides. */
  function Deployment(
    net: Networks, overrides: seq<Override>, leq: SymbolOrder, decode: string -> Option<Decoded>): Config {
    Config(net, (chain, asset) => ResolveToken(net, overrides, leq, chain, asset, None), decode)
  }

  function TokenOf(cfg: Config, chain: string, asset: string): Option<Token> {
    cfg.resolve(chain, asset)
  }

  /** `toBaseUnits` at a token's scale; a negative override scale does not convert. */
  function UnitsAt(amount: string, decimals: int): Option<nat> {
    if decimals < 0 then None else Money.ToBaseUnits(amount, decimals)
  }

  // ----- resolveAsset

  function NativeAsset(chain: string): Option<string> {
    if chain in ["TON", "ETH", "SOL", "BTC"] then Some(chain)
    else if chain == "BSC" then Some("BNB")
    else if chain == "BASE" then Some("ETH")
    else if chain == "POLYGON" then Some("POL")
    else if chain == "TRON" then Some("TRX")
    else None
  }

  /** `resolveAsset`: a configured token, the chain's native asset (None), or the 400. */
  function ResolveAsset(cfg: Config, chain: string, asset: string): Result<Option<Token>, nat> {
    match TokenOf(cfg, chain, asset)
    case Some(token) => Ok(Some(token))
    case None => if NativeAsset(chain) == Some(asset) then Ok(None) else Err(400)
  }

  /** What is native where, when no token of the name is configured; anything else is a 400. */
  lemma NativeAssets(cfg: Config, chain: string, asset: string)
    requires TokenOf(cfg, chain, asset) == None
    ensures ResolveAsset(cfg, chain, asset) ==
            if (chain, asset) in {("ETH", "ETH"), ("BSC", "BNB"), ("BASE", "ETH"), ("POLYGON", "POL"),
                                  ("TRON", "TRX"), ("TON", "TON"), ("SOL", "SOL"), ("BTC", "BTC")}
            then Ok(None) else Err(400)
  {
  }

  // ----- the verifier

  datatype Kind = Native | Erc20

  datatype Verified = Verified(to: Address, value: string, chainId: int, kind: Kind)

  datatype Rejection =
    | NotEvm | Undecodable | WrongNetwork | WrongContract | ValueAttached | MissingCall | NotATransfer
    | WrongRecipient | WrongAmount | AmountDoesNotConvert | NativeMismatch | UnexpectedData

  /** `verifySignedTransaction`, in the order its checks run. */
  function VerifySignedTransaction(cfg: Config, intent: Terms, signedTx: string): Result<Verified, Rejection> {
    if !IsEvmChain(intent.chain) then Err(NotEvm)
    else match cfg.decode(signedTx)
      case None => Err(Undecodable)
      case Some(parsed) =>
        if Some(parsed.chainId) != GetEvmChainId(cfg.net, intent.chain) then Err(WrongNetwork)
        else match TokenOf(cfg, intent.chain, intent.asset)
          case Some(token) => VerifyToken(token, intent, parsed)
          case None => VerifyNative(intent, parsed)
  }

  function VerifyToken(token: Token, intent: Terms, parsed: Decoded): Result<Verified, Rejection> {
    if parsed.to.None? || LowerAddress(parsed.to.value) != ToLower(token.address) then Err(WrongContract)
    else if parsed.value != 0 then Err(ValueAttached)
    else if parsed.data == [] then Err(MissingCall)
    else match DecodeTransfer(parsed.data)
      case None => Err(NotATransfer)
      case Some((to, amount)) =>
        if LowerAddress(to) != ToLower(intent.recipient) then Err(WrongRecipient)
        else match UnitsAt(intent.amount, token.decimals)
          case None => Err(AmountDoesNotConvert)
          case Some(units) =>
            if amount != units then Err(WrongAmount)
            else Ok(Verified(parsed.to.value, "0", parsed.chainId, Erc20))
  }

  function VerifyNative(intent: Terms, parsed: Decoded): Result<Verified, Rejection> {
    if parsed.to.None? || LowerAddress(parsed.to.value) != ToLower(intent.recipient) then Err(NativeMismatch)
    else match UnitsAt(intent.amount, 18)
      case None => Err(AmountDoesNotConvert)
      case Some(units) =>
        if parsed.value != units then Err(NativeMismatch)
        else if parsed.data != [] then Err(UnexpectedData)
        else Ok(Verified(parsed.to.value, Money.Digits(parsed.value), parsed.chainId, Native))
  }

  // ----- what a transaction moves, and what an intent asks for

  /** One transfer: the account called, who is paid, and how many base units. Addresses in lower case. */
  datatype Movement = Movement(chainId: int, kind: Kind, target: string, recipient: string, units: nat)

  /** The single transfer a signed transaction performs: a plain payment, or one ERC-20 `transfer` call. */
  function Effect(tx: Decoded): Option<Movement> {
    match tx.to
    case None => None
    case Some(to) =>
      if tx.data == [] then Some(Movement(tx.chainId, Native, LowerAddress(to), LowerAddress(to), tx.value))
      else if tx.value != 0 then None
      else match DecodeTransfer(tx.data)
        case Some((payee, amount)) => Some(Movement(tx.chainId, Erc20, LowerAddress(to), LowerAddress(payee), amount))
        case None => None
  }

  function TokenDemand(token: Token, intent: Terms, chainId: int): Option<Movement> {
    match UnitsAt(intent.amount, token.decimals)
    case Some(units) => Some(Movement(chainId, Erc20, ToLower(token.address), ToLower(intent.recipient), units))
    case None => None
  }

  function NativeDemand(intent: Terms, chainId: int): Option<Movement> {
    match UnitsAt(intent.amount, 18)
    case Some(units) => Some(Movement(chainId, Native, ToLower(intent.recipient), ToLower(intent.recipient), units))
    case None => None
  }

  /** The single transfer an intent asks for: none when its asset is neither a token nor the chain's native asset. */
  function Demand(cfg: Config, intent: Terms): Option<Movement> {
    match GetEvmChainId(cfg.net, intent.chain)
    case None => None
    case Some(chainId) =>
      match ResolveAsset(cfg, intent.chain, intent.asset)
      case Ok(Some(token)) => TokenDemand(token, intent, chainId)
      case Ok(None) => NativeDemand(intent, chainId)
      case Err(_) => None
  }

  /** What the verifier holds an intent to: it falls through to a native payment when no token is found. */
  function Held(cfg: Config, intent: Terms): Option<Movement> {
    match GetEvmChainId(cfg.net, intent.chain)
    case None => None
    case Some(chainId) =>
      match TokenOf(cfg, intent.chain, intent.asset)
      case Some(token) => TokenDemand(token, intent, chainId)
      case None => NativeDemand(intent, chainId)
  }

  predicate AssetRefused(cfg: Config, intent: Terms) {
    ResolveAsset(cfg, intent.chain, intent.asset).Err?
  }

  lemma HeldIsDemand(cfg: Config, intent: Terms)
    ensures !AssetRefused(cfg, intent) ==> Held(cfg, intent) == Demand(cfg, intent)
    ensures AssetRefused(cfg, intent) ==> Demand(cfg, intent) == None
    ensures AssetRefused(cfg, intent) ==>
              forall c :: GetEvmChainId(cfg.net, intent.chain) == Some(c) ==>
                Held(cfg, intent) == NativeDemand(intent, c)
  {
  }

  /** What the verifier returns when it accepts a movement. */
  ghost predicate Reports(v: Verified, m: Movement) {
    && v.chainId == m.chainId && v.kind == m.kind && LowerAddress(v.to) == m.target
    && v.value == (if m.kind.Native? then Money.Digits(m.units) else "0")
  }

  lemma TokenBranch(token: Token, intent: Terms, parsed: Decoded)
    ensures VerifyToken(token, intent, parsed).Ok?
       <==> Effect(parsed).Some? && Effect(parsed) == TokenDemand(token, intent, parsed.chainId)
    ensures VerifyToken(token, intent, parsed).Ok? ==>
              Reports(VerifyToken(token, intent, parsed).value, Effect(parsed).value)
  {
  }

  lemma NativeBranch(intent: Terms, parsed: Decoded)
    ensures VerifyNative(intent, parsed).Ok?
       <==> Effect(parsed).Some? && Effect(parsed) == NativeDemand(intent, parsed.chainId)
    ensures VerifyNative(intent, parsed).Ok? ==>
              Reports(VerifyNative(intent, parsed).value, Effect(parsed).value)
  {
  }

  /**
   * The verifier accepts exactly when the signed transaction moves what the intent asks for, and nothing
   * else, or when the intent's asset is one `resolveAsset` refuses and the transaction is a native payment of
   * its amount.
   */
  lemma VerifierAcceptsIffEffectIsDemand(cfg: Config, intent: Terms, signedTx: string)
    ensures VerifySignedTransaction(cfg, intent, signedTx).Ok?
       <==> && cfg.decode(signedTx).Some?
            && var effect := Effect(cfg.decode(signedTx).value);
               && effect.Some?
               && (effect == Demand(cfg, intent)
                   || (AssetRefused(cfg, intent) && GetEvmChainId(cfg.net, intent.chain) == Some(effect.value.chainId)
                       && effect == NativeDemand(intent, effect.value.chainId)))
    ensures VerifySignedTransaction(cfg, intent, signedTx).Ok? ==>
              Reports(VerifySignedTransaction(cfg, intent, signedTx).value, Effect(cfg.decode(signedTx).value).value)
  {
    AcceptsHeld(cfg, intent, signedTx);
    HeldIsDemand(cfg, intent);
    HeldOnItsChain(cfg, intent);
  }

  lemma HeldOnItsChain(cfg: Config, intent: Terms)
    ensures Held(cfg, intent).Some? ==> GetEvmChainId(cfg.net, intent.chain) == Some(Held(cfg, intent).value.chainId)
  {
  }

  lemma AcceptsHeld(cfg: Config, intent: Terms, signedTx: string)
    ensures VerifySignedTransaction(cfg, intent, signedTx).Ok?
       <==> && cfg.decode(signedTx).Some?
            && Effect(cfg.decode(signedTx).value).Some?
            && Held(cfg, intent) == Effect(cfg.decode(signedTx).value)
    ensures VerifySignedTransaction(cfg, intent, signedTx).Ok? ==>
              Reports(VerifySignedTransaction(cfg, intent, signedTx).value, Held(cfg, intent).value)
  {
    match TokenOf(cfg, intent.chain, intent.asset)
    case Some(token) => AcceptsToken(cfg, intent, signedTx, token);
    case None => AcceptsNative(cfg, intent, signedTx);
  }

  lemma AcceptsToken(cfg: Config, intent: Terms, signedTx: string, token: Token)
    requires TokenOf(cfg, intent.chain, intent.asset) == Some(token)
    ensures VerifySignedTransaction(cfg, intent, signedTx).Ok?
       <==> && cfg.decode(signedTx).Some?
            && Effect(cfg.decode(signedTx).value).Some?
            && Held(cfg, intent) == Effect(cfg.decode(signedTx).value)
    ensures VerifySignedTransaction(cfg, intent, signedTx).Ok? ==>
              Reports(VerifySignedTransaction(cfg, intent, signedTx).value, Held(cfg, intent).value)
  {
    VerifyUnfolds(cfg, intent, signedTx, token);
    HeldUnfolds(cfg, intent, token);
    if cfg.decode(signedTx).Some? { TokenBranch(token, intent, cfg.decode(signedTx).value); }
  }

  /** Past the decoding and the network check, the verdict on a token payment is that of the token checks. */
  lemma VerifyUnfolds(cfg: Config, intent: Terms, signedTx: string, token: Token)
    requires TokenOf(cfg, intent.chain, intent.asset) == Some(token)
    ensures var v := VerifySignedTransaction(cfg, intent, signedTx);
            if cfg.decode(signedTx).Some?
               && GetEvmChainId(cfg.net, intent.chain) == Some(cfg.decode(signedTx).value.chainId)
            then v == VerifyToken(token, intent, cfg.decode(signedTx).value)
            else v.Err?
  {
  }

  lemma HeldUnfolds(cfg: Config, intent: Terms, token: Token)
    requires TokenOf(cfg, intent.chain, intent.asset) == Some(token)
    ensures Held(cfg, intent).Some? ==>
              && GetEvmChainId(cfg.net, intent.chain) == Some(Held(cfg, intent).value.chainId)
              && Held(cfg, intent) == TokenDemand(token, intent, Held(cfg, intent).value.chainId)
    ensures forall c :: GetEvmChainId(cfg.net, intent.chain) == Some(c) ==>
              Held(cfg, intent) == TokenDemand(token, intent, c)
  {
  }

  lemma AcceptsNative(cfg: Config, intent: Terms, signedTx: string)
    requires TokenOf(cfg, intent.chain, intent.asset) == None
    ensures VerifySignedTransaction(cfg, intent, signedTx).Ok?
       <==> && cfg.decode(signedTx).Some?
            && Effect(cfg.decode(signedTx).value).Some?
            && Held(cfg, intent) == Effect(cfg.decode(signedTx).value)
    ensures VerifySignedTransaction(cfg, intent, signedTx).Ok? ==>
              Reports(VerifySignedTransaction(cfg, intent, signedTx).value, Held(cfg, intent).value)
  {
    if cfg.decode(signedTx).Some? { NativeBranch(intent, cfg.decode(signedTx).value); }
  }

  /** The transaction is one for the intent's chain, as far as the chain id goes. */
  predicate OnItsChain(cfg: Config, intent: Terms, signedTx: string) {
    && IsEvmChain(intent.chain) && cfg.decode(signedTx).Some?
    && GetEvmChainId(cfg.net, intent.chain) == Some(cfg.decode(signedTx).value.chainId)
  }

  /** Why a signed transaction is refused for a token: the first check that fails says so. */
  lemma TokenRejections(cfg: Config, intent: Terms, signedTx: string, token: Token)
    requires TokenOf(cfg, intent.chain, intent.asset) == Some(token) && OnItsChain(cfg, intent, signedTx)
    ensures var v := VerifySignedTransaction(cfg, intent, signedTx);
            var tx := cfg.decode(signedTx).value;
            var called := tx.to.Some? && LowerAddress(tx.to.value) == ToLower(token.address);
            var (plain, call) := (called && tx.value == 0, DecodeTransfer(tx.data));
            var paid := plain && call.Some? && LowerAddress(call.value.0) == ToLower(intent.recipient);
            var converts := token.decimals >= 0 && Money.ToBaseUnits(intent.amount, token.decimals).Some?;
            && (v == Err(WrongContract) <==> !called)
            && (v == Err(ValueAttached) <==> called && tx.value != 0)
            && (v == Err(MissingCall) <==> plain && tx.data == [])
            && (v == Err(NotATransfer) <==> plain && tx.data != [] && call.None?)
            && (v == Err(WrongRecipient) <==> plain && call.Some? && !paid)
            && (v == Err(AmountDoesNotConvert) <==> paid && !converts)
            && (v == Err(WrongAmount) <==>
                  paid && converts && Money.ToBaseUnits(intent.amount, token.decimals) != Some(call.value.1))
  {
    VerifyUnfolds(cfg, intent, signedTx, token);
  }

  /** And for a native payment, or before the asset matters. */
  lemma NativeRejections(cfg: Config, intent: Terms, signedTx: string)
    ensures var v := VerifySignedTransaction(cfg, intent, signedTx);
            && (v == Err(NotEvm) <==> intent.chain !in {"ETH", "BSC", "BASE", "POLYGON"})
            && (v == Err(Undecodable) <==> IsEvmChain(intent.chain) && cfg.decode(signedTx).None?)
            && (v == Err(WrongNetwork) <==>
                  IsEvmChain(intent.chain) && cfg.decode(signedTx).Some? && !OnItsChain(cfg, intent, signedTx))
    ensures OnItsChain(cfg, intent, signedTx) && TokenOf(cfg, intent.chain, intent.asset) == None ==>
              var (v, tx) := (VerifySignedTransaction(cfg, intent, signedTx), cfg.decode(signedTx).value);
              var named := tx.to.Some? && LowerAddress(tx.to.value) == ToLower(intent.recipient);
              var units := Money.ToBaseUnits(intent.amount, 18);
              && (v == Err(AmountDoesNotConvert) <==> named && units.None?)
              && (v == Err(NativeMismatch) <==> !named || (units.Some? && units != Some(tx.value)))
              && (v == Err(UnexpectedData) <==> named && units == Some(tx.value) && tx.data != [])
  {
  }

  /** Two intents that accept one signed transaction are held to the same movement, and agree where both ask for one. */
  lemma AcceptedIntentsAgree(cfg: Config, a: Terms, b: Terms, signedTx: string)
    requires VerifySignedTransaction(cfg, a, signedTx).Ok?
    requires VerifySignedTransaction(cfg, b, signedTx).Ok?
    ensures Held(cfg, a).Some? && Held(cfg, a) == Held(cfg, b)
    ensures !AssetRefused(cfg, a) && !AssetRefused(cfg, b) ==> Demand(cfg, a).Some? && Demand(cfg, a) == Demand(cfg, b)
    ensures VerifySignedTransaction(cfg, a, signedTx) == VerifySignedTransaction(cfg, b, signedTx)
  {
    AcceptsHeld(cfg, a, signedTx);
    AcceptsHeld(cfg, b, signedTx);
    var va := VerifySignedTransaction(cfg, a, signedTx).value;
    var vb := VerifySignedTransaction(cfg, b, signedTx).value;
    LowerAddressInjective(va.to, vb.to);
    HeldIsDemand(cfg, a);
    HeldIsDemand(cfg, b);
  }

  // ----- the plan builder

  datatype BuildError = WrongChainId | BadAddress | BadAmount

  datatype Plan = Plan(chainId: int, token: Token, to: string, recipient: Address, value: nat, data: seq<byte>)

  /** `ethers.getAddress`: a 0x address whose letter case passes the checksum test (`goodCase`). */
  function GetAddress(goodCase: string -> bool, s: string): Option<Address> {
    if IsAddress(s) && goodCase(s) then Some(AddressValue(s)) else None
  }

  /** `buildTokenTransfer` of the adapter bound to `chainId`, without the best-effort fee hints. */
  function BuildTokenTransfer(chainId: int, goodCase: string -> bool, toAddress: string, amount: string, token: Token)
    : Result<Plan, BuildError>
  {
    if token.chainId != chainId then Err(WrongChainId)
    else match GetAddress(goodCase, toAddress)
      case None => Err(BadAddress)
      case Some(recipient) =>
        match UnitsAt(amount, token.decimals)
        case None => Err(BadAmount)
        case Some(units) =>
          if units >= Money.TWO_256 then Err(BadAmount)
          else Ok(Plan(chainId, token, token.address, recipient, 0, EncodeTransfer(recipient, units)))
  }

  /** Signing exactly the plan. */
  function SignPlan(plan: Plan): Decoded
    requires IsAddress(plan.to)
  {
    Decoded(plan.chainId, Some(AddressValue(plan.to)), plan.value, plan.data)
  }

  lemma EthereumAddressesValid()
    ensures IsAddress("0xA0b86991c6218b36c1d19D4a2e9Eb0cE3606eB48")
    ensures IsAddress("0xdAC17F958D2ee523a2206206994597C13D831ec7")
  {
  }

  lemma SepoliaAddressesValid()
    ensures IsAddress("0x1c7D4B196Cb0C7B01d743Fbc6116a902379C7238")
  {
  }

  lemma BscAddressesValid()
    ensures IsAddress("0x55d398326f99059fF775485246999027B3197955")
    ensures IsAddress("0x8AC76a51cc950d9822D68b83fE1Ad97B32Cd580d")
  {
  }

  lemma BaseAddressesValid()
    ensures IsAddress("0x833589fCD6eDb6E08f4c7C32D4f71b54bdA02913")
    ensures IsAddress("0x036CbD53842c5426634e7929541eC2318f3dCF7e")
  {
  }

  lemma PolygonAddressesValid()
    ensures IsAddress("0x3c499c542cEF5E3811e1192ce70d8cC03d5c3359")
    ensures IsAddress("0x41E94Eb019C0762f9Bfcf9Fb1E58725BfB0e7582")
  {
  }

  lemma SeedAddressesValid(i: nat)
    requires i < |Seeds()|
    ensures IsAddress(Seeds()[i].address)
  {
    EthereumAddressesValid();
    SepoliaAddressesValid();
    BscAddressesValid();
    BaseAddressesValid();
    PolygonAddressesValid();
    assert i in [0, 1, 2, 3, 4, 5, 6, 7, 8];
  }

  lemma {:induction false} OverrideAddressValid(os: seq<Override>, chain: string, c: int, symbol: string)
    requires forall o :: o in os ==> IsAddress(o.address)
    ensures LastOverride(os, chain, c, symbol).Some? ==> IsAddress(LastOverride(os, chain, c, symbol).value.address)
  {
    if os != [] {
      assert os[|os| - 1] in os;
      OverrideAddressValid(os[..|os| - 1], chain, c, symbol);
    }
  }

  lemma {:induction false} LastSeedIsSeed(ts: seq<Token>, chain: string, c: int, symbol: string)
    ensures LastSeed(ts, chain, c, symbol).Some? ==>
              LastSeed(ts, chain, c, symbol).value in ts && LastSeed(ts, chain, c, symbol).value.chainId == c
              && LastSeed(ts, chain, c, symbol).value.symbol == symbol
  {
    if ts != [] {
      LastSeedIsSeed(ts[..|ts| - 1], chain, c, symbol);
    }
  }

  ghost predicate ValidOverrides(overrides: seq<Override>, leq: SymbolOrder) {
    TotalPreorder(leq) && forall o :: o in overrides ==> IsAddress(o.address)
  }

  /** A resolved token has a well-formed contract address and the chain id in effect. */
  lemma ResolvedTokenBound(
    net: Networks, overrides: seq<Override>, leq: SymbolOrder, chain: string, asset: string,
    chainIdOverride: Option<int>)
    requires ValidOverrides(overrides, leq)
    ensures var t := ResolveToken(net, overrides, leq, chain, asset, chainIdOverride);
            t.Some? ==> && IsAddress(t.value.address) && t.value.chain == chain
                        && ConfiguredChainId(net, chain, chainIdOverride) == Some(t.value.chainId)
  {
    ResolveIsLastEntryWins(net, overrides, leq, chain, asset, chainIdOverride);
    ListingWellFormed(net, overrides, leq, chain, chainIdOverride);
    ScannedAddressValid(net, overrides, leq, chain, asset, chainIdOverride);
  }

  lemma ScannedAddressValid(
    net: Networks, overrides: seq<Override>, leq: SymbolOrder, chain: string, asset: string,
    chainIdOverride: Option<int>)
    requires ValidOverrides(overrides, leq)
    ensures var t := ScanResolve(net, overrides, chain, asset, chainIdOverride); t.Some? ==> IsAddress(t.value.address)
  {
    match ConfiguredChainId(net, chain, chainIdOverride)
    case None =>
    case Some(c) =>
      OverrideAddressValid(overrides, chain, c, ToUpper(asset));
      LastSeedIsSeed(Seeds(), chain, c, ToUpper(asset));
      var seed := LastSeed(Seeds(), chain, c, ToUpper(asset));
      if seed.Some? { SeedIsAddressed(seed.value); }
  }

  lemma SeedIsAddressed(t: Token)
    requires t in Seeds()
    ensures IsAddress(t.address)
  {
    var i :| 0 <= i < |Seeds()| && Seeds()[i] == t;
    SeedAddressesValid(i);
  }

  predicate TokenBound(cfg: Config, chain: string, asset: string) {
    TokenOf(cfg, chain, asset).Some? ==>
      var t := TokenOf(cfg, chain, asset).value;
      IsAddress(t.address) && t.chain == chain && GetEvmChainId(cfg.net, chain) == Some(t.chainId)
  }

  ghost predicate ValidConfig(cfg: Config) {
    forall chain, asset :: TokenBound(cfg, chain, asset)
  }

  /** Every deployment whose overrides passed the entry check resolves to bound tokens only. */
  lemma DeploymentIsValid(net: Networks, overrides: seq<Override>, leq: SymbolOrder, decode: string -> Option<Decoded>)
    requires ValidOverrides(overrides, leq)
    ensures ValidConfig(Deployment(net, overrides, leq, decode))
  {
    forall chain, asset ensures TokenBound(Deployment(net, overrides, leq, decode), chain, asset) {
      ResolvedTokenBound(net, overrides, leq, chain, asset, None);
    }
  }

  /** `tokenFor` of the adapter bound to `chainId`. */
  datatype TokenError = Unsupported | BoundElsewhere

  function TokenFor(
    net: Networks, overrides: seq<Override>, leq: SymbolOrder, chain: string, chainId: int, asset: string)
    : Result<Token, TokenError> {
    match Find(Listing(net, overrides, leq, chain, Some(chainId)), ToUpper(asset))
    case None => Err(Unsupported)
    case Some(token) => if token.chainId != chainId then Err(BoundElsewhere) else Ok(token)
  }

  /** The adapter's own chain-id check never fires: a listing only holds tokens of the chain id asked for. */
  lemma BoundElsewhereUnreachable(
    net: Networks, overrides: seq<Override>, leq: SymbolOrder, chain: string, chainId: int, asset: string)
    requires ValidOverrides(overrides, leq)
    ensures TokenFor(net, overrides, leq, chain, chainId, asset) != Err(BoundElsewhere)
  {
    ListingWellFormed(net, overrides, leq, chain, Some(chainId));
  }

  /** The adapter finds what scanning overrides then seeds from the end finds under its own chain id. */
  lemma TokenForIsScan(
    net: Networks, overrides: seq<Override>, leq: SymbolOrder, chain: string, chainId: int, asset: string)
    requires ValidOverrides(overrides, leq)
    ensures TokenFor(net, overrides, leq, chain, chainId, asset) ==
            (match ScanResolve(net, overrides, chain, asset, Some(chainId))
             case Some(token) => Ok(token)
             case None => Err(Unsupported))
  {
    FindIsScan(net, overrides, leq, chain, asset, Some(chainId));
    BoundElsewhereUnreachable(net, overrides, leq, chain, chainId, asset);
  }

  /** A plan exists exactly for a well-formed recipient and an amount that converts below 2^256. */
  lemma PlanExistsIff(cfg: Config, goodCase: string -> bool, chain: string, asset: string, to: string, amount: string)
    requires ValidConfig(cfg) && TokenOf(cfg, chain, asset).Some?
    ensures GetEvmChainId(cfg.net, chain).Some?
    ensures BuildTokenTransfer(GetEvmChainId(cfg.net, chain).value, goodCase, to, amount,
                               TokenOf(cfg, chain, asset).value).Ok?
       <==> && IsAddress(to) && goodCase(to) && TokenOf(cfg, chain, asset).value.decimals >= 0
            && var units := Money.ToBaseUnits(amount, TokenOf(cfg, chain, asset).value.decimals);
               units.Some? && units.value < Money.TWO_256
  {
    assert TokenBound(cfg, chain, asset);
  }

  /** Why a plan is refused: the chain id before the recipient, and that before the amount. */
  lemma PlanRefusals(chainId: int, goodCase: string -> bool, to: string, amount: string, token: Token)
    ensures var plan := BuildTokenTransfer(chainId, goodCase, to, amount, token);
            var good := IsAddress(to) && goodCase(to);
            && (plan == Err(WrongChainId) <==> token.chainId != chainId)
            && (plan == Err(BadAddress) <==> token.chainId == chainId && !good)
            && (plan == Err(BadAmount) <==>
                  && token.chainId == chainId && good
                  && !(token.decimals >= 0 && Money.ToBaseUnits(amount, token.decimals).Some?
                       && Money.ToBaseUnits(amount, token.decimals).value < Money.TWO_256))
            && (plan.Ok? ==> plan.value.chainId == chainId && plan.value.token == token && plan.value.value == 0)
  {
  }

  /** Every ledger amount within the token's places builds. */
  lemma LedgerAmountsBuild(
    cfg: Config, goodCase: string -> bool, chain: string, asset: string, to: string, amount: string)
    requires ValidConfig(cfg) && TokenOf(cfg, chain, asset).Some?
    requires IsAddress(to) && goodCase(to)
    requires Money.MoneyString(amount, Money.MAX_AMOUNT_DECIMALS, Money.MAX_AMOUNT_INTEGER_DIGITS)
    requires 0 <= TokenOf(cfg, chain, asset).value.decimals <= 18
    requires Money.Fits(Money.Fraction(amount), TokenOf(cfg, chain, asset).value.decimals)
    ensures GetEvmChainId(cfg.net, chain).Some?
    ensures BuildTokenTransfer(GetEvmChainId(cfg.net, chain).value, goodCase, to, amount,
                               TokenOf(cfg, chain, asset).value).Ok?
  {
    PlanExistsIff(cfg, goodCase, chain, asset, to, amount);
    Money.LedgerAmountsConvert(amount, TokenOf(cfg, chain, asset).value.decimals);
  }

  /** The verdict on a signed plan, with any bytes after its call data. */
  lemma TokenPlanVerdict(token: Token, goodCase: string -> bool, intent: Terms, typedAmount: string, extra: seq<byte>)
    requires IsAddress(token.address) && intent.amount == DecimalColumn.ReadBack(typedAmount)
    requires BuildTokenTransfer(token.chainId, goodCase, intent.recipient, typedAmount, token).Ok?
    ensures var plan := BuildTokenTransfer(token.chainId, goodCase, intent.recipient, typedAmount, token).value;
            && plan.to == token.address && plan.chainId == token.chainId && Money.IsPlainDecimal(typedAmount)
            && VerifyToken(token, intent, SignPlan(plan).(data := plan.data + extra))
            == if DecimalColumn.IsTiny(typedAmount) then Err(AmountDoesNotConvert)
               else Ok(Verified(AddressValue(token.address), "0", token.chainId, Erc20))
  {
    var units := UnitsAt(typedAmount, token.decimals).value;
    var recipient := AddressValue(intent.recipient);
    LowerAddressOfString(token.address);
    LowerAddressOfString(intent.recipient);
    var data := EncodeTransfer(recipient, units) + extra;
    assert data[..68] == EncodeTransfer(recipient, units);
    DecodeIffPrefix(data, recipient, units);
    DecimalColumn.ReadBackConverts(typedAmount, token.decimals);
  }

  /** The plan `prepare` builds for a typed amount, when it builds one. */
  function Prepared(cfg: Config, goodCase: string -> bool, intent: Terms, typedAmount: string): Option<Plan> {
    match (TokenOf(cfg, intent.chain, intent.asset), GetEvmChainId(cfg.net, intent.chain))
    case (Some(token), Some(chainId)) =>
      (match BuildTokenTransfer(chainId, goodCase, intent.recipient, typedAmount, token)
       case Ok(plan) => Some(plan)
       case Err(_) => None)
    case _ => None
  }

  /**
   * Builder and verifier: signing exactly the built plan is accepted for the prepared intent, whose amount
   * was stored and read back, unless that amount is tiny; then it is always rejected.
   */
  lemma SignedPlanAccepted(cfg: Config, goodCase: string -> bool, intent: Terms, typedAmount: string, signedTx: string)
    requires ValidConfig(cfg) && IsEvmChain(intent.chain)
    requires intent.amount == DecimalColumn.ReadBack(typedAmount)
    requires var plan := Prepared(cfg, goodCase, intent, typedAmount);
             plan.Some? && IsAddress(plan.value.to) && cfg.decode(signedTx) == Some(SignPlan(plan.value))
    ensures var token := TokenOf(cfg, intent.chain, intent.asset).value;
            && Money.IsPlainDecimal(typedAmount) && IsAddress(token.address)
            && VerifySignedTransaction(cfg, intent, signedTx)
            == if DecimalColumn.IsTiny(typedAmount) then Err(AmountDoesNotConvert)
               else Ok(Verified(AddressValue(token.address), "0", token.chainId, Erc20))
  {
    assert TokenBound(cfg, intent.chain, intent.asset);
    TokenPlanVerdict(TokenOf(cfg, intent.chain, intent.asset).value, goodCase, intent, typedAmount, []);
    var plan := Prepared(cfg, goodCase, intent, typedAmount).value;
    assert SignPlan(plan).(data := plan.data + []) == SignPlan(plan);
  }

  /** Bytes after the call are not looked at: the plan with anything appended is accepted just as the plan is. */
  lemma TrailingBytesAccepted(
    cfg: Config, goodCase: string -> bool, intent: Terms, typedAmount: string, signedTx: string, extra: seq<byte>)
    requires ValidConfig(cfg) && IsEvmChain(intent.chain)
    requires intent.amount == DecimalColumn.ReadBack(typedAmount)
    requires var plan := Prepared(cfg, goodCase, intent, typedAmount);
             && plan.Some? && IsAddress(plan.value.to) && Money.IsPlainDecimal(typedAmount)
             && !DecimalColumn.IsTiny(typedAmount)
             && cfg.decode(signedTx) == Some(SignPlan(plan.value).(data := plan.value.data + extra))
    ensures VerifySignedTransaction(cfg, intent, signedTx).Ok?
  {
    assert TokenBound(cfg, intent.chain, intent.asset);
    TokenPlanVerdict(TokenOf(cfg, intent.chain, intent.asset).value, goodCase, intent, typedAmount, extra);
  }

  /** A native payment of the typed amount passes its checks exactly when the amount is not tiny. */
  lemma NativePaymentAcceptedIff(intent: Terms, typedAmount: string, tx: Decoded)
    requires IsAddress(intent.recipient) && intent.amount == DecimalColumn.ReadBack(typedAmount)
    requires Money.ToBaseUnits(typedAmount, 18).Some?
    requires tx.to == Some(AddressValue(intent.recipient)) && tx.value == Money.ToBaseUnits(typedAmount, 18).value
             && tx.data == []
    ensures VerifyNative(intent, tx).Ok? <==> !DecimalColumn.IsTiny(typedAmount)
  {
    LowerAddressOfString(intent.recipient);
    DecimalColumn.ReadBackConverts(typedAmount, 18);
  }

  /** The fields of a token payment, byte for byte over the 68 bytes of the call. */
  ghost predicate CarriesTransfer(token: Token, intent: Terms, tx: Decoded) {
    && IsAddress(token.address) && IsAddress(intent.recipient)
    && UnitsAt(intent.amount, token.decimals).Some?
    && UnitsAt(intent.amount, token.decimals).value < Money.TWO_256
    && tx.chainId == token.chainId && tx.to == Some(AddressValue(token.address)) && tx.value == 0
    && |tx.data| >= 68
    && tx.data[..68] == EncodeTransfer(AddressValue(intent.recipient), UnitsAt(intent.amount, token.decimals).value)
  }

  /** For a token, acceptance looks at the first 68 bytes of call data and at nothing after them. */
  lemma TokenAcceptanceReadsOnePrefix(cfg: Config, intent: Terms, signedTx: string)
    requires ValidConfig(cfg) && TokenOf(cfg, intent.chain, intent.asset).Some?
    requires IsAddress(intent.recipient)
    ensures VerifySignedTransaction(cfg, intent, signedTx).Ok?
       <==> && cfg.decode(signedTx).Some?
            && CarriesTransfer(TokenOf(cfg, intent.chain, intent.asset).value, intent, cfg.decode(signedTx).value)
  {
    var token := TokenOf(cfg, intent.chain, intent.asset).value;
    assert TokenBound(cfg, intent.chain, intent.asset);
    LowerAddressOfString(token.address);
    LowerAddressOfString(intent.recipient);
    AcceptsHeld(cfg, intent, signedTx);
    if cfg.decode(signedTx).Some? && UnitsAt(intent.amount, token.decimals).Some? {
      var tx, units := cfg.decode(signedTx).value, UnitsAt(intent.amount, token.decimals).value;
      if tx.to.Some? && LowerAddress(tx.to.value) == LowerAddress(AddressValue(token.address)) {
        LowerAddressInjective(tx.to.value, AddressValue(token.address));
      }
      if units < Money.TWO_256 { DecodeIffPrefix(tx.data, AddressValue(intent.recipient), units); }
      if DecodeTransfer(tx.data).Some? {
        DecodedAmountFits(tx.data);
        var payee := DecodeTransfer(tx.data).value.0;
        if LowerAddress(payee) == LowerAddress(AddressValue(intent.recipient)) {
          LowerAddressInjective(payee, AddressValue(intent.recipient));
        }
      }
    }
  }

  /**
   * What `prepare` resolves is what `submit` verifies: a token as that token, the native asset as native.
   * An asset `prepare` would refuse is not refused here but verified as a native payment.
   */
  lemma PreparedKindIsVerifiedKind(cfg: Config, intent: Terms, signedTx: string)
    requires VerifySignedTransaction(cfg, intent, signedTx).Ok?
    ensures match ResolveAsset(cfg, intent.chain, intent.asset)
            case Ok(Some(token)) =>
              && VerifySignedTransaction(cfg, intent, signedTx).value.kind == Erc20
              && LowerAddress(VerifySignedTransaction(cfg, intent, signedTx).value.to) == ToLower(token.address)
            case Ok(None) =>
              && VerifySignedTransaction(cfg, intent, signedTx).value.kind == Native
              && LowerAddress(VerifySignedTransaction(cfg, intent, signedTx).value.to) == ToLower(intent.recipient)
            case Err(code) =>
              && code == 400
              && VerifySignedTransaction(cfg, intent, signedTx).value.kind == Native
              && LowerAddress(VerifySignedTransaction(cfg, intent, signedTx).value.to) == ToLower(intent.recipient)
  {
    AcceptsHeld(cfg, intent, signedTx);
  }

  lemma SeedSymbols(t: Token)
    requires t in Seeds()
    ensures t.symbol == "USDC" || t.symbol == "USDT"
  {
  }

  /** A symbol that no override and no seed carries. */
  lemma NoSuchToken(net: Networks, leq: SymbolOrder, chain: string, asset: string)
    requires TotalPreorder(leq) && ToUpper(asset) != "USDC" && ToUpper(asset) != "USDT"
    ensures ResolveToken(net, [], leq, chain, asset, None) == None
  {
    ResolveIsLastEntryWins(net, [], leq, chain, asset, None);
    match ConfiguredChainId(net, chain, None)
    case None =>
    case Some(c) =>
      LastSeedIsSeed(Seeds(), chain, c, ToUpper(asset));
      if LastSeed(Seeds(), chain, c, ToUpper(asset)).Some? {
        SeedSymbols(LastSeed(Seeds(), chain, c, ToUpper(asset)).value);
      }
  }

  lemma OneOverrideResolves(net: Networks, o: Override, leq: SymbolOrder, chain: string, chainId: int, asset: string)
    requires TotalPreorder(leq) && asset != "" && GetEvmChainId(net, chain) == Some(chainId)
    requires OverrideApplies(o, chain, chainId) && ToUpper(o.symbol) == ToUpper(asset)
    ensures ResolveToken(net, [o], leq, chain, asset, None) == Some(OverrideToken(o, chain, chainId))
  {
    ResolveIsLastEntryWins(net, [o], leq, chain, asset, None);
  }

  /** An asset the configuration does not know: the native payment of its amount is accepted. */
  lemma UnknownAssetPaidNatively(cfg: Config, intent: Terms, signedTx: string, tx: Decoded)
    requires TokenOf(cfg, intent.chain, intent.asset) == None && cfg.decode(signedTx) == Some(tx)
    requires GetEvmChainId(cfg.net, intent.chain) == Some(tx.chainId)
    requires IsAddress(intent.recipient) && tx.to == Some(AddressValue(intent.recipient))
    requires Money.ToBaseUnits(intent.amount, 18) == Some(tx.value) && tx.data == []
    ensures VerifySignedTransaction(cfg, intent, signedTx).Ok?
            && VerifySignedTransaction(cfg, intent, signedTx).value.kind == Native
  {
    LowerAddressOfString(intent.recipient);
  }

  /**
   * A token dropped from the configuration between `prepare` and `submit`: the intent was prepared for the
   * token, and a payment of the same figure in the native asset is accepted for it.
   */
  lemma DroppedTokenPaidNatively(net: Networks, leq: SymbolOrder, decode: string -> Option<Decoded>, o: Override,
                                 intent: Terms, signedTx: string, tx: Decoded)
    requires TotalPreorder(leq) && decode(signedTx) == Some(tx)
    requires intent.asset != "" && ToUpper(intent.asset) != "USDC" && ToUpper(intent.asset) != "USDT"
    requires NativeAsset(intent.chain) != Some(intent.asset)
    requires GetEvmChainId(net, intent.chain) == Some(tx.chainId)
    requires OverrideApplies(o, intent.chain, tx.chainId) && ToUpper(o.symbol) == ToUpper(intent.asset)
    requires IsAddress(intent.recipient) && tx.to == Some(AddressValue(intent.recipient))
    requires Money.ToBaseUnits(intent.amount, 18) == Some(tx.value) && tx.data == []
    ensures var before, after := Deployment(net, [o], leq, decode), Deployment(net, [], leq, decode);
            && ResolveAsset(before, intent.chain, intent.asset) == Ok(Some(OverrideToken(o, intent.chain, tx.chainId)))
            && ResolveAsset(after, intent.chain, intent.asset) == Err(400)
            && VerifySignedTransaction(after, intent, signedTx).Ok?
            && VerifySignedTransaction(after, intent, signedTx).value.kind == Native
  {
    OneOverrideResolves(net, o, leq, intent.chain, tx.chainId, intent.asset);
    NoSuchToken(net, leq, intent.chain, intent.asset);
    UnknownAssetPaidNatively(Deployment(net, [], leq, decode), intent, signedTx, tx);
  }
}
