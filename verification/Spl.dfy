/** SPL token wire layouts: TransferChecked data and token-account balances (src/chains/solana/spl.ts). */
module Spl {
  import opened Common
  import Money

  const TOKEN_INSTRUCTION_TRANSFER_CHECKED: byte := 12
  const TOKEN_TRANSFER_CHECKED_DATA_LENGTH: nat := 10
  const TOKEN_ACCOUNT_LENGTH: nat := 165
  const TOKEN_ACCOUNT_AMOUNT_OFFSET: nat := 64
  const U64_LIMIT: nat := 0x1_0000_0000_0000_0000

  datatype EncodeError = BadDecimals | NegativeAmount | AmountExceedsU64

  datatype Program = SplToken | Token2022

  /** Account keys are opaque here; only their order and flags matter. */
  datatype AccountMeta = AccountMeta(pubkey: string, isSigner: bool, isWritable: bool)

  datatype Instruction = Instruction(program: Program, keys: seq<AccountMeta>, data: seq<byte>)

  // ----- little-endian numbers

  /** The `k` low bytes of `v`, least significant first. */
  function LittleEndian(v: nat, k: nat): (b: seq<byte>)
    ensures |b| == k
  {
    if k == 0 then [] else [(v % 256) as byte] + LittleEndian(v / 256, k - 1)
  }

  /** The number a little-endian byte string denotes. */
  function ReadLittleEndian(b: seq<byte>): nat {
    if b == [] then 0 else b[0] as nat + 256 * ReadLittleEndian(b[1..])
  }

  lemma {:induction false} ReadAfterWrite(v: nat, k: nat)
    requires v < Pow256(k)
    ensures ReadLittleEndian(LittleEndian(v, k)) == v
  {
    if k > 0 {
      ReadAfterWrite(v / 256, k - 1);
      assert LittleEndian(v, k)[1..] == LittleEndian(v / 256, k - 1);
    }
  }

  lemma {:induction false} WriteAfterRead(b: seq<byte>)
    ensures ReadLittleEndian(b) < Pow256(|b|)
    ensures LittleEndian(ReadLittleEndian(b), |b|) == b
  {
    if b != [] {
      WriteAfterRead(b[1..]);
      assert b == [b[0]] + b[1..];
    }
  }

  /** Byte `i` of the encoding is the `i`-th digit of `v` to base 256, counted from the least. */
  lemma {:induction false} LittleEndianByte(v: nat, k: nat, i: nat)
    requires i < k
    ensures LittleEndian(v, k)[i] as nat == v / Pow256(i) % 256
  {
    if i > 0 {
      LittleEndianByte(v / 256, k - 1, i - 1);
      assert LittleEndian(v, k)[i] == LittleEndian(v / 256, k - 1)[i - 1];
      DivideTwice(v, Pow256(i - 1));
    }
  }

  lemma U64IsEightBytes()
    ensures Pow256(8) == U64_LIMIT
  {
    assert Pow256(4) == 0x1_0000_0000;
  }

  /** `buf` with `b` written over it at `offset`. */
  function Splice(buf: seq<byte>, offset: nat, b: seq<byte>): (r: seq<byte>)
    requires offset + |b| <= |buf|
    ensures |r| == |buf|
  {
    buf[..offset] + b + buf[offset + |b|..]
  }

  /** `writeU64LE`: checks the range, then fills the eight bytes in place. */
  method WriteU64LE(buf: array<byte>, offset: nat, value: int) returns (error: Option<EncodeError>)
    requires offset + 8 <= buf.Length
    modifies buf
    ensures value < 0 <==> error == Some(NegativeAmount)
    ensures value >= U64_LIMIT <==> error == Some(AmountExceedsU64)
    ensures error.Some? ==> error.value != BadDecimals && buf[..] == old(buf[..])
    ensures error.None? ==> 0 <= value && buf[..] == Splice(old(buf[..]), offset, LittleEndian(value, 8))
  {
    if value < 0 {
      return Some(NegativeAmount);
    }
    if value > 0xffff_ffff_ffff_ffff {
      return Some(AmountExceedsU64);
    }
    var bytes := LittleEndian(value, 8);
    forall i | 0 <= i < 8 {
      buf[offset + i] := bytes[i];
    }
    assert buf[offset..offset + 8] == bytes;
    assert buf[..] == buf[..offset] + buf[offset..offset + 8] + buf[offset + 8..];
    return None;
  }

  // ----- TransferChecked

  /** `[tag, u64 amount LE, decimals]`. */
  function TransferCheckedData(amount: nat, decimals: byte): (data: seq<byte>)
    ensures |data| == TOKEN_TRANSFER_CHECKED_DATA_LENGTH
  {
    [TOKEN_INSTRUCTION_TRANSFER_CHECKED] + LittleEndian(amount, 8) + [decimals]
  }

  /** How the token program reads the data back: amount and expected decimals. */
  function DecodeTransferChecked(data: seq<byte>): Option<(nat, byte)> {
    if |data| == TOKEN_TRANSFER_CHECKED_DATA_LENGTH && data[0] == TOKEN_INSTRUCTION_TRANSFER_CHECKED
    then Some((ReadLittleEndian(data[1..9]), data[9]))
    else None
  }

  /** The program reads `(amount, decimals)` from exactly one byte string, the one that encodes them. */
  lemma DecodeIffEncoded(data: seq<byte>, amount: nat, decimals: byte)
    requires amount < U64_LIMIT
    ensures DecodeTransferChecked(data) == Some((amount, decimals))
       <==> data == TransferCheckedData(amount, decimals)
  {
    U64IsEightBytes();
    ReadAfterWrite(amount, 8);
    assert TransferCheckedData(amount, decimals)[1..9] == LittleEndian(amount, 8);
    if DecodeTransferChecked(data) == Some((amount, decimals)) {
      WriteAfterRead(data[1..9]);
      assert data == [data[0]] + data[1..9] + [data[9]];
    }
  }

  /** Different amounts or scales never share an encoding. */
  lemma EncodingInjective(a: nat, da: byte, b: nat, db: byte)
    requires a < U64_LIMIT && b < U64_LIMIT
    requires TransferCheckedData(a, da) == TransferCheckedData(b, db)
    ensures a == b && da == db
  {
    DecodeIffEncoded(TransferCheckedData(a, da), a, da);
    DecodeIffEncoded(TransferCheckedData(a, da), b, db);
  }

  /** `createTransferInstruction`: decimals are checked first, then the amount. */
  method CreateTransferInstruction(
    mint: string, source: string, destination: string, owner: string,
    amount: int, decimals: int, program: Program)
    returns (r: Result<Instruction, EncodeError>)
    ensures r == Err(BadDecimals) <==> decimals < 0 || decimals > 255
    ensures r == Err(NegativeAmount) <==> 0 <= decimals <= 255 && amount < 0
    ensures r == Err(AmountExceedsU64) <==> 0 <= decimals <= 255 && amount > 18_446_744_073_709_551_615
    ensures r.Ok? ==>
              && DecodeTransferChecked(r.value.data) == Some((amount, decimals as byte))
              && r.value.data[0] == 12 && |r.value.data| == 10 && r.value.data[9] as int == decimals
              && (forall i :: 0 <= i < 8 ==> r.value.data[1 + i] as nat == amount / Pow256(i) % 256)
              && r.value.program == program
              && r.value.keys == [AccountMeta(source, false, true), AccountMeta(mint, false, false),
                                  AccountMeta(destination, false, true), AccountMeta(owner, true, false)]
  {
    if decimals < 0 || decimals > 255 {
      return Err(BadDecimals);
    }
    var data := new byte[TOKEN_TRANSFER_CHECKED_DATA_LENGTH](i => 0);
    data[0] := TOKEN_INSTRUCTION_TRANSFER_CHECKED;
    var error := WriteU64LE(data, 1, amount);
    if error.Some? {
      return Err(error.value);
    }
    data[9] := decimals as byte;
    assert data[..] == TransferCheckedData(amount, decimals as byte);
    DecodeIffEncoded(data[..], amount, decimals as byte);
    forall i | 0 <= i < 8 ensures data[1 + i] as nat == amount / Pow256(i) % 256 { LittleEndianByte(amount, 8, i); }
    r := Ok(Instruction(program, [
      AccountMeta(source, false, true), AccountMeta(mint, false, false),
      AccountMeta(destination, false, true), AccountMeta(owner, true, false)], data[..]));
  }

  // ----- token accounts

  /** `readTokenAccountAmount`: refuses a buffer too short to be a token account. */
  function ReadTokenAccountAmount(data: seq<byte>): Option<nat> {
    if |data| < TOKEN_ACCOUNT_LENGTH then None
    else Some(ReadLittleEndian(data[TOKEN_ACCOUNT_AMOUNT_OFFSET..TOKEN_ACCOUNT_AMOUNT_OFFSET + 8]))
  }

  /** The balance is the little-endian number in bytes 64 to 71 of an account of at least 165 bytes. */
  lemma BalanceBytes(data: seq<byte>)
    ensures ReadTokenAccountAmount(data).Some? <==> |data| >= 165
    ensures |data| >= 165 ==>
              && ReadTokenAccountAmount(data).value <= 18_446_744_073_709_551_615
              && forall i :: 0 <= i < 8 ==> data[64 + i] as nat == ReadTokenAccountAmount(data).value / Pow256(i) % 256
  {
    if |data| >= 165 {
      U64IsEightBytes();
      var word := data[64..72];
      WriteAfterRead(word);
      forall i | 0 <= i < 8 ensures data[64 + i] as nat == ReadTokenAccountAmount(data).value / Pow256(i) % 256 {
        LittleEndianByte(ReadLittleEndian(word), 8, i);
        assert word[i] == data[64 + i];
      }
    }
  }

  lemma SpliceThenSlice(data: seq<byte>, at: nat, bytes: seq<byte>)
    requires at + |bytes| <= |data|
    ensures |Splice(data, at, bytes)| == |data| && Splice(data, at, bytes)[at..at + |bytes|] == bytes
  {
  }

  lemma SpliceOwnSlice(data: seq<byte>, at: nat, n: nat)
    requires at + n <= |data|
    ensures Splice(data, at, data[at..at + n]) == data
  {
  }

  /**
   * Reading a balance inverts writing it: a written amount is read back, whatever the rest of the
   * account holds, and rewriting the amount that was read changes no byte.
   */
  lemma BalanceReadInvertsWrite(account: seq<byte>, amount: nat)
    requires |account| >= 165 && amount < U64_LIMIT
    ensures ReadTokenAccountAmount(Splice(account, 64, LittleEndian(amount, 8)))
              == Some(amount)
    ensures ReadTokenAccountAmount(account).Some?
    ensures Splice(account, 64, LittleEndian(ReadTokenAccountAmount(account).value, 8))
              == account
  {
    U64IsEightBytes();
    ReadAfterWrite(amount, 8);
    SpliceThenSlice(account, TOKEN_ACCOUNT_AMOUNT_OFFSET, LittleEndian(amount, 8));
    var word := account[TOKEN_ACCOUNT_AMOUNT_OFFSET..TOKEN_ACCOUNT_AMOUNT_OFFSET + 8];
    WriteAfterRead(word);
    SpliceOwnSlice(account, TOKEN_ACCOUNT_AMOUNT_OFFSET, 8);
  }

  // ----- from the display string to the wire and back

  /** The data sent for a display amount, where the amount converts and fits u64. */
  function EncodeAmount(amount: string, decimals: byte): Option<seq<byte>> {
    match Money.ToBaseUnits(amount, decimals as nat)
    case Some(n) => if n < U64_LIMIT then Some(TransferCheckedData(n, decimals)) else None
    case None => None
  }

  /** What the wire bytes say, printed at the scale they carry. */
  function DisplayTransfer(data: seq<byte>): Option<string> {
    match DecodeTransferChecked(data)
    case Some((n, d)) => Some(Money.FromBaseUnits(n, d as nat))
    case None => None
  }

  /** The whole pipeline is exact: the wire bytes spell the canonical form of the amount typed. */
  lemma PipelineExact(amount: string, decimals: byte)
    requires EncodeAmount(amount, decimals).Some?
    ensures var data := EncodeAmount(amount, decimals).value;
            |data| == 10 && data[0] == 12 && data[9] == decimals
            && DisplayTransfer(data) == Some(Money.Canonical(amount))
  {
    var n := Money.ToBaseUnits(amount, decimals as nat).value;
    DecodeIffEncoded(TransferCheckedData(n, decimals), n, decimals);
    Money.PrintAfterParse(amount, decimals as nat);
  }

  /** Two amounts share wire bytes exactly when they are one number at one scale. */
  lemma PipelineInjective(a: string, da: byte, b: string, db: byte)
    requires EncodeAmount(a, da).Some? && EncodeAmount(b, db).Some?
    ensures EncodeAmount(a, da) == EncodeAmount(b, db)
       <==> da == db && Money.NumericValue(a) == Money.NumericValue(b)
  {
    var m, n := Money.ToBaseUnits(a, da as nat).value, Money.ToBaseUnits(b, db as nat).value;
    if TransferCheckedData(m, da) == TransferCheckedData(n, db) {
      EncodingInjective(m, da, n, db);
    }
    Money.ConversionIsExact(a, da as nat);
    Money.ConversionIsExact(b, db as nat);
    Money.ShiftedOrder(Money.NumericValue(a), Money.NumericValue(b), da as nat);
    Money.ShiftedOrder(Money.NumericValue(b), Money.NumericValue(a), da as nat);
  }
}
