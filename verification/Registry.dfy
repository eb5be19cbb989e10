/**
 * The ERC-20 token registry (src/chains/tokens/registry.ts) and the chain ids it is keyed by
 * (src/chains/chain.network.ts).
 */
module Registry {
  import opened Common

  datatype Token = Token(
    symbol: string, name: string, decimals: int, address: string,
    chain: string, chainId: int, verified: bool)

  /** The `chainId` of an entry: absent, an integer, or something that equals no chain id (null, text, a fraction). */
  datatype EntryChainId = AnyNetwork | Only(id: int) | NoNetwork

  /** An entry of ERC20_TOKEN_CONFIG that passed validation. */
  datatype Override = Override(
    chain: string, chainId: EntryChainId, symbol: string, name: Option<string>, address: string, decimals: int)

  /** A parsed JSON entry: the other fields are None when missing or of another type. */
  datatype RawEntry = RawEntry(
    chain: Option<string>, chainId: EntryChainId, symbol: Option<string>, name: Option<string>,
    address: Option<string>, decimals: Option<int>)

  datatype RawConfig = Unset | Unparseable | Entries(entries: seq<RawEntry>)

  /** The chain ids the environment selects. */
  datatype Networks = Networks(ethereum: int, bsc: Option<int>, base: Option<int>, polygon: Option<int>)

  /** Stands in for `localeCompare(a, b) <= 0`. */
  type SymbolOrder = (string, string) -> bool

  ghost predicate TotalPreorder(leq: SymbolOrder) {
    && (forall a, b :: leq(a, b) || leq(b, a))
    && (forall a, b, c :: leq(a, b) && leq(b, c) ==> leq(a, c))
  }

  // ----- chain ids

  predicate IsEvmChain(chain: string) { chain in ["ETH", "BSC", "BASE", "POLYGON"] }

  function OrElse(o: Option<int>, d: int): int {
    match o
    case Some(v) => v
    case None => d
  }

  /** `getEvmChainId`: None where the original throws. */
  function GetEvmChainId(net: Networks, chain: string): Option<int> {
    if chain == "ETH" then Some(net.ethereum)
    else if chain == "BSC" then Some(OrElse(net.bsc, 56))
    else if chain == "BASE" then Some(OrElse(net.base, 8453))
    else if chain == "POLYGON" then Some(OrElse(net.polygon, 137))
    else None
  }

  /** `chainIdOverride ?? getEvmChainId(chain)`. */
  function ConfiguredChainId(net: Networks, chain: string, chainIdOverride: Option<int>): Option<int> {
    if chainIdOverride.Some? then chainIdOverride else GetEvmChainId(net, chain)
  }

  // ----- seeds and overrides

  /** The seed registry, in source order. */
  function Seeds(): seq<Token> { [
    Token("USDC", "USD Coin", 6, "0xA0b86991c6218b36c1d19D4a2e9Eb0cE3606eB48", "ETH", 1, true),
    Token("USDT", "Tether USD", 6, "0xdAC17F958D2ee523a2206206994597C13D831ec7", "ETH", 1, true),
    Token("USDC", "USD Coin", 6, "0x1c7D4B196Cb0C7B01d743Fbc6116a902379C7238", "ETH", 11155111, true),
    Token("USDT", "Binance-Peg Tether USD", 18, "0x55d398326f99059fF775485246999027B3197955", "BSC", 56, true),
    Token("USDC", "Binance-Peg USD Coin", 18, "0x8AC76a51cc950d9822D68b83fE1Ad97B32Cd580d", "BSC", 56, true),
    Token("USDC", "USD Coin", 6, "0x833589fCD6eDb6E08f4c7C32D4f71b54bdA02913", "BASE", 8453, true),
    Token("USDC", "USD Coin", 6, "0x036CbD53842c5426634e7929541eC2318f3dCF7e", "BASE", 84532, true),
    Token("USDC", "USD Coin", 6, "0x3c499c542cEF5E3811e1192ce70d8cC03d5c3359", "POLYGON", 137, true),
    Token("USDC", "USD Coin", 6, "0x41E94Eb019C0762f9Bfcf9Fb1E58725BfB0e7582", "POLYGON", 80002, true)] }

  predicate IsHexDigit(c: char) { '0' <= c <= '9' || 'a' <= c <= 'f' || 'A' <= c <= 'F' }

  /** `^0x[0-9a-fA-F]{40}$`. */
  predicate IsAddress(s: string) {
    |s| == 42 && s[0] == '0' && s[1] == 'x' && forall i :: 2 <= i < 42 ==> IsHexDigit(s[i])
  }

  predicate ValidEntry(e: RawEntry) {
    e.chain.Some? && e.symbol.Some? && e.address.Some? && e.decimals.Some? && IsAddress(e.address.value)
  }

  function KeepValid(entries: seq<RawEntry>): (r: seq<Override>)
    ensures forall o :: o in r ==> IsAddress(o.address)
  {
    if entries == [] then []
    else
      var e := entries[0];
      var rest := KeepValid(entries[1..]);
      if ValidEntry(e)
      then [Override(e.chain.value, e.chainId, e.symbol.value, e.name, e.address.value, e.decimals.value)] + rest
      else rest
  }

  /** What a configuration value amounts to: malformed entries are dropped, a malformed value ignored. */
  function EffectiveOverrides(raw: RawConfig): seq<Override> {
    match raw
    case Entries(entries) => KeepValid(entries)
    case _ => []
  }

  predicate OverrideApplies(o: Override, chain: string, chainId: int) {
    ToUpper(o.chain) == chain && (o.chainId.AnyNetwork? || o.chainId == Only(chainId))
  }

  function OverrideToken(o: Override, chain: string, chainId: int): Token {
    Token(ToUpper(o.symbol), if o.name.Some? then o.name.value else ToUpper(o.symbol),
          o.decimals, o.address, chain, chainId, false)
  }

  /** `applyOverrides`. */
  function ApplyOverrides(overrides: seq<Override>, chain: string, chainId: int): (r: seq<Token>)
    ensures forall t :: t in r ==> t.chain == chain && t.chainId == chainId
  {
    if overrides == [] then []
    else
      var rest := ApplyOverrides(overrides[1..], chain, chainId);
      if OverrideApplies(overrides[0], chain, chainId)
      then [OverrideToken(overrides[0], chain, chainId)] + rest
      else rest
  }

  function FromSeeds(seeds: seq<Token>, chain: string, chainId: int): (r: seq<Token>)
    ensures forall t :: t in r ==> t.chain == chain && t.chainId == chainId
  {
    if seeds == [] then []
    else
      var rest := FromSeeds(seeds[1..], chain, chainId);
      if seeds[0].chain == chain && seeds[0].chainId == chainId then [seeds[0]] + rest else rest
  }

  // ----- the symbol table

  /** `Array.prototype.find` on the symbol. */
  function Find(ts: seq<Token>, symbol: string): (r: Option<Token>)
    ensures r.Some? ==> r.value in ts && r.value.symbol == symbol
    ensures r.None? ==> forall t :: t in ts ==> t.symbol != symbol
  {
    if ts == [] then None
    else if ts[0].symbol == symbol then Some(ts[0])
    else Find(ts[1..], symbol)
  }

  /** `Map.prototype.set`: overwrites in place, appends a new key. */
  function Put(table: seq<Token>, t: Token): seq<Token> {
    if table == [] then [t]
    else if table[0].symbol == t.symbol then [t] + table[1..]
    else [table[0]] + Put(table[1..], t)
  }

  function PutAll(ts: seq<Token>): seq<Token> {
    if ts == [] then [] else Put(PutAll(ts[..|ts| - 1]), ts[|ts| - 1])
  }

  function Insert(leq: SymbolOrder, t: Token, sorted: seq<Token>): seq<Token> {
    if sorted == [] then [t]
    else if leq(t.symbol, sorted[0].symbol) then [t] + sorted
    else [sorted[0]] + Insert(leq, t, sorted[1..])
  }

  function Sort(leq: SymbolOrder, ts: seq<Token>): seq<Token> {
    if ts == [] then [] else Insert(leq, ts[0], Sort(leq, ts[1..]))
  }

  /** `listTokens`. */
  function Listing(net: Networks, overrides: seq<Override>, leq: SymbolOrder, chain: string,
                      chainIdOverride: Option<int>): seq<Token> {
    match ConfiguredChainId(net, chain, chainIdOverride)
    case None => []
    case Some(c) => Sort(leq, PutAll(FromSeeds(Seeds(), chain, c) + ApplyOverrides(overrides, chain, c)))
  }

  /** `resolveToken`. */
  function ResolveToken(net: Networks, overrides: seq<Override>, leq: SymbolOrder, chain: string, asset: string,
                        chainIdOverride: Option<int>): Option<Token> {
    if asset == "" then None else Find(Listing(net, overrides, leq, chain, chainIdOverride), ToUpper(asset))
  }

  /** `requireToken`: None stands for the 400. */
  function RequireToken(net: Networks, overrides: seq<Override>, leq: SymbolOrder, chain: string, asset: string,
                        chainIdOverride: Option<int>): Result<Token, nat> {
    match ResolveToken(net, overrides, leq, chain, asset, chainIdOverride)
    case Some(t) => Ok(t)
    case None => Err(400)
  }

  // ----- distinct symbols, and lookup in the table

  ghost predicate DistinctSymbols(ts: seq<Token>) {
    forall i, j :: 0 <= i < j < |ts| ==> ts[i].symbol != ts[j].symbol
  }

  ghost predicate SortedBySymbol(leq: SymbolOrder, ts: seq<Token>) {
    forall i, j :: 0 <= i < j < |ts| ==> leq(ts[i].symbol, ts[j].symbol)
  }

  lemma {:induction false} PutProperties(table: seq<Token>, t: Token)
    requires DistinctSymbols(table)
    ensures DistinctSymbols(Put(table, t))
    ensures forall u :: u in Put(table, t) <==> u == t || (u in table && u.symbol != t.symbol)
  {
    if table == [] {
    } else {
      var rest := table[1..];
      assert table == [table[0]] + rest;
      assert DistinctSymbols(rest);
      assert forall u :: u in rest ==> u.symbol != table[0].symbol;
      PutProperties(rest, t);
    }
  }

  /** The last entry for a symbol. */
  function LastMatch(ts: seq<Token>, symbol: string): Option<Token> {
    if ts == [] then None
    else if ts[|ts| - 1].symbol == symbol then Some(ts[|ts| - 1])
    else LastMatch(ts[..|ts| - 1], symbol)
  }

  lemma {:induction false} TableHoldsLastMatches(ts: seq<Token>)
    ensures DistinctSymbols(PutAll(ts))
    ensures forall t :: t in PutAll(ts) <==> LastMatch(ts, t.symbol) == Some(t)
    ensures forall t :: t in PutAll(ts) ==> t in ts
  {
    if ts != [] {
      TableHoldsLastMatches(ts[..|ts| - 1]);
      PutProperties(PutAll(ts[..|ts| - 1]), ts[|ts| - 1]);
    }
  }

  lemma {:induction false} InsertKeeps(leq: SymbolOrder, t: Token, s: seq<Token>)
    ensures multiset(Insert(leq, t, s)) == multiset(s) + multiset{t}
  {
    if s != [] {
      assert s == [s[0]] + s[1..];
      if !leq(t.symbol, s[0].symbol) {
        InsertKeeps(leq, t, s[1..]);
      }
    }
  }

  lemma {:induction false} InsertSorted(leq: SymbolOrder, t: Token, s: seq<Token>)
    requires TotalPreorder(leq) && SortedBySymbol(leq, s)
    ensures SortedBySymbol(leq, Insert(leq, t, s))
  {
    if s != [] {
      if leq(t.symbol, s[0].symbol) {
        forall i | 0 <= i < |s| ensures leq(t.symbol, s[i].symbol) {
          assert i > 0 ==> leq(s[0].symbol, s[i].symbol);
        }
      } else {
        var r := Insert(leq, t, s[1..]);
        InsertSorted(leq, t, s[1..]);
        InsertKeeps(leq, t, s[1..]);
        forall i | 0 <= i < |r| ensures leq(s[0].symbol, r[i].symbol) {
          assert r[i] in multiset(r);
        }
      }
    }
  }

  lemma {:induction false} SortProperties(leq: SymbolOrder, ts: seq<Token>)
    requires TotalPreorder(leq)
    ensures SortedBySymbol(leq, Sort(leq, ts))
    ensures multiset(Sort(leq, ts)) == multiset(ts)
  {
    if ts != [] {
      assert ts == [ts[0]] + ts[1..];
      SortProperties(leq, ts[1..]);
      InsertSorted(leq, ts[0], Sort(leq, ts[1..]));
      InsertKeeps(leq, ts[0], Sort(leq, ts[1..]));
    }
  }

  /** Distinct symbols depend only on which entries there are. */
  lemma DistinctUnderPermutation(a: seq<Token>, b: seq<Token>)
    requires multiset(a) == multiset(b) && DistinctSymbols(a)
    ensures DistinctSymbols(b)
    ensures forall t :: t in a <==> t in b
  {
    forall t ensures t in a <==> t in b {
      assert t in multiset(a) <==> t in multiset(b);
    }
    forall i, j | 0 <= i < j < |b| ensures b[i].symbol != b[j].symbol {
      if b[i] == b[j] {
        TwoOccurrences(b, i, j);
        OneOccurrence(a, b[i]);
        assert false;
      } else {
        assert b[i] in multiset(a) && b[j] in multiset(a);
      }
    }
  }

  lemma TwoOccurrences(s: seq<Token>, i: nat, j: nat)
    requires i < j < |s| && s[i] == s[j]
    ensures multiset(s)[s[i]] >= 2
  {
    assert s == s[..j] + [s[j]] + s[j + 1..];
    assert s[i] in s[..j];
  }

  lemma {:induction false} OneOccurrence(s: seq<Token>, t: Token)
    requires DistinctSymbols(s)
    ensures multiset(s)[t] <= 1
  {
    if s != [] {
      assert s == [s[0]] + s[1..];
      assert DistinctSymbols(s[1..]);
      OneOccurrence(s[1..], t);
      if t == s[0] { assert t !in s[1..]; }
    }
  }

  // ----- main results

  /** A listing is sorted, has one entry per symbol, and every entry is bound to the chain and chain id asked for. */
  lemma ListingWellFormed(net: Networks, overrides: seq<Override>, leq: SymbolOrder, chain: string,
                          chainIdOverride: Option<int>)
    requires TotalPreorder(leq)
    ensures var l := Listing(net, overrides, leq, chain, chainIdOverride);
            && SortedBySymbol(leq, l) && DistinctSymbols(l)
            && forall t :: t in l ==>
                 t.chain == chain && ConfiguredChainId(net, chain, chainIdOverride) == Some(t.chainId)
  {
    match ConfiguredChainId(net, chain, chainIdOverride)
    case None =>
    case Some(c) =>
      var all := FromSeeds(Seeds(), chain, c) + ApplyOverrides(overrides, chain, c);
      TableHoldsLastMatches(all);
      SortProperties(leq, PutAll(all));
      DistinctUnderPermutation(PutAll(all), Sort(leq, PutAll(all)));
  }

  /** The last override that applies and carries the symbol. */
  function LastOverride(overrides: seq<Override>, chain: string, chainId: int, symbol: string): Option<Token> {
    if overrides == [] then None
    else
      var o := overrides[|overrides| - 1];
      if OverrideApplies(o, chain, chainId) && ToUpper(o.symbol) == symbol then Some(OverrideToken(o, chain, chainId))
      else LastOverride(overrides[..|overrides| - 1], chain, chainId, symbol)
  }

  function LastSeed(seeds: seq<Token>, chain: string, chainId: int, symbol: string): Option<Token> {
    if seeds == [] then None
    else
      var t := seeds[|seeds| - 1];
      if t.chain == chain && t.chainId == chainId && t.symbol == symbol then Some(t)
      else LastSeed(seeds[..|seeds| - 1], chain, chainId, symbol)
  }

  /** Resolution without a table: scan the overrides from the end, then the seeds. */
  function ScanResolve(net: Networks, overrides: seq<Override>, chain: string, asset: string,
                       chainIdOverride: Option<int>): Option<Token> {
    match ConfiguredChainId(net, chain, chainIdOverride)
    case None => None
    case Some(c) =>
      var fromOverrides := LastOverride(overrides, chain, c, ToUpper(asset));
      if fromOverrides.Some? then fromOverrides else LastSeed(Seeds(), chain, c, ToUpper(asset))
  }

  lemma {:induction false} ApplyOverridesAppend(os: seq<Override>, o: Override, chain: string, c: int)
    ensures ApplyOverrides(os + [o], chain, c) ==
            ApplyOverrides(os, chain, c) + (if OverrideApplies(o, chain, c) then [OverrideToken(o, chain, c)] else [])
  {
    if os == [] {
      assert [o][1..] == [];
    } else {
      assert (os + [o])[1..] == os[1..] + [o];
      ApplyOverridesAppend(os[1..], o, chain, c);
    }
  }

  lemma {:induction false} FromSeedsAppend(ts: seq<Token>, t: Token, chain: string, c: int)
    ensures FromSeeds(ts + [t], chain, c) ==
            FromSeeds(ts, chain, c) + (if t.chain == chain && t.chainId == c then [t] else [])
  {
    if ts == [] {
      assert [t][1..] == [];
    } else {
      assert (ts + [t])[1..] == ts[1..] + [t];
      FromSeedsAppend(ts[1..], t, chain, c);
    }
  }

  lemma {:induction false} LastMatchConcat(a: seq<Token>, b: seq<Token>, symbol: string)
    ensures LastMatch(a + b, symbol)
         == if LastMatch(b, symbol).Some? then LastMatch(b, symbol) else LastMatch(a, symbol)
  {
    if b == [] {
      assert a + b == a;
    } else {
      assert (a + b)[..|a + b| - 1] == a + b[..|b| - 1];
      LastMatchConcat(a, b[..|b| - 1], symbol);
    }
  }

  lemma {:induction false} LastOverrideIsLastMatch(os: seq<Override>, chain: string, c: int, symbol: string)
    ensures LastMatch(ApplyOverrides(os, chain, c), symbol) == LastOverride(os, chain, c, symbol)
  {
    if os != [] {
      var n := |os| - 1;
      assert os == os[..n] + [os[n]];
      ApplyOverridesAppend(os[..n], os[n], chain, c);
      LastOverrideIsLastMatch(os[..n], chain, c, symbol);
      LastMatchConcat(ApplyOverrides(os[..n], chain, c),
                      if OverrideApplies(os[n], chain, c) then [OverrideToken(os[n], chain, c)] else [], symbol);
    }
  }

  lemma {:induction false} LastSeedIsLastMatch(ts: seq<Token>, chain: string, c: int, symbol: string)
    ensures LastMatch(FromSeeds(ts, chain, c), symbol) == LastSeed(ts, chain, c, symbol)
  {
    if ts != [] {
      var n := |ts| - 1;
      assert ts == ts[..n] + [ts[n]];
      FromSeedsAppend(ts[..n], ts[n], chain, c);
      LastSeedIsLastMatch(ts[..n], chain, c, symbol);
      LastMatchConcat(FromSeeds(ts[..n], chain, c),
                      if ts[n].chain == chain && ts[n].chainId == c then [ts[n]] else [], symbol);
    }
  }

  lemma {:induction false} LastMatchHasSymbol(ts: seq<Token>, symbol: string)
    ensures LastMatch(ts, symbol).Some? ==> LastMatch(ts, symbol).value.symbol == symbol
  {
    if ts != [] {
      LastMatchHasSymbol(ts[..|ts| - 1], symbol);
    }
  }

  /** Looking a symbol up in the sorted table is scanning overrides then seeds, last entry winning. */
  lemma ResolveIsLastEntryWins(net: Networks, overrides: seq<Override>, leq: SymbolOrder, chain: string, asset: string,
                               chainIdOverride: Option<int>)
    requires TotalPreorder(leq)
    ensures ResolveToken(net, overrides, leq, chain, asset, chainIdOverride) ==
            if asset == "" then None else ScanResolve(net, overrides, chain, asset, chainIdOverride)
    ensures RequireToken(net, overrides, leq, chain, asset, chainIdOverride) == Err(400)
       <==> asset == "" || ScanResolve(net, overrides, chain, asset, chainIdOverride) == None
  {
    FindIsScan(net, overrides, leq, chain, asset, chainIdOverride);
  }

  lemma FindIsScan(net: Networks, overrides: seq<Override>, leq: SymbolOrder, chain: string, asset: string,
                   chainIdOverride: Option<int>)
    requires TotalPreorder(leq)
    ensures Find(Listing(net, overrides, leq, chain, chainIdOverride), ToUpper(asset)) ==
            ScanResolve(net, overrides, chain, asset, chainIdOverride)
  {
    match ConfiguredChainId(net, chain, chainIdOverride)
    case None =>
    case Some(c) =>
      var symbol := ToUpper(asset);
      var seeds, over := FromSeeds(Seeds(), chain, c), ApplyOverrides(overrides, chain, c);
      TableHoldsLastMatches(seeds + over);
      SortProperties(leq, PutAll(seeds + over));
      DistinctUnderPermutation(PutAll(seeds + over), Sort(leq, PutAll(seeds + over)));
      LastMatchConcat(seeds, over, symbol);
      LastOverrideIsLastMatch(overrides, chain, c, symbol);
      LastSeedIsLastMatch(Seeds(), chain, c, symbol);
      LastMatchHasSymbol(seeds + over, symbol);
      FoundIsLastMatch(Sort(leq, PutAll(seeds + over)), seeds + over, symbol);
  }

  lemma FoundIsLastMatch(listing: seq<Token>, all: seq<Token>, symbol: string)
    requires forall t :: t in listing <==> LastMatch(all, t.symbol) == Some(t)
    ensures Find(listing, symbol) == LastMatch(all, symbol)
  {
    LastMatchHasSymbol(all, symbol);
    match LastMatch(all, symbol)
    case Some(t) => assert t in listing;
    case None =>
  }

  // ----- what an entry and a seed are good for

  /** An entry is kept, field by field, exactly when it has all it needs and its address is one. */
  lemma EntryKept(e: RawEntry)
    ensures KeepValid([e]) ==
            if e.chain.Some? && e.symbol.Some? && e.address.Some? && e.decimals.Some? && IsAddress(e.address.value)
            then [Override(e.chain.value, e.chainId, e.symbol.value, e.name, e.address.value, e.decimals.value)]
            else []
  {
    assert [e][1..] == [];
  }

  /** And each entry is judged alone, in its place. */
  lemma {:induction false} EntriesKept(a: seq<RawEntry>, b: seq<RawEntry>)
    ensures KeepValid(a + b) == KeepValid(a) + KeepValid(b)
  {
    if a == [] {
      assert a + b == b;
    } else {
      assert (a + b)[1..] == a[1..] + b;
      EntriesKept(a[1..], b);
    }
  }

  /** The override names this chain, in any case, and its network: any, or the one asked for. */
  predicate Names(o: Override, chain: string, chainId: int, asset: string) {
    && SameLetters(o.chain, chain) && (forall i :: 0 <= i < |chain| ==> !('a' <= chain[i] <= 'z'))
    && (o.chainId == AnyNetwork || o.chainId == Only(chainId)) && SameLetters(o.symbol, asset)
  }

  /** One more override at the end: it answers for its symbol, unverified, and changes no other answer. */
  lemma OneMoreOverride(net: Networks, os: seq<Override>, o: Override, leq: SymbolOrder, chain: string, asset: string,
                        chainIdOverride: Option<int>)
    requires TotalPreorder(leq)
    ensures var c := if chainIdOverride.Some? then chainIdOverride else GetEvmChainId(net, chain);
            var t := ResolveToken(net, os + [o], leq, chain, asset, chainIdOverride);
            if asset != "" && c.Some? && Names(o, chain, c.value, asset)
            then t.Some?
                 && t.value == Token(ToUpper(asset), if o.name.Some? then o.name.value else ToUpper(asset),
                                     o.decimals, o.address, chain, c.value, false)
            else t == ResolveToken(net, os, leq, chain, asset, chainIdOverride)
  {
    ResolveIsLastEntryWins(net, os, leq, chain, asset, chainIdOverride);
    ResolveIsLastEntryWins(net, os + [o], leq, chain, asset, chainIdOverride);
    match ConfiguredChainId(net, chain, chainIdOverride)
    case None =>
    case Some(c) =>
      NamesMeans(o, chain, c, asset);
      LastOverrideOneMore(os, o, chain, c, ToUpper(asset));
  }

  lemma NamesMeans(o: Override, chain: string, c: int, asset: string)
    ensures OverrideApplies(o, chain, c) && ToUpper(o.symbol) == ToUpper(asset) <==> Names(o, chain, c, asset)
  {
    UpperIsSameLetters(o.symbol, asset);
    UpperIsGiven(o.chain, chain);
  }

  lemma LastOverrideOneMore(os: seq<Override>, o: Override, chain: string, c: int, symbol: string)
    ensures LastOverride(os + [o], chain, c, symbol) ==
            if OverrideApplies(o, chain, c) && ToUpper(o.symbol) == symbol then Some(OverrideToken(o, chain, c))
            else LastOverride(os, chain, c, symbol)
  {
    assert (os + [o])[..|os|] == os;
  }

  lemma UpperIsGiven(s: string, t: string)
    ensures ToUpper(s) == t <==> SameLetters(s, t) && forall i :: 0 <= i < |t| ==> !('a' <= t[i] <= 'z')
  {
    UpperMeans(s);
    if SameLetters(s, t) && forall i :: 0 <= i < |t| ==> !('a' <= t[i] <= 'z') {
      forall i | 0 <= i < |t| ensures ToUpper(s)[i] == t[i] { }
    }
  }

  /** Without overrides: the nine seeds under their chain ids, in any spelling of the symbol, and nothing else. */
  lemma SeedTable(net: Networks, leq: SymbolOrder, chain: string, asset: string, chainId: int)
    requires TotalPreorder(leq)
    ensures var t := ResolveToken(net, [], leq, chain, asset, Some(chainId));
            var listed := (chain, chainId, ToUpper(asset));
            && (t.Some? <==> listed in SeedNameSet())
            && (t.Some? ==> t.value.decimals == (if chain == "BSC" then 18 else 6) && t.value.verified)
  {
    ResolveIsLastEntryWins(net, [], leq, chain, asset, Some(chainId));
    SeedScan(chain, chainId, ToUpper(asset));
  }

  lemma SeedScan(chain: string, c: int, symbol: string)
    ensures var t := LastSeed(Seeds(), chain, c, symbol);
            && (t.Some? <==> (chain, c, symbol) in SeedNameSet())
            && (t.Some? ==> t.value.decimals == (if chain == "BSC" then 18 else 6) && t.value.verified)
  {
    LastSeedFinds(Seeds(), chain, c, symbol);
    if (chain, c, symbol) in SeedNameSet() {
      var k := NamedSeed((chain, c, symbol));
      assert IsSeed(Seeds()[k], chain, c, symbol);
    }
    if LastSeed(Seeds(), chain, c, symbol).Some? {
      var k: nat :| k < 9 && IsSeed(Seeds()[k], chain, c, symbol)
                    && LastSeed(Seeds(), chain, c, symbol) == Some(Seeds()[k]);
      SeedIsNamed(k);
      SeedScales(k);
    }
  }

  lemma SeedIsNamed(k: nat)
    requires k < 9
    ensures SeedName(k) in SeedNameSet()
  {
    SeedNames();
    assert k in {0, 1, 2, 3, 4, 5, 6, 7, 8};
  }

  lemma NamedSeed(name: (string, int, string)) returns (k: nat)
    requires name in SeedNameSet()
    ensures k < 9 && SeedName(k) == name
  {
    SeedNames();
    k :| k < 9 && SeedName(k) == name;
  }

  function SeedNameSet(): set<(string, int, string)> {
    {("ETH", 1, "USDC"), ("ETH", 1, "USDT"), ("ETH", 11155111, "USDC"), ("BSC", 56, "USDT"), ("BSC", 56, "USDC"),
     ("BASE", 8453, "USDC"), ("BASE", 84532, "USDC"), ("POLYGON", 137, "USDC"), ("POLYGON", 80002, "USDC")}
  }

  lemma SeedScales(k: nat)
    requires k < 9
    ensures Seeds()[k].decimals == (if Seeds()[k].chain == "BSC" then 18 else 6) && Seeds()[k].verified
  {
  }

  lemma {:induction false} LastSeedFinds(ts: seq<Token>, chain: string, c: int, symbol: string)
    ensures LastSeed(ts, chain, c, symbol).Some? <==> exists k :: 0 <= k < |ts| && IsSeed(ts[k], chain, c, symbol)
    ensures LastSeed(ts, chain, c, symbol).Some? ==>
              exists k ::
                0 <= k < |ts| && IsSeed(ts[k], chain, c, symbol) && LastSeed(ts, chain, c, symbol) == Some(ts[k])
  {
    if ts != [] {
      var n := |ts| - 1;
      LastSeedFinds(ts[..n], chain, c, symbol);
      if k :| 0 <= k < n && IsSeed(ts[..n][k], chain, c, symbol) { assert ts[k] == ts[..n][k]; }
      if IsSeed(ts[n], chain, c, symbol) { assert LastSeed(ts, chain, c, symbol) == Some(ts[n]); }
    }
  }

  predicate IsSeed(t: Token, chain: string, c: int, symbol: string) {
    (t.chain, t.chainId, t.symbol) == (chain, c, symbol)
  }

  function SeedName(k: nat): (string, int, string)
    requires k < 9
  {
    (Seeds()[k].chain, Seeds()[k].chainId, Seeds()[k].symbol)
  }

  lemma SeedNames()
    ensures SeedName(0) == ("ETH", 1, "USDC") && SeedName(1) == ("ETH", 1, "USDT")
    ensures SeedName(2) == ("ETH", 11155111, "USDC")
    ensures SeedName(3) == ("BSC", 56, "USDT") && SeedName(4) == ("BSC", 56, "USDC")
    ensures SeedName(5) == ("BASE", 8453, "USDC") && SeedName(6) == ("BASE", 84532, "USDC")
    ensures SeedName(7) == ("POLYGON", 137, "USDC") && SeedName(8) == ("POLYGON", 80002, "USDC")
  {
  }

  /** The networks an environment without chain ids is on. */
  lemma DefaultNetworks(ethereum: int, chain: string)
    ensures GetEvmChainId(Networks(ethereum, None, None, None), chain) ==
            (match chain
             case "ETH" => Some(ethereum)
             case "BSC" => Some(56)
             case "BASE" => Some(8453)
             case "POLYGON" => Some(137)
             case _ => None)
    ensures forall bsc, base, polygon ::
              && GetEvmChainId(Networks(ethereum, Some(bsc), base, polygon), "BSC") == Some(bsc)
              && GetEvmChainId(Networks(ethereum, polygon, Some(bsc), base), "BASE") == Some(bsc)
              && GetEvmChainId(Networks(ethereum, polygon, base, Some(bsc)), "POLYGON") == Some(bsc)
  {
  }

  // ----- the module variable and the listing loop

  /** The registry module: `overrides` is parsed on first use and kept. */
  class TokenRegistry {
    const raw: RawConfig
    var overrides: Option<seq<Override>>

    ghost predicate Valid()
      reads this
    {
      overrides.Some? ==> overrides.value == EffectiveOverrides(raw)
    }

    constructor (raw: RawConfig)
      ensures Valid() && this.raw == raw && overrides == None
    {
      this.raw := raw;
      overrides := None;
    }

    /** `loadOverrides`: the answer never depends on whether it was cached. */
    method LoadOverrides() returns (r: seq<Override>)
      requires Valid()
      modifies this`overrides
      ensures Valid() && overrides == Some(r) && r == EffectiveOverrides(raw)
    {
      if overrides.Some? {
        return overrides.value;
      }
      match raw
      case Entries(entries) =>
        var valid: seq<Override> := [];
        for i := 0 to |entries|
          invariant valid + KeepValid(entries[i..]) == KeepValid(entries)
        {
          var e := entries[i];
          assert entries[i..][1..] == entries[i + 1..];
          if ValidEntry(e) {
            valid := valid
              + [Override(e.chain.value, e.chainId, e.symbol.value, e.name, e.address.value, e.decimals.value)];
          }
        }
        assert entries[|entries|..] == [];
        overrides := Some(valid);
        return valid;
      case _ =>
        overrides := Some([]);
        return [];
    }

    /** `resetTokenOverrides`. */
    method ResetTokenOverrides()
      modifies this`overrides
      ensures Valid() && overrides == None
    {
      overrides := None;
    }

    static method MergeBySymbol(all: seq<Token>) returns (bySymbol: seq<Token>)
      ensures bySymbol == PutAll(all)
    {
      bySymbol := [];
      for i := 0 to |all|
        invariant bySymbol == PutAll(all[..i])
      {
        assert all[..i + 1][..i] == all[..i];
        bySymbol := Put(bySymbol, all[i]);
      }
      assert all[..|all|] == all;
    }

    /** `listTokens`: fills the symbol map entry by entry, then sorts its values. */
    method ListTokens(net: Networks, leq: SymbolOrder, chain: string, chainIdOverride: Option<int>)
      returns (r: seq<Token>)
      requires Valid()
      modifies this`overrides
      ensures Valid()
      ensures r == Listing(net, EffectiveOverrides(raw), leq, chain, chainIdOverride)
    {
      var configured := ConfiguredChainId(net, chain, chainIdOverride);
      if configured.None? {
        return [];
      }
      var loaded := LoadOverrides();
      var all := FromSeeds(Seeds(), chain, configured.value) + ApplyOverrides(loaded, chain, configured.value);
      var bySymbol := MergeBySymbol(all);
      r := Sort(leq, bySymbol);
    }
  }
}
