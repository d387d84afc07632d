/** Token addresses and the pricing symbols they map to. */
module Registry {
  import opened Wire
  import opened Text

  /** One `[[tokens]]` row. */
  datatype TokenEntry = TokenEntry(address: string, symbol: Symbol)

  datatype TokenRegistry = TokenRegistry(tokens: map<Address, Symbol>, quoteToken: Address)

  /** Resolve an input/output pair; the settlement token decides the direction. */
  function Resolve(r: TokenRegistry, input: Address, output: Address): Option<ResolvedPair> {
    if input == r.quoteToken then
      if output in r.tokens then Some(ResolvedPair(r.tokens[output], output, QuoteToBase)) else None
    else if output == r.quoteToken then
      if input in r.tokens then Some(ResolvedPair(r.tokens[input], input, BaseToQuote)) else None
    else
      None
  }

  /** A resolved pair names one listed token and the settlement token, on the side its direction says. */
  lemma ResolvedPairNamesTheOrder(r: TokenRegistry, input: Address, output: Address)
    ensures Resolve(r, input, output).Some? <==>
              || (input == r.quoteToken && output in r.tokens)
              || (input != r.quoteToken && output == r.quoteToken && input in r.tokens)
    ensures Resolve(r, input, output).Some? ==>
              var p := Resolve(r, input, output).value;
              && p.token in r.tokens && r.tokens[p.token] == p.symbol
              && (p.direction.QuoteToBase? ==> (input, output) == (r.quoteToken, p.token))
              && (p.direction.BaseToQuote? ==> (input, output) == (p.token, r.quoteToken))
  {
  }

  /** The final pass resolves a token against the settlement token: this is the plain mapping. */
  lemma ResolveAgainstSettlement(r: TokenRegistry, token: Address)
    ensures Resolve(r, token, r.quoteToken).Some? <==> token in r.tokens
    ensures token in r.tokens ==> Resolve(r, token, r.quoteToken).value.symbol == r.tokens[token]
  {
  }

  /** The rows inserted one after another; a later row for the same address would overwrite. */
  function Mapping(entries: seq<TokenEntry>): Option<map<Address, Symbol>> {
    if entries == [] then Some(map[])
    else
      var n := |entries| - 1;
      var front, address := Mapping(entries[..n]), ParseAddress(entries[n].address);
      if front.Some? && address.Some? then Some(front.value[address.value := entries[n].symbol]) else None
  }

  function FromConfig(entries: seq<TokenEntry>, quoteToken: string): Option<TokenRegistry> {
    var quote, tokens := ParseAddress(quoteToken), Mapping(entries);
    if quote.Some? && tokens.Some? then Some(TokenRegistry(tokens.value, quote.value)) else None
  }

  /** `TokenRegistry::new`. */
  method New(entries: seq<TokenEntry>, quoteToken: string) returns (r: Option<TokenRegistry>)
    ensures r == FromConfig(entries, quoteToken)
  {
    var quote := ParseAddress(quoteToken);
    if quote.None? {
      return None;
    }
    var tokens: map<Address, Symbol> := map[];
    for i := 0 to |entries|
      invariant Mapping(entries[..i]) == Some(tokens)
    {
      var address := ParseAddress(entries[i].address);
      assert entries[..i + 1][..i] == entries[..i];
      if address.None? {
        MappingFailsEarly(entries, i + 1);
        return None;
      }
      tokens := tokens[address.value := entries[i].symbol];
    }
    assert entries[..|entries|] == entries;
    return Some(TokenRegistry(tokens, quote.value));
  }

  lemma {:induction false} MappingFailsEarly(entries: seq<TokenEntry>, n: nat)
    requires n <= |entries| && Mapping(entries[..n]).None?
    ensures Mapping(entries).None?
    decreases |entries| - n
  {
    if n == |entries| {
      assert entries[..n] == entries;
    } else {
      assert entries[..n + 1][..n] == entries[..n];
      MappingFailsEarly(entries, n + 1);
    }
  }

  predicate DistinctAddresses(entries: seq<TokenEntry>) {
    forall i, j :: 0 <= i < j < |entries| ==> ParseAddress(entries[i].address) != ParseAddress(entries[j].address)
  }

  /** With distinct addresses, the registry loses no row. */
  lemma {:induction false} RegistryHoldsTheRows(entries: seq<TokenEntry>, i: nat)
    requires Mapping(entries).Some? && DistinctAddresses(entries) && i < |entries|
    ensures ParseAddress(entries[i].address).Some?
    ensures var address := ParseAddress(entries[i].address).value;
            address in Mapping(entries).value && Mapping(entries).value[address] == entries[i].symbol
  {
    var n := |entries| - 1;
    hide ParseAddress;
    if i < n {
      RegistryHoldsTheRows(entries[..n], i);
      assert entries[..n][i] == entries[i];
    }
  }

  /** And it adds none: every mapped address is a row's. */
  lemma {:induction false} RegistryAddsNoRow(entries: seq<TokenEntry>, a: Address)
    requires Mapping(entries).Some? && a in Mapping(entries).value
    ensures exists j :: 0 <= j < |entries| && ParseAddress(entries[j].address) == Some(a)
  {
    var n := |entries| - 1;
    hide ParseAddress;
    if ParseAddress(entries[n].address) != Some(a) {
      RegistryAddsNoRow(entries[..n], a);
      var j :| 0 <= j < n && ParseAddress(entries[..n][j].address) == Some(a);
      assert entries[..n][j] == entries[j];
    }
  }

  /** Rows that differ only in the case of their addresses build the same mapping. */
  lemma {:induction false} MappingIgnoresCase(a: seq<TokenEntry>, b: seq<TokenEntry>)
    requires |a| == |b| && Mapping(a).Some? && Mapping(b).Some?
    requires forall i :: 0 <= i < |a| ==> a[i].symbol == b[i].symbol && Lower(a[i].address) == Lower(b[i].address)
    ensures Mapping(a) == Mapping(b)
  {
    if a != [] {
      var n := |a| - 1;
      MappingIgnoresCase(a[..n], b[..n]);
      assert a[n].symbol == b[n].symbol && Lower(a[n].address) == Lower(b[n].address);
      AddressIgnoresCase(a[n].address, b[n].address);
    }
  }
}
