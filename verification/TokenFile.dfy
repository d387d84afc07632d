/** The per-token config file: what the oracle takes from it, and what a copy must satisfy. */
module TokenFile {
  import opened Wire
  import opened Text
  import opened Registry

  // ---- the parsed file -----------------------------------------------------------

  /** An equity slot's fields; a field that is missing or of another type is absent. */
  datatype SlotEntry = SlotEntry(pricing: Option<string>, venues: Option<seq<string>>, derivative: Option<string>)

  /** A table lists its keys once each, in the order it is iterated. */
  predicate DistinctKeys<T>(entries: seq<(string, T)>) {
    forall i, j :: 0 <= i < j < |entries| ==> entries[i].0 != entries[j].0
  }

  type Table<T> = entries: seq<(string, T)> | DistinctKeys(entries) witness []

  /** `None` for a slot that is not a table. */
  type Slots = Table<Option<SlotEntry>>

  datatype Equities = NoEquities | NotATable | Equities(slots: Slots)

  datatype Chain = Chain(chainId: Option<int>, quoteToken: Option<string>, equities: Equities)

  datatype File = File(schemaVersion: Option<int>, chains: Option<Table<Chain>>)

  datatype FileError =
    | NotParsed | SchemaVersion | NoChains | NoSuchChain | TwoSuchChains | NoQuoteToken
    | EquitiesNotTable | SlotNotTable | BadPricing | NoVenues | NoDerivative | EmptyUniverse
    | InlineTokens | QuoteTokenMismatch | BadChainId | InvalidConfig | InvalidRegistry

  const SCHEMA_VERSION := 1

  // ---- projection ------------------------------------------------------------------

  datatype Projection = Projection(chainId: U64, quoteToken: string, tokens: seq<TokenEntry>)

  /** The row of one slot: enabled and listed on raindex, or none. */
  function SlotRow(name: string, slot: Option<SlotEntry>): Result<Option<TokenEntry>, FileError> {
    if slot.None? then Err(SlotNotTable)
    else if slot.value.pricing == Some("disabled") then Ok(None)
    else if slot.value.pricing != Some("enabled") then Err(BadPricing)
    else if slot.value.venues.None? then Err(NoVenues)
    else if "raindex" !in slot.value.venues.value then Ok(None)
    else if slot.value.derivative.None? then Err(NoDerivative)
    else Ok(Some(TokenEntry(slot.value.derivative.value, "wt" + name)))
  }

  /** The rows of the slots in iteration order, or the first slot's error. */
  function Rows(slots: seq<(string, Option<SlotEntry>)>): Result<seq<TokenEntry>, FileError> {
    if slots == [] then Ok([])
    else
      var n := |slots| - 1;
      var front :- Rows(slots[..n]);
      var row :- SlotRow(slots[n].0, slots[n].1);
      Ok(if row.Some? then front + [row.value] else front)
  }

  function Insert(row: TokenEntry, rows: seq<TokenEntry>): seq<TokenEntry> {
    if rows == [] || Less(row.symbol, rows[0].symbol) then [row] + rows
    else [rows[0]] + Insert(row, rows[1..])
  }

  /** `sort_by_key` on the symbol. */
  function SortRows(rows: seq<TokenEntry>): seq<TokenEntry> {
    if rows == [] then [] else Insert(rows[|rows| - 1], SortRows(rows[..|rows| - 1]))
  }

  function Symbols(rows: seq<TokenEntry>): seq<Symbol> {
    seq(|rows|, i requires 0 <= i < |rows| => rows[i].symbol)
  }

  function MatchingChains(chains: Table<Chain>, chainId: U64): seq<Chain> {
    Matching(chains, chainId)
  }

  function Matching(chains: seq<(string, Chain)>, chainId: U64): seq<Chain> {
    if chains == [] then []
    else (if chains[0].1.chainId == Some(chainId) then [chains[0].1] else []) + Matching(chains[1..], chainId)
  }

  function Project(file: File, chainId: U64): Result<Projection, FileError> {
    if file.schemaVersion != Some(SCHEMA_VERSION) then Err(SchemaVersion)
    else if file.chains.None? then Err(NoChains)
    else
      var matched := MatchingChains(file.chains.value, chainId);
      if |matched| == 0 then Err(NoSuchChain)
      else if |matched| > 1 then Err(TwoSuchChains)
      else if matched[0].quoteToken.None? then Err(NoQuoteToken)
      else if matched[0].equities.NotATable? then Err(EquitiesNotTable)
      else
        var rows :- if matched[0].equities.NoEquities? then Ok([]) else Rows(matched[0].equities.slots);
        if rows == [] then Err(EmptyUniverse)
        else Ok(Projection(chainId, matched[0].quoteToken.value, SortRows(rows)))
  }

  /** The slot loop of `project`, then its sort. */
  method ProjectSlots(slots: Slots) returns (r: Result<seq<TokenEntry>, FileError>)
    ensures Rows(slots).Err? ==> r == Err(Rows(slots).error)
    ensures Rows(slots).Ok? ==> r == Ok(SortRows(Rows(slots).value))
  {
    var tokens: seq<TokenEntry> := [];
    for i := 0 to |slots|
      invariant Rows(slots[..i]) == Ok(tokens)
    {
      assert slots[..i + 1][..i] == slots[..i];
      var row := SlotRow(slots[i].0, slots[i].1);
      if row.Err? {
        RowsFailEarly(slots, i + 1);
        return Err(row.error);
      }
      if row.value.Some? {
        tokens := tokens + [row.value.value];
      }
    }
    assert slots[..|slots|] == slots;
    return Ok(SortRows(tokens));
  }

  lemma {:induction false} RowsFailEarly(slots: seq<(string, Option<SlotEntry>)>, n: nat)
    requires n <= |slots| && Rows(slots[..n]).Err?
    ensures Rows(slots) == Rows(slots[..n])
    decreases |slots| - n
  {
    if n == |slots| {
      assert slots[..n] == slots;
    } else {
      assert slots[..n + 1][..n] == slots[..n];
      RowsFailEarly(slots, n + 1);
    }
  }

  // ---- what a projection contains -------------------------------------------------------

  predicate SortedRows(rows: seq<TokenEntry>) {
    forall i, j :: 0 <= i < j < |rows| ==> Less(rows[i].symbol, rows[j].symbol)
  }

  /** A slot the oracle signs for. */
  predicate Selected(slot: Option<SlotEntry>) {
    && slot.Some? && slot.value.pricing == Some("enabled")
    && slot.value.venues.Some? && "raindex" in slot.value.venues.value && slot.value.derivative.Some?
  }

  lemma {:induction false} RowsAreTheSelected(slots: seq<(string, Option<SlotEntry>)>, row: TokenEntry)
    requires Rows(slots).Ok?
    ensures row in Rows(slots).value <==>
              exists i :: 0 <= i < |slots| && Selected(slots[i].1)
                       && row == TokenEntry(slots[i].1.value.derivative.value, "wt" + slots[i].0)
  {
    if slots != [] {
      var n := |slots| - 1;
      var front := slots[..n];
      RowsAreTheSelected(front, row);
      assert forall i :: 0 <= i < n ==> front[i] == slots[i];
      if row in Rows(front).value {
        var i :| 0 <= i < n && Selected(front[i].1) && row == TokenEntry(front[i].1.value.derivative.value, "wt" + front[i].0);
        assert Selected(slots[i].1);
      }
      if Selected(slots[n].1) && row == TokenEntry(slots[n].1.value.derivative.value, "wt" + slots[n].0) {
        assert row in Rows(slots).value;
      }
    }
  }

  predicate DistinctSymbols(rows: seq<TokenEntry>) {
    forall i, j :: 0 <= i < j < |rows| ==> rows[i].symbol != rows[j].symbol
  }

  lemma {:induction false} RowsKeepDistinctKeys(slots: Slots, n: nat)
    requires n <= |slots| && Rows(slots[..n]).Ok?
    ensures DistinctSymbols(Rows(slots[..n]).value)
    ensures forall r :: r in Rows(slots[..n]).value ==> exists i :: 0 <= i < n && r.symbol == "wt" + slots[i].0
  {
    if n > 0 {
      assert slots[..n][..n - 1] == slots[..n - 1];
      RowsKeepDistinctKeys(slots, n - 1);
      var front := Rows(slots[..n - 1]).value;
      forall r | r in front
        ensures r.symbol != "wt" + slots[n - 1].0
      {
        var i :| 0 <= i < n - 1 && r.symbol == "wt" + slots[i].0;
        assert r.symbol[2..] == slots[i].0 && ("wt" + slots[n - 1].0)[2..] == slots[n - 1].0;
      }
    }
  }

  lemma {:induction false} InsertKeepsSorted(row: TokenEntry, rows: seq<TokenEntry>)
    requires SortedRows(rows) && forall r :: r in rows ==> r.symbol != row.symbol
    ensures SortedRows(Insert(row, rows))
    ensures forall r :: r in Insert(row, rows) <==> r == row || r in rows
    ensures |Insert(row, rows)| == |rows| + 1
  {
    if rows == [] {
    } else if Less(row.symbol, rows[0].symbol) {
      forall j | 0 <= j < |rows|
        ensures Less(row.symbol, rows[j].symbol)
      {
        if j > 0 { LessIsTransitive(row.symbol, rows[0].symbol, rows[j].symbol); }
      }
    } else {
      assert rows[0] in rows;
      LessIsTotal(row.symbol, rows[0].symbol);
      InsertKeepsSorted(row, rows[1..]);
      var rest := Insert(row, rows[1..]);
      forall j | 0 <= j < |rest|
        ensures Less(rows[0].symbol, rest[j].symbol)
      {
        assert rest[j] in rest;
      }
    }
  }

  lemma {:induction false} SortSorts(rows: seq<TokenEntry>)
    requires DistinctSymbols(rows)
    ensures SortedRows(SortRows(rows))
    ensures forall r :: r in SortRows(rows) <==> r in rows
    ensures |SortRows(rows)| == |rows|
  {
    if rows != [] {
      var n := |rows| - 1;
      SortSorts(rows[..n]);
      InsertKeepsSorted(rows[n], SortRows(rows[..n]));
      assert rows == rows[..n] + [rows[n]];
    }
  }

  /**
    A projection is sorted by symbol without repeats, not empty, and holds
    exactly the enabled raindex slots of the one chain with the asked id.
   */
  lemma ProjectionIsExact(file: File, chainId: U64, row: TokenEntry)
    requires Project(file, chainId).Ok?
    ensures var p := Project(file, chainId).value;
            && p.chainId == chainId && |p.tokens| > 0 && SortedRows(p.tokens)
            && exists c :: [c] == MatchingChains(file.chains.value, chainId)
                        && c.quoteToken == Some(p.quoteToken) && c.equities.Equities?
                        && (row in p.tokens <==>
                            exists i :: 0 <= i < |c.equities.slots| && Selected(c.equities.slots[i].1)
                                     && row == TokenEntry(c.equities.slots[i].1.value.derivative.value, "wt" + c.equities.slots[i].0))
  {
    var c := MatchingChains(file.chains.value, chainId)[0];
    assert [c] == MatchingChains(file.chains.value, chainId);
    var slots := c.equities.slots;
    assert slots[..|slots|] == slots;
    RowsKeepDistinctKeys(slots, |slots|);
    SortSorts(Rows(slots).value);
    RowsAreTheSelected(slots, row);
  }

  /** A slot `project` can read: switched off, or switched on with what it then needs. */
  predicate Readable(slot: Option<SlotEntry>) {
    && slot.Some?
    && (|| slot.value.pricing == Some("disabled")
        || (&& slot.value.pricing == Some("enabled") && slot.value.venues.Some?
            && ("raindex" in slot.value.venues.value ==> slot.value.derivative.Some?)))
  }

  lemma {:induction false} RowsExactlyWhen(slots: seq<(string, Option<SlotEntry>)>)
    ensures Rows(slots).Ok? <==> forall i :: 0 <= i < |slots| ==> Readable(slots[i].1)
    ensures Rows(slots).Ok? && Rows(slots).value == [] ==> forall i :: 0 <= i < |slots| ==> !Selected(slots[i].1)
    ensures Rows(slots).Ok? && Rows(slots).value != [] ==> exists i :: 0 <= i < |slots| && Selected(slots[i].1)
  {
    if slots != [] {
      var n := |slots| - 1;
      RowsExactlyWhen(slots[..n]);
      assert forall i :: 0 <= i < n ==> slots[..n][i] == slots[i];
      if Rows(slots).Ok? && Rows(slots).value != [] && !Selected(slots[n].1) {
        var i :| 0 <= i < n && Selected(slots[..n][i].1);
        assert Selected(slots[i].1);
      }
    }
  }

  lemma {:induction false} MatchesOfNone(chains: seq<(string, Chain)>, chainId: U64)
    requires forall j :: 0 <= j < |chains| ==> chains[j].1.chainId != Some(chainId)
    ensures Matching(chains, chainId) == []
  {
    if chains != [] {
      MatchesOfNone(chains[1..], chainId);
    }
  }

  /** Chain `k` is the only one with the asked id. */
  predicate OnlyChain(chains: seq<(string, Chain)>, chainId: U64, k: nat) {
    && k < |chains| && chains[k].1.chainId == Some(chainId)
    && forall j :: 0 <= j < |chains| && j != k ==> chains[j].1.chainId != Some(chainId)
  }

  lemma {:induction false} MatchesOnlyChain(chains: seq<(string, Chain)>, chainId: U64, k: nat)
    requires OnlyChain(chains, chainId, k)
    ensures Matching(chains, chainId) == [chains[k].1]
  {
    if k == 0 {
      MatchesOfNone(chains[1..], chainId);
    } else {
      assert forall j :: 0 <= j < |chains| - 1 ==> chains[1..][j] == chains[j + 1];
      MatchesOnlyChain(chains[1..], chainId, k - 1);
    }
  }

  lemma {:induction false} OneMatchIsOnlyChain(chains: seq<(string, Chain)>, chainId: U64) returns (k: nat)
    requires |Matching(chains, chainId)| == 1
    ensures OnlyChain(chains, chainId, k)
  {
    if chains[0].1.chainId == Some(chainId) {
      k := 0;
      forall j | 0 < j < |chains|
        ensures chains[j].1.chainId != Some(chainId)
      {
        NoMatchMeansNone(chains[1..], chainId, j - 1);
      }
    } else {
      var i := OneMatchIsOnlyChain(chains[1..], chainId);
      k := i + 1;
      assert forall j :: 0 < j < |chains| ==> chains[j] == chains[1..][j - 1];
    }
  }

  lemma {:induction false} NoMatchMeansNone(chains: seq<(string, Chain)>, chainId: U64, j: nat)
    requires Matching(chains, chainId) == [] && j < |chains|
    ensures chains[j].1.chainId != Some(chainId)
  {
    if j > 0 {
      NoMatchMeansNone(chains[1..], chainId, j - 1);
    }
  }

  /** The one chain names its quote token, all its slots can be read and one of them is selected. */
  predicate ServesFrom(c: Chain) {
    && c.quoteToken.Some? && c.equities.Equities?
    && (forall i :: 0 <= i < |c.equities.slots| ==> Readable(c.equities.slots[i].1))
    && (exists i :: 0 <= i < |c.equities.slots| && Selected(c.equities.slots[i].1))
  }

  /**
    A copy projects exactly when it is of schema 1, one chain and no other has
    the asked id, that chain names its quote token, its slots can all be read,
    and at least one of them is selected.
   */
  lemma ProjectsExactlyWhen(file: File, chainId: U64)
    ensures Project(file, chainId).Ok? <==>
              && file.schemaVersion == Some(1) && file.chains.Some?
              && exists k: nat :: OnlyChain(file.chains.value, chainId, k) && ServesFrom(file.chains.value[k].1)
  {
    if file.chains.Some? {
      var chains := file.chains.value;
      if k: nat :| OnlyChain(chains, chainId, k) && ServesFrom(chains[k].1) {
        MatchesOnlyChain(chains, chainId, k);
        RowsExactlyWhen(chains[k].1.equities.slots);
      } else if Project(file, chainId).Ok? {
        var k := OneMatchIsOnlyChain(chains, chainId);
        MatchesOnlyChain(chains, chainId, k);
        RowsExactlyWhen(chains[k].1.equities.slots);
        assert ServesFrom(chains[k].1);
      }
    }
  }

  lemma ProjectionIsSorted(file: File, chainId: U64)
    requires Project(file, chainId).Ok?
    ensures SortedRows(Project(file, chainId).value.tokens)
  {
    ProjectionIsExact(file, chainId, TokenEntry("", ""));
  }

  // ---- the config a copy is merged into ----------------------------------------------------

  /** The config table as parsed from disk, before the token rows are merged in. */
  datatype StaticConfig = StaticConfig(
    chainId: Option<int>, quoteToken: Option<string>, inlineTokens: bool,
    port: nat, wsUrl: string, consumer: string, reuseMinRemainingSecs: U64)

  datatype Config = Config(
    chainId: U64, quoteToken: string, tokens: seq<TokenEntry>,
    port: nat, wsUrl: string, consumer: string, reuseMinRemainingSecs: U64)

  const DEFAULT_CHAIN_ID: U64 := 8453
  const USDC_BASE := "0x833589fCD6eDb6E08f4c7C32D4f71b54bdA02913"

  function ChainIdOf(c: StaticConfig): Result<U64, FileError> {
    if c.chainId.None? then Ok(DEFAULT_CHAIN_ID)
    else if 0 <= c.chainId.value <= I64_MAX then Ok(c.chainId.value)
    else Err(BadChainId)
  }

  function QuoteTokenOf(c: StaticConfig): string {
    if c.quoteToken.Some? then c.quoteToken.value else USDC_BASE
  }

  predicate Blank(s: string) {
    forall c :: c in s ==> c in " \t\r\n"
  }

  /** The zero address, the precompiles and the like. */
  predicate Placeholder(a: Address) {
    a < 0x1_0000
  }

  /** `Config::validate`. */
  predicate ValidConfig(c: Config) {
    && c.tokens != []
    && ParseAddress(c.quoteToken).Some? && !Placeholder(ParseAddress(c.quoteToken).value)
    && (forall i :: 0 <= i < |c.tokens| ==>
          && ParseAddress(c.tokens[i].address).Some?
          && !Blank(c.tokens[i].symbol)
          && !Placeholder(ParseAddress(c.tokens[i].address).value)
          && ParseAddress(c.tokens[i].address) != ParseAddress(c.quoteToken))
    && DistinctAddresses(c.tokens)
    && !Blank(c.wsUrl) && !Blank(c.consumer)
  }

  /** `merge` followed by `Config::from_table`. */
  function Merge(c: StaticConfig, p: Projection): Result<Config, FileError> {
    if c.inlineTokens then Err(InlineTokens)
    else if Lower(QuoteTokenOf(c)) != Lower(p.quoteToken) then Err(QuoteTokenMismatch)
    else
      var chainId :- ChainIdOf(c);
      var config := Config(chainId, QuoteTokenOf(c), p.tokens, c.port, c.wsUrl, c.consumer, c.reuseMinRemainingSecs);
      if ValidConfig(config) then Ok(config) else Err(InvalidConfig)
  }

  datatype Built = Built(projection: Projection, config: Config, registry: TokenRegistry)

  /** The checks boot and reload share; `None` is a copy that does not parse. */
  function Candidate(c: StaticConfig, file: Option<File>): Result<Built, FileError> {
    if file.None? then Err(NotParsed)
    else
      var chainId :- ChainIdOf(c);
      var projection :- Project(file.value, chainId);
      var config :- Merge(c, projection);
      match FromConfig(config.tokens, config.quoteToken)
      case Some(registry) => Ok(Built(projection, config, registry))
      case None => Err(InvalidRegistry)
  }

  // ---- comparing copies ----------------------------------------------------------------------

  /** Rows as (symbol, lower-case address) pairs. */
  function RowSet(p: Projection): set<(Symbol, string)> {
    set i | 0 <= i < |p.tokens| :: (p.tokens[i].symbol, Lower(p.tokens[i].address))
  }

  predicate SameAs(p: Projection, q: Projection) {
    RowSet(p) == RowSet(q) && Lower(p.quoteToken) == Lower(q.quoteToken)
  }

  function SymbolSet(rows: set<(Symbol, string)>): set<Symbol> {
    set r | r in rows :: r.0
  }

  function Removed(live: Projection, next: Projection): set<Symbol> {
    SymbolSet(RowSet(live)) - SymbolSet(RowSet(next))
  }

  /** In both, with another row; a projection has one row per symbol. */
  function Readdressed(live: Projection, next: Projection): set<Symbol> {
    set s | s in SymbolSet(RowSet(live)) * SymbolSet(RowSet(next))
         && (exists a, b :: a in RowSet(live) && b in RowSet(next) && a.0 == s && b.0 == s && a != b)
  }

  /** Equal row sets are equal row lists, up to the case of the addresses. */
  lemma SameRowsPointwise(p: Projection, q: Projection)
    requires SortedRows(p.tokens) && SortedRows(q.tokens) && RowSet(p) == RowSet(q)
    ensures Symbols(p.tokens) == Symbols(q.tokens)
    ensures |p.tokens| == |q.tokens|
    ensures forall i :: 0 <= i < |p.tokens| ==>
              p.tokens[i].symbol == q.tokens[i].symbol && Lower(p.tokens[i].address) == Lower(q.tokens[i].address)
  {
    var a, b := Symbols(p.tokens), Symbols(q.tokens);
    SymbolsOfRows(p, q);
    SymbolsOfRows(q, p);
    AscendingIsUnique(a, b);
    assert |a| == |p.tokens| && |b| == |q.tokens|;
    forall i | 0 <= i < |p.tokens|
      ensures p.tokens[i].symbol == q.tokens[i].symbol && Lower(p.tokens[i].address) == Lower(q.tokens[i].address)
    {
      assert a[i] == p.tokens[i].symbol && b[i] == q.tokens[i].symbol;
      assert (p.tokens[i].symbol, Lower(p.tokens[i].address)) in RowSet(q);
      var j :| 0 <= j < |q.tokens| && (q.tokens[j].symbol, Lower(q.tokens[j].address)) == (p.tokens[i].symbol, Lower(p.tokens[i].address));
      if i != j {
        LessIsIrreflexive(q.tokens[i].symbol);
      }
    }
  }

  lemma SymbolsOfRows(p: Projection, q: Projection)
    requires RowSet(p) <= RowSet(q)
    ensures forall x :: x in Symbols(p.tokens) ==> x in Symbols(q.tokens)
  {
    forall x | x in Symbols(p.tokens)
      ensures x in Symbols(q.tokens)
    {
      var i :| 0 <= i < |p.tokens| && p.tokens[i].symbol == x;
      assert (x, Lower(p.tokens[i].address)) in RowSet(q);
      var j :| 0 <= j < |q.tokens| && (q.tokens[j].symbol, Lower(q.tokens[j].address)) == (x, Lower(p.tokens[i].address));
      assert Symbols(q.tokens)[j] == x;
    }
  }

  /** The symbol has this address, whatever its case. */
  predicate HasRow(p: Projection, symbol: Symbol, address: string) {
    exists i :: 0 <= i < |p.tokens| && p.tokens[i].symbol == symbol && Lower(p.tokens[i].address) == address
  }

  lemma RowsAreHeld(p: Projection, symbol: Symbol, address: string)
    ensures (symbol, address) in RowSet(p) <==> HasRow(p, symbol, address)
  {
    if HasRow(p, symbol, address) {
      var i :| 0 <= i < |p.tokens| && p.tokens[i].symbol == symbol && Lower(p.tokens[i].address) == address;
      assert (p.tokens[i].symbol, Lower(p.tokens[i].address)) in RowSet(p);
    }
  }

  /** One row per symbol. */
  lemma RowIsUnique(p: Projection, a: (Symbol, string), b: (Symbol, string))
    requires SortedRows(p.tokens) && a in RowSet(p) && b in RowSet(p) && a.0 == b.0
    ensures a == b
  {
    var i :| 0 <= i < |p.tokens| && (p.tokens[i].symbol, Lower(p.tokens[i].address)) == a;
    var j :| 0 <= j < |p.tokens| && (p.tokens[j].symbol, Lower(p.tokens[j].address)) == b;
    LessIsIrreflexive(a.0);
  }

  /** The symbols a change forgets are exactly those whose row, symbol and address, the new copy does not have. */
  lemma ChangeForgetsExactly(live: Projection, next: Projection, symbol: Symbol, address: string)
    requires SortedRows(live.tokens) && SortedRows(next.tokens) && HasRow(live, symbol, address)
    ensures symbol in Removed(live, next) + Readdressed(live, next) <==> !HasRow(next, symbol, address)
  {
    var row := (symbol, address);
    RowsAreHeld(live, symbol, address);
    RowsAreHeld(next, symbol, address);
    assert row in RowSet(live) && symbol in SymbolSet(RowSet(live));
    if row in RowSet(next) {
      assert symbol in SymbolSet(RowSet(next));
      forall a, b | a in RowSet(live) && b in RowSet(next) && a.0 == symbol && b.0 == symbol
        ensures a == b
      {
        RowIsUnique(live, a, row);
        RowIsUnique(next, b, row);
      }
    } else if symbol in SymbolSet(RowSet(next)) {
      var b :| b in RowSet(next) && b.0 == symbol;
      assert row != b;
    }
  }

  /** A valid copy's registry and list come from its projected rows alone. */
  lemma CandidateIsBuiltFromRows(c: StaticConfig, f: Option<File>)
    requires Candidate(c, f).Ok?
    ensures var built := Candidate(c, f).value;
            && built.config.tokens == built.projection.tokens && SortedRows(built.projection.tokens)
            && Mapping(built.projection.tokens).Some? && ParseAddress(QuoteTokenOf(c)).Some?
            && built.registry == TokenRegistry(Mapping(built.projection.tokens).value, ParseAddress(QuoteTokenOf(c)).value)
  {
    ProjectionIsSorted(f.value, ChainIdOf(c).value);
  }

  /** Two valid copies with the same rows build the same registry and the same symbol list. */
  lemma SameRowsBuildTheSame(c: StaticConfig, f: Option<File>, g: Option<File>)
    requires Candidate(c, f).Ok? && Candidate(c, g).Ok?
    requires SameAs(Candidate(c, f).value.projection, Candidate(c, g).value.projection)
    ensures Candidate(c, f).value.registry == Candidate(c, g).value.registry
    ensures Symbols(Candidate(c, f).value.config.tokens) == Symbols(Candidate(c, g).value.config.tokens)
  {
    var a, b := Candidate(c, f).value, Candidate(c, g).value;
    CandidateIsBuiltFromRows(c, f);
    CandidateIsBuiltFromRows(c, g);
    hide Candidate;
    SameRowsPointwise(a.projection, b.projection);
    MappingIgnoresCase(a.config.tokens, b.config.tokens);
  }

  /** The symbol list of a projection, as a set. */
  lemma SymbolListMatchesRows(p: Projection)
    ensures SymbolSet(RowSet(p)) == set i | 0 <= i < |p.tokens| :: p.tokens[i].symbol
  {
    forall i | 0 <= i < |p.tokens|
      ensures p.tokens[i].symbol in SymbolSet(RowSet(p))
    {
      assert (p.tokens[i].symbol, Lower(p.tokens[i].address)) in RowSet(p);
    }
  }
}
