/** Which copies of the token file an instance accepts, in terms of the config and the file alone. */
module Boots {
  import opened Wire
  import opened Text
  import opened Registry
  import opened TokenFile
  import Reload

  // ---- what makes a copy acceptable ----------------------------------------------------

  function ConfiguredChain(c: StaticConfig): int {
    if c.chainId.Some? then c.chainId.value else 8453
  }

  function ConfiguredQuote(c: StaticConfig): string {
    if c.quoteToken.Some? then c.quoteToken.value else "0x833589fCD6eDb6E08f4c7C32D4f71b54bdA02913"
  }

  /** An address the oracle may use: it parses, and its first 18 bytes are not all zero. */
  predicate Usable(s: string) {
    ParseAddress(s).Some? && ParseAddress(s).value >= 0x1_0000
  }

  function AddressOf(slot: Option<SlotEntry>): string
    requires Selected(slot)
  {
    slot.value.derivative.value
  }

  /** Every selected slot has a usable address of its own, and none is the settlement token. */
  predicate AddressesFit(slots: Slots, quote: string) {
    && (forall i :: 0 <= i < |slots| && Selected(slots[i].1) ==>
          Usable(AddressOf(slots[i].1)) && ParseAddress(AddressOf(slots[i].1)) != ParseAddress(quote))
    && (forall i, j :: 0 <= i < j < |slots| && Selected(slots[i].1) && Selected(slots[j].1) ==>
          ParseAddress(AddressOf(slots[i].1)) != ParseAddress(AddressOf(slots[j].1)))
  }

  predicate HasText(s: string) {
    exists i :: 0 <= i < |s| && s[i] != ' ' && s[i] != '\t' && s[i] != '\r' && s[i] != '\n'
  }

  predicate ChainFits(c: StaticConfig, chain: Chain) {
    && ServesFrom(chain)
    && SameButCase(ConfiguredQuote(c), chain.quoteToken.value)
    && AddressesFit(chain.equities.slots, ConfiguredQuote(c))
  }

  /**
    A copy this config can run on: it parses, is of schema 1, has exactly one
    chain with the configured id, and that chain settles in the configured
    token and lists usable, distinct addresses; and the config itself names no
    tokens, a usable settlement token, and where to get prices.
   */
  ghost predicate Acceptable(c: StaticConfig, file: Option<File>) {
    && file.Some? && file.value.schemaVersion == Some(1) && file.value.chains.Some?
    && 0 <= ConfiguredChain(c) <= I64_MAX && !c.inlineTokens
    && Usable(ConfiguredQuote(c)) && HasText(c.wsUrl) && HasText(c.consumer)
    && exists k: nat :: OnlyChain(file.value.chains.value, ConfiguredChain(c), k) && ChainFits(c, file.value.chains.value[k].1)
  }

  // ---- rows and slots ---------------------------------------------------------------------

  lemma TextIsNotBlank(s: string)
    ensures HasText(s) <==> !Blank(s)
  {
    if HasText(s) {
      var i :| 0 <= i < |s| && s[i] != ' ' && s[i] != '\t' && s[i] != '\r' && s[i] != '\n';
      assert s[i] in s && s[i] !in " \t\r\n";
    } else {
      forall c | c in s
        ensures c in " \t\r\n"
      {
        var i :| 0 <= i < |s| && s[i] == c;
        assert " \t\r\n"[0] == ' ' && " \t\r\n"[1] == '\t' && " \t\r\n"[2] == '\r' && " \t\r\n"[3] == '\n';
      }
    }
  }

  predicate RowOf(slots: Slots, i: nat, row: TokenEntry) {
    i < |slots| && Selected(slots[i].1) && row == TokenEntry(AddressOf(slots[i].1), "wt" + slots[i].0)
  }

  ghost predicate FromSlot(slots: Slots, row: TokenEntry) {
    exists i: nat :: RowOf(slots, i, row)
  }

  /** The rows are those of the selected slots, one symbol once. */
  ghost predicate RowsOf(slots: Slots, rows: seq<TokenEntry>) {
    && SortedRows(rows)
    && (forall j :: 0 <= j < |rows| ==> FromSlot(slots, rows[j]))
    && (forall i: nat :: i < |slots| && Selected(slots[i].1) ==>
          TokenEntry(AddressOf(slots[i].1), "wt" + slots[i].0) in rows)
  }

  lemma RowHasSlot(slots: Slots, row: TokenEntry)
    requires Rows(slots).Ok? && row in Rows(slots).value
    ensures FromSlot(slots, row)
  {
    RowsAreTheSelected(slots, row);
    var i: nat :| i < |slots| && Selected(slots[i].1)
                  && row == TokenEntry(slots[i].1.value.derivative.value, "wt" + slots[i].0);
    assert RowOf(slots, i, row);
  }

  lemma SlotHasRow(slots: Slots, i: nat)
    requires Rows(slots).Ok? && i < |slots| && Selected(slots[i].1)
    ensures TokenEntry(AddressOf(slots[i].1), "wt" + slots[i].0) in Rows(slots).value
  {
    RowsAreTheSelected(slots, TokenEntry(AddressOf(slots[i].1), "wt" + slots[i].0));
  }

  lemma ProjectedRows(slots: Slots)
    requires Rows(slots).Ok?
    ensures RowsOf(slots, SortRows(Rows(slots).value))
  {
    hide Rows, SortRows, SortedRows;
    assert slots[..|slots|] == slots;
    RowsKeepDistinctKeys(slots, |slots|);
    SortSorts(Rows(slots).value);
    var rows := SortRows(Rows(slots).value);
    forall j | 0 <= j < |rows|
      ensures FromSlot(slots, rows[j])
    {
      assert rows[j] in rows;
      RowHasSlot(slots, rows[j]);
    }
    forall i: nat | i < |slots| && Selected(slots[i].1)
      ensures TokenEntry(AddressOf(slots[i].1), "wt" + slots[i].0) in rows
    {
      SlotHasRow(slots, i);
    }
  }

  /** What `Config::validate` asks of the rows. */
  predicate RowsFit(rows: seq<TokenEntry>, quote: string) {
    && (forall i :: 0 <= i < |rows| ==> Usable(rows[i].address) && ParseAddress(rows[i].address) != ParseAddress(quote))
    && DistinctAddresses(rows)
  }

  lemma SymbolNamesSlot(slots: Slots, i: nat, j: nat)
    requires i < |slots| && j < |slots| && "wt" + slots[i].0 == "wt" + slots[j].0
    ensures i == j
  {
    assert slots[i].0 == ("wt" + slots[i].0)[2..] && slots[j].0 == ("wt" + slots[j].0)[2..];
    assert slots[i].0 == slots[j].0;
  }

  lemma SlotsFitSoRowsFit(slots: Slots, rows: seq<TokenEntry>, quote: string)
    requires RowsOf(slots, rows) && AddressesFit(slots, quote)
    ensures RowsFit(rows, quote)
  {
    hide ParseAddress;
    forall j | 0 <= j < |rows|
      ensures Usable(rows[j].address) && ParseAddress(rows[j].address) != ParseAddress(quote)
    {
      var i: nat :| RowOf(slots, i, rows[j]);
    }
    forall a, b | 0 <= a < b < |rows|
      ensures ParseAddress(rows[a].address) != ParseAddress(rows[b].address)
    {
      var i: nat :| RowOf(slots, i, rows[a]);
      var j: nat :| RowOf(slots, j, rows[b]);
      LessIsIrreflexive(rows[a].symbol);
      assert Less(rows[a].symbol, rows[b].symbol);
    }
  }

  lemma RowsFitSoSlotsFit(slots: Slots, rows: seq<TokenEntry>, quote: string)
    requires RowsOf(slots, rows) && RowsFit(rows, quote)
    ensures AddressesFit(slots, quote)
  {
    hide ParseAddress;
    forall i: nat | i < |slots| && Selected(slots[i].1)
      ensures Usable(AddressOf(slots[i].1)) && ParseAddress(AddressOf(slots[i].1)) != ParseAddress(quote)
    {
      var a :| 0 <= a < |rows| && rows[a] == TokenEntry(AddressOf(slots[i].1), "wt" + slots[i].0);
    }
    forall i: nat, j: nat | i < j < |slots| && Selected(slots[i].1) && Selected(slots[j].1)
      ensures ParseAddress(AddressOf(slots[i].1)) != ParseAddress(AddressOf(slots[j].1))
    {
      var a :| 0 <= a < |rows| && rows[a] == TokenEntry(AddressOf(slots[i].1), "wt" + slots[i].0);
      var b :| 0 <= b < |rows| && rows[b] == TokenEntry(AddressOf(slots[j].1), "wt" + slots[j].0);
      if a == b {
        SymbolNamesSlot(slots, i, j);
      }
    }
  }

  lemma {:induction false} MappingExactlyWhen(rows: seq<TokenEntry>)
    ensures Mapping(rows).Some? <==> forall i :: 0 <= i < |rows| ==> ParseAddress(rows[i].address).Some?
  {
    hide ParseAddress;
    if rows != [] {
      var n := |rows| - 1;
      MappingExactlyWhen(rows[..n]);
      assert forall i :: 0 <= i < n ==> rows[..n][i] == rows[i];
    }
  }

  // ---- boot accepts exactly the acceptable copies ------------------------------------------

  lemma RowsHaveText(slots: Slots, rows: seq<TokenEntry>)
    requires RowsOf(slots, rows)
    ensures forall j :: 0 <= j < |rows| ==> !Blank(rows[j].symbol)
  {
    forall j | 0 <= j < |rows|
      ensures !Blank(rows[j].symbol)
    {
      var i: nat :| RowOf(slots, i, rows[j]);
      assert rows[j].symbol[0] == 'w';
      TextIsNotBlank(rows[j].symbol);
    }
  }

  lemma ValidExactlyWhen(slots: Slots, config: Config)
    requires RowsOf(slots, config.tokens)
    ensures ValidConfig(config) <==>
              && config.tokens != [] && Usable(config.quoteToken) && RowsFit(config.tokens, config.quoteToken)
              && HasText(config.wsUrl) && HasText(config.consumer)
  {
    hide ParseAddress, Blank, HasText;
    RowsHaveText(slots, config.tokens);
    TextIsNotBlank(config.wsUrl);
    TextIsNotBlank(config.consumer);
  }

  /** The one chain's projection, and what merging it comes to. */
  lemma MergesExactlyWhen(c: StaticConfig, chain: Chain, p: Projection)
    requires ServesFrom(chain) && Rows(chain.equities.slots).Ok? && p.tokens == SortRows(Rows(chain.equities.slots).value)
    requires p.tokens != [] && p.quoteToken == chain.quoteToken.value
    requires 0 <= ConfiguredChain(c) <= I64_MAX
    ensures Merge(c, p).Ok? <==>
              && !c.inlineTokens && ChainFits(c, chain)
              && Usable(ConfiguredQuote(c)) && HasText(c.wsUrl) && HasText(c.consumer)
    ensures Merge(c, p).Ok? ==> FromConfig(Merge(c, p).value.tokens, Merge(c, p).value.quoteToken).Some?
  {
    var slots := chain.equities.slots;
    hide ParseAddress, Rows, SortRows, RowsOf, RowsFit, HasText, Blank, SameButCase, Lower, AddressesFit, ServesFrom;
    var config := Config(ConfiguredChain(c), ConfiguredQuote(c), p.tokens, c.port, c.wsUrl, c.consumer, c.reuseMinRemainingSecs);
    ProjectedRows(slots);
    ValidExactlyWhen(slots, config);
    LowerForgetsCase(ConfiguredQuote(c), p.quoteToken);
    hide ValidConfig;
    if AddressesFit(slots, ConfiguredQuote(c)) {
      SlotsFitSoRowsFit(slots, p.tokens, ConfiguredQuote(c));
    }
    if RowsFit(p.tokens, ConfiguredQuote(c)) {
      RowsFitSoSlotsFit(slots, p.tokens, ConfiguredQuote(c));
      FitRowsMap(p.tokens, ConfiguredQuote(c));
    }
  }

  lemma FitRowsMap(rows: seq<TokenEntry>, quote: string)
    requires RowsFit(rows, quote)
    ensures ParseAddress(quote).Some? ==> FromConfig(rows, quote).Some?
  {
    hide ParseAddress;
    MappingExactlyWhen(rows);
  }

  lemma ProjectionOfChain(file: File, chainId: U64, k: nat)
    requires file.schemaVersion == Some(1) && file.chains.Some? && OnlyChain(file.chains.value, chainId, k)
    requires ServesFrom(file.chains.value[k].1)
    ensures var chain := file.chains.value[k].1;
            && Rows(chain.equities.slots).Ok? && Project(file, chainId).Ok?
            && Project(file, chainId).value
               == Projection(chainId, chain.quoteToken.value, SortRows(Rows(chain.equities.slots).value))
            && Project(file, chainId).value.tokens != []
  {
    MatchesOnlyChain(file.chains.value, chainId, k);
    RowsExactlyWhen(file.chains.value[k].1.equities.slots);
    ProjectsExactlyWhen(file, chainId);
    ProjectionIsExact(file, chainId, TokenEntry("", ""));
  }

  lemma OneOnlyChain(chains: seq<(string, Chain)>, chainId: U64, j: nat, k: nat)
    requires OnlyChain(chains, chainId, j) && OnlyChain(chains, chainId, k)
    ensures j == k
  {
  }

  lemma CandidateExactlyWhen(c: StaticConfig, file: Option<File>)
    ensures Candidate(c, file).Ok? <==> Acceptable(c, file)
  {
    hide Project, Merge, FromConfig, ChainFits, ServesFrom, Usable, HasText, Rows, SortRows;
    if file.Some? && 0 <= ConfiguredChain(c) <= I64_MAX {
      ProjectsExactlyWhen(file.value, ConfiguredChain(c));
      if Project(file.value, ConfiguredChain(c)).Ok? {
        var chains := file.value.chains.value;
        var k: nat :| OnlyChain(chains, ConfiguredChain(c), k) && ServesFrom(chains[k].1);
        ProjectionOfChain(file.value, ConfiguredChain(c), k);
        MergesExactlyWhen(c, chains[k].1, Project(file.value, ConfiguredChain(c)).value);
        MergeNeedsTheChain(c, chains, k);
      } else {
        UnservedIsUnfit(c, file.value);
      }
    }
  }

  lemma MergeNeedsTheChain(c: StaticConfig, chains: seq<(string, Chain)>, k: nat)
    requires 0 <= ConfiguredChain(c) <= I64_MAX && OnlyChain(chains, ConfiguredChain(c), k)
    ensures ChainFits(c, chains[k].1) <==>
              exists j: nat :: OnlyChain(chains, ConfiguredChain(c), j) && ChainFits(c, chains[j].1)
  {
    hide ChainFits;
    if j: nat :| OnlyChain(chains, ConfiguredChain(c), j) && ChainFits(c, chains[j].1) {
      OneOnlyChain(chains, ConfiguredChain(c), j, k);
    }
  }

  lemma UnservedIsUnfit(c: StaticConfig, file: File)
    requires 0 <= ConfiguredChain(c) <= I64_MAX && Project(file, ConfiguredChain(c)).Err?
    ensures !Acceptable(c, Some(file))
  {
    ProjectsExactlyWhen(file, ConfiguredChain(c));
    hide Project, OnlyChain, ServesFrom, AddressesFit, SameButCase, Usable, HasText;
  }

  /** Boot accepts exactly the acceptable copies. */
  lemma BootsExactlyWhen(w: Reload.World, generation: int)
    ensures Reload.BootFrom(w, generation).Ok? <==> Acceptable(w.config, w.contents(generation))
  {
    CandidateExactlyWhen(w.config, w.contents(generation));
    hide Candidate, Acceptable;
  }

  /**
    A live instance that reads an unacceptable copy keeps its set and its list;
    one that reads an acceptable copy runs on it, and is not marked invalid once at rest.
   */
  lemma UnacceptableChangesNothing(w: Reload.World, s: Reload.State, latest: int, response: Reload.Response)
    requires Reload.Inv(w, s) && s.phase.Rest? && Reload.Classify(Reload.UnlessGeneration(s), response).Copy?
    ensures var g := Reload.Classify(Reload.UnlessGeneration(s), response).generation;
            var t := Reload.Step(w, s, Reload.Poll(latest, response));
            if Acceptable(w.config, w.contents(g))
            then t.tokens.generation == Some(g) && !t.phase.Listed? && (t.phase.Rest? ==> t.rejected == None)
            else t.tokens == s.tokens && t.listed == s.listed && t.phase.Rest? && t.rejected == Some(g)
  {
    var g := Reload.Classify(Reload.UnlessGeneration(s), response).generation;
    CandidateExactlyWhen(w.config, w.contents(g));
    Reload.DecisionMatchesBoot(w, s, g);
    hide Candidate, Acceptable, Reload.Decide;
    assert Reload.Inv(w, s);
  }

  /** The chain a file serves from. */
  ghost predicate Serves(c: StaticConfig, file: File, slots: Slots) {
    && file.chains.Some? && 0 <= ConfiguredChain(c) <= I64_MAX
    && exists k: nat :: OnlyChain(file.chains.value, ConfiguredChain(c), k)
                     && file.chains.value[k].1.equities == Equities(slots)
  }

  /** Some selected slot of the file has this address and this name. */
  predicate SlotNames(slots: Slots, token: Address, symbol: Symbol) {
    exists i :: 0 <= i < |slots| && Selected(slots[i].1)
             && ParseAddress(AddressOf(slots[i].1)) == Some(token) && symbol == "wt" + slots[i].0
  }

  lemma MappedRow(rows: seq<TokenEntry>, token: Address) returns (j: nat)
    requires Mapping(rows).Some? && DistinctAddresses(rows) && token in Mapping(rows).value
    ensures j < |rows| && ParseAddress(rows[j].address) == Some(token) && Mapping(rows).value[token] == rows[j].symbol
  {
    hide ParseAddress, Mapping;
    RegistryAddsNoRow(rows, token);
    j :| 0 <= j < |rows| && ParseAddress(rows[j].address) == Some(token);
    RegistryHoldsTheRows(rows, j);
  }

  lemma MappingIsTheSlots(slots: Slots, rows: seq<TokenEntry>, token: Address, symbol: Symbol)
    requires RowsOf(slots, rows) && Mapping(rows).Some? && DistinctAddresses(rows)
    ensures token in Mapping(rows).value && Mapping(rows).value[token] == symbol <==> SlotNames(slots, token, symbol)
  {
    hide ParseAddress, Mapping;
    if token in Mapping(rows).value && Mapping(rows).value[token] == symbol {
      var j := MappedRow(rows, token);
      assert FromSlot(slots, rows[j]);
      var i: nat :| RowOf(slots, i, rows[j]);
    } else if SlotNames(slots, token, symbol) {
      var i: nat :| i < |slots| && Selected(slots[i].1)
                    && ParseAddress(AddressOf(slots[i].1)) == Some(token) && symbol == "wt" + slots[i].0;
      var j :| 0 <= j < |rows| && rows[j] == TokenEntry(AddressOf(slots[i].1), "wt" + slots[i].0);
      RegistryHoldsTheRows(rows, j);
    }
  }

  /**
    What boot runs is the file: a token maps to a symbol exactly when a selected
    slot of the one chain has that address and that name, settlement is in the
    configured token, and the subscribed symbols are those of the selected slots.
   */
  lemma BootRunsTheFile(w: Reload.World, generation: int, token: Address, symbol: Symbol) returns (slots: Slots)
    requires Reload.BootFrom(w, generation).Ok?
    ensures w.contents(generation).Some? && Serves(w.config, w.contents(generation).value, slots)
    ensures var boot := Reload.BootFrom(w, generation).value;
            && (token in boot.tokens.registry.tokens && boot.tokens.registry.tokens[token] == symbol
                <==> SlotNames(slots, token, symbol))
            && Some(boot.tokens.registry.quoteToken) == ParseAddress(ConfiguredQuote(w.config))
            && boot.listed == boot.tokens.symbols
            && (symbol in boot.listed <==>
                exists i :: 0 <= i < |slots| && Selected(slots[i].1) && symbol == "wt" + slots[i].0)
  {
    var c, file := w.config, w.contents(generation);
    CandidateExactlyWhen(c, file);
    CandidateIsBuiltFromRows(c, file);
    CandidateIsValid(c, file);
    hide ParseAddress, Mapping, Rows, SortRows, RowsOf, ServesFrom, Usable, HasText, AddressesFit, SameButCase, Selected, SlotNames;
    var chains := file.value.chains.value;
    var k: nat :| OnlyChain(chains, ConfiguredChain(c), k) && ChainFits(c, chains[k].1);
    EquitiesOf(chains[k].1);
    slots := chains[k].1.equities.slots;
    ProjectionOfChain(file.value, ConfiguredChain(c), k);
    ProjectedRows(slots);
    var built := Candidate(c, file).value;
    hide Candidate, Project, Merge;
    assert built.projection.tokens == SortRows(Rows(slots).value);
    MappingIsTheSlots(slots, built.projection.tokens, token, symbol);
    ListIsTheSlots(slots, built.projection.tokens, symbol);
  }

  lemma EquitiesOf(chain: Chain)
    requires ServesFrom(chain)
    ensures chain.equities.Equities?
  {
  }

  lemma CandidateIsValid(c: StaticConfig, file: Option<File>)
    requires Candidate(c, file).Ok?
    ensures DistinctAddresses(Candidate(c, file).value.projection.tokens)
    ensures file.Some? && 0 <= ConfiguredChain(c) <= I64_MAX && QuoteTokenOf(c) == ConfiguredQuote(c)
    ensures Project(file.value, ConfiguredChain(c)) == Ok(Candidate(c, file).value.projection)
  {
    hide Project, ParseAddress, Blank;
  }

  lemma ListIsTheSlots(slots: Slots, rows: seq<TokenEntry>, symbol: Symbol)
    requires RowsOf(slots, rows)
    ensures symbol in Symbols(rows) <==> exists i :: 0 <= i < |slots| && Selected(slots[i].1) && symbol == "wt" + slots[i].0
  {
    if symbol in Symbols(rows) {
      var j :| 0 <= j < |rows| && Symbols(rows)[j] == symbol;
      assert FromSlot(slots, rows[j]);
      var i: nat :| RowOf(slots, i, rows[j]);
    }
    if i: nat :| i < |slots| && Selected(slots[i].1) && symbol == "wt" + slots[i].0 {
      var j :| 0 <= j < |rows| && rows[j] == TokenEntry(AddressOf(slots[i].1), "wt" + slots[i].0);
      assert Symbols(rows)[j] == symbol;
    }
  }

  /** The older set is kept for a newer copy exactly when every row of each is a row of the other. */
  lemma KeepsTheSetExactlyWhen(w: Reload.World, s: Reload.State, generation: int)
    requires Reload.Inv(w, s) && s.tokens.generation != Some(generation) && Reload.BootFrom(w, generation).Ok?
    ensures var d := Reload.Decide(w.config, s.boot, s.tokens, generation, w.contents(generation));
            var next := Reload.BootFrom(w, generation).value.tokens.projection;
            && next.Some?
            && (d.SameRows? <==> forall symbol, address ::
                  HasRow(next.value, symbol, address) <==> HasRow(s.tokens.projection.value, symbol, address))
            && (d.SameRows? || d.Apply?)
  {
    Reload.DecisionMatchesBoot(w, s, generation);
    var next := Reload.BootFrom(w, generation).value.tokens.projection.value;
    SameRowsExactlyWhen(next, s.tokens.projection.value);
    SettlementAgrees(w, s, generation);
    hide Candidate, SameAs, HasRow, RowSet, Lower;
  }

  lemma SameRowsExactlyWhen(p: Projection, q: Projection)
    ensures RowSet(p) == RowSet(q) <==> forall symbol, address :: HasRow(p, symbol, address) <==> HasRow(q, symbol, address)
    ensures SameAs(p, q) <==> RowSet(p) == RowSet(q) && Lower(p.quoteToken) == Lower(q.quoteToken)
  {
    forall symbol: Symbol, address: string
      ensures (symbol, address) in RowSet(p) <==> HasRow(p, symbol, address)
      ensures (symbol, address) in RowSet(q) <==> HasRow(q, symbol, address)
    {
      RowsAreHeld(p, symbol, address);
      RowsAreHeld(q, symbol, address);
    }
    hide RowSet, HasRow, Lower;
    if forall symbol, address :: HasRow(p, symbol, address) <==> HasRow(q, symbol, address) {
      forall row: (Symbol, string)
        ensures row in RowSet(p) <==> row in RowSet(q)
      {
        assert HasRow(p, row.0, row.1) <==> HasRow(q, row.0, row.1);
      }
    }
  }

  /** Every set this instance can run settles in the configured token, so the tokens never differ. */
  lemma SettlementAgrees(w: Reload.World, s: Reload.State, generation: int)
    requires Reload.Inv(w, s) && Candidate(w.config, w.contents(generation)).Ok?
    ensures s.tokens.projection.Some?
    ensures Lower(Candidate(w.config, w.contents(generation)).value.projection.quoteToken)
            == Lower(s.tokens.projection.value.quoteToken)
  {
    CandidateSettles(w.config, w.contents(generation));
    CandidateSettles(w.config, w.contents(s.tokens.generation.value));
    hide Candidate, Lower, RowSet;
  }

  lemma CandidateSettles(c: StaticConfig, file: Option<File>)
    requires Candidate(c, file).Ok?
    ensures Lower(Candidate(c, file).value.projection.quoteToken) == Lower(ConfiguredQuote(c))
  {
    hide Project, FromConfig, ValidConfig, Lower;
  }
}
