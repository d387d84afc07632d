/** A concrete deployment that boots and serves: the theorems over runs are about runs that exist. */
module Witness {
  import opened Wire
  import opened Text
  import opened Deadlines
  import opened Sessions
  import opened Contexts
  import opened Registry
  import opened TokenFile
  import opened Slots
  import opened System
  import opened Theorems
  import opened Guards
  import Progress
  import Signing
  import Reload

  // ---- two addresses ----------------------------------------------------------------------

  function Repeat(c: char, n: nat): string {
    if n == 0 then "" else Repeat(c, n - 1) + [c]
  }

  lemma {:induction false} RepeatIsFlat(c: char, n: nat)
    ensures |Repeat(c, n)| == n && forall i :: 0 <= i < n ==> Repeat(c, n)[i] == c
  {
    if n > 0 {
      RepeatIsFlat(c, n - 1);
    }
  }

  lemma OneMoreDigit(digit: nat, pow: nat, value: nat)
    requires 15 * value == digit * (pow - 1) && pow > 0
    ensures 15 * (16 * value + digit) == digit * (16 * pow - 1)
  {
    calc {
      15 * (16 * value + digit);
      16 * (15 * value) + 15 * digit;
      16 * (digit * (pow - 1)) + 15 * digit;
      digit * (16 * (pow - 1)) + digit * 15;
      digit * (16 * pow - 1);
    }
  }

  lemma {:induction false} RepeatedDigit(c: char, n: nat)
    requires HexDigit(c).Some?
    ensures ParseHex(Repeat(c, n)).Some?
    ensures 15 * ParseHex(Repeat(c, n)).value == HexDigit(c).value * (Pow16(n) - 1)
  {
    hide HexDigit;
    if n > 0 {
      RepeatedDigit(c, n - 1);
      RepeatIsFlat(c, n - 1);
      assert Repeat(c, n)[..n - 1] == Repeat(c, n - 1);
      OneMoreDigit(HexDigit(c).value, Pow16(n - 1), ParseHex(Repeat(c, n - 1)).value);
    }
  }

  const TOKEN := Repeat('1', 40)
  const SETTLEMENT := Repeat('2', 40)

  /** Forty equal digits are an address: the digit times a fifteenth of all of them. */
  lemma RepeatedAddress(c: char)
    requires c == '1' || c == '2'
    ensures ParseAddress(Repeat(c, 40)).Some?
    ensures 15 * ParseAddress(Repeat(c, 40)).value == HexDigit(c).value * 0xffff_ffff_ffff_ffff_ffff_ffff_ffff_ffff_ffff_ffff
  {
    RepeatIsFlat(c, 40);
    RepeatedDigit(c, 40);
    FortyDigits();
    hide Repeat, ParseHex, Pow16;
    assert Repeat(c, 40)[..2][0] == c;
  }

  lemma TwoAddresses()
    ensures ParseAddress(TOKEN).Some? && ParseAddress(SETTLEMENT).Some?
    ensures ParseAddress(TOKEN).value != ParseAddress(SETTLEMENT).value
    ensures !Placeholder(ParseAddress(TOKEN).value) && !Placeholder(ParseAddress(SETTLEMENT).value)
  {
    RepeatedAddress('1');
    RepeatedAddress('2');
    hide ParseAddress, Repeat;
  }

  // ---- a token file with one slot ------------------------------------------------------------

  const SLOT := Some(SlotEntry(Some("enabled"), Some(["raindex"]), Some(TOKEN)))
  const CHAIN := Chain(Some(DEFAULT_CHAIN_ID), Some(SETTLEMENT), Equities([("A", SLOT)]))
  const FILE := File(Some(SCHEMA_VERSION), Some([("base", CHAIN)]))
  const CONFIG := StaticConfig(None, Some(SETTLEMENT), false, 0, "ws", "oracle", 1)
  const ROWS := [TokenEntry(TOKEN, "wtA")]

  lemma FileProjects()
    ensures Project(FILE, DEFAULT_CHAIN_ID) == Ok(Projection(DEFAULT_CHAIN_ID, SETTLEMENT, ROWS))
  {
    hide Repeat;
    var chains: seq<(string, Chain)> := [("base", CHAIN)];
    assert chains[1..] == [];
    assert Matching(chains, DEFAULT_CHAIN_ID) == [CHAIN];
    var slots: seq<(string, Option<SlotEntry>)> := [("A", SLOT)];
    assert slots[..0] == [] && Rows(slots[..0]) == Ok([]);
    assert ["raindex"][0] == "raindex" && "wt" + "A" == "wtA";
    assert SlotRow("A", SLOT) == Ok(Some(TokenEntry(TOKEN, "wtA")));
    var none: seq<TokenEntry> := [];
    assert none + [TokenEntry(TOKEN, "wtA")] == ROWS;
    assert Rows(slots) == Ok(none + [TokenEntry(TOKEN, "wtA")]);
    assert ROWS[..0] == [] && SortRows(ROWS) == ROWS;
  }

  lemma NotBlank(s: string, c: char)
    requires |s| > 0 && s[0] == c && (c == 'w' || c == 'o')
    ensures !Blank(s)
  {
    assert c in s && c !in " \t\r\n";
  }

  lemma RowsMap()
    ensures ParseAddress(TOKEN).Some? && ParseAddress(SETTLEMENT).Some?
    ensures FromConfig(ROWS, SETTLEMENT)
            == Some(TokenRegistry(map[ParseAddress(TOKEN).value := "wtA"], ParseAddress(SETTLEMENT).value))
  {
    TwoAddresses();
    hide ParseAddress, Repeat, Placeholder;
    assert ROWS[..0] == [] && Mapping(ROWS[..0]) == Some(map[]);
  }

  lemma RowsAreValid(config: Config)
    requires config == Config(DEFAULT_CHAIN_ID, SETTLEMENT, ROWS, 0, "ws", "oracle", 1)
    ensures ValidConfig(config)
  {
    hide ParseAddress, Repeat, Placeholder, Blank;
    TwoAddresses();
    NotBlank("wtA", 'w');
    NotBlank("ws", 'w');
    NotBlank("oracle", 'o');
  }

  /** Every generation names this one file, and boot accepts it: one token, another the settlement token. */
  lemma FileBoots(generation: int) returns (w: Reload.World, token: Address, settlement: Address)
    ensures Reload.BootFrom(w, generation).Ok? && token != settlement
    ensures Reload.BootFrom(w, generation).value.tokens.registry == TokenRegistry(map[token := "wtA"], settlement)
  {
    hide ParseAddress, Repeat, ValidConfig, FromConfig;
    TwoAddresses();
    w := Reload.World(CONFIG, _ => Some(FILE));
    token, settlement := ParseAddress(TOKEN).value, ParseAddress(SETTLEMENT).value;
    FileProjects();
    RowsMap();
    RowsAreValid(Config(DEFAULT_CHAIN_ID, SETTLEMENT, ROWS, 0, "ws", "oracle", 1));
    hide Project;
    assert Merge(CONFIG, Projection(DEFAULT_CHAIN_ID, SETTLEMENT, ROWS)).Ok?;
  }

  // ---- a codec, a quote and a run ---------------------------------------------------------------

  const CODEC := Codec(
    (n: U64) => Some(n as Word), (w: Word) => Some(w), (w: Word) => Some(w), (w: Word) => Some(w == 0),
    (t: SessionTag) => match t case Premarket => 0 case Rth => 1 case Afterhours => 2 case Closed => 3,
    (s: seq<Word>) => 0)

  function PriceOf(token: Address, settlement: Address): Quote {
    Quote("wtA", DEFAULT_CHAIN_ID, token, settlement, 1, 1, 10_000, Some(10_000), 5_000, 1, 1, 1,
          Some(QuoteSession(Rth, 0, 9_000)))
  }

  lemma QuoteIsStated(schema: Schema, item: Item, q: Quote)
    requires q == PriceOf(q.base, q.settlement)
    ensures BuildStatement(CODEC, DEFAULT_CHAIN_ID, schema, item, q).Ok? && QuoteLiveAt(q, 0)
  {
    assert FromQuote(q) == Ok(SignedSession(Rth, 0, 9));
    assert PriceWord(CODEC, schema, q, item.pair.direction) == Ok(1);
    assert ExpirySeconds(q) == Ok(10) && PublishSeconds(q) == Ok(5);
    assert SessionContext(CODEC, Version(schema), 1, 5, SignedSession(Rth, 0, 9)).Ok?;
  }

  /** Some server boots, and under every schema some run of it delivers an item. */
  lemma SomethingIsDelivered(schema: Schema, sig: Signing.Signature) returns (d: Deployment, actions: seq<Action>)
    ensures Reload.BootFrom(d.world, 1).Ok?
    ensures IsDelivered(At(d, 1, actions, |actions|), 0, 0)
  {
    hide Reload.BootFrom, After, Step;
    var w, token, settlement := FileBoots(1);
    d := Deployment(Env(CODEC, DEFAULT_CHAIN_ID, 1, 0), Signing.Limits(1, 1), w);
    var q := PriceOf(token, settlement);
    var pair := ResolvedPair("wtA", token, QuoteToBase);
    assert Resolve(Init(d, 1).reload.tokens.registry, settlement, token) == Some(pair);
    QuoteIsStated(schema, Item(settlement, token, pair), q);
    hide BuildStatement, QuoteLiveAt;
    actions := Progress.GoodQuoteIsServed(d, 1, schema, settlement, token, q, 0, sig);
  }
}
