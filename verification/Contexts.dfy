/**
  The signed context of the schemas v5, v6 and v7: which slot carries what.
  Rain Float arithmetic and keccak belong to other libraries; they are the
  function fields of a `Codec`, and every theorem holds for all of them.
 */
module Contexts {
  import opened Wire
  import opened Deadlines
  import opened Sessions

  datatype Codec = Codec(
    /** `Float::parse` of a decimal integer. */
    float: U64 -> Option<Word>,
    /** `Float::from_fixed_decimal` of the raw NAV ratio. */
    fixedDecimal: Word -> Option<Word>,
    /** `Float::inv`. */
    invert: Word -> Option<Word>,
    /** `Float::is_zero`. */
    isZero: Word -> Option<bool>,
    /** `tag_bytes32_v3`. */
    tag: SessionTag -> Word,
    /** `keccak256(abi.encodePacked(context))`. */
    hash: seq<Word> -> Word)

  const PUBLISH_TIME_SLOT := 2
  const EXPIRY_SLOT := 8

  /** What a slot was asked to sign: the order's own token addresses and the pair they resolve to. */
  datatype Item = Item(input: Address, output: Address, pair: ResolvedPair)

  /** A built context and the expiry second it carries. */
  datatype Statement = Statement(context: seq<Word>, expiry: U64)

  function Version(schema: Schema): U64 {
    match schema
    case V5 => 5
    case V6 => 6
    case V7 => 7
  }

  function FloatOf(codec: Codec, n: U64): Outcome<Word> {
    match codec.float(n)
    case Some(w) => Ok(w)
    case None => Err(Internal("not a Rain float"))
  }

  function SessionContext(codec: Codec, version: U64, price: Word, publish: U64, session: SignedSession)
      : Outcome<seq<Word>> {
    var versionWord :- FloatOf(codec, version);
    var publishWord :- FloatOf(codec, publish);
    var startWord :- FloatOf(codec, session.start);
    var endWord :- FloatOf(codec, session.end);
    Ok([versionWord, price, publishWord, codec.tag(session.tag), startWord, endWord])
  }

  function PairBoundContext(codec: Codec, version: U64, price: Word, publish: U64, session: SignedSession,
                            input: Address, output: Address): Outcome<seq<Word>> {
    var context :- SessionContext(codec, version, price, publish, session);
    Ok(context + [input] + [output])
  }

  function ExpiryBoundContext(codec: Codec, version: U64, price: Word, publish: U64, session: SignedSession,
                              input: Address, output: Address, expiry: U64): Outcome<seq<Word>> {
    var context :- PairBoundContext(codec, version, price, publish, session, input, output);
    var expiryWord :- FloatOf(codec, expiry);
    Ok(context + [expiryWord])
  }

  /** v5 ends at slot 8; v6 adds the NAV ratio and v7 the chain id at slot 9. */
  function SchemaContext(codec: Codec, schema: Schema, price: Word, publish: U64, session: SignedSession,
                         input: Address, output: Address, expiry: U64, navRatio: Word, chainId: U64)
      : Outcome<seq<Word>> {
    var context :- ExpiryBoundContext(codec, Version(schema), price, publish, session, input, output, expiry);
    match schema
    case V5 => Ok(context)
    case V6 =>
      (match codec.fixedDecimal(navRatio)
       case Some(w) => Ok(context + [w])
       case None => Err(Internal("nav_ratio does not pack")))
    case V7 =>
      var chainWord :- FloatOf(codec, chainId);
      Ok(context + [chainWord])
  }

  /** The directional rate, inverted into ratio units; v7 signs the underlying's and refuses zero. */
  function PriceWord(codec: Codec, schema: Schema, q: Quote, direction: Direction): Outcome<Word> {
    var rate :=
      match (schema, direction)
      case (V7, QuoteToBase) => q.underlyingQuoteToBase
      case (V7, BaseToQuote) => q.underlyingBaseToQuote
      case (_, QuoteToBase) => q.rateQuoteToBase
      case (_, BaseToQuote) => q.rateBaseToQuote;
    if schema.V7? && codec.isZero(rate) != Some(false) then Err(Internal("no underlying rate"))
    else
      match codec.invert(rate)
      case Some(w) => Ok(w)
      case None => Err(Internal("rate does not invert"))
  }

  /** Everything between admission and the reuse lookup: pure, no shared state. */
  function BuildStatement(codec: Codec, chainId: U64, schema: Schema, item: Item, q: Quote): Outcome<Statement> {
    var publish :- PublishSeconds(q);
    match FromQuote(q)
    case Err(Missing) => Err(Unavailable(MissingSession))
    case Err(Invalid) => Err(Unavailable(InvalidSession))
    case Ok(session) =>
      var price :- PriceWord(codec, schema, q, item.pair.direction);
      var expiry :- ExpirySeconds(q);
      var context :- SchemaContext(codec, schema, price, publish, session, item.input, item.output,
                                   expiry, q.navRatio, chainId);
      Ok(Statement(context, expiry))
  }

  /** The rate a statement signs. */
  function SignedRate(schema: Schema, q: Quote, direction: Direction): Word {
    match (schema.V7?, direction.QuoteToBase?)
    case (true, true) => q.underlyingQuoteToBase
    case (true, false) => q.underlyingBaseToQuote
    case (false, true) => q.rateQuoteToBase
    case (false, false) => q.rateBaseToQuote
  }

  /** The published slot layout, read off a context without running a builder. */
  predicate Layout(codec: Codec, chainId: U64, schema: Schema, item: Item, q: Quote, context: seq<Word>) {
    && |context| == (if schema.V5? then 9 else 10)
    && codec.float(match schema case V5 => 5 case V6 => 6 case V7 => 7) == Some(context[0])
    && codec.invert(SignedRate(schema, q, item.pair.direction)) == Some(context[1])
    && 0 <= q.sourceTsMs && codec.float(q.sourceTsMs / 1000) == Some(context[2])
    && q.session.Some?
    && codec.tag(q.session.value.tag) == context[3]
    && 0 <= q.session.value.startMs && codec.float(q.session.value.startMs / 1000) == Some(context[4])
    && 0 <= q.session.value.endMs && codec.float(q.session.value.endMs / 1000) == Some(context[5])
    && context[6] == item.input
    && context[7] == item.output
    && ExpirySeconds(q).Ok? && codec.float(ExpirySeconds(q).value) == Some(context[8])
    && (schema.V6? ==> codec.fixedDecimal(q.navRatio) == Some(context[9]))
    && (schema.V7? ==> codec.float(chainId) == Some(context[9]))
  }

  /** A statement can be made exactly when the session holds, the rate inverts, and every number encodes. */
  predicate Statable(codec: Codec, chainId: U64, schema: Schema, item: Item, q: Quote) {
    && FromQuote(q).Ok?
    && (schema.V7? ==> codec.isZero(SignedRate(schema, q, item.pair.direction)) == Some(false))
    && codec.invert(SignedRate(schema, q, item.pair.direction)).Some?
    && q.deadlineMs.Some? && q.deadlineMs.value > 0 && q.expiryMs > -1000
    && codec.float(match schema case V5 => 5 case V6 => 6 case V7 => 7).Some?
    && codec.float(FromQuote(q).value.start).Some? && codec.float(FromQuote(q).value.end).Some?
    && PublishSeconds(q).Ok? && codec.float(PublishSeconds(q).value).Some?
    && ExpirySeconds(q).Ok? && codec.float(ExpirySeconds(q).value).Some?
    && (schema.V6? ==> codec.fixedDecimal(q.navRatio).Some?)
    && (schema.V7? ==> codec.float(chainId).Some?)
  }

  lemma ExpiresExactlyWhen(q: Quote)
    ensures ExpirySeconds(q).Ok? <==> q.deadlineMs.Some? && q.deadlineMs.value > 0 && q.expiryMs > -1000
    ensures ExpirySeconds(q).Err? && ExpirySeconds(q).error.Unavailable? ==> q.deadlineMs.None? || q.deadlineMs.value <= 0
  {
  }

  /**
    Otherwise it is refused, and how says why: a missing session and one that
    does not hold the mark are reported as such, a missing execution deadline as
    expired, and what does not encode, a v7 rate of zero among it, as internal.
   */
  lemma StatedExactlyWhen(codec: Codec, chainId: U64, schema: Schema, item: Item, q: Quote)
    ensures BuildStatement(codec, chainId, schema, item, q).Ok? <==> Statable(codec, chainId, schema, item, q)
    ensures var r := BuildStatement(codec, chainId, schema, item, q);
            && (q.sourceTsMs > -1000 && q.session.None? ==> r == Err(Unavailable(MissingSession)))
            && (q.sourceTsMs > -1000 && q.session.Some? && FromQuote(q).Err? ==> r == Err(Unavailable(InvalidSession)))
            && (q.sourceTsMs <= -1000 ==> r.Err? && r.error.Internal?)
            && (r.Err? && r.error.Unavailable? && r.error.reason.ExpiredQuote? ==>
                  q.deadlineMs.None? || q.deadlineMs.value <= 0)
  {
    ExpiresExactlyWhen(q);
    RefusedExactlyWhen(q);
    RateIsSigned(codec, schema, q, item.pair.direction);
    hide ExpirySeconds, PriceWord, FromQuote;
  }

  lemma RateIsSigned(codec: Codec, schema: Schema, q: Quote, direction: Direction)
    ensures PriceWord(codec, schema, q, direction).Ok? <==>
              && (schema.V7? ==> codec.isZero(SignedRate(schema, q, direction)) == Some(false))
              && codec.invert(SignedRate(schema, q, direction)).Some?
    ensures PriceWord(codec, schema, q, direction).Err? ==> PriceWord(codec, schema, q, direction).error.Internal?
  {
  }

  lemma PriceIsInverted(codec: Codec, schema: Schema, q: Quote, direction: Direction)
    requires PriceWord(codec, schema, q, direction).Ok?
    ensures codec.invert(SignedRate(schema, q, direction)) == Some(PriceWord(codec, schema, q, direction).value)
  {
  }

  /** The slots are pushed in the order the layout lists them. */
  lemma SlotsInOrder(codec: Codec, schema: Schema, price: Word, publish: U64, session: SignedSession,
                     input: Address, output: Address, expiry: U64, navRatio: Word, chainId: U64)
    requires SchemaContext(codec, schema, price, publish, session, input, output, expiry, navRatio, chainId).Ok?
    ensures var c := SchemaContext(codec, schema, price, publish, session, input, output, expiry, navRatio, chainId).value;
            && |c| == (if schema.V5? then 9 else 10)
            && codec.float(match schema case V5 => 5 case V6 => 6 case V7 => 7) == Some(c[0]) && c[1] == price && codec.float(publish) == Some(c[2])
            && c[3] == codec.tag(session.tag)
            && codec.float(session.start) == Some(c[4]) && codec.float(session.end) == Some(c[5])
            && c[6] == input && c[7] == output && codec.float(expiry) == Some(c[8])
            && (schema.V6? ==> codec.fixedDecimal(navRatio) == Some(c[9]))
            && (schema.V7? ==> codec.float(chainId) == Some(c[9]))
  {
  }

  lemma BuiltContextHasLayout(codec: Codec, chainId: U64, schema: Schema, item: Item, q: Quote)
    requires BuildStatement(codec, chainId, schema, item, q).Ok?
    ensures Layout(codec, chainId, schema, item, q, BuildStatement(codec, chainId, schema, item, q).value.context)
    ensures BuildStatement(codec, chainId, schema, item, q).value.expiry == ExpirySeconds(q).value
  {
    PublishTimeInSession(q);
    PriceIsInverted(codec, schema, q, item.pair.direction);
    SlotsInOrder(codec, schema, PriceWord(codec, schema, q, item.pair.direction).value, PublishSeconds(q).value,
                 FromQuote(q).value, item.input, item.output, ExpirySeconds(q).value, q.navRatio, chainId);
    hide ExpirySeconds, PriceWord, SchemaContext;
  }

  /** Some publish time and session bounds are encoded in the context, and they are ordered. */
  ghost predicate SessionHolds(codec: Codec, context: seq<Word>) {
    && |context| > 5
    && exists publish: U64, start: U64, end: U64 ::
         && codec.float(publish) == Some(context[2])
         && codec.float(start) == Some(context[4])
         && codec.float(end) == Some(context[5])
         && start <= publish <= end
  }

  lemma BuiltSessionHolds(codec: Codec, chainId: U64, schema: Schema, item: Item, q: Quote)
    requires BuildStatement(codec, chainId, schema, item, q).Ok?
    ensures SessionHolds(codec, BuildStatement(codec, chainId, schema, item, q).value.context)
  {
    BuiltContextHasLayout(codec, chainId, schema, item, q);
    PublishTimeInSession(q);
    var session := FromQuote(q).value;
    assert codec.float(PublishSeconds(q).value).Some? && codec.float(session.start).Some? && codec.float(session.end).Some?;
  }

  ghost predicate InjectiveFloat(codec: Codec) {
    forall a: U64, b: U64 :: codec.float(a).Some? && codec.float(a) == codec.float(b) ==> a == b
  }

  /** With injective integers, whatever the three slots decode to is ordered. */
  lemma SignedSessionIsOrdered(codec: Codec, context: seq<Word>, publish: U64, start: U64, end: U64)
    requires InjectiveFloat(codec) && SessionHolds(codec, context)
    requires codec.float(publish) == Some(context[2])
    requires codec.float(start) == Some(context[4]) && codec.float(end) == Some(context[5])
    ensures start <= publish <= end
  {
    var p: U64, s: U64, e: U64 :|
      && codec.float(p) == Some(context[2]) && codec.float(s) == Some(context[4]) && codec.float(e) == Some(context[5])
      && s <= p <= e;
    assert p == publish && s == start && e == end;
  }

  /** The word encoders other than `float`, where they are injective too. */
  ghost predicate InjectiveWords(codec: Codec) {
    && (forall a: Word, b: Word :: codec.invert(a).Some? && codec.invert(a) == codec.invert(b) ==> a == b)
    && (forall a: Word, b: Word :: codec.fixedDecimal(a).Some? && codec.fixedDecimal(a) == codec.fixedDecimal(b) ==> a == b)
    && (forall a: SessionTag, b: SessionTag :: codec.tag(a) == codec.tag(b) ==> a == b)
  }

  /**
    Equal signed bytes mean equal terms: schema, order tokens, expiry, publish
    time, session bounds, and for v7 the chain; and where the other encoders
    are injective too, the rate, the session tag and for v6 the NAV ratio. So a
    signature answers for one statement only.
   */
  lemma ContextBindsItsTerms(codec: Codec,
                             chain1: U64, schema1: Schema, item1: Item, q1: Quote,
                             chain2: U64, schema2: Schema, item2: Item, q2: Quote)
    requires InjectiveFloat(codec)
    requires BuildStatement(codec, chain1, schema1, item1, q1).Ok?
    requires BuildStatement(codec, chain2, schema2, item2, q2).Ok?
    requires BuildStatement(codec, chain1, schema1, item1, q1).value.context
          == BuildStatement(codec, chain2, schema2, item2, q2).value.context
    ensures schema1 == schema2
    ensures (item1.input, item1.output) == (item2.input, item2.output)
    ensures ExpirySeconds(q1) == ExpirySeconds(q2) && PublishSeconds(q1) == PublishSeconds(q2)
    ensures FromQuote(q1).value.start == FromQuote(q2).value.start
    ensures FromQuote(q1).value.end == FromQuote(q2).value.end
    ensures schema1.V7? ==> chain1 == chain2
    ensures InjectiveWords(codec) ==>
              && SignedRate(schema1, q1, item1.pair.direction) == SignedRate(schema2, q2, item2.pair.direction)
              && q1.session.Some? && q2.session.Some? && q1.session.value.tag == q2.session.value.tag
              && (schema1.V6? ==> q1.navRatio == q2.navRatio)
  {
    BuiltContextHasLayout(codec, chain1, schema1, item1, q1);
    BuiltContextHasLayout(codec, chain2, schema2, item2, q2);
  }
}
