/**
  The values that cross component boundaries: pricing quotes, resolved pairs,
  signed responses, and the errors a request slot can end with.
 */
module Wire {

  datatype Option<+T> = None | Some(value: T)

  /** Rust's `Option::or`: the first value present. */
  function Or<T>(first: Option<T>, second: Option<T>): Option<T> {
    if first.Some? then first else second
  }

  datatype Result<+T, +E> = Ok(value: T) | Err(error: E) {
    predicate IsFailure() { Err? }

    function PropagateFailure<U>(): Result<U, E>
      requires Err?
    {
      Err(error)
    }

    function Extract(): T
      requires Ok?
    {
      value
    }
  }

  const I64_MAX: int := 0x7fff_ffff_ffff_ffff
  const U64_MAX: int := 0xffff_ffff_ffff_ffff

  type I64 = x: int | -I64_MAX - 1 <= x <= I64_MAX
  type U64 = x: int | 0 <= x <= U64_MAX

  /** A clock reading in milliseconds, at or after 1970. */
  type Millis = x: int | 0 <= x <= I64_MAX

  /** One 32-byte context slot, read as a big-endian number. */
  type Word = n: int | 0 <= n < 0x1_0000000000000000_0000000000000000_0000000000000000_0000000000000000
  /** A 20-byte address. Left-padding it to 32 bytes keeps the number. */
  type Address = n: int | 0 <= n < 0x1_0000000000_0000000000_0000000000_0000000000

  type Symbol = string

  datatype SessionTag = Premarket | Rth | Afterhours | Closed

  datatype QuoteSession = QuoteSession(tag: SessionTag, startMs: I64, endMs: I64)

  /** One pricing frame, stored whole. */
  datatype Quote = Quote(
    asset: Symbol,
    chainId: U64,
    base: Address,
    settlement: Address,
    rateBaseToQuote: Word,
    rateQuoteToBase: Word,
    expiryMs: I64,
    deadlineMs: Option<I64>,
    sourceTsMs: I64,
    navRatio: Word,
    underlyingBaseToQuote: Word,
    underlyingQuoteToBase: Word,
    session: Option<QuoteSession>)

  /** Which of the two directional rates a request needs. */
  datatype Direction = QuoteToBase | BaseToQuote

  /** A token pair resolved against the registry. */
  datatype ResolvedPair = ResolvedPair(symbol: Symbol, token: Address, direction: Direction)

  /** The schemas that sign; each of them signs an expiry at slot 8. */
  datatype Schema = V5 | V6 | V7

  datatype OracleResponse = OracleResponse(signer: Address, context: seq<Word>, signature: seq<int>)

  datatype UnavailableReason = NoLiveQuote | ExpiredQuote | MissingSession | InvalidSession

  datatype AppError =
    | Internal(cause: string)
    | BadRequest(cause: string)
    | Unavailable(reason: UnavailableReason)

  type Outcome<+T> = Result<T, AppError>

  /** The outcome of a check that only refuses or lets pass. */
  datatype Verdict = Pass | Refuse(error: AppError)

  lemma {:induction false} SubsetSize<T>(a: set<T>, b: set<T>)
    requires a <= b
    ensures |a| <= |b|
  {
    if a != {} {
      var x :| x in a;
      SubsetSize(a - {x}, b - {x});
    }
  }
}
