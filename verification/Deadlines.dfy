/**
  The deadline arithmetic of a quote: milliseconds on the wire, whole seconds
  in the signed context. Rust's `/` truncates toward zero, `div_euclid` floors.
 */
module Deadlines {
  import opened Wire

  /** `ms / 1000` on an `i64`. */
  function TruncatedSeconds(ms: int): int {
    if ms >= 0 then ms / 1000 else -(-ms / 1000)
  }

  /** `ms.div_euclid(1000)`; Dafny's `/` floors for a positive divisor. */
  function FlooredSeconds(ms: int): int {
    ms / 1000
  }

  /** The earlier of the model's expiry and the execution deadline. */
  function EffectiveExpiry(q: Quote): (r: Outcome<I64>)
    ensures r.Ok? <==> q.deadlineMs.Some? && q.deadlineMs.value > 0
    ensures r.Ok? ==> r.value <= q.expiryMs && r.value <= q.deadlineMs.value
    ensures r.Ok? ==> r.value in {q.expiryMs, q.deadlineMs.value}
    ensures r.Err? ==> r.error == Unavailable(ExpiredQuote)
  {
    if q.deadlineMs.Some? && q.deadlineMs.value > 0 then
      Ok(if q.expiryMs <= q.deadlineMs.value then q.expiryMs else q.deadlineMs.value)
    else
      Err(Unavailable(ExpiredQuote))
  }

  /** The signed expiry, in whole seconds. */
  function ExpirySeconds(q: Quote): Outcome<U64> {
    var ms :- EffectiveExpiry(q);
    var secs := TruncatedSeconds(ms);
    if 0 <= secs then Ok(secs) else Err(Internal("quote expiry out of range"))
  }

  /** The signed publish time, in whole seconds. */
  function PublishSeconds(q: Quote): Outcome<U64> {
    var secs := TruncatedSeconds(q.sourceTsMs);
    if 0 <= secs then Ok(secs) else Err(Internal("source_ts out of range"))
  }

  /** The signed second must itself be later than the checked second. */
  predicate IsLiveAt(expiryMs: int, atMs: int) {
    expiryMs > atMs && FlooredSeconds(expiryMs) > FlooredSeconds(atMs)
  }

  function CheckDeadline(expiryMs: int, atMs: int): Verdict {
    if IsLiveAt(expiryMs, atMs) then Pass else Refuse(Unavailable(ExpiredQuote))
  }

  function CheckQuoteExpiry(q: Quote, atMs: int): Verdict {
    match EffectiveExpiry(q)
    case Err(_) => Refuse(Unavailable(ExpiredQuote))
    case Ok(expiry) =>
      if q.deadlineMs == Some(expiry) && !IsLiveAt(expiry, atMs) then
        Refuse(Unavailable(ExpiredQuote))
      else
        CheckDeadline(expiry, atMs)
  }

  function CheckLiveness(live: bool): Verdict {
    if live then Pass else Refuse(Unavailable(NoLiveQuote))
  }

  function CheckAddress(q: Quote, pair: ResolvedPair, settlement: Address): Verdict {
    if q.base == pair.token && q.settlement == settlement then Pass
    else Refuse(Unavailable(NoLiveQuote))
  }

  /**
    The signed second never lies past the effective expiry, exactly when the
    model's expiry is not before 1970: within the second before 1970 truncation
    rounds up to zero. The execution deadline is positive whenever it counts.
   */
  lemma SignedExpiryFloors(q: Quote)
    requires ExpirySeconds(q).Ok?
    ensures ExpirySeconds(q).value * 1000 <= EffectiveExpiry(q).value <==> q.expiryMs >= 0
    ensures q.expiryMs >= 0 ==> ExpirySeconds(q).value == FlooredSeconds(EffectiveExpiry(q).value)
    ensures ExpirySeconds(q).value * 1000 <= I64_MAX
  {
    var ms := EffectiveExpiry(q).value;
    assert ms < 0 ==> ExpirySeconds(q).value == 0;
  }

  /** Every quote of that second is signed with expiry zero, past its own effective expiry. */
  lemma LastSecondBefore1970(q: Quote)
    requires q.deadlineMs.Some? && q.deadlineMs.value > 0
    ensures ExpirySeconds(q).Ok? && q.expiryMs < 0 <==> -1000 < q.expiryMs < 0
    ensures -1000 < q.expiryMs < 0 ==> ExpirySeconds(q) == Ok(0) && EffectiveExpiry(q) == Ok(q.expiryMs)
  {
    assert EffectiveExpiry(q).value in {q.expiryMs, q.deadlineMs.value};
  }

  /** For one: an expiry of -1 ms under a deadline of 1 ms is not rejected, and signs second 0. */
  lemma SignsPastItsExpiry(q: Quote)
    requires q.expiryMs == -1 && q.deadlineMs == Some(1)
    ensures ExpirySeconds(q) == Ok(0) && EffectiveExpiry(q) == Ok(-1)
  {
    LastSecondBefore1970(q);
  }

  /** The quote check passes exactly when the effective expiry is live at the given time. */
  lemma QuoteExpiryPasses(q: Quote, atMs: int)
    ensures CheckQuoteExpiry(q, atMs).Pass? <==>
              EffectiveExpiry(q).Ok? && IsLiveAt(EffectiveExpiry(q).value, atMs)
  {
  }

  /** The test on seconds decides: a deadline in a later second is later, so the test on milliseconds adds nothing. */
  lemma SecondsDecide(expiryMs: int, atMs: int)
    ensures IsLiveAt(expiryMs, atMs) <==> FlooredSeconds(expiryMs) > FlooredSeconds(atMs)
  {
  }

  /**
    A deadline that passes at `atMs` is still in the future when it is cut to
    whole seconds, and a taker reading the block time in whole seconds sees it
    strictly ahead.
   */
  lemma LiveSecondsAreAhead(expiryMs: int, atMs: Millis)
    requires CheckDeadline(expiryMs, atMs).Pass?
    ensures expiryMs >= 1000
    ensures FlooredSeconds(expiryMs) == TruncatedSeconds(expiryMs)
    ensures FlooredSeconds(expiryMs) * 1000 > atMs
  {
  }
}
