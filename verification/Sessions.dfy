/** The market session signed into context slots 3 to 5. */
module Sessions {
  import opened Wire
  import opened Deadlines

  datatype SignedSession = SignedSession(tag: SessionTag, start: U64, end: U64)

  datatype SessionRefusal = Missing | Invalid

  /** An open session excludes its end, a closed one includes it. */
  predicate Holds(session: QuoteSession, readAt: int) {
    && session.startMs <= readAt
    && match session.tag
       case Closed => readAt <= session.endMs
       case _ => readAt < session.endMs
  }

  function FromQuote(q: Quote): Result<SignedSession, SessionRefusal> {
    if q.session.None? then Err(Missing)
    else
      var session := q.session.value;
      if !Holds(session, q.sourceTsMs) then Err(Invalid)
      else
        var start, end := FlooredSeconds(session.startMs), FlooredSeconds(session.endMs);
        if start < 0 || end < 0 then Err(Invalid)
        else Ok(SignedSession(session.tag, start, end))
  }

  /**
    Whenever a session is signed, the publish time lies inside it in whole
    seconds, both ends included, although the publish time truncates, the
    bounds floor, and open and closed sessions end differently.
   */
  lemma PublishTimeInSession(q: Quote)
    requires FromQuote(q).Ok?
    ensures PublishSeconds(q).Ok?
    ensures FromQuote(q).value.start <= PublishSeconds(q).value <= FromQuote(q).value.end
  {
    var session := q.session.value;
    assert 0 <= session.startMs <= q.sourceTsMs <= session.endMs;
  }

  /** Refusal is exactly: no session, the mark outside it, or a bound before 1970. */
  lemma RefusedExactlyWhen(q: Quote)
    ensures FromQuote(q).Err? <==>
              || q.session.None?
              || q.sourceTsMs < q.session.value.startMs
              || q.sourceTsMs > q.session.value.endMs
              || (q.sourceTsMs == q.session.value.endMs && !q.session.value.tag.Closed?)
              || q.session.value.startMs < 0
    ensures FromQuote(q) == Err(Missing) <==> q.session.None?
  {
    if q.session.Some? {
      var session := q.session.value;
      assert FlooredSeconds(session.startMs) < 0 <==> session.startMs < 0;
      assert session.tag.Closed? || session.tag.Premarket? || session.tag.Rth? || session.tag.Afterhours?;
    }
  }
}
