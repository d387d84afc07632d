/**
  What a delivered response says, slot by slot, in terms of the order and of
  the quote its request holds; and which earlier responses may stand in for a new one.
 */
module Meaning {
  import opened Wire
  import opened Deadlines
  import opened Sessions
  import opened Contexts
  import opened Slots
  import opened System
  import opened Theorems
  import Quotes
  import Reuse
  import Signing
  import Reload

  /** The terms a context states: everything but its publish time and its expiry. */
  predicate StatesTerms(codec: Codec, chainId: U64, schema: Schema, item: Item, q: Quote, context: seq<Word>) {
    && |context| == (if schema.V5? then 9 else 10)
    && codec.float(if schema.V5? then 5 else if schema.V6? then 6 else 7) == Some(context[0])
    && codec.invert(SignedRate(schema, q, item.pair.direction)) == Some(context[1])
    && q.session.Some? && 0 <= q.session.value.startMs && 0 <= q.session.value.endMs
    && context[3] == codec.tag(q.session.value.tag)
    && codec.float(q.session.value.startMs / 1000) == Some(context[4])
    && codec.float(q.session.value.endMs / 1000) == Some(context[5])
    && context[6] == item.input && context[7] == item.output
    && (schema.V6? ==> codec.fixedDecimal(q.navRatio) == Some(context[9]))
    && (schema.V7? ==> codec.float(chainId) == Some(context[9]))
  }

  /** The same slots but 2 and 8. */
  predicate SameTerms(a: seq<Word>, b: seq<Word>) {
    && |a| == |b| && |a| >= 9
    && a[0] == b[0] && a[1] == b[1] && a[3] == b[3] && a[4] == b[4] && a[5] == b[5] && a[6] == b[6] && a[7] == b[7]
    && (|a| > 9 ==> a[9..] == b[9..])
  }

  lemma StatementStatesTerms(codec: Codec, chainId: U64, schema: Schema, item: Item, q: Quote)
    requires BuildStatement(codec, chainId, schema, item, q).Ok?
    ensures StatesTerms(codec, chainId, schema, item, q, BuildStatement(codec, chainId, schema, item, q).value.context)
  {
    BuiltContextHasLayout(codec, chainId, schema, item, q);
    hide BuildStatement;
  }

  lemma SameStatementSameTerms(a: seq<Word>, b: seq<Word>)
    requires |a| == 9 || |a| == 10
    ensures Reuse.SameStatement(a, b) <==> SameTerms(a, b)
  {
    if SameTerms(a, b) {
      assert |a| > 9 ==> a[9] == a[9..][0] && b[9] == b[9..][0];
    }
  }

  /** A response that states the same terms as a statement of these. */
  lemma TermsCarryOver(codec: Codec, chainId: U64, schema: Schema, item: Item, q: Quote, a: seq<Word>, b: seq<Word>)
    requires StatesTerms(codec, chainId, schema, item, q, b) && SameTerms(a, b)
    ensures StatesTerms(codec, chainId, schema, item, q, a)
  {
    assert |a| > 9 ==> a[9] == a[9..][0] && b[9] == b[9..][0];
  }

  /** The publish time a context encodes lies in the session it encodes. */
  ghost predicate PublishedInSession(codec: Codec, context: seq<Word>) {
    && |context| > 5
    && exists publish: U64, start: U64, end: U64 ::
         && codec.float(publish) == Some(context[2]) && codec.float(start) == Some(context[4])
         && codec.float(end) == Some(context[5]) && start <= publish <= end
  }

  ghost predicate Says(env: Env, produced: set<(Signing.Hash, Signing.Signature)>, job: Job, stmt: Statement, b: Built) {
    && BuildStatement(env.codec, env.chainId, job.schema, job.item, job.snap.quote) == Ok(stmt)
    && SameTerms(b.response.context, stmt.context)
    && StatesTerms(env.codec, env.chainId, job.schema, job.item, job.snap.quote, b.response.context)
    && PublishedInSession(env.codec, b.response.context)
    && env.codec.float(b.expiry) == Some(b.response.context[8]) && b.expiry <= stmt.expiry
    && (b.reusedAt.None? ==> b.response.context == stmt.context)
    && (b.reusedAt.Some? ==> b.reusedAt.value + env.margin <= b.expiry)
    && b.response.signer == env.signer
    && (env.codec.hash(b.response.context), b.response.signature) in produced
  }

  lemma SafeSays(env: Env, produced: set<(Signing.Hash, Signing.Signature)>, job: Job, f: Final, stmt: Statement, b: Built)
    requires DeliveredSafely(env, produced, job, f, stmt, b)
    ensures Says(env, produced, job, stmt, b)
  {
    StatementStatesTerms(env.codec, env.chainId, job.schema, job.item, job.snap.quote);
    hide BuildStatement, FinalChecksHold;
    SameStatementSameTerms(b.response.context, stmt.context);
    TermsCarryOver(env.codec, env.chainId, job.schema, job.item, job.snap.quote, b.response.context, stmt.context);
    hide StatesTerms, SameTerms, Reuse.SameStatement;
  }

  /**
    What a delivered response says. In every run, slot for slot: the schema's
    version, the inverse of the order's own rate, the session and the two tokens
    of this request's own quote and order, and the NAV ratio or the chain; only
    publish time and expiry may be an earlier frame's, and then of the same
    session and no later. The signer is this server's and signed just that.
   */
  lemma DeliveredSaysItsTerms(d: Deployment, generation: int, actions: seq<Action>, n: nat, r: nat, i: nat)
    requires Reload.BootFrom(d.world, generation).Ok? && n <= |actions|
    requires IsDelivered(At(d, generation, actions, n), r, i)
    ensures var s := At(d, generation, actions, n);
            && HasJob(s.requests[r], i)
            && Says(d.env, s.signer.produced, JobOf(s.requests[r], i), s.requests[r].slots[i].stmt, s.requests[r].slots[i].built)
  {
    hide At, Reload.BootFrom, DeliveredSafely, Says, ReadingsHold;
    DeliveredItemIsSafe(d, generation, actions, n, r, i);
    var s := At(d, generation, actions, n);
    var req := s.requests[r];
    SafeSays(d.env, s.signer.produced, JobOf(req, i), FinalOf(req), req.slots[i].stmt, req.slots[i].built);
  }

  // ---- which earlier response may stand in ---------------------------------------------

  /** The same quote but for when it was marked and how long it lasts. */
  predicate SameTermsQuoted(p: Quote, q: Quote) {
    q == p.(sourceTsMs := q.sourceTsMs, expiryMs := q.expiryMs, deadlineMs := q.deadlineMs)
  }

  lemma SameQuoteSameTerms(codec: Codec, chainId: U64, schema: Schema, item: Item, p: Quote, q: Quote)
    requires SameTermsQuoted(p, q)
    requires BuildStatement(codec, chainId, schema, item, p).Ok? && BuildStatement(codec, chainId, schema, item, q).Ok?
    ensures SameTerms(BuildStatement(codec, chainId, schema, item, p).value.context,
                      BuildStatement(codec, chainId, schema, item, q).value.context)
  {
    StatementStatesTerms(codec, chainId, schema, item, p);
    StatementStatesTerms(codec, chainId, schema, item, q);
    hide BuildStatement;
    var a, b := BuildStatement(codec, chainId, schema, item, p).value.context, BuildStatement(codec, chainId, schema, item, q).value.context;
    TwoStateTheSame(codec, chainId, schema, item, p, q, a, b);
  }

  lemma TwoStateTheSame(codec: Codec, chainId: U64, schema: Schema, item: Item, p: Quote, q: Quote, a: seq<Word>, b: seq<Word>)
    requires SameTermsQuoted(p, q)
    requires StatesTerms(codec, chainId, schema, item, p, a) && StatesTerms(codec, chainId, schema, item, q, b)
    ensures SameTerms(a, b)
  {
    assert SignedRate(schema, p, item.pair.direction) == SignedRate(schema, q, item.pair.direction);
    if |a| == 10 {
      assert a[9..] == [a[9]] && b[9..] == [b[9]];
    }
  }

  /**
    The case reuse is for: an unchanged price under a newer mark. A response
    stored for the same order under the same generation, whose quote differs
    only in its mark and its two deadlines, is accepted as long as it dies no
    later than the new statement and the margin is left.
   */
  lemma UnchangedPriceIsReused(env: Env, schema: Schema, item: Item, p: Quote, q: Quote, signature: Signing.Signature,
                               generation: nat, nowSecs: U64)
    requires SameTermsQuoted(p, q)
    requires BuildStatement(env.codec, env.chainId, schema, item, p).Ok?
    requires BuildStatement(env.codec, env.chainId, schema, item, q).Ok?
    ensures var old_ := BuildStatement(env.codec, env.chainId, schema, item, p).value;
            var new_ := BuildStatement(env.codec, env.chainId, schema, item, q).value;
            var stored := Reuse.Stored(old_.expiry, OracleResponse(env.signer, old_.context, signature), generation);
            nowSecs + env.margin <= old_.expiry <= new_.expiry ==>
              Reuse.Accepts(env.margin, stored, true, new_, nowSecs, generation)
  {
    SameQuoteSameTerms(env.codec, env.chainId, schema, item, p, q);
    StatementStatesTerms(env.codec, env.chainId, schema, item, p);
    hide BuildStatement;
    SameStatementSameTerms(BuildStatement(env.codec, env.chainId, schema, item, p).value.context,
                           BuildStatement(env.codec, env.chainId, schema, item, q).value.context);
    hide StatesTerms, SameTerms;
  }

  /** And a price that moved is not: what is accepted has the wanted rate. */
  lemma MovedPriceIsNotReused(margin: U64, stored: Reuse.Stored, live: bool, wanted: Statement, nowSecs: U64, generation: nat)
    requires |wanted.context| == 9 || |wanted.context| == 10
    requires Reuse.Accepts(margin, stored, live, wanted, nowSecs, generation)
    ensures SameTerms(stored.response.context, wanted.context)
  {
    SameStatementSameTerms(stored.response.context, wanted.context);
  }

  /** Two orders share an entry exactly when they are the same order, under the same schema and symbol. */
  lemma KeysTellOrdersApart(a: Job, b: Job)
    ensures ReuseKey(a) == ReuseKey(b) <==>
              && a.schema == b.schema && a.item.pair.symbol == b.item.pair.symbol
              && a.item.pair.direction == b.item.pair.direction
              && a.item.input == b.item.input && a.item.output == b.item.output
  {
  }
}
