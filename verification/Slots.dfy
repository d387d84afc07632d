/**
  One slot of a v5/v6/v7 request, from admission to the reply. Each constructor
  of `Slot` is a point between two accesses to shared state; the accesses are
  the atomic steps, and other requests, price frames, sign tasks and reloads
  may run between any two of them.
 */
module Slots {
  import opened Wire
  import opened Deadlines
  import opened Contexts
  import opened Registry
  import Quotes
  import Reuse
  import Signing

  /** The parts of a deployment that never change, and the foreign encoders. */
  datatype Env = Env(codec: Codec, chainId: U64, margin: U64, signer: Address)

  /** What `snapshot_many` returned. */
  type View = map<Symbol, Quotes.Snapshot>

  /**
    A built response: the response itself, the expiry second encoded in it,
    its effective deadline, and the second of the lookup if it was reused.
   */
  datatype Built = Built(response: OracleResponse, expiry: U64, validityMs: int, reusedAt: Option<U64>)

  datatype Slot =
    | Failed(error: AppError)
    | Admission
    | AdmissionAddress
    | AdmissionExpiry
    | LookupLiveness(stmt: Statement)
    | LookupClock(stmt: Statement)
    | Lookup(stmt: Statement, nowSecs: U64)
    | LookupChecks(stmt: Statement, nowSecs: U64, stored: Reuse.Stored)
    | ReuseClock(stmt: Statement, nowSecs: U64, stored: Reuse.Stored)
    | ReuseLiveness(stmt: Statement, nowSecs: U64, stored: Reuse.Stored, atMs: Millis)
    | PreSignLiveness(stmt: Statement)
    | PreSignExpiry(stmt: Statement)
    | SignLookup(stmt: Statement)
    | SignLocked(stmt: Statement)
    | SignWait(stmt: Statement, cell: nat)
    | SignDead(stmt: Statement, cell: nat)
    | PostSignClock(stmt: Statement, signature: Signing.Signature)
    | PostSignChecks(stmt: Statement, signature: Signing.Signature, atMs: Millis)
    | Storing(stmt: Statement, signature: Signing.Signature)
    | Inserting(stmt: Statement, signature: Signing.Signature)  // holds the store gate, read the flag as live
    | Releasing(stmt: Statement, signature: Signing.Signature)  // holds the store gate, inserted or refused
    | Ready(stmt: Statement, built: Built)
    | Rechecked(stmt: Statement, built: Built)
    | Delivered(stmt: Statement, built: Built)

  /** The shared state a slot reads. */
  datatype Shared = Shared(
    quotes: Quotes.State, reuse: map<Reuse.Key, Reuse.Stored>, signer: Signing.State, registry: TokenRegistry)

  /** What a slot is built for: it does not change once the first snapshot is taken. */
  datatype Job = Job(schema: Schema, item: Item, snap: Quotes.Snapshot)

  function ReuseKey(job: Job): Reuse.Key {
    Reuse.Key(job.schema, job.item.pair.symbol, job.item.pair.direction, job.item.input, job.item.output)
  }

  function OrFail(v: Verdict, next: Slot): Slot {
    match v
    case Pass => next
    case Refuse(error) => Failed(error)
  }

  function Response(env: Env, stmt: Statement, signature: Signing.Signature): OracleResponse {
    OracleResponse(env.signer, stmt.context, signature)
  }

  /** The steps of `build_response_from_quote_pair_bound` that only read shared state. */
  function Advance(env: Env, g: Shared, job: Job, slot: Slot, clock: Millis, timedOut: bool): Slot {
    var q := job.snap.quote;
    var liveness := CheckLiveness(job.snap.generation in g.quotes.live);
    match slot
    case Admission => OrFail(liveness, AdmissionAddress)
    case AdmissionAddress => OrFail(CheckAddress(q, job.item.pair, g.registry.quoteToken), AdmissionExpiry)
    case AdmissionExpiry =>
      OrFail(CheckQuoteExpiry(q, clock),
             match BuildStatement(env.codec, env.chainId, job.schema, job.item, q)
             case Ok(stmt) => LookupLiveness(stmt)
             case Err(error) => Failed(error))
    case LookupLiveness(stmt) => OrFail(liveness, LookupClock(stmt))
    case LookupClock(stmt) => Lookup(stmt, FlooredSeconds(clock))
    case Lookup(stmt, nowSecs) =>
      (match Reuse.Fetch(g.reuse, env.margin, ReuseKey(job))
       case Some(stored) => LookupChecks(stmt, nowSecs, stored)
       case None => PreSignLiveness(stmt))
    case LookupChecks(stmt, nowSecs, stored) =>
      if Reuse.Accepts(env.margin, stored, stored.generation in g.quotes.live, stmt, nowSecs, job.snap.generation)
      then ReuseClock(stmt, nowSecs, stored)
      else PreSignLiveness(stmt)
    case ReuseClock(stmt, nowSecs, stored) => ReuseLiveness(stmt, nowSecs, stored, clock)
    case ReuseLiveness(stmt, nowSecs, stored, atMs) =>
      OrFail(liveness,
             if stored.expiry * 1000 > I64_MAX then Failed(Internal("stored quote expiry out of range"))
             else OrFail(CheckDeadline(stored.expiry * 1000, atMs),
                         Ready(stmt, Built(stored.response, stored.expiry, stored.expiry * 1000, Some(nowSecs)))))
    case PreSignLiveness(stmt) => OrFail(liveness, PreSignExpiry(stmt))
    case PreSignExpiry(stmt) => OrFail(CheckQuoteExpiry(q, clock), SignLookup(stmt))
    case SignWait(stmt, cell) =>
      if cell >= |g.signer.cells| then slot
      else
        (match g.signer.cells[cell].status
         case Done(signature) => PostSignClock(stmt, signature)
         case Failed => Failed(Internal("signing failed"))
         case Pending =>
           if g.signer.cells[cell].task.Ended? then SignDead(stmt, cell)
           else if timedOut then Failed(Internal("timed out waiting for a signature"))
           else slot)
    case PostSignClock(stmt, signature) => PostSignChecks(stmt, signature, clock)
    case PostSignChecks(stmt, signature, atMs) =>
      OrFail(liveness, OrFail(CheckQuoteExpiry(q, atMs), Storing(stmt, signature)))
    case _ => slot
  }

  /** After the store: the response answers until its quote's effective deadline. */
  function AfterStore(env: Env, job: Job, slot: Slot): Slot
    requires slot.Storing? || slot.Releasing?
  {
    match EffectiveExpiry(job.snap.quote)
    case Err(error) => Failed(error)
    case Ok(ms) => Ready(slot.stmt, Built(Response(env, slot.stmt, slot.signature), slot.stmt.expiry, ms, None))
  }

  /** The final pass over one slot: the second snapshot, the token set read after it, the one timestamp. */
  datatype Final = Final(view: View, registry: TokenRegistry, atMs: Millis)

  /** Up to the liveness flag of the slot's own quote. */
  function CheckOwnQuote(g: Shared, job: Job, f: Final, slot: Slot): Slot
    requires slot.Ready?
  {
    var mapping := Resolve(f.registry, job.item.pair.token, f.registry.quoteToken);
    if mapping.None? || mapping.value.symbol != job.item.pair.symbol then Failed(Unavailable(NoLiveQuote))
    else
      OrFail(CheckLiveness(job.snap.generation in g.quotes.live),
             OrFail(CheckDeadline(slot.built.validityMs, f.atMs),
                    if job.item.pair.symbol in f.view then Rechecked(slot.stmt, slot.built)
                    else Failed(Unavailable(NoLiveQuote))))
  }

  /** From the liveness flag of the current quote on. */
  function CheckCurrentQuote(g: Shared, job: Job, f: Final, slot: Slot): Slot
    requires slot.Rechecked?
  {
    if job.item.pair.symbol !in f.view then slot
    else
      var current := f.view[job.item.pair.symbol];
      OrFail(CheckLiveness(current.generation in g.quotes.live),
      OrFail(CheckAddress(current.quote, job.item.pair, f.registry.quoteToken),
      OrFail(CheckQuoteExpiry(current.quote, f.atMs),
             match EffectiveExpiry(current.quote)
             case Err(error) => Failed(error)
             case Ok(bound) =>
               if slot.built.validityMs > bound then Failed(Unavailable(ExpiredQuote))
               else Delivered(slot.stmt, slot.built))))
  }

  // ---- invariants ---------------------------------------------------------------------

  /** A signed response: the signer's, slot 8 is its expiry, its session holds, and its signature is of its own hash. */
  ghost predicate ResponseOk(env: Env, produced: set<(Signing.Hash, Signing.Signature)>, r: OracleResponse, expiry: U64) {
    && r.signer == env.signer && |r.context| > 8
    && env.codec.float(expiry) == Some(r.context[8])
    && SessionHolds(env.codec, r.context)
    && (env.codec.hash(r.context), r.signature) in produced
    && expiry * 1000 <= I64_MAX
  }

  predicate IssuedTo(env: Env, quotes: Quotes.State, generation: nat, symbol: Symbol) {
    generation < |quotes.issued| && quotes.issued[generation] == (env.chainId, symbol)
  }

  ghost predicate StoredOk(env: Env, g: Shared, key: Reuse.Key, stored: Reuse.Stored) {
    && IssuedTo(env, g.quotes, stored.generation, key.symbol)
    && ResponseOk(env, g.signer.produced, stored.response, stored.expiry)
  }

  ghost predicate UsableFor(env: Env, job: Job, stmt: Statement, nowSecs: U64, stored: Reuse.Stored) {
    && stored.generation == job.snap.generation
    && Reuse.SameStatement(stored.response.context, stmt.context)
    && nowSecs + env.margin <= stored.expiry <= stmt.expiry
  }

  ghost predicate BuiltOk(env: Env, g: Shared, stmt: Statement, b: Built) {
    && ResponseOk(env, g.signer.produced, b.response, b.expiry)
    && Reuse.SameStatement(b.response.context, stmt.context)
    && b.expiry <= stmt.expiry
    && TruncatedSeconds(b.validityMs) == b.expiry
    && (b.reusedAt.Some? ==> b.reusedAt.value + env.margin <= b.expiry)
    && (b.reusedAt.None? ==> b.response.context == stmt.context && b.expiry == stmt.expiry)
  }

  ghost predicate HasStatement(env: Env, job: Job, stmt: Statement) {
    BuildStatement(env.codec, env.chainId, job.schema, job.item, job.snap.quote) == Ok(stmt)
  }

  /** What a slot knows at each point of its build, whatever the rest of the system does. */
  ghost predicate BuildingOk(env: Env, g: Shared, job: Job, slot: Slot) {
    match slot
    case Failed(_) => true
    case Admission => true
    case AdmissionAddress => true
    case AdmissionExpiry => true
    case LookupChecks(stmt, nowSecs, stored) =>
      HasStatement(env, job, stmt) && StoredOk(env, g, ReuseKey(job), stored)
    case ReuseClock(stmt, nowSecs, stored) =>
      HasStatement(env, job, stmt) && StoredOk(env, g, ReuseKey(job), stored) && UsableFor(env, job, stmt, nowSecs, stored)
    case ReuseLiveness(stmt, nowSecs, stored, _) =>
      HasStatement(env, job, stmt) && StoredOk(env, g, ReuseKey(job), stored) && UsableFor(env, job, stmt, nowSecs, stored)
    case SignWait(stmt, cell) =>
      HasStatement(env, job, stmt) && cell < |g.signer.cells| && g.signer.cells[cell].hash == env.codec.hash(stmt.context)
    case SignDead(stmt, cell) =>
      HasStatement(env, job, stmt) && cell < |g.signer.cells| && g.signer.cells[cell].hash == env.codec.hash(stmt.context)
    case PostSignClock(stmt, signature) =>
      HasStatement(env, job, stmt) && (env.codec.hash(stmt.context), signature) in g.signer.produced
    case PostSignChecks(stmt, signature, _) =>
      HasStatement(env, job, stmt) && (env.codec.hash(stmt.context), signature) in g.signer.produced
    case Storing(stmt, signature) =>
      HasStatement(env, job, stmt) && (env.codec.hash(stmt.context), signature) in g.signer.produced
    case Inserting(stmt, signature) =>
      HasStatement(env, job, stmt) && (env.codec.hash(stmt.context), signature) in g.signer.produced
    case Releasing(stmt, signature) =>
      HasStatement(env, job, stmt) && (env.codec.hash(stmt.context), signature) in g.signer.produced
    case Ready(stmt, built) => HasStatement(env, job, stmt) && BuiltOk(env, g, stmt, built)
    case Rechecked(stmt, built) => HasStatement(env, job, stmt) && BuiltOk(env, g, stmt, built)
    case Delivered(stmt, built) => HasStatement(env, job, stmt) && BuiltOk(env, g, stmt, built)
    case _ => HasStatement(env, job, slot.stmt)
  }

  /** What the shared state never takes back. */
  ghost predicate Evolves(g: Shared, h: Shared) {
    Quotes.Evolves(g.quotes, h.quotes) && Signing.Evolves(g.signer, h.signer)
  }

  lemma BuildingIsStable(env: Env, g: Shared, h: Shared, job: Job, slot: Slot)
    requires BuildingOk(env, g, job, slot) && Evolves(g, h)
    ensures BuildingOk(env, h, job, slot)
  {
  }

  /** A freshly signed statement makes a well-formed response. */
  lemma SignedResponseOk(env: Env, g: Shared, job: Job, stmt: Statement, signature: Signing.Signature)
    requires HasStatement(env, job, stmt)
    requires (env.codec.hash(stmt.context), signature) in g.signer.produced
    ensures ResponseOk(env, g.signer.produced, Response(env, stmt, signature), stmt.expiry)
  {
    BuiltContextHasLayout(env.codec, env.chainId, job.schema, job.item, job.snap.quote);
    BuiltSessionHolds(env.codec, env.chainId, job.schema, job.item, job.snap.quote);
    SignedExpiryFloors(job.snap.quote);
  }

  ghost predicate ReuseOk(env: Env, g: Shared) {
    forall key :: key in g.reuse ==> StoredOk(env, g, key, g.reuse[key])
  }

  lemma AdvanceKeeps(env: Env, g: Shared, job: Job, slot: Slot, clock: Millis, timedOut: bool)
    requires BuildingOk(env, g, job, slot) && ReuseOk(env, g)
    requires forall i: nat :: i < |g.signer.cells| ==> Signing.CellOk(g.signer, i)
    ensures BuildingOk(env, g, job, Advance(env, g, job, slot, clock, timedOut))
  {
    if slot.LookupChecks? {
      LookupChecksKeeps(env, g, job, slot, clock, timedOut);
    } else if slot.ReuseClock? || slot.ReuseLiveness? {
      ReuseReturnKeeps(env, g, job, slot, clock, timedOut);
    } else if slot.SignWait? || slot.PostSignClock? || slot.PostSignChecks? {
      SignKeeps(env, g, job, slot, clock, timedOut);
    } else if slot.Lookup? || slot.PreSignLiveness? || slot.PreSignExpiry? {
      PreSignKeeps(env, g, job, slot, clock, timedOut);
    } else {
      AdmissionKeeps(env, g, job, slot, clock, timedOut);
    }
  }

  lemma AdmissionKeeps(env: Env, g: Shared, job: Job, slot: Slot, clock: Millis, timedOut: bool)
    requires BuildingOk(env, g, job, slot)
    requires slot.Admission? || slot.AdmissionAddress? || slot.AdmissionExpiry? || slot.LookupLiveness?
          || slot.LookupClock? || Advance(env, g, job, slot, clock, timedOut) == slot
    ensures BuildingOk(env, g, job, Advance(env, g, job, slot, clock, timedOut))
  {
  }

  lemma PreSignKeeps(env: Env, g: Shared, job: Job, slot: Slot, clock: Millis, timedOut: bool)
    requires slot.Lookup? || slot.PreSignLiveness? || slot.PreSignExpiry?
    requires BuildingOk(env, g, job, slot) && ReuseOk(env, g)
    ensures BuildingOk(env, g, job, Advance(env, g, job, slot, clock, timedOut))
  {
    hide HasStatement, StoredOk, CheckQuoteExpiry, BuildStatement, Reuse.Accepts;
  }

  lemma ReuseReturnKeeps(env: Env, g: Shared, job: Job, slot: Slot, clock: Millis, timedOut: bool)
    requires slot.ReuseClock? || slot.ReuseLiveness?
    requires BuildingOk(env, g, job, slot)
    ensures BuildingOk(env, g, job, Advance(env, g, job, slot, clock, timedOut))
  {
    assert TruncatedSeconds(slot.stored.expiry * 1000) == slot.stored.expiry;
  }

  lemma SignKeeps(env: Env, g: Shared, job: Job, slot: Slot, clock: Millis, timedOut: bool)
    requires slot.SignWait? || slot.PostSignClock? || slot.PostSignChecks?
    requires BuildingOk(env, g, job, slot)
    requires forall i: nat :: i < |g.signer.cells| ==> Signing.CellOk(g.signer, i)
    ensures BuildingOk(env, g, job, Advance(env, g, job, slot, clock, timedOut))
  {
    if slot.SignWait? {
      assert Signing.CellOk(g.signer, slot.cell);
    }
  }

  lemma LookupChecksKeeps(env: Env, g: Shared, job: Job, slot: Slot, clock: Millis, timedOut: bool)
    requires slot.LookupChecks? && BuildingOk(env, g, job, slot)
    ensures BuildingOk(env, g, job, Advance(env, g, job, slot, clock, timedOut))
  {
    var live := slot.stored.generation in g.quotes.live;
    if Reuse.Accepts(env.margin, slot.stored, live, slot.stmt, slot.nowSecs, job.snap.generation) {
      Reuse.AcceptedEntryIsUsable(env.margin, slot.stored, live, slot.stmt, slot.nowSecs, job.snap.generation);
    }
  }

  lemma StoreKeeps(env: Env, g: Shared, job: Job, slot: Slot)
    requires (slot.Storing? || slot.Releasing?) && BuildingOk(env, g, job, slot)
    ensures BuildingOk(env, g, job, AfterStore(env, job, slot))
  {
    SignedResponseOk(env, g, job, slot.stmt, slot.signature);
    BuiltContextHasLayout(env.codec, env.chainId, job.schema, job.item, job.snap.quote);
  }

  ghost predicate FinalChecksHold(job: Job, f: Final, current: Quotes.Snapshot, b: Built) {
    // the signed second is ahead of the final time, and within both deadlines of the current quote
    && b.expiry > FlooredSeconds(f.atMs)
    && b.expiry * 1000 <= current.quote.expiryMs
    && current.quote.deadlineMs.Some? && b.expiry * 1000 <= current.quote.deadlineMs.value
    // the current quote prices the item's token in the running settlement token, and the mapping stands
    && current.quote.base == job.item.pair.token
    && current.quote.settlement == f.registry.quoteToken
    && job.item.pair.token in f.registry.tokens
    && f.registry.tokens[job.item.pair.token] == job.item.pair.symbol
    // both snapshots are of one generation
    && current.generation == job.snap.generation
  }

  /**
    What delivery means, for one item: everything a taker relies on, in terms
    of this request's two snapshots, the token set and the time of its final pass.
   */
  ghost predicate DeliveredSafely(env: Env, produced: set<(Signing.Hash, Signing.Signature)>, job: Job, f: Final,
                                  stmt: Statement, b: Built) {
    && job.item.pair.symbol in f.view
    && FinalChecksHold(job, f, f.view[job.item.pair.symbol], b)
    // the response says what this request's own statement says
    && HasStatement(env, job, stmt)
    && Reuse.SameStatement(b.response.context, stmt.context)
    && b.expiry <= stmt.expiry
    && (b.reusedAt.Some? ==> b.reusedAt.value + env.margin <= b.expiry)
    && (b.reusedAt.None? ==> b.response.context == stmt.context)
    && ResponseOk(env, produced, b.response, b.expiry)
  }

  /** Half of it, known between the two liveness reads of the final pass. */
  ghost predicate RecheckedOk(job: Job, f: Final, b: Built) {
    && job.item.pair.symbol in f.view
    && f.view[job.item.pair.symbol].generation == job.snap.generation
    && job.item.pair.token in f.registry.tokens
    && f.registry.tokens[job.item.pair.token] == job.item.pair.symbol
    && IsLiveAt(b.validityMs, f.atMs)
  }

  /** A live own generation is the current snapshot's. */
  ghost predicate Linked(g: Shared, job: Job, view: View) {
    job.snap.generation in g.quotes.live && job.item.pair.symbol in view ==>
      view[job.item.pair.symbol].generation == job.snap.generation
  }

  lemma OwnQuoteKeeps(env: Env, g: Shared, job: Job, f: Final, slot: Slot)
    requires slot.Ready? && BuildingOk(env, g, job, slot) && Linked(g, job, f.view)
    ensures var t := CheckOwnQuote(g, job, f, slot);
            BuildingOk(env, g, job, t) && !t.Delivered? && (t.Rechecked? ==> RecheckedOk(job, f, t.built))
  {
    ResolveAgainstSettlement(f.registry, job.item.pair.token);
  }

  lemma CurrentQuoteKeeps(env: Env, g: Shared, job: Job, f: Final, slot: Slot)
    requires slot.Rechecked? && BuildingOk(env, g, job, slot) && RecheckedOk(job, f, slot.built)
    ensures var t := CheckCurrentQuote(g, job, f, slot);
            && BuildingOk(env, g, job, t)
            && !t.Rechecked?
            && (t.Delivered? ==> DeliveredSafely(env, g.signer.produced, job, f, t.stmt, t.built))
  {
    LiveSecondsAreAhead(slot.built.validityMs, f.atMs);
  }
}
