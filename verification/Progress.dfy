/**
  The checks refuse nothing they need not refuse: a quote that satisfies them
  is served. Each check passes whenever it holds, the final pass delivers
  exactly when all of it holds, and from every boot a run serves a good quote.
 */
module Progress {
  import opened Wire
  import opened Deadlines
  import opened Contexts
  import opened Registry
  import opened Slots
  import opened System
  import opened Frames
  import opened Theorems
  import opened Gates
  import opened Guards
  import Quotes
  import Reuse
  import Signing
  import Reload
  import Text
  import TokenFile

  /** A check that holds is passed, unless the statement itself cannot be built or encoded. */
  lemma HeldCheckPasses(env: Env, g: Shared, job: Job, slot: Slot, clock: Millis, timedOut: bool)
    requires Station(slot).Some? && Guards.Holds(g, job, slot, clock, Station(slot).value)
    requires slot.AdmissionExpiry? ==> BuildStatement(env.codec, env.chainId, job.schema, job.item, job.snap.quote).Ok?
    requires slot.ReuseLiveness? ==> slot.stored.expiry * 1000 <= I64_MAX
    ensures Passed(Advance(env, g, job, slot, clock, timedOut)) == Passed(slot) + {Station(slot).value}
  {
    QuoteCheckMeans(job.snap.quote, clock);
    if slot.PostSignChecks? {
      QuoteCheckMeans(job.snap.quote, slot.atMs);
    }
    hide BuildStatement, CheckQuoteExpiry, QuoteLiveAt, Reuse.Accepts, Reuse.Fetch, ReuseKey;
  }

  /** What the final pass asks of a built slot; `g` and `h` are the caches at its two liveness reads. */
  predicate MayDeliver(g: Shared, h: Shared, job: Job, f: Final, b: Built) {
    var pair := job.item.pair;
    && pair.token in f.registry.tokens && f.registry.tokens[pair.token] == pair.symbol
    && job.snap.generation in g.quotes.live
    && FlooredSeconds(b.validityMs) > FlooredSeconds(f.atMs)
    && pair.symbol in f.view
    && var current := f.view[pair.symbol];
       && current.generation in h.quotes.live
       && current.quote.base == pair.token && current.quote.settlement == f.registry.quoteToken
       && QuoteLiveAt(current.quote, f.atMs)
       && b.validityMs <= current.quote.expiryMs && b.validityMs <= current.quote.deadlineMs.value
  }

  /** The final pass delivers exactly what it should, and hands out what was built. */
  lemma FinalPassExactly(g: Shared, h: Shared, job: Job, f: Final, slot: Slot)
    requires slot.Ready?
    ensures var own := CheckOwnQuote(g, job, f, slot);
            if MayDeliver(g, h, job, f, slot.built)
            then own.Rechecked? && CheckCurrentQuote(h, job, f, own) == Delivered(slot.stmt, slot.built)
            else own.Failed? || (own.Rechecked? && CheckCurrentQuote(h, job, f, own).Failed?)
  {
    ResolveAgainstSettlement(f.registry, job.item.pair.token);
    if job.item.pair.symbol in f.view {
      QuoteCheckMeans(f.view[job.item.pair.symbol].quote, f.atMs);
    }
    hide CheckQuoteExpiry;
  }

  /**
    When it does not, the reason given is the first that fails, in this order:
    the mapping or the slot's own quote, the response's deadline, a quote to be
    current with, that quote's flag and addresses, and its deadlines.
   */
  lemma FinalRefusalIsNamed(g: Shared, h: Shared, job: Job, f: Final, slot: Slot)
    requires slot.Ready? && !MayDeliver(g, h, job, f, slot.built)
    ensures var own := CheckOwnQuote(g, job, f, slot);
            var pair, view := job.item.pair, f.view;
            (if own.Rechecked? then CheckCurrentQuote(h, job, f, own) else own)
            == Failed(Unavailable(
                 if !(pair.token in f.registry.tokens && f.registry.tokens[pair.token] == pair.symbol)
                    || job.snap.generation !in g.quotes.live then NoLiveQuote
                 else if FlooredSeconds(slot.built.validityMs) <= FlooredSeconds(f.atMs) then ExpiredQuote
                 else if pair.symbol !in view || view[pair.symbol].generation !in h.quotes.live
                         || view[pair.symbol].quote.base != pair.token
                         || view[pair.symbol].quote.settlement != f.registry.quoteToken then NoLiveQuote
                 else ExpiredQuote))
  {
    ResolveAgainstSettlement(f.registry, job.item.pair.token);
    if job.item.pair.symbol in f.view {
      QuoteCheckMeans(f.view[job.item.pair.symbol].quote, f.atMs);
    }
    hide CheckQuoteExpiry;
  }

  // ---- a run that serves -----------------------------------------------------------------

  lemma {:induction false} RunsConcatenate(d: Deployment, s: State, a: seq<Action>, b: seq<Action>, n: nat)
    requires n <= |b|
    ensures After(d, s, a + b, |a| + n) == After(d, After(d, s, a, |a|), b, n)
  {
    hide Step;
    if n == 0 {
      PrefixDecides(d, s, a, b, |a|);
    } else {
      RunsConcatenate(d, s, a, b, n - 1);
    }
  }

  lemma {:induction false} PrefixDecides(d: Deployment, s: State, a: seq<Action>, b: seq<Action>, n: nat)
    requires n <= |a|
    ensures After(d, s, a + b, n) == After(d, s, a, n)
  {
    hide Step;
    if n > 0 {
      PrefixDecides(d, s, a, b, n - 1);
    }
  }

  function Run(d: Deployment, s: State, actions: seq<Action>): State {
    After(d, s, actions, |actions|)
  }

  /** One more action. */
  lemma RunOne(d: Deployment, s: State, actions: seq<Action>, a: Action)
    ensures Run(d, s, actions + [a]) == Step(d, Run(d, s, actions), a)
  {
    hide Step;
    RunsConcatenate(d, s, actions, [a], 1);
  }

  /** What a good request is for: request `r` with one order, its quote, the statement and the time of its clock readings. */
  datatype Order = Order(r: nat, job: Job, stmt: Statement, clock: Millis)

  /** The token set maps the order's token, and the quote prices it, now and at the order's time. */
  predicate Priced(d: Deployment, registry: TokenRegistry, o: Order) {
    var pair, q := o.job.item.pair, o.job.snap.quote;
    && pair.token in registry.tokens && registry.tokens[pair.token] == pair.symbol
    && q.base == pair.token && q.settlement == registry.quoteToken
    && QuoteLiveAt(q, o.clock)
    && BuildStatement(d.env.codec, d.env.chainId, o.job.schema, o.job.item, q) == Ok(o.stmt)
  }

  /** The order's snapshot is what the cache holds. */
  predicate Cached(d: Deployment, quotes: Quotes.State, o: Order) {
    var key := (d.env.chainId, o.job.item.pair.symbol);
    && key in quotes.entries
    && quotes.entries[key] == Quotes.CachedQuote(o.job.snap.quote, o.job.snap.generation)
    && o.job.snap.generation in quotes.live
  }

  function GatesFor(o: Order, slot: Slot): map<nat, (nat, nat)> {
    if HoldsGate(slot) then map[o.job.snap.generation := (o.r, 0)] else map[]
  }

  /** A calm server: the order's request is under way, its one slot at `slot`, and no other slot holds a gate. */
  predicate Calm(d: Deployment, s: State, o: Order, slot: Slot) {
    && s.writer.Idle? && Priced(d, s.reload.tokens.registry, o) && Cached(d, s.quotes, o)
    && s.gates == GatesFor(o, slot)
    && o.r < |s.requests|
    && var req := s.requests[o.r];
       && req.schema == o.job.schema && req.items == [Ok(o.job.item)] && req.slots == [slot]
       && req.stage.Building?
       && o.job.item.pair.symbol in req.stage.first && req.stage.first[o.job.item.pair.symbol] == o.job.snap
  }

  /** All that happened is request `r`'s: the cache, the reloader and the other requests are as they were. */
  predicate Beside(s: State, t: State, r: nat) {
    && t.quotes == s.quotes && t.reload == s.reload && t.writer == s.writer
    && r < |s.requests| == |t.requests|
    && forall q :: 0 <= q < |s.requests| && q != r ==> t.requests[q] == s.requests[q]
  }

  /** And neither signer nor reuse cache changed. */
  predicate OnlyBeside(s: State, t: State, r: nat) {
    Beside(s, t, r) && t.signer == s.signer && t.reuse == s.reuse
  }

  /** The one slot moves, with the gates it then holds, and nothing else does. */
  lemma StaysCalm(d: Deployment, s: State, t: State, o: Order, slot: Slot, next: Slot)
    requires Calm(d, s, o, slot)
    requires t.requests == WithSlot(s, o.r, 0, next).requests
    requires t.quotes == s.quotes && t.reload == s.reload && t.writer == s.writer
    requires t.gates == GatesFor(o, next)
    ensures Calm(d, t, o, next) && Beside(s, t, o.r)
  {
    hide Priced, Cached;
  }

  lemma CalmIsBuilding(d: Deployment, s: State, o: Order, slot: Slot)
    requires Calm(d, s, o, slot)
    ensures BuildingSlot(s, o.r, 0) && JobOf(s.requests[o.r], 0) == o.job && s.requests[o.r].slots[0] == slot
    ensures o.job.snap.generation in s.quotes.live
    ensures s.gates == GatesFor(o, slot)
  {
  }

  lemma SlotAdvances(d: Deployment, s: State, o: Order, slot: Slot)
    requires Calm(d, s, o, slot) && !HoldsGate(slot)
    ensures var t := Step(d, s, AdvanceSlot(o.r, 0, o.clock, false));
            && Calm(d, t, o, Advance(d.env, SharedOf(s), o.job, slot, o.clock, false)) && OnlyBeside(s, t, o.r)
            && !HoldsGate(Advance(d.env, SharedOf(s), o.job, slot, o.clock, false))
  {
    var a := AdvanceSlot(o.r, 0, o.clock, false);
    var next := Advance(d.env, SharedOf(s), o.job, slot, o.clock, false);
    hide Step, SlotStep, Calm, Advance, Beside;
    CalmIsBuilding(d, s, o, slot);
    AdvanceHoldsNoGate(d.env, SharedOf(s), o.job, slot, a);
    StepCases(d, s, a);
    AdvanceCase(d, s, a);
    StaysCalm(d, s, Step(d, s, a), o, slot, next);
  }

  /** Several steps of the slot at once, all against the same caches. */
  function AdvanceTimes(d: Deployment, g: Shared, o: Order, slot: Slot, n: nat): Slot {
    if n == 0 then slot else Advance(d.env, g, o.job, AdvanceTimes(d, g, o, slot, n - 1), o.clock, false)
  }

  lemma {:induction false} RunAdvances(d: Deployment, first: State, actions: seq<Action>, o: Order, slot: Slot, n: nat)
      returns (more: seq<Action>)
    requires Calm(d, Run(d, first, actions), o, slot) && !HoldsGate(slot)
    ensures !HoldsGate(AdvanceTimes(d, SharedOf(Run(d, first, actions)), o, slot, n))
    ensures var s, t := Run(d, first, actions), Run(d, first, more);
            Calm(d, t, o, AdvanceTimes(d, SharedOf(s), o, slot, n)) && OnlyBeside(s, t, o.r)
  {
    hide Advance, Calm, Run, Step, HoldsGate;
    if n == 0 {
      more := actions;
      InRequests(d, Run(d, first, actions), o, slot);
    } else {
      var before := RunAdvances(d, first, actions, o, slot, n - 1);
      var s, u := Run(d, first, actions), Run(d, first, before);
      assert SharedOf(u) == SharedOf(s);
      RunOne(d, first, before, AdvanceSlot(o.r, 0, o.clock, false));
      SlotAdvances(d, u, o, AdvanceTimes(d, SharedOf(s), o, slot, n - 1));
      more := before + [AdvanceSlot(o.r, 0, o.clock, false)];
    }
  }

  lemma InRequests(d: Deployment, s: State, o: Order, slot: Slot)
    requires Calm(d, s, o, slot)
    ensures o.r < |s.requests|
  {
  }

  /** From admission to the signer takes eight steps, when there is nothing to reuse. */
  lemma ClearsToSign(d: Deployment, s: State, o: Order)
    requires Calm(d, s, o, Admission) && s.reuse == map[]
    ensures AdvanceTimes(d, SharedOf(s), o, Admission, 8) == SignLookup(o.stmt)
  {
    var g := SharedOf(s);
    QuoteCheckMeans(o.job.snap.quote, o.clock);
    hide CheckQuoteExpiry, BuildStatement, QuoteLiveAt;
    assert AdvanceTimes(d, g, o, Admission, 1) == AdmissionAddress;
    assert AdvanceTimes(d, g, o, Admission, 2) == AdmissionExpiry;
    assert AdvanceTimes(d, g, o, Admission, 3) == LookupLiveness(o.stmt);
    assert AdvanceTimes(d, g, o, Admission, 4) == LookupClock(o.stmt);
    assert AdvanceTimes(d, g, o, Admission, 5) == Lookup(o.stmt, FlooredSeconds(o.clock));
    assert AdvanceTimes(d, g, o, Admission, 6) == PreSignLiveness(o.stmt);
    assert AdvanceTimes(d, g, o, Admission, 7) == PreSignExpiry(o.stmt);
  }

  // ---- signing ---------------------------------------------------------------------------

  function HashOf(d: Deployment, o: Order): Signing.Hash {
    d.env.codec.hash(o.stmt.context)
  }

  function Signed(d: Deployment, o: Order, sig: Signing.Signature): seq<Signing.Cell> {
    [Signing.Cell(HashOf(d, o), 0, Signing.Done(sig), Signing.Ended)]
  }

  /** The signer after its first lookup. */
  function Asked(limits: Signing.Limits, r: nat, h: Signing.Hash): Signing.State {
    Signing.Apply(limits, Signing.Apply(limits, Signing.EMPTY, Signing.Acquire((r, 0), h, 0)), Signing.Complete({}, {}))
  }

  lemma FirstLookup(limits: Signing.Limits, r: nat, h: Signing.Hash)
    ensures var a, b := Signing.Apply(limits, Signing.EMPTY, Signing.Acquire((r, 0), h, 0)), Asked(limits, r, h);
            && a.lock == Some(Signing.Held((r, 0), h, 0, {}))
            && Signing.CanComplete(a, {}, {}) && Signing.CompletedCell(limits, a, {}) == 0
            && b.cells == [Signing.Cell(h, 0, Signing.Pending, Signing.Calling)] && b.lock == None
            && h in b.slots && b.slots[h].cell == 0
  {
    assert Signing.InFlight([]) == {};
    hide Signing.MakeRoom, Signing.MustSweep;
  }

  lemma LocksSigner(d: Deployment, s: State, o: Order)
    requires Calm(d, s, o, SignLookup(o.stmt)) && s.signer.lock.None?
    ensures var t := Step(d, s, SignLock(o.r, 0, 0));
            && Calm(d, t, o, SignLocked(o.stmt)) && Beside(s, t, o.r) && t.reuse == s.reuse
            && t.signer == Signing.Apply(d.limits, s.signer, Signing.Acquire((o.r, 0), HashOf(d, o), 0))
  {
    var a := SignLock(o.r, 0, 0);
    hide Step, SlotStep, Calm, Beside, Signing.Apply;
    CalmIsBuilding(d, s, o, SignLookup(o.stmt));
    StepCases(d, s, a);
    SignCases(d, s, o.r, 0, 0, {}, {});
    StaysCalm(d, s, Step(d, s, a), o, SignLookup(o.stmt), SignLocked(o.stmt));
  }

  lemma EntersCell(d: Deployment, s: State, o: Order)
    requires Calm(d, s, o, SignLocked(o.stmt)) && Signing.CanComplete(s.signer, {}, {})
    requires s.signer.lock == Some(Signing.Held((o.r, 0), HashOf(d, o), 0, {}))
    ensures var t := Step(d, s, SignDone(o.r, 0, {}, {}));
            && Calm(d, t, o, SignWait(o.stmt, Signing.CompletedCell(d.limits, s.signer, {}))) && Beside(s, t, o.r)
            && t.reuse == s.reuse && t.signer == Signing.Apply(d.limits, s.signer, Signing.Complete({}, {}))
  {
    var a := SignDone(o.r, 0, {}, {});
    hide Step, SlotStep, Calm, Beside, Signing.Apply, Signing.CompletedCell;
    CalmIsBuilding(d, s, o, SignLocked(o.stmt));
    StepCases(d, s, a);
    SignCases(d, s, o.r, 0, 0, {}, {});
    StaysCalm(d, s, Step(d, s, a), o, SignLocked(o.stmt), SignWait(o.stmt, Signing.CompletedCell(d.limits, s.signer, {})));
  }

  lemma TaskMoves(d: Deployment, s: State, o: Order, slot: Slot, a: Action)
    requires Calm(d, s, o, slot) && (a.CallReturns? || a.EvictRefused? || a.Broadcast? || a.TaskDies?)
    ensures var t := Step(d, s, a);
            && Calm(d, t, o, slot) && Beside(s, t, o.r) && t.reuse == s.reuse
            && t.signer == Signing.Apply(d.limits, s.signer, TaskEvent(a))
  {
    hide Step, Signing.Apply, Priced, Cached;
    TaskSteps(d, s, a);
  }

  /** The order's slot asks a signer that was never asked, and waits on its first cell. */
  lemma RunAsks(d: Deployment, first: State, actions: seq<Action>, o: Order) returns (more: seq<Action>)
    requires Calm(d, Run(d, first, actions), o, SignLookup(o.stmt)) && Run(d, first, actions).signer == Signing.EMPTY
    ensures var s, t := Run(d, first, actions), Run(d, first, more);
            && Calm(d, t, o, SignWait(o.stmt, 0)) && Beside(s, t, o.r) && t.reuse == s.reuse
            && t.signer == Asked(d.limits, o.r, HashOf(d, o))
  {
    hide Calm, Run, Step, Signing.Apply;
    FirstLookup(d.limits, o.r, HashOf(d, o));
    hide Signing.CanComplete, Signing.CompletedCell;
    var a := actions + [SignLock(o.r, 0, 0)];
    RunOne(d, first, actions, SignLock(o.r, 0, 0));
    LocksSigner(d, Run(d, first, actions), o);
    more := a + [SignDone(o.r, 0, {}, {})];
    RunOne(d, first, a, SignDone(o.r, 0, {}, {}));
    EntersCell(d, Run(d, first, a), o);
  }

  lemma FirstSignature(limits: Signing.Limits, r: nat, h: Signing.Hash, sig: Signing.Signature)
    ensures var c := Signing.Apply(limits, Asked(limits, r, h), Signing.CallReturns(0, Some(sig)));
            var e := Signing.Apply(limits, c, Signing.Broadcast(0));
            e.cells == [Signing.Cell(h, 0, Signing.Done(sig), Signing.Ended)] && e.lock == None
  {
    FirstLookup(limits, r, h);
    hide Asked;
  }

  lemma RunSigns(d: Deployment, first: State, actions: seq<Action>, o: Order, sig: Signing.Signature)
      returns (more: seq<Action>)
    requires Calm(d, Run(d, first, actions), o, SignLookup(o.stmt)) && Run(d, first, actions).signer == Signing.EMPTY
    ensures var s, t := Run(d, first, actions), Run(d, first, more);
            && Calm(d, t, o, SignWait(o.stmt, 0)) && Beside(s, t, o.r) && t.reuse == s.reuse
            && t.signer.cells == Signed(d, o, sig) && t.signer.lock.None?
  {
    hide Calm, Run, Step, Signing.Apply, Asked;
    var b := RunAsks(d, first, actions, o);
    FirstSignature(d.limits, o.r, HashOf(d, o), sig);
    var c := b + [CallReturns(0, Some(sig))];
    RunOne(d, first, b, CallReturns(0, Some(sig)));
    TaskMoves(d, Run(d, first, b), o, SignWait(o.stmt, 0), CallReturns(0, Some(sig)));
    more := c + [Broadcast(0)];
    RunOne(d, first, c, Broadcast(0));
    TaskMoves(d, Run(d, first, c), o, SignWait(o.stmt, 0), Broadcast(0));
  }

  /** From the broadcast to the store takes three steps. */
  lemma PassesToStore(d: Deployment, s: State, o: Order, sig: Signing.Signature)
    requires Calm(d, s, o, SignWait(o.stmt, 0)) && s.signer.cells == Signed(d, o, sig)
    ensures AdvanceTimes(d, SharedOf(s), o, SignWait(o.stmt, 0), 3) == Storing(o.stmt, sig)
  {
    var g := SharedOf(s);
    QuoteCheckMeans(o.job.snap.quote, o.clock);
    hide CheckQuoteExpiry, BuildStatement, QuoteLiveAt;
    assert AdvanceTimes(d, g, o, SignWait(o.stmt, 0), 1) == PostSignClock(o.stmt, sig);
    assert AdvanceTimes(d, g, o, SignWait(o.stmt, 0), 2) == PostSignChecks(o.stmt, sig, o.clock);
  }

  // ---- storing -----------------------------------------------------------------------------

  function Fresh(d: Deployment, o: Order, sig: Signing.Signature): Built
    requires EffectiveExpiry(o.job.snap.quote).Ok?
  {
    Built(OracleResponse(d.env.signer, o.stmt.context, sig), o.stmt.expiry, EffectiveExpiry(o.job.snap.quote).value, None)
  }

  /** What the reuse cache holds once the order's signature is stored. */
  function Saved(d: Deployment, reuse: map<Reuse.Key, Reuse.Stored>, o: Order, sig: Signing.Signature)
      : map<Reuse.Key, Reuse.Stored> {
    if d.env.margin == 0 then reuse
    else
      reuse[Reuse.Key(o.job.schema, o.job.item.pair.symbol, o.job.item.pair.direction, o.job.item.input, o.job.item.output)
            := Reuse.Stored(o.stmt.expiry, OracleResponse(d.env.signer, o.stmt.context, sig), o.job.snap.generation)]
  }

  lemma TakesGate(d: Deployment, s: State, o: Order, sig: Signing.Signature)
    requires Calm(d, s, o, Storing(o.stmt, sig))
    ensures EffectiveExpiry(o.job.snap.quote).Ok?
    ensures var t := Step(d, s, StoreGate(o.r, 0));
            && Calm(d, t, o, if d.env.margin == 0 then Ready(o.stmt, Fresh(d, o, sig)) else Inserting(o.stmt, sig))
            && OnlyBeside(s, t, o.r)
  {
    StoresFresh(d, o, Storing(o.stmt, sig));
    var a := StoreGate(o.r, 0);
    hide Step, SlotStep, Calm, Beside, AfterStore, Fresh, EffectiveExpiry;
    CalmIsBuilding(d, s, o, Storing(o.stmt, sig));
    CalmIsPriced(d, s, o, Storing(o.stmt, sig));
    StepCases(d, s, a);
    StoreCases(d, s, o.r, 0);
    StaysCalm(d, s, Step(d, s, a), o, Storing(o.stmt, sig),
              if d.env.margin == 0 then Ready(o.stmt, Fresh(d, o, sig)) else Inserting(o.stmt, sig));
  }

  lemma CalmIsPriced(d: Deployment, s: State, o: Order, slot: Slot)
    requires Calm(d, s, o, slot)
    ensures EffectiveExpiry(o.job.snap.quote).Ok?
  {
    assert QuoteLiveAt(o.job.snap.quote, o.clock);
    hide BuildStatement, Cached;
  }

  lemma StoresFresh(d: Deployment, o: Order, slot: Slot)
    requires (slot.Storing? || slot.Releasing?) && slot.stmt == o.stmt
    ensures EffectiveExpiry(o.job.snap.quote).Ok? ==>
              AfterStore(d.env, o.job, slot) == Ready(o.stmt, Fresh(d, o, slot.signature))
  {
  }

  lemma InsertsEntry(d: Deployment, s: State, o: Order, sig: Signing.Signature)
    requires Calm(d, s, o, Inserting(o.stmt, sig)) && d.env.margin > 0
    ensures var t := Step(d, s, StoreInsert(o.r, 0));
            && Calm(d, t, o, Releasing(o.stmt, sig)) && Beside(s, t, o.r)
            && t.signer == s.signer && t.reuse == Saved(d, s.reuse, o, sig)
  {
    var a := StoreInsert(o.r, 0);
    hide Step, SlotStep, Calm, Beside;
    CalmIsBuilding(d, s, o, Inserting(o.stmt, sig));
    StepCases(d, s, a);
    StoreCases(d, s, o.r, 0);
    StaysCalm(d, s, Step(d, s, a), o, Inserting(o.stmt, sig), Releasing(o.stmt, sig));
  }

  lemma ReleasesGate(d: Deployment, s: State, o: Order, sig: Signing.Signature)
    requires Calm(d, s, o, Releasing(o.stmt, sig)) && EffectiveExpiry(o.job.snap.quote).Ok?
    ensures var t := Step(d, s, StoreRelease(o.r, 0));
            Calm(d, t, o, Ready(o.stmt, Fresh(d, o, sig))) && OnlyBeside(s, t, o.r)
  {
    var a := StoreRelease(o.r, 0);
    StoresFresh(d, o, Releasing(o.stmt, sig));
    hide Step, SlotStep, Calm, Beside, AfterStore, Fresh, EffectiveExpiry;
    CalmIsBuilding(d, s, o, Releasing(o.stmt, sig));
    StepCases(d, s, a);
    StoreCases(d, s, o.r, 0);
    assert SlotStep(d, s, a).gates == map[];
    StaysCalm(d, s, Step(d, s, a), o, Releasing(o.stmt, sig), Ready(o.stmt, Fresh(d, o, sig)));
  }

  lemma RunStores(d: Deployment, first: State, actions: seq<Action>, o: Order, sig: Signing.Signature)
      returns (more: seq<Action>)
    requires Calm(d, Run(d, first, actions), o, Storing(o.stmt, sig))
    ensures EffectiveExpiry(o.job.snap.quote).Ok?
    ensures var s, t := Run(d, first, actions), Run(d, first, more);
            && Calm(d, t, o, Ready(o.stmt, Fresh(d, o, sig))) && Beside(s, t, o.r)
            && t.signer == s.signer && t.reuse == Saved(d, s.reuse, o, sig)
  {
    hide Run, Step, Calm;
    TakesGate(d, Run(d, first, actions), o, sig);
    RunOne(d, first, actions, StoreGate(o.r, 0));
    var a := actions + [StoreGate(o.r, 0)];
    if d.env.margin == 0 {
      more := a;
    } else {
      InsertsEntry(d, Run(d, first, a), o, sig);
      RunOne(d, first, a, StoreInsert(o.r, 0));
      var b := a + [StoreInsert(o.r, 0)];
      ReleasesGate(d, Run(d, first, b), o, sig);
      RunOne(d, first, b, StoreRelease(o.r, 0));
      more := b + [StoreRelease(o.r, 0)];
    }
  }

  // ---- the final pass ------------------------------------------------------------------------

  /** A request in its final pass, its second snapshot equal to the first. */
  predicate Finishes(d: Deployment, s: State, o: Order, slot: Slot) {
    && Priced(d, s.reload.tokens.registry, o) && Cached(d, s.quotes, o) && s.gates == map[]
    && o.r < |s.requests|
    && var req := s.requests[o.r];
       && req.schema == o.job.schema && req.items == [Ok(o.job.item)] && req.slots == [slot]
       && req.stage.Finishing? && req.stage.atMs == o.clock && req.stage.registry == s.reload.tokens.registry
       && o.job.item.pair.symbol in req.stage.first && req.stage.first[o.job.item.pair.symbol] == o.job.snap
       && o.job.item.pair.symbol in req.stage.second && req.stage.second[o.job.item.pair.symbol] == o.job.snap
  }

  lemma NeedsItsSymbol(d: Deployment, s: State, o: Order, slot: Slot)
    requires Calm(d, s, o, slot) && slot.Ready?
    ensures BuiltSymbols(s.requests[o.r]) == {o.job.item.pair.symbol} && AllBuilt(s.requests[o.r])
    ensures var second := Quotes.SnapshotMany(s.quotes, d.env.chainId, BuiltSymbols(s.requests[o.r]));
            o.job.item.pair.symbol in second && second[o.job.item.pair.symbol] == o.job.snap
  {
    hide Priced;
    var req := s.requests[o.r];
    assert req.slots[0].Ready? && req.items[0].Ok?;
  }

  /** The second snapshot is the first again. */
  lemma TakesSecond(d: Deployment, s: State, o: Order, slot: Slot)
    requires Calm(d, s, o, slot) && slot.Ready?
    ensures var t := Step(d, s, TakeSecond(o.r));
            && t == s.(requests := t.requests, tick := s.tick + 1) && OnlyBeside(s, t, o.r)
            && var req := t.requests[o.r];
               && req == s.requests[o.r].(stage := req.stage) && req.stage.Gathered?
               && req.stage.first == s.requests[o.r].stage.first
               && o.job.item.pair.symbol in req.stage.second && req.stage.second[o.job.item.pair.symbol] == o.job.snap
  {
    hide Step, Priced, Cached, BuiltSymbols, AllBuilt, Quotes.SnapshotMany;
    StepCases(d, s, TakeSecond(o.r));
    NeedsItsSymbol(d, s, o, slot);
  }

  lemma TakesReadings(d: Deployment, s: State, o: Order, slot: Slot)
    requires Calm(d, s, o, slot) && slot.Ready?
    ensures var t := Step(d, s, TakeSecond(o.r));
            var u := Step(d, t, ReadTokens(o.r));
            var v := Step(d, u, ReadClock(o.r, o.clock));
            Finishes(d, v, o, slot) && OnlyBeside(s, v, o.r)
  {
    hide Step, Priced, Cached;
    TakesSecond(d, s, o, slot);
    var t := Step(d, s, TakeSecond(o.r));
    StepCases(d, t, ReadTokens(o.r));
    StepCases(d, Step(d, t, ReadTokens(o.r)), ReadClock(o.r, o.clock));
  }

  lemma Rechecks(d: Deployment, s: State, o: Order, slot: Slot, next: Slot)
    requires Finishes(d, s, o, slot)
    requires slot.Ready? ==> next == CheckOwnQuote(SharedOf(s), o.job, FinalOf(s.requests[o.r]), slot)
    requires slot.Rechecked? ==> next == CheckCurrentQuote(SharedOf(s), o.job, FinalOf(s.requests[o.r]), slot)
    requires slot.Ready? || slot.Rechecked?
    ensures var t := Step(d, s, Recheck(o.r, 0));
            && Finishes(d, t, o, next) && SharedOf(t) == SharedOf(s) && FinalOf(t.requests[o.r]) == FinalOf(s.requests[o.r])
            && OnlyBeside(s, t, o.r)
  {
    hide Step, RecheckStep, CheckOwnQuote, CheckCurrentQuote, Priced, Cached;
    StepCases(d, s, Recheck(o.r, 0));
    RecheckIsCheck(s, o.r, 0);
    assert JobOf(s.requests[o.r], 0) == o.job;
  }

  lemma RecheckIsCheck(s: State, r: nat, i: nat)
    requires r < |s.requests| && s.requests[r].stage.Finishing? && HasJob(s.requests[r], i)
    ensures var req := s.requests[r];
            var job, slot := JobOf(req, i), req.slots[i];
            RecheckStep(s, r, i) ==
              if slot.Ready? then WithSlot(s, r, i, CheckOwnQuote(SharedOf(s), job, FinalOf(req), slot))
              else if slot.Rechecked? then WithSlot(s, r, i, CheckCurrentQuote(SharedOf(s), job, FinalOf(req), slot))
              else s
  {
    hide CheckOwnQuote, CheckCurrentQuote;
  }

  /** The response lasts past the order's time, and no longer than its quote. */
  predicate InTime(o: Order, b: Built) {
    && FlooredSeconds(b.validityMs) > FlooredSeconds(o.clock)
    && b.validityMs <= o.job.snap.quote.expiryMs
    && o.job.snap.quote.deadlineMs.Some? && b.validityMs <= o.job.snap.quote.deadlineMs.value
  }

  lemma ItsFinalPassHolds(d: Deployment, s: State, o: Order, b: Built)
    requires Finishes(d, s, o, Ready(o.stmt, b)) && InTime(o, b)
    ensures MayDeliver(SharedOf(s), SharedOf(s), o.job, FinalOf(s.requests[o.r]), b)
  {
    hide BuildStatement;
  }

  lemma Delivers(d: Deployment, s: State, o: Order, b: Built)
    requires Finishes(d, s, o, Ready(o.stmt, b)) && InTime(o, b)
    ensures var t := Step(d, Step(d, s, Recheck(o.r, 0)), Recheck(o.r, 0));
            Finishes(d, t, o, Delivered(o.stmt, b)) && OnlyBeside(s, t, o.r)
  {
    var slot := Ready(o.stmt, b);
    var f := FinalOf(s.requests[o.r]);
    ItsFinalPassHolds(d, s, o, b);
    FinalPassExactly(SharedOf(s), SharedOf(s), o.job, f, slot);
    hide Step, CheckOwnQuote, CheckCurrentQuote, MayDeliver, Priced, Cached, InTime;
    var own := CheckOwnQuote(SharedOf(s), o.job, f, slot);
    Rechecks(d, s, o, slot, own);
    Rechecks(d, Step(d, s, Recheck(o.r, 0)), o, own, Delivered(o.stmt, b));
  }

  /** A slot that is ready with a response in time is delivered. */
  lemma RunDelivers(d: Deployment, first: State, actions: seq<Action>, o: Order, b: Built) returns (more: seq<Action>)
    requires Calm(d, Run(d, first, actions), o, Ready(o.stmt, b)) && InTime(o, b)
    ensures var s, t := Run(d, first, actions), Run(d, first, more);
            Finishes(d, t, o, Delivered(o.stmt, b)) && OnlyBeside(s, t, o.r)
  {
    hide Run, Step, Calm, Finishes, InTime;
    TakesReadings(d, Run(d, first, actions), o, Ready(o.stmt, b));
    RunOne(d, first, actions, TakeSecond(o.r));
    var x := actions + [TakeSecond(o.r)];
    RunOne(d, first, x, ReadTokens(o.r));
    var y := x + [ReadTokens(o.r)];
    RunOne(d, first, y, ReadClock(o.r, o.clock));
    var z := y + [ReadClock(o.r, o.clock)];
    Delivers(d, Run(d, first, z), o, b);
    RunOne(d, first, z, Recheck(o.r, 0));
    RunOne(d, first, z + [Recheck(o.r, 0)], Recheck(o.r, 0));
    more := z + [Recheck(o.r, 0)] + [Recheck(o.r, 0)];
  }

  lemma FreshIsInTime(d: Deployment, s: State, o: Order, slot: Slot, sig: Signing.Signature)
    requires Calm(d, s, o, slot) && EffectiveExpiry(o.job.snap.quote).Ok?
    ensures InTime(o, Fresh(d, o, sig))
  {
    assert QuoteLiveAt(o.job.snap.quote, o.clock);
    hide BuildStatement, Cached;
  }

  lemma RunFinishes(d: Deployment, first: State, actions: seq<Action>, o: Order, sig: Signing.Signature)
      returns (more: seq<Action>)
    requires Calm(d, Run(d, first, actions), o, Storing(o.stmt, sig))
    ensures EffectiveExpiry(o.job.snap.quote).Ok?
    ensures var s, t := Run(d, first, actions), Run(d, first, more);
            && Finishes(d, t, o, Delivered(o.stmt, Fresh(d, o, sig))) && Beside(s, t, o.r)
            && t.signer == s.signer && t.reuse == Saved(d, s.reuse, o, sig)
  {
    hide Run, Step, Calm, Finishes, InTime, Fresh, Saved;
    var a := RunStores(d, first, actions, o, sig);
    FreshIsInTime(d, Run(d, first, a), o, Ready(o.stmt, Fresh(d, o, sig)), sig);
    more := RunDelivers(d, first, a, o, Fresh(d, o, sig));
  }

  // ---- from a frame and an order to the reply -------------------------------------------------

  /** A listed token's symbol is subscribed. */
  lemma MappedIsListed(d: Deployment, generation: int, token: Address)
    requires Reload.BootFrom(d.world, generation).Ok?
    requires token in Init(d, generation).reload.tokens.registry.tokens
    ensures var boot := Init(d, generation).reload;
            boot.tokens.registry.tokens[token] in boot.listed
  {
    var built := TokenFileCandidate(d, generation);
    var rows := built.config.tokens;
    RegistryAddsNoRow(rows, token);
    var j :| 0 <= j < |rows| && Text.ParseAddress(rows[j].address) == Some(token);
    RegistryHoldsTheRows(rows, j);
    assert TokenFile.Symbols(rows)[j] == rows[j].symbol;
  }

  function TokenFileCandidate(d: Deployment, generation: int): TokenFile.Built
    requires Reload.BootFrom(d.world, generation).Ok?
  {
    TokenFile.Candidate(d.world.config, d.world.contents(generation)).value
  }

  /** The generation a price frame lands under. */
  function LandsUnder(quotes: Quotes.State, q: Quote): nat {
    if (q.chainId, q.asset) in quotes.entries then quotes.entries[(q.chainId, q.asset)].generation else |quotes.issued|
  }

  /** The server is idle, and the order is the next request, for a pair and a quote it serves. */
  ghost predicate Fits(d: Deployment, first: State, q: Quote, o: Order) {
    && Quotes.Inv(first.quotes) && first.writer.Idle? && first.gates == map[] && o.r == |first.requests|
    && q.chainId == d.env.chainId && q.asset in first.reload.listed
    && o.job.item.pair.symbol == q.asset && o.job.snap == Quotes.Snapshot(q, LandsUnder(first.quotes, q))
    && Priced(d, first.reload.tokens.registry, o)
    && Resolve(first.reload.tokens.registry, o.job.item.input, o.job.item.output) == Some(o.job.item.pair)
  }

  function ArriveFor(o: Order): Action {
    Arrive(o.job.schema, [Ok((o.job.item.input, o.job.item.output))])
  }

  lemma FrameLocksUp(d: Deployment, s: State, q: Quote)
    requires s.writer.Idle?
    ensures Step(d, s, FrameLocks(q)) == s.(writer := LockHeld(q), tick := s.tick + 1)
  {
    hide Step, Quotes.InsertQuote, Quotes.RemoveKeys;
    FrameSteps(d, s, FrameLocks(q));
  }

  lemma FramePasses(d: Deployment, s: State, q: Quote)
    requires s.writer == LockHeld(q) && q.asset in s.reload.listed
    ensures Step(d, s, FrameChecks) == s.(writer := Admitted(q), tick := s.tick + 1)
  {
    hide Step, Quotes.InsertQuote, Quotes.RemoveKeys;
    FrameSteps(d, s, FrameChecks);
  }

  lemma FrameLands(d: Deployment, s: State, q: Quote)
    requires s.writer == Admitted(q)
    ensures Step(d, s, FrameStores) == s.(quotes := Quotes.InsertQuote(s.quotes, q), writer := Idle, tick := s.tick + 1)
  {
    hide Step, Quotes.InsertQuote, Quotes.RemoveKeys;
    FrameSteps(d, s, FrameStores);
  }

  /** A price frame passes the list and is cached. */
  lemma FrameIsStored(d: Deployment, first: State, q: Quote, o: Order)
    requires Fits(d, first, q, o)
    ensures var a := Step(d, first, FrameLocks(q));
            var b := Step(d, a, FrameChecks);
            var c := Step(d, b, FrameStores);
            c == first.(quotes := Quotes.InsertQuote(first.quotes, q), tick := first.tick + 3)
  {
    hide Step, Priced, Resolve, Quotes.InsertQuote, Quotes.Inv;
    FrameLocksUp(d, first, q);
    var a := Step(d, first, FrameLocks(q));
    FramePasses(d, a, q);
    FrameLands(d, Step(d, a, FrameChecks), q);
  }

  lemma LandsCached(d: Deployment, first: State, q: Quote, o: Order)
    requires Fits(d, first, q, o)
    ensures Cached(d, Quotes.InsertQuote(first.quotes, q), o) && Quotes.Inv(Quotes.InsertQuote(first.quotes, q))
  {
    Quotes.InsertKeepsInv(first.quotes, q);
    hide Priced, Resolve;
  }

  lemma OrderResolves(registry: TokenRegistry, o: Order)
    requires Resolve(registry, o.job.item.input, o.job.item.output) == Some(o.job.item.pair)
    ensures Resolved(registry, [Ok((o.job.item.input, o.job.item.output))]) == [Ok(o.job.item)]
  {
    hide Resolve;
    var items: seq<Outcome<Item>> := [Ok(o.job.item)];
    var orders: seq<Outcome<(Address, Address)>> := [Ok((o.job.item.input, o.job.item.output))];
    assert Resolved(registry, orders)[0] == items[0];
    assert Resolved(registry, orders) == items;
  }

  lemma OrderNeeds(o: Order)
    ensures Needed([Ok(o.job.item)]) == {o.job.item.pair.symbol}
  {
    var items: seq<Outcome<Item>> := [Ok(o.job.item)];
    assert items[0].Ok?;
  }

  /** The snapshot of the one symbol, as the cache holds it. */
  lemma TakesIts(d: Deployment, s: State, o: Order)
    requires Cached(d, s.quotes, o)
    ensures var first := Quotes.SnapshotMany(s.quotes, d.env.chainId, {o.job.item.pair.symbol});
            && o.job.item.pair.symbol in first && first[o.job.item.pair.symbol] == o.job.snap
            && FirstSlots([Ok(o.job.item)], first) == [Admission]
  {
  }

  lemma OrderArrives(d: Deployment, s: State, o: Order)
    requires Resolve(s.reload.tokens.registry, o.job.item.input, o.job.item.output) == Some(o.job.item.pair)
    ensures Step(d, s, ArriveFor(o))
            == s.(requests := s.requests + [Request(o.job.schema, [Ok(o.job.item)], Arrived, [])], tick := s.tick + 1)
  {
    hide Step, Resolve, Resolved;
    StepCases(d, s, ArriveFor(o));
    OrderResolves(s.reload.tokens.registry, o);
  }

  lemma OrderIsAdmitted(d: Deployment, s: State, o: Order)
    requires s.writer.Idle? && s.gates == map[] && Cached(d, s.quotes, o) && Priced(d, s.reload.tokens.registry, o)
    requires o.r < |s.requests| && s.requests[o.r] == Request(o.job.schema, [Ok(o.job.item)], Arrived, [])
    ensures var t := Step(d, s, TakeFirst(o.r));
            && Calm(d, t, o, Admission) && OnlyBeside(s, t, o.r)
  {
    OrderNeeds(o);
    TakesIts(d, s, o);
    hide Step, Priced, Cached, Needed, FirstSlots, Quotes.SnapshotMany;
    StepCases(d, s, TakeFirst(o.r));
  }

  /** The request resolves and takes its first snapshot. */
  lemma RequestIsAdmitted(d: Deployment, first: State, s: State, q: Quote, o: Order)
    requires Fits(d, first, q, o)
    requires s == first.(quotes := Quotes.InsertQuote(first.quotes, q), tick := first.tick + 3)
    ensures var t := Step(d, Step(d, s, ArriveFor(o)), TakeFirst(o.r));
            && Calm(d, t, o, Admission) && t.signer == first.signer && t.reuse == first.reuse
            && t.quotes == s.quotes && t.reload == s.reload && |t.requests| == o.r + 1 && t.requests[..o.r] == first.requests
  {
    hide Step, Priced, Resolve, Cached, Calm, Quotes.InsertQuote, Quotes.Inv;
    LandsCached(d, first, q, o);
    OrderArrives(d, s, o);
    OrderIsAdmitted(d, Step(d, s, ArriveFor(o)), o);
  }

  /** A frame and an order arrive, and the order's slot is admitted. */
  lemma RunAdmits(d: Deployment, first: State, before: seq<Action>, q: Quote, o: Order) returns (actions: seq<Action>)
    requires Fits(d, Run(d, first, before), q, o)
    ensures var s, t := Run(d, first, before), Run(d, first, actions);
            && Calm(d, t, o, Admission) && t.signer == s.signer && t.reuse == s.reuse
            && t.quotes == Quotes.InsertQuote(s.quotes, q) && Quotes.Inv(t.quotes) && t.reload == s.reload
            && |t.requests| == o.r + 1 && t.requests[..o.r] == s.requests
  {
    hide Run, Step, Calm, Fits, Quotes.Inv, Quotes.InsertQuote;
    var s := Run(d, first, before);
    FrameIsStored(d, s, q, o);
    LandsCached(d, s, q, o);
    RunOne(d, first, before, FrameLocks(q));
    var one := before + [FrameLocks(q)];
    RunOne(d, first, one, FrameChecks);
    var two := one + [FrameChecks];
    RunOne(d, first, two, FrameStores);
    var three := two + [FrameStores];
    RequestIsAdmitted(d, s, Run(d, first, three), q, o);
    RunOne(d, first, three, ArriveFor(o));
    var four := three + [ArriveFor(o)];
    RunOne(d, first, four, TakeFirst(o.r));
    actions := four + [TakeFirst(o.r)];
  }

  /** What is left once the order has been signed, stored and delivered. */
  ghost predicate Served(d: Deployment, s: State, t: State, q: Quote, o: Order, sig: Signing.Signature) {
    && EffectiveExpiry(o.job.snap.quote).Ok?
    && |s.requests| == o.r && |t.requests| == o.r + 1
    && t.requests[o.r].slots == [Delivered(o.stmt, Fresh(d, o, sig))]
    && (forall r :: 0 <= r < o.r ==> t.requests[r] == s.requests[r])
    && t.quotes == Quotes.InsertQuote(s.quotes, q) && Quotes.Inv(t.quotes)
    && t.reload == s.reload && t.writer.Idle? && t.gates == map[]
    && t.signer.cells == Signed(d, o, sig) && t.reuse == Saved(d, map[], o, sig)
  }

  lemma RunServes(d: Deployment, first: State, before: seq<Action>, q: Quote, o: Order, sig: Signing.Signature)
      returns (actions: seq<Action>)
    requires Fits(d, Run(d, first, before), q, o)
    requires Run(d, first, before).signer == Signing.EMPTY && Run(d, first, before).reuse == map[]
    ensures Served(d, Run(d, first, before), Run(d, first, actions), q, o, sig)
  {
    hide Calm, Run, AdvanceTimes, Fits, Quotes.Inv, Quotes.InsertQuote, Finishes, Saved, Fresh, Signed;
    hide EffectiveExpiry;
    var s := Run(d, first, before);
    var a := RunAdmits(d, first, before, q, o);
    ClearsToSign(d, Run(d, first, a), o);
    var b := RunAdvances(d, first, a, o, Admission, 8);
    var c := RunSigns(d, first, b, o, sig);
    PassesToStore(d, Run(d, first, c), o, sig);
    var e := RunAdvances(d, first, c, o, SignWait(o.stmt, 0), 3);
    actions := RunFinishes(d, first, e, o, sig);
    IsServed(d, Run(d, first, actions), o, Delivered(o.stmt, Fresh(d, o, sig)));
    FitsIdle(d, s, q, o);
    InRequests(d, Run(d, first, a), o, Admission);
    CalmIsIdle(d, Run(d, first, a), o, Admission);
    assert forall r :: 0 <= r < o.r ==> Run(d, first, a).requests[r] == Run(d, first, a).requests[..o.r][r];
  }

  lemma CalmIsIdle(d: Deployment, s: State, o: Order, slot: Slot)
    requires Calm(d, s, o, slot)
    ensures s.writer.Idle?
  {
  }

  lemma IsServed(d: Deployment, t: State, o: Order, slot: Slot)
    requires Finishes(d, t, o, slot)
    ensures o.r < |t.requests| && t.requests[o.r].slots == [slot] && t.gates == map[]
  {
  }

  lemma FitsIdle(d: Deployment, s: State, q: Quote, o: Order)
    requires Fits(d, s, q, o)
    ensures s.writer.Idle? && o.r == |s.requests|
  {
  }

  /** A price frame and an order that the server, with this token set, can serve at this time. */
  predicate Good(d: Deployment, registry: TokenRegistry, schema: Schema, input: Address, output: Address, q: Quote, clock: Millis) {
    && Resolve(registry, input, output).Some?
    && var pair := Resolve(registry, input, output).value;
       && q.asset == pair.symbol && q.chainId == d.env.chainId
       && q.base == pair.token && q.settlement == registry.quoteToken
       && QuoteLiveAt(q, clock)
       && BuildStatement(d.env.codec, d.env.chainId, schema, Item(input, output, pair), q).Ok?
  }

  function OrderFor(d: Deployment, registry: TokenRegistry, r: nat, generation: nat, schema: Schema,
                    input: Address, output: Address, q: Quote, clock: Millis): Order
    requires Good(d, registry, schema, input, output, q, clock)
  {
    var item := Item(input, output, Resolve(registry, input, output).value);
    Order(r, Job(schema, item, Quotes.Snapshot(q, generation)),
          BuildStatement(d.env.codec, d.env.chainId, schema, item, q).value, clock)
  }

  lemma GoodFits(d: Deployment, s: State, schema: Schema, input: Address, output: Address, q: Quote, clock: Millis)
    requires Good(d, s.reload.tokens.registry, schema, input, output, q, clock)
    requires Quotes.Inv(s.quotes) && s.writer.Idle? && s.gates == map[] && q.asset in s.reload.listed
    ensures Fits(d, s, q, OrderFor(d, s.reload.tokens.registry, |s.requests|, LandsUnder(s.quotes, q), schema, input, output, q, clock))
  {
    ResolvedPairNamesTheOrder(s.reload.tokens.registry, input, output);
    hide QuoteLiveAt, BuildStatement, Resolve, Quotes.Inv;
  }

  lemma BootIsIdle(d: Deployment, generation: int)
    requires Reload.BootFrom(d.world, generation).Ok?
    ensures var s := Init(d, generation);
            && Quotes.Inv(s.quotes) && s.writer.Idle? && s.gates == map[] && s.requests == [] && |s.quotes.issued| == 0
            && s.quotes.entries == map[] && s.signer == Signing.EMPTY && s.reuse == map[]
  {
    hide Reload.BootFrom;
  }

  lemma GoodIsListed(d: Deployment, generation: int, schema: Schema, input: Address, output: Address, q: Quote, clock: Millis)
    requires Reload.BootFrom(d.world, generation).Ok?
    requires Good(d, Init(d, generation).reload.tokens.registry, schema, input, output, q, clock)
    ensures q.asset in Init(d, generation).reload.listed
  {
    hide Reload.BootFrom, QuoteLiveAt, BuildStatement;
    var registry := Init(d, generation).reload.tokens.registry;
    ResolvedPairNamesTheOrder(registry, input, output);
    MappedIsListed(d, generation, Resolve(registry, input, output).value.token);
  }

  /**
    A good quote is served. From every boot, for every order of a listed token
    and every quote that prices it, is unexpired and can be stated, some run
    ends with that order delivered, carrying exactly that statement and the
    signature the signer produced, after one signing call.
   */
  lemma GoodQuoteIsServed(d: Deployment, generation: int, schema: Schema, input: Address, output: Address,
                          q: Quote, clock: Millis, sig: Signing.Signature) returns (actions: seq<Action>)
    requires Reload.BootFrom(d.world, generation).Ok?
    requires Good(d, Init(d, generation).reload.tokens.registry, schema, input, output, q, clock)
    ensures var registry := Init(d, generation).reload.tokens.registry;
            var o := OrderFor(d, registry, 0, 0, schema, input, output, q, clock);
            var s := At(d, generation, actions, |actions|);
            && Served(d, Init(d, generation), s, q, o, sig)
            && IsDelivered(s, 0, 0) && s.requests[0].slots[0].built.response == OracleResponse(d.env.signer, o.stmt.context, sig)
            && |s.signer.cells| == 1
  {
    hide Reload.BootFrom, Good, Fits, Quotes.Inv, Step, OrderFor;
    var first := Init(d, generation);
    BootIsIdle(d, generation);
    GoodIsListed(d, generation, schema, input, output, q, clock);
    GoodFits(d, first, schema, input, output, q, clock);
    assert Run(d, first, []) == first;
    var o := OrderFor(d, first.reload.tokens.registry, 0, 0, schema, input, output, q, clock);
    OrderIsFirst(d, first.reload.tokens.registry, schema, input, output, q, clock);
    hide Init, After;
    actions := RunServes(d, first, [], q, o, sig);
  }

  lemma OrderIsFirst(d: Deployment, registry: TokenRegistry, schema: Schema, input: Address, output: Address, q: Quote, clock: Millis)
    requires Good(d, registry, schema, input, output, q, clock)
    ensures OrderFor(d, registry, 0, 0, schema, input, output, q, clock).r == 0
  {
  }
}
