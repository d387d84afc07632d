/**
  How things end: a second frame with an unchanged price is answered with the
  first one's signature, a sign that fails or dies leaves nothing behind, a
  waiter that gives up leaves its sign running, and evictions and reloads that
  have begun can always be finished.
 */
module Endings {
  import opened Wire
  import opened Deadlines
  import opened Contexts
  import opened Registry
  import opened Slots
  import opened System
  import opened Frames
  import opened Theorems
  import opened Gates
  import opened Guards
  import opened Progress
  import opened Meaning
  import opened Halts
  import Quotes
  import Reuse
  import Signing
  import Reload

  // ---- an unchanged price is not signed twice --------------------------------------------

  function KeyOf(o: Order): Reuse.Key {
    Reuse.Key(o.job.schema, o.job.item.pair.symbol, o.job.item.pair.direction, o.job.item.input, o.job.item.output)
  }

  /** An entry that may stand in for the order's statement at the order's time. */
  predicate StandsIn(d: Deployment, o: Order, stored: Reuse.Stored) {
    && stored.generation == o.job.snap.generation
    && SameTerms(stored.response.context, o.stmt.context)
    && FlooredSeconds(o.clock) + d.env.margin <= stored.expiry <= o.stmt.expiry
    && stored.expiry * 1000 <= I64_MAX
  }

  function Reused(o: Order, stored: Reuse.Stored): Built {
    Built(stored.response, stored.expiry, stored.expiry * 1000, Some(FlooredSeconds(o.clock)))
  }

  lemma StandingInIsAccepted(d: Deployment, s: State, o: Order, slot: Slot, stored: Reuse.Stored)
    requires Calm(d, s, o, slot) && StandsIn(d, o, stored)
    ensures Reuse.Accepts(d.env.margin, stored, stored.generation in s.quotes.live, o.stmt, FlooredSeconds(o.clock),
                          o.job.snap.generation)
  {
    StatementStatesTerms(d.env.codec, d.env.chainId, o.job.schema, o.job.item, o.job.snap.quote);
    hide BuildStatement;
    SameStatementSameTerms(stored.response.context, o.stmt.context);
    hide SameTerms, Reuse.SameStatement, StatesTerms;
  }

  /** From admission to the lookup takes five steps. */
  lemma ClearsToLookup(d: Deployment, s: State, o: Order)
    requires Calm(d, s, o, Admission)
    ensures AdvanceTimes(d, SharedOf(s), o, Admission, 5) == Lookup(o.stmt, FlooredSeconds(o.clock))
  {
    var g := SharedOf(s);
    QuoteCheckMeans(o.job.snap.quote, o.clock);
    hide CheckQuoteExpiry, BuildStatement, QuoteLiveAt;
    assert AdvanceTimes(d, g, o, Admission, 1) == AdmissionAddress;
    assert AdvanceTimes(d, g, o, Admission, 2) == AdmissionExpiry;
    assert AdvanceTimes(d, g, o, Admission, 3) == LookupLiveness(o.stmt);
    assert AdvanceTimes(d, g, o, Admission, 4) == LookupClock(o.stmt);
  }

  lemma LookupFinds(env: Env, g: Shared, job: Job, stmt: Statement, nowSecs: U64, stored: Reuse.Stored, clock: Millis)
    requires env.margin > 0 && ReuseKey(job) in g.reuse && g.reuse[ReuseKey(job)] == stored
    requires job.snap.generation in g.quotes.live
    requires Reuse.Accepts(env.margin, stored, stored.generation in g.quotes.live, stmt, nowSecs, job.snap.generation)
    requires stored.expiry * 1000 <= I64_MAX && IsLiveAt(stored.expiry * 1000, clock)
    ensures Advance(env, g, job, Lookup(stmt, nowSecs), clock, false) == LookupChecks(stmt, nowSecs, stored)
    ensures Advance(env, g, job, LookupChecks(stmt, nowSecs, stored), clock, false) == ReuseClock(stmt, nowSecs, stored)
    ensures Advance(env, g, job, ReuseClock(stmt, nowSecs, stored), clock, false) == ReuseLiveness(stmt, nowSecs, stored, clock)
    ensures Advance(env, g, job, ReuseLiveness(stmt, nowSecs, stored, clock), clock, false)
            == Ready(stmt, Built(stored.response, stored.expiry, stored.expiry * 1000, Some(nowSecs)))
  {
    hide Reuse.Accepts, IsLiveAt, BuildStatement, CheckQuoteExpiry;
  }

  /** And from the lookup to a reused response four. */
  lemma LooksUp(d: Deployment, s: State, o: Order, stored: Reuse.Stored)
    requires Calm(d, s, o, Lookup(o.stmt, FlooredSeconds(o.clock))) && d.env.margin > 0 && StandsIn(d, o, stored)
    requires KeyOf(o) in s.reuse && s.reuse[KeyOf(o)] == stored
    ensures AdvanceTimes(d, SharedOf(s), o, Lookup(o.stmt, FlooredSeconds(o.clock)), 4) == Ready(o.stmt, Reused(o, stored))
  {
    hide Calm, Advance, StandsIn, IsLiveAt, Reuse.Accepts;
    var g, nowSecs := SharedOf(s), FlooredSeconds(o.clock);
    var slot := Lookup(o.stmt, nowSecs);
    StandingInIsAccepted(d, s, o, slot, stored);
    CalmIsBuilding(d, s, o, slot);
    StandsInTime(d, o, stored);
    LookupFinds(d.env, g, o.job, o.stmt, nowSecs, stored, o.clock);
    assert AdvanceTimes(d, g, o, slot, 1) == LookupChecks(o.stmt, nowSecs, stored);
    assert AdvanceTimes(d, g, o, slot, 2) == ReuseClock(o.stmt, nowSecs, stored);
    assert AdvanceTimes(d, g, o, slot, 3) == ReuseLiveness(o.stmt, nowSecs, stored, o.clock);
  }

  lemma StandsInTime(d: Deployment, o: Order, stored: Reuse.Stored)
    requires StandsIn(d, o, stored) && d.env.margin > 0
    ensures stored.expiry * 1000 <= I64_MAX && IsLiveAt(stored.expiry * 1000, o.clock)
  {
    hide SameTerms;
  }

  lemma ReusedIsInTime(d: Deployment, s: State, o: Order, slot: Slot, stored: Reuse.Stored)
    requires Calm(d, s, o, slot) && StandsIn(d, o, stored) && d.env.margin > 0
    ensures InTime(o, Reused(o, stored))
  {
    assert QuoteLiveAt(o.job.snap.quote, o.clock);
    BuiltContextHasLayout(d.env.codec, d.env.chainId, o.job.schema, o.job.item, o.job.snap.quote);
    SignedExpiryFloors(o.job.snap.quote);
    hide BuildStatement, SameTerms;
  }

  /** An order for which an entry stands in is delivered with it, and the signer is not asked. */
  lemma RunReuses(d: Deployment, first: State, before: seq<Action>, q: Quote, o: Order, stored: Reuse.Stored)
      returns (actions: seq<Action>)
    requires Fits(d, Run(d, first, before), q, o) && d.env.margin > 0 && StandsIn(d, o, stored)
    requires KeyOf(o) in Run(d, first, before).reuse && Run(d, first, before).reuse[KeyOf(o)] == stored
    ensures var s, t := Run(d, first, before), Run(d, first, actions);
            && |s.requests| == o.r && |t.requests| == o.r + 1
            && t.requests[o.r].slots == [Delivered(o.stmt, Reused(o, stored))]
            && (forall r :: 0 <= r < o.r ==> t.requests[r] == s.requests[r])
            && t.signer == s.signer && t.reuse == s.reuse
  {
    hide Calm, Run, AdvanceTimes, Fits, Quotes.Inv, Quotes.InsertQuote, Finishes, StandsIn, InTime;
    FitsIdle(d, Run(d, first, before), q, o);
    var a := RunAdmits(d, first, before, q, o);
    ClearsToLookup(d, Run(d, first, a), o);
    var x := RunAdvances(d, first, a, o, Admission, 5);
    LooksUp(d, Run(d, first, x), o, stored);
    var b := RunAdvances(d, first, x, o, Lookup(o.stmt, FlooredSeconds(o.clock)), 4);
    ReusedIsInTime(d, Run(d, first, b), o, Ready(o.stmt, Reused(o, stored)), stored);
    actions := RunDelivers(d, first, b, o, Reused(o, stored));
    IsServed(d, Run(d, first, actions), o, Delivered(o.stmt, Reused(o, stored)));
    assert forall r :: 0 <= r < o.r ==> Run(d, first, a).requests[r] == Run(d, first, a).requests[..o.r][r];
  }

  lemma SavedStandsIn(d: Deployment, registry: TokenRegistry, schema: Schema, input: Address, output: Address,
                      p: Quote, q: Quote, before: Millis, clock: Millis, sig: Signing.Signature)
    requires Good(d, registry, schema, input, output, p, before) && Good(d, registry, schema, input, output, q, clock)
    requires SameTermsQuoted(p, q) && d.env.margin > 0
    requires var o := OrderFor(d, registry, 0, 0, schema, input, output, p, before);
             var again := OrderFor(d, registry, 1, 0, schema, input, output, q, clock);
             FlooredSeconds(clock) + d.env.margin <= o.stmt.expiry <= again.stmt.expiry
    ensures var o := OrderFor(d, registry, 0, 0, schema, input, output, p, before);
            var again := OrderFor(d, registry, 1, 0, schema, input, output, q, clock);
            && KeyOf(again) in Saved(d, map[], o, sig) && StandsIn(d, again, Saved(d, map[], o, sig)[KeyOf(again)])
            && Saved(d, map[], o, sig)[KeyOf(again)].response == OracleResponse(d.env.signer, o.stmt.context, sig)
  {
    var item := Item(input, output, Resolve(registry, input, output).value);
    SameQuoteSameTerms(d.env.codec, d.env.chainId, schema, item, p, q);
    BuiltContextHasLayout(d.env.codec, d.env.chainId, schema, item, p);
    SignedExpiryFloors(p);
    hide BuildStatement, Resolve, SameTerms, QuoteLiveAt;
  }

  /** The state after the first order, ready for a second of the same. */
  lemma ServedAgainFits(d: Deployment, generation: int, t: State, schema: Schema, input: Address, output: Address,
                        p: Quote, q: Quote, before: Millis, clock: Millis, sig: Signing.Signature)
    requires Reload.BootFrom(d.world, generation).Ok?
    requires var registry := Init(d, generation).reload.tokens.registry;
             && Good(d, registry, schema, input, output, p, before) && Good(d, registry, schema, input, output, q, clock)
             && Served(d, Init(d, generation), t, p, OrderFor(d, registry, 0, 0, schema, input, output, p, before), sig)
    ensures var registry := Init(d, generation).reload.tokens.registry;
            Fits(d, t, q, OrderFor(d, registry, 1, 0, schema, input, output, q, clock))
  {
    hide Reload.BootFrom, QuoteLiveAt, BuildStatement, Resolve, Signed, Saved, Fresh, EffectiveExpiry, Quotes.Inv, Fits;
    BootIsIdle(d, generation);
    GoodIsListed(d, generation, schema, input, output, q, clock);
    GoodFits(d, t, schema, input, output, q, clock);
    assert LandsUnder(t.quotes, q) == 0;
  }

  /**
    An unchanged price is signed once. From every boot, for every order and two
    frames of its symbol that differ only in their mark and their deadlines, the
    margin being left and the second lasting no less than the first, some run
    answers an order after each frame with the very same response, after a
    single signing call.
   */
  lemma UnchangedPriceIsSignedOnce(d: Deployment, generation: int, schema: Schema, input: Address, output: Address,
                                   p: Quote, q: Quote, before: Millis, clock: Millis, sig: Signing.Signature)
      returns (actions: seq<Action>)
    requires Reload.BootFrom(d.world, generation).Ok? && d.env.margin > 0 && SameTermsQuoted(p, q)
    requires Good(d, Init(d, generation).reload.tokens.registry, schema, input, output, p, before)
    requires Good(d, Init(d, generation).reload.tokens.registry, schema, input, output, q, clock)
    requires var registry := Init(d, generation).reload.tokens.registry;
             FlooredSeconds(clock) + d.env.margin
               <= OrderFor(d, registry, 0, 0, schema, input, output, p, before).stmt.expiry
               <= OrderFor(d, registry, 1, 0, schema, input, output, q, clock).stmt.expiry
    ensures var s := At(d, generation, actions, |actions|);
            var o := OrderFor(d, Init(d, generation).reload.tokens.registry, 0, 0, schema, input, output, p, before);
            && IsDelivered(s, 0, 0) && IsDelivered(s, 1, 0) && |s.signer.cells| == 1
            && s.requests[0].slots[0].built.response == OracleResponse(d.env.signer, o.stmt.context, sig)
            && s.requests[1].slots[0].built.response == s.requests[0].slots[0].built.response
  {
    hide Reload.BootFrom, Good, OrderFor, Fits, StandsIn, Saved, After, Init, SameTermsQuoted;
    var registry := Init(d, generation).reload.tokens.registry;
    var o := OrderFor(d, registry, 0, 0, schema, input, output, p, before);
    var again := OrderFor(d, registry, 1, 0, schema, input, output, q, clock);
    var a := GoodQuoteIsServed(d, generation, schema, input, output, p, before, sig);
    ServedAgainFits(d, generation, At(d, generation, a, |a|), schema, input, output, p, q, before, clock, sig);
    SavedStandsIn(d, registry, schema, input, output, p, q, before, clock, sig);
    OrderIs(d, registry, 0, schema, input, output, p, before);
    OrderIs(d, registry, 1, schema, input, output, q, clock);
    actions := RunReuses(d, Init(d, generation), a, q, again, Saved(d, map[], o, sig)[KeyOf(again)]);
  }

  lemma OrderIs(d: Deployment, registry: TokenRegistry, r: nat, schema: Schema, input: Address, output: Address, q: Quote, clock: Millis)
    requires Good(d, registry, schema, input, output, q, clock)
    ensures OrderFor(d, registry, r, 0, schema, input, output, q, clock).r == r
  {
  }

  // ---- a sign that comes to nothing ----------------------------------------------------------

  /** The order ended in an error of the signer's, and its hash is free to be signed afresh. */
  predicate EndedUnsigned(d: Deployment, s: State, o: Order) {
    && o.r < |s.requests| && |s.requests[o.r].slots| == 1
    && s.requests[o.r].slots[0].Failed? && s.requests[o.r].slots[0].error.Internal?
    && HashOf(d, o) !in s.signer.slots && s.signer.lock.None?
    && forall i :: 0 <= i < |s.signer.cells| ==> s.signer.cells[i].task.Ended?
  }

  lemma FirstFailure(limits: Signing.Limits, r: nat, h: Signing.Hash)
    ensures var c := Signing.Apply(limits, Asked(limits, r, h), Signing.CallReturns(0, None));
            var e := Signing.Apply(limits, c, Signing.EvictRefused(0));
            var f := Signing.Apply(limits, e, Signing.Broadcast(0));
            && f.cells == [Signing.Cell(h, 0, Signing.Failed, Signing.Ended)] && h !in f.slots && f.lock == None
  {
    FirstLookup(limits, r, h);
    hide Asked;
  }

  lemma WaiterFails(d: Deployment, s: State, o: Order)
    requires Calm(d, s, o, SignWait(o.stmt, 0))
    requires s.signer.cells == [Signing.Cell(HashOf(d, o), 0, Signing.Failed, Signing.Ended)]
    ensures Advance(d.env, SharedOf(s), o.job, SignWait(o.stmt, 0), o.clock, false) == Failed(Internal("signing failed"))
  {
  }

  lemma CalmSlots(d: Deployment, s: State, o: Order, slot: Slot)
    requires Calm(d, s, o, slot)
    ensures o.r < |s.requests| && s.requests[o.r].slots == [slot]
  {
  }

  /** A sign that fails ends the order, and leaves no entry and no call. */
  lemma FailedSignLeavesNothing(d: Deployment, first: State, actions: seq<Action>, o: Order) returns (more: seq<Action>)
    requires Calm(d, Run(d, first, actions), o, SignLookup(o.stmt)) && Run(d, first, actions).signer == Signing.EMPTY
    ensures EndedUnsigned(d, Run(d, first, more), o)
  {
    hide Calm, Run, Step, Signing.Apply, Asked, Advance;
    var b := RunAsks(d, first, actions, o);
    FirstFailure(d.limits, o.r, HashOf(d, o));
    var c := b + [CallReturns(0, None)];
    RunOne(d, first, b, CallReturns(0, None));
    TaskMoves(d, Run(d, first, b), o, SignWait(o.stmt, 0), CallReturns(0, None));
    var e := c + [EvictRefused(0)];
    RunOne(d, first, c, EvictRefused(0));
    TaskMoves(d, Run(d, first, c), o, SignWait(o.stmt, 0), EvictRefused(0));
    var f := e + [Broadcast(0)];
    RunOne(d, first, e, Broadcast(0));
    TaskMoves(d, Run(d, first, e), o, SignWait(o.stmt, 0), Broadcast(0));
    WaiterFails(d, Run(d, first, f), o);
    more := f + [AdvanceSlot(o.r, 0, o.clock, false)];
    RunOne(d, first, f, AdvanceSlot(o.r, 0, o.clock, false));
    SlotAdvances(d, Run(d, first, f), o, SignWait(o.stmt, 0));
    CalmSlots(d, Run(d, first, more), o, Failed(Internal("signing failed")));
  }

  lemma FirstDeath(limits: Signing.Limits, r: nat, h: Signing.Hash)
    ensures var c := Signing.Apply(limits, Asked(limits, r, h), Signing.Die(0));
            var e := Signing.Apply(limits, c, Signing.EvictDead(0));
            && c.cells == [Signing.Cell(h, 0, Signing.Pending, Signing.Ended)] && c.lock == None
            && e.cells == c.cells && h !in e.slots && e.lock == None
  {
    FirstLookup(limits, r, h);
    hide Asked;
  }

  lemma WaiterSeesDeath(d: Deployment, s: State, o: Order)
    requires Calm(d, s, o, SignWait(o.stmt, 0))
    requires s.signer.cells == [Signing.Cell(HashOf(d, o), 0, Signing.Pending, Signing.Ended)]
    ensures Advance(d.env, SharedOf(s), o.job, SignWait(o.stmt, 0), o.clock, false) == SignDead(o.stmt, 0)
  {
  }

  lemma WaiterDropsTheDead(d: Deployment, s: State, o: Order)
    requires Calm(d, s, o, SignDead(o.stmt, 0)) && s.signer.lock.None?
    ensures var t := Step(d, s, DropDeadSign(o.r, 0));
            && o.r < |t.requests| && t.requests[o.r].slots == [Failed(Internal("signing task aborted"))]
            && t.signer == Signing.Apply(d.limits, s.signer, Signing.EvictDead(0))
  {
    hide Step, SlotStep, Calm, Signing.Apply;
    CalmIsBuilding(d, s, o, SignDead(o.stmt, 0));
    CalmSlots(d, s, o, SignDead(o.stmt, 0));
    StepCases(d, s, DropDeadSign(o.r, 0));
    DeadCase(d, s, o.r, 0);
  }

  /** So does a sign whose task dies: its waiter evicts the entry. */
  lemma DeadSignLeavesNothing(d: Deployment, first: State, actions: seq<Action>, o: Order) returns (more: seq<Action>)
    requires Calm(d, Run(d, first, actions), o, SignLookup(o.stmt)) && Run(d, first, actions).signer == Signing.EMPTY
    ensures EndedUnsigned(d, Run(d, first, more), o)
  {
    hide Calm, Run, Step, Signing.Apply, Asked, Advance;
    var b := RunAsks(d, first, actions, o);
    FirstDeath(d.limits, o.r, HashOf(d, o));
    var c := b + [TaskDies(0)];
    RunOne(d, first, b, TaskDies(0));
    TaskMoves(d, Run(d, first, b), o, SignWait(o.stmt, 0), TaskDies(0));
    WaiterSeesDeath(d, Run(d, first, c), o);
    var e := c + [AdvanceSlot(o.r, 0, o.clock, false)];
    RunOne(d, first, c, AdvanceSlot(o.r, 0, o.clock, false));
    SlotAdvances(d, Run(d, first, c), o, SignWait(o.stmt, 0));
    WaiterDropsTheDead(d, Run(d, first, e), o);
    more := e + [DropDeadSign(o.r, 0)];
    RunOne(d, first, e, DropDeadSign(o.r, 0));
  }

  /** The waiter of a dead task never fails without evicting it: it goes on only to drop it. */
  lemma DeadSignIsAlwaysDropped(d: Deployment, s: State, clock: Millis, timedOut: bool, r: nat, i: nat)
    requires BuildingSlot(s, r, i) && s.requests[r].slots[i].SignWait?
    requires var cell := s.requests[r].slots[i].cell;
             cell < |s.signer.cells| && s.signer.cells[cell].status.Pending? && s.signer.cells[cell].task.Ended?
    ensures var slot := s.requests[r].slots[i];
            Step(d, s, AdvanceSlot(r, i, clock, timedOut)).requests[r].slots[i] == SignDead(slot.stmt, slot.cell)
  {
    StepCases(d, s, AdvanceSlot(r, i, clock, timedOut));
    AdvanceCase(d, s, AdvanceSlot(r, i, clock, timedOut));
    hide Step, SlotStep;
  }

  /** A waiter that gives up fails, and leaves the sign running for whoever asks next. */
  lemma GivingUpLeavesTheSign(d: Deployment, s: State, clock: Millis, r: nat, i: nat)
    requires BuildingSlot(s, r, i) && s.requests[r].slots[i].SignWait?
    requires var cell := s.requests[r].slots[i].cell; cell < |s.signer.cells| && s.signer.cells[cell].InFlight()
    ensures var t := Step(d, s, AdvanceSlot(r, i, clock, true));
            && t.requests[r].slots[i].Failed? && t.requests[r].slots[i].error.Internal? && t.signer == s.signer
    ensures Step(d, s, AdvanceSlot(r, i, clock, false)).requests[r].slots[i] == s.requests[r].slots[i]
  {
    StepCases(d, s, AdvanceSlot(r, i, clock, true));
    AdvanceCase(d, s, AdvanceSlot(r, i, clock, true));
    StepCases(d, s, AdvanceSlot(r, i, clock, false));
    AdvanceCase(d, s, AdvanceSlot(r, i, clock, false));
    hide Step, SlotStep;
  }

  // ---- what has begun can end --------------------------------------------------------------

  /** With no store inside a gate, an eviction under way can be finished, and then the cache is free. */
  lemma {:induction false} EvictionCanEnd(d: Deployment, first: State, actions: seq<Action>) returns (more: seq<Action>)
    requires Run(d, first, actions).writer.Removing? && Run(d, first, actions).gates == map[]
    requires Run(d, first, actions).writer.forgetting ==> Run(d, first, actions).reload.phase.Listed?
    ensures var s, t := Run(d, first, actions), Run(d, first, more);
            && t.writer.Idle? && t.gates == map[] && t.reload.tokens == s.reload.tokens && t.reload.listed == s.reload.listed
            && (s.writer.forgetting ==> t.reload.phase.Rest?)
            && (!s.writer.forgetting ==> t.reload == s.reload)
    decreases |Run(d, first, actions).writer.pending|
  {
    hide Run, Step;
    var s := Run(d, first, actions);
    if s.writer.pending == {} {
      more := actions + [Unlocks];
      RunOne(d, first, actions, Unlocks);
      UnlockEnds(d, s);
    } else {
      var key :| key in s.writer.pending;
      RunOne(d, first, actions, Revokes(key));
      RevokeGoesOn(d, s, key);
      more := EvictionCanEnd(d, first, actions + [Revokes(key)]);
    }
  }

  lemma UnlockEnds(d: Deployment, s: State)
    requires s.writer.Removing? && s.writer.pending == {} && (s.writer.forgetting ==> s.reload.phase.Listed?)
    ensures var t := Step(d, s, Unlocks);
            && t.writer.Idle? && t.gates == s.gates && t.reload.tokens == s.reload.tokens && t.reload.listed == s.reload.listed
            && (s.writer.forgetting ==> t.reload.phase.Rest?)
            && (!s.writer.forgetting ==> t.reload == s.reload)
  {
    hide Step, Reload.Decide, Reload.Classify;
    StepWriter(d, s, Unlocks);
    StepReload(d, s, Unlocks);
    OuterStepFrame(d, s, Unlocks);
  }

  lemma RevokeGoesOn(d: Deployment, s: State, key: Quotes.Key)
    requires s.writer.Removing? && key in s.writer.pending && s.gates == map[]
    ensures var t := Step(d, s, Revokes(key));
            && t.writer == Removing(s.writer.pending - {key}, s.writer.forgetting) && t.gates == map[] && t.reload == s.reload
  {
    hide Step, Reload.Decide, Reload.Classify;
    StepWriter(d, s, Revokes(key));
    StepReload(d, s, Revokes(key));
    OuterStepFrame(d, s, Revokes(key));
  }

  lemma ListIsReplaced(d: Deployment, s: State)
    requires s.reload.phase.Swapped? && s.writer.Idle?
    ensures var t := Step(d, s, ReplaceList);
            && t.writer.Idle? && t.gates == s.gates && t.reload.tokens == s.reload.tokens
            && t.reload.listed == s.reload.tokens.symbols && t.reload.phase.Listed?
  {
    hide Step, Reload.Decide, Reload.Classify;
    StepWriter(d, s, ReplaceList);
    StepReload(d, s, ReplaceList);
    OuterStepFrame(d, s, ReplaceList);
  }

  lemma ForgetBegins(d: Deployment, s: State, a: Action)
    requires s.reload.phase.Listed? && s.writer.Idle?
    requires a == if s.reload.phase.forget == {} then ForgetsNothing else ForgetLocks
    ensures var t := Step(d, s, a);
            && t.gates == s.gates && t.reload.tokens == s.reload.tokens && t.reload.listed == s.reload.listed
            && (if s.reload.phase.forget == {} then t.reload.phase.Rest? && t.writer.Idle?
                else t.reload == s.reload && t.writer.Removing? && t.writer.forgetting)
  {
    hide Step, Reload.Decide, Reload.Classify;
    StepWriter(d, s, a);
    StepReload(d, s, a);
    OuterStepFrame(d, s, a);
  }

  /** A reload that has swapped the set can be finished: the list follows, and the reloader rests on the new set. */
  lemma ReloadCanEnd(d: Deployment, first: State, actions: seq<Action>) returns (more: seq<Action>)
    requires Run(d, first, actions).reload.phase.Swapped?
    requires Run(d, first, actions).writer.Idle? && Run(d, first, actions).gates == map[]
    ensures var s, t := Run(d, first, actions), Run(d, first, more);
            && t.reload.phase.Rest? && t.reload.tokens == s.reload.tokens && t.reload.listed == s.reload.tokens.symbols
            && t.writer.Idle?
  {
    hide Run, Step;
    RunOne(d, first, actions, ReplaceList);
    ListIsReplaced(d, Run(d, first, actions));
    var a := actions + [ReplaceList];
    var next := if Run(d, first, a).reload.phase.forget == {} then ForgetsNothing else ForgetLocks;
    RunOne(d, first, a, next);
    ForgetBegins(d, Run(d, first, a), next);
    if next.ForgetsNothing? {
      more := a + [next];
    } else {
      more := EvictionCanEnd(d, first, a + [next]);
    }
  }
}
