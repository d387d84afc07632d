/** What holds of every run of the server, for all interleavings. */
module Theorems {
  import opened Wire
  import opened Contexts
  import opened Slots
  import opened System
  import opened Invariants
  import opened Frames
  import Quotes
  import Reuse
  import Signing
  import Reload
  import TokenFile

  /** The server after `n` actions of a run that starts with a boot from `generation`. */
  function At(d: Deployment, generation: int, actions: seq<Action>, n: nat): State
    requires Reload.BootFrom(d.world, generation).Ok? && n <= |actions|
  {
    After(d, Init(d, generation), actions, n)
  }

  lemma Reachable(d: Deployment, generation: int, actions: seq<Action>, n: nat)
    requires Reload.BootFrom(d.world, generation).Ok? && n <= |actions|
    ensures Inv(d, At(d, generation, actions, n))
  {
    InitIsOk(d, generation);
    RunKeeps(d, Init(d, generation), actions, n);
  }

  /** Slot `i` of request `r` has been handed out. */
  predicate IsDelivered(s: State, r: nat, i: nat) {
    r < |s.requests| && i < |s.requests[r].slots| && s.requests[r].slots[i].Delivered?
  }

  /**
    Every delivered item, in every interleaving, is safe: its signed second is
    ahead of the one final time and within both deadlines of the second
    snapshot's quote, that quote prices the item's token in the settlement
    token of the set read after the last await, which still maps the token to
    the same symbol; both snapshots are of one generation; the context agrees
    with this request's own statement but for the two timestamps, expires no
    later, was the margin ahead if reused, has its publish time inside its
    session, and carries a signature produced for exactly its own hash. The two
    snapshots and the set are what the cache and the reloader held at three
    steps of this run, in this order.
   */
  lemma DeliveredItemIsSafe(d: Deployment, generation: int, actions: seq<Action>, n: nat, r: nat, i: nat)
    requires Reload.BootFrom(d.world, generation).Ok? && n <= |actions|
    requires IsDelivered(At(d, generation, actions, n), r, i)
    ensures var s := At(d, generation, actions, n);
            var req := s.requests[r];
            && HasJob(req, i) && req.stage.Finishing?
            && DeliveredSafely(d.env, s.signer.produced, JobOf(req, i), FinalOf(req), req.slots[i].stmt, req.slots[i].built)
            && ReadingsHold(d, generation, actions, n, r, req)
  {
    hide After, Step, Init, Reload.BootFrom, DeliveredSafely, ReadingsHold;
    Reachable(d, generation, actions, n);
    DeliveredIsOk(d, At(d, generation, actions, n), r, i);
    ReadingsAreOfTheirTicks(d, generation, actions, n);
  }

  lemma DeliveredIsOk(d: Deployment, s: State, r: nat, i: nat)
    requires Inv(d, s) && IsDelivered(s, r, i)
    ensures var req := s.requests[r];
            && HasJob(req, i) && req.stage.Finishing?
            && DeliveredSafely(d.env, s.signer.produced, JobOf(req, i), FinalOf(req), req.slots[i].stmt, req.slots[i].built)
  {
    hide Quotes.Inv, Signing.Inv, Reload.Inv, ListOk, ReuseOk, DeliveredSafely, RecheckedOk, BuildingOk;
    assert SlotOk(d.env, SharedOf(s), s.requests[r], i);
  }

  /** Whenever the reloader is at rest, every cached symbol, on every chain, is in the running token set. */
  lemma CachedSymbolsAreListed(d: Deployment, generation: int, actions: seq<Action>, n: nat, key: Quotes.Key)
    requires Reload.BootFrom(d.world, generation).Ok? && n <= |actions|
    requires At(d, generation, actions, n).reload.phase.Rest?
    requires key in At(d, generation, actions, n).quotes.entries
    ensures key.1 in At(d, generation, actions, n).reload.tokens.symbols
    ensures key.1 in At(d, generation, actions, n).reload.listed
  {
    hide After, Step, Init, Reload.BootFrom;
    Reachable(d, generation, actions, n);
    hide Quotes.Inv, Signing.Inv, RequestsOk, ReuseOk;
  }

  /**
    A copy that is applied marks for forgetting exactly the running symbols
    whose row, symbol and address, it does not keep.
   */
  lemma AppliedCopyForgets(d: Deployment, generation: int, actions: seq<Action>, n: nat, symbol: Symbol, address: string)
    requires Reload.BootFrom(d.world, generation).Ok? && n < |actions|
    requires At(d, generation, actions, n).reload.phase.Rest? && At(d, generation, actions, n + 1).reload.phase.Swapped?
    requires At(d, generation, actions, n).reload.tokens.projection.Some?
    requires TokenFile.HasRow(At(d, generation, actions, n).reload.tokens.projection.value, symbol, address)
    ensures var t := At(d, generation, actions, n + 1).reload;
            && t.tokens.projection.Some?
            && (symbol in t.phase.forget <==> !TokenFile.HasRow(t.tokens.projection.value, symbol, address))
  {
    var s := At(d, generation, actions, n);
    hide At, Step, Reload.BootFrom, Reload.Step, TokenFile.HasRow, Reload.Inv, Quotes.Inv, Signing.Inv, RequestsOk, ReuseOk, ListOk;
    NextAt(d, generation, actions, n);
    Reachable(d, generation, actions, n);
    StepReload(d, s, actions[n]);
    SwappedForgets(d, s.reload, ReloadEvent(s, actions[n]), symbol, address);
  }

  lemma SwappedForgets(d: Deployment, s: Reload.State, e: Reload.Event, symbol: Symbol, address: string)
    requires Reload.Inv(d.world, s) && s.phase.Rest?
    requires Reload.Step(d.world, s, e).phase.Swapped?
    requires TokenFile.HasRow(s.tokens.projection.value, symbol, address)
    ensures var t := Reload.Step(d.world, s, e);
            && t.tokens.projection.Some?
            && (symbol in t.phase.forget <==> !TokenFile.HasRow(t.tokens.projection.value, symbol, address))
  {
    var t := Reload.Step(d.world, s, e);
    Reload.StepKeepsInv(d.world, s, e);
    SwappedForgetSet(d, s, e);
    TokenFile.ChangeForgetsExactly(s.tokens.projection.value, t.tokens.projection.value, symbol, address);
  }

  lemma SwappedForgetSet(d: Deployment, s: Reload.State, e: Reload.Event)
    requires Reload.Inv(d.world, s) && s.phase.Rest? && Reload.Step(d.world, s, e).phase.Swapped?
    ensures var t := Reload.Step(d.world, s, e);
            && t.tokens.projection.Some?
            && t.phase.forget == TokenFile.Removed(s.tokens.projection.value, t.tokens.projection.value)
                               + TokenFile.Readdressed(s.tokens.projection.value, t.tokens.projection.value)
  {
    hide TokenFile.Candidate, TokenFile.SameAs, TokenFile.Removed, TokenFile.Readdressed, Reload.StaticFieldChanged;
  }

  /** The step that ends an apply leaves every quote ever handed out for a forgotten symbol disowned, on every chain. */
  lemma ForgottenIsDisowned(d: Deployment, generation: int, actions: seq<Action>, n: nat, g: nat)
    requires Reload.BootFrom(d.world, generation).Ok? && n < |actions|
    requires At(d, generation, actions, n).reload.phase.Listed? && At(d, generation, actions, n + 1).reload.phase.Rest?
    requires g < |At(d, generation, actions, n).quotes.issued|
    requires At(d, generation, actions, n).quotes.issued[g].1 in At(d, generation, actions, n).reload.phase.forget
    ensures g !in At(d, generation, actions, n + 1).quotes.live
    ensures At(d, generation, actions, n).quotes.issued[g] !in At(d, generation, actions, n + 1).quotes.entries
  {
    var s := At(d, generation, actions, n);
    hide At, Step, Reload.BootFrom, Reload.Step;
    NextAt(d, generation, actions, n);
    Reachable(d, generation, actions, n);
    StepReload(d, s, actions[n]);
    StepQuotes(d, s, actions[n]);
    EndOfApply(d, s, actions[n], g);
  }

  lemma NextAt(d: Deployment, generation: int, actions: seq<Action>, n: nat)
    requires Reload.BootFrom(d.world, generation).Ok? && n < |actions|
    ensures At(d, generation, actions, n + 1) == Step(d, At(d, generation, actions, n), actions[n])
  {
    hide Step, Init, Reload.BootFrom;
  }

  lemma EndOfApply(d: Deployment, s: State, a: Action, g: nat)
    requires Inv(d, s) && s.reload.phase.Listed? && Reload.Step(d.world, s.reload, ReloadEvent(s, a)).phase.Rest?
    requires g < |s.quotes.issued| && s.quotes.issued[g].1 in s.reload.phase.forget
    ensures Quotes.Apply(s.quotes, QuoteEvent(s, a)) == s.quotes
    ensures g !in s.quotes.live && s.quotes.issued[g] !in s.quotes.entries
  {
    hide Signing.Inv, Reload.Inv, RequestsOk, ReuseOk, Reload.Decide, Reload.Classify;
    assert a.Unlocks? && CanUnlock(s);
  }

  // ---- quotes over a run ---------------------------------------------------------------

  /** The run, seen from the quote cache. */
  function QuoteEvents(d: Deployment, generation: int, actions: seq<Action>): (events: seq<Quotes.Event>)
    requires Reload.BootFrom(d.world, generation).Ok?
    ensures |events| == |actions|
  {
    seq(|actions|, m requires 0 <= m < |actions| => QuoteEvent(At(d, generation, actions, m), actions[m]))
  }

  lemma {:induction false} QuotesFollowEvents(d: Deployment, generation: int, actions: seq<Action>, n: nat)
    requires Reload.BootFrom(d.world, generation).Ok? && n <= |actions|
    ensures At(d, generation, actions, n).quotes
            == Quotes.After(Quotes.EMPTY, QuoteEvents(d, generation, actions), n)
  {
    hide Step, QuoteEvent, Quotes.Apply, Reload.BootFrom;
    if n > 0 {
      hide At;
      QuotesFollowEvents(d, generation, actions, n - 1);
      NextAt(d, generation, actions, n - 1);
      StepQuotes(d, At(d, generation, actions, n - 1), actions[n - 1]);
    }
  }

  predicate HasSet(stage: Stage) {
    stage.SetRead? || stage.Finishing?
  }

  /** A request's first snapshot is of the cache at its tick, for exactly the symbols its items need. */
  predicate FirstTaken(d: Deployment, generation: int, actions: seq<Action>, n: nat, req: Request)
    requires Reload.BootFrom(d.world, generation).Ok? && n <= |actions|
  {
    !req.stage.Arrived? ==>
      && req.stage.firstTick < n
      && req.stage.first == Quotes.SnapshotMany(At(d, generation, actions, req.stage.firstTick).quotes,
                                                d.env.chainId, Needed(req.items))
  }

  /** Its second is of the cache at a later tick, with every slot built, for exactly the symbols it had built. */
  predicate SecondTaken(d: Deployment, generation: int, actions: seq<Action>, n: nat, r: nat, req: Request)
    requires Reload.BootFrom(d.world, generation).Ok? && n <= |actions|
  {
    HasSecond(req.stage) ==>
      && req.stage.firstTick < req.stage.secondTick < n
      && var then_ := At(d, generation, actions, req.stage.secondTick);
         && r < |then_.requests| && then_.requests[r].stage.Building? && AllBuilt(then_.requests[r])
         && req.stage.second == Quotes.SnapshotMany(then_.quotes, d.env.chainId, BuiltSymbols(then_.requests[r]))
  }

  /** Its token set is the one running at a tick later still. */
  predicate SetTaken(d: Deployment, generation: int, actions: seq<Action>, n: nat, req: Request)
    requires Reload.BootFrom(d.world, generation).Ok? && n <= |actions|
  {
    HasSet(req.stage) ==>
      && req.stage.secondTick < req.stage.setTick < n
      && req.stage.registry == At(d, generation, actions, req.stage.setTick).reload.tokens.registry
  }

  predicate ReadingsHold(d: Deployment, generation: int, actions: seq<Action>, n: nat, r: nat, req: Request)
    requires Reload.BootFrom(d.world, generation).Ok? && n <= |actions|
  {
    && FirstTaken(d, generation, actions, n, req)
    && SecondTaken(d, generation, actions, n, r, req)
    && SetTaken(d, generation, actions, n, req)
  }

  predicate SameSecond(before: Stage, after: Stage) {
    HasSecond(before) && HasSecond(after) && after.second == before.second && after.secondTick == before.secondTick
  }

  /** How one step changes a request: it arrives, reads the present, or keeps what it has read. */
  predicate StageMoves(d: Deployment, s: State, before: Request, after: Request) {
    && after.items == before.items
    && (|| after.stage.Arrived?
        || (after.stage.Building? && after.stage.firstTick == s.tick
            && after.stage.first == Quotes.SnapshotMany(s.quotes, d.env.chainId, Needed(after.items)))
        || (!before.stage.Arrived? && !after.stage.Arrived?
            && after.stage.first == before.stage.first && after.stage.firstTick == before.stage.firstTick
            && (|| !HasSecond(after.stage)
                || SameSecond(before.stage, after.stage)
                || (after.stage.secondTick == s.tick && before.stage.Building? && AllBuilt(before)
                    && after.stage.second == Quotes.SnapshotMany(s.quotes, d.env.chainId, BuiltSymbols(before))))
            && (|| !HasSet(after.stage)
                || (HasSet(before.stage) && SameSecond(before.stage, after.stage)
                    && after.stage.registry == before.stage.registry && after.stage.setTick == before.stage.setTick)
                || (SameSecond(before.stage, after.stage)
                    && after.stage.setTick == s.tick && after.stage.registry == s.reload.tokens.registry))))
  }

  lemma StepMovesStages(d: Deployment, s: State, a: Action)
    ensures var t := Step(d, s, a);
            && t.tick == s.tick + 1 && |t.requests| >= |s.requests|
            && (forall r :: 0 <= r < |s.requests| ==> StageMoves(d, s, s.requests[r], t.requests[r]))
            && (forall r :: |s.requests| <= r < |t.requests| ==> t.requests[r].stage.Arrived?)
  {
    StepCases(d, s, a);
    hide StageMoves, SlotStep, RequestStep, RecheckStep, Resolved;
    if IsRequestAction(a) {
      RequestStepMovesStages(d, s, a);
    } else if IsSlotAction(a) {
      SlotStepMovesStages(d, s, a);
    } else if a.Recheck? {
      RecheckMovesStages(d, s, a.r, a.i);
    } else {
      StagesStay(d, s);
    }
  }

  lemma StagesStay(d: Deployment, s: State)
    ensures forall r :: 0 <= r < |s.requests| ==> StageMoves(d, s, s.requests[r], s.requests[r])
  {
  }

  lemma RequestStepMovesStages(d: Deployment, s: State, a: Action)
    requires IsRequestAction(a)
    ensures var t := RequestStep(d, s, a);
            && |t.requests| == |s.requests|
            && (forall r :: 0 <= r < |s.requests| ==> StageMoves(d, s, s.requests[r], t.requests[r]))
  {
    hide Quotes.SnapshotMany, Needed, BuiltSymbols, FirstSlots, AllBuilt;
  }

  lemma SameStage(d: Deployment, s: State, before: Request, after: Request)
    requires after.stage == before.stage && after.items == before.items
    ensures StageMoves(d, s, before, after)
  {
    hide Quotes.SnapshotMany, Needed, BuiltSymbols, AllBuilt;
  }

  lemma SlotStepMovesStages(d: Deployment, s: State, a: Action)
    requires IsSlotAction(a)
    ensures var t := SlotStep(d, s, a);
            && |t.requests| == |s.requests|
            && (forall r :: 0 <= r < |s.requests| ==> StageMoves(d, s, s.requests[r], t.requests[r]))
  {
    hide SlotStep, StageMoves;
    SlotStepWrites(d, s, a);
    forall r | 0 <= r < |s.requests|
      ensures StageMoves(d, s, s.requests[r], SlotStep(d, s, a).requests[r])
    {
      SameStage(d, s, s.requests[r], SlotStep(d, s, a).requests[r]);
    }
  }

  lemma RecheckMovesStages(d: Deployment, s: State, r: nat, i: nat)
    ensures var t := RecheckStep(s, r, i);
            && |t.requests| == |s.requests|
            && (forall q :: 0 <= q < |s.requests| ==> StageMoves(d, s, s.requests[q], t.requests[q]))
  {
    hide RecheckStep, StageMoves;
    RecheckWrites(s, r, i);
    forall q | 0 <= q < |s.requests|
      ensures StageMoves(d, s, s.requests[q], RecheckStep(s, r, i).requests[q])
    {
      SameStage(d, s, s.requests[q], RecheckStep(s, r, i).requests[q]);
    }
  }

  lemma NothingAtBoot(d: Deployment, generation: int, actions: seq<Action>)
    requires Reload.BootFrom(d.world, generation).Ok?
    ensures At(d, generation, actions, 0).requests == [] && At(d, generation, actions, 0).tick == 0
  {
    hide Step, Reload.BootFrom;
  }

  /** Every reading a request holds is of the server at the step recorded for it, in this order. */
  lemma {:induction false} ReadingsAreOfTheirTicks(d: Deployment, generation: int, actions: seq<Action>, n: nat)
    requires Reload.BootFrom(d.world, generation).Ok? && n <= |actions|
    ensures At(d, generation, actions, n).tick == n
    ensures forall r: nat :: r < |At(d, generation, actions, n).requests| ==>
              ReadingsHold(d, generation, actions, n, r, At(d, generation, actions, n).requests[r])
  {
    hide At, Step, ReadingsHold, StageMoves, Reload.BootFrom;
    if n == 0 {
      NothingAtBoot(d, generation, actions);
    } else {
      ReadingsAreOfTheirTicks(d, generation, actions, n - 1);
      NextAt(d, generation, actions, n - 1);
      StepMovesStages(d, At(d, generation, actions, n - 1), actions[n - 1]);
      forall r: nat | r < |At(d, generation, actions, n).requests|
        ensures ReadingsHold(d, generation, actions, n, r, At(d, generation, actions, n).requests[r])
      {
        OneRequestsReadings(d, generation, actions, n, r);
      }
    }
  }

  lemma OneRequestsReadings(d: Deployment, generation: int, actions: seq<Action>, n: nat, r: nat)
    requires Reload.BootFrom(d.world, generation).Ok? && 0 < n <= |actions|
    requires At(d, generation, actions, n - 1).tick == n - 1 && r < |At(d, generation, actions, n).requests|
    requires r < |At(d, generation, actions, n - 1).requests| ==>
               ReadingsHold(d, generation, actions, n - 1, r, At(d, generation, actions, n - 1).requests[r])
    ensures ReadingsHold(d, generation, actions, n, r, At(d, generation, actions, n).requests[r])
  {
    hide At, Step, ReadingsHold, StageMoves, Reload.BootFrom;
    NextAt(d, generation, actions, n - 1);
    StepMovesStages(d, At(d, generation, actions, n - 1), actions[n - 1]);
    if r < |At(d, generation, actions, n - 1).requests| {
      OneStageMoves(d, generation, actions, n, r, At(d, generation, actions, n).requests[r]);
    } else {
      ArrivedReadNothing(d, generation, actions, n, r, At(d, generation, actions, n).requests[r]);
    }
  }

  lemma ArrivedReadNothing(d: Deployment, generation: int, actions: seq<Action>, n: nat, r: nat, req: Request)
    requires Reload.BootFrom(d.world, generation).Ok? && n <= |actions| && req.stage.Arrived?
    ensures ReadingsHold(d, generation, actions, n, r, req)
  {
    hide At, Reload.BootFrom;
  }

  lemma OneStageMoves(d: Deployment, generation: int, actions: seq<Action>, n: nat, r: nat, after: Request)
    requires Reload.BootFrom(d.world, generation).Ok? && 0 < n <= |actions|
    requires At(d, generation, actions, n - 1).tick == n - 1 && r < |At(d, generation, actions, n - 1).requests|
    requires ReadingsHold(d, generation, actions, n - 1, r, At(d, generation, actions, n - 1).requests[r])
    requires StageMoves(d, At(d, generation, actions, n - 1), At(d, generation, actions, n - 1).requests[r], after)
    ensures ReadingsHold(d, generation, actions, n, r, after)
  {
    hide At, Reload.BootFrom, Quotes.SnapshotMany, Needed, BuiltSymbols, AllBuilt;
  }

  /** `key` was cached under one and the same generation after each of `i`, ..., `j` actions. */
  ghost predicate UnbrokenAt(d: Deployment, generation: int, actions: seq<Action>, key: Quotes.Key, g: nat, i: nat, j: nat)
    requires Reload.BootFrom(d.world, generation).Ok? && i <= j <= |actions|
  {
    forall m :: i <= m <= j ==>
      var quotes := At(d, generation, actions, m).quotes;
      key in quotes.entries && quotes.entries[key].generation == g
  }

  lemma LiveMeansUnbroken(d: Deployment, generation: int, actions: seq<Action>, key: Quotes.Key, g: nat, i: nat, j: nat)
    requires Reload.BootFrom(d.world, generation).Ok? && i <= j <= |actions|
    requires key in At(d, generation, actions, i).quotes.entries
    requires At(d, generation, actions, i).quotes.entries[key].generation == g
    ensures g in At(d, generation, actions, j).quotes.live <==> UnbrokenAt(d, generation, actions, key, g, i, j)
  {
    hide At, Reload.BootFrom, Inv;
    forall m | i <= m <= j
      ensures g in At(d, generation, actions, j).quotes.live ==>
                key in At(d, generation, actions, m).quotes.entries && At(d, generation, actions, m).quotes.entries[key].generation == g
    {
      LiveEarlier(d, generation, actions, key, g, i, m, j);
    }
    if UnbrokenAt(d, generation, actions, key, g, i, j) {
      Reachable(d, generation, actions, j);
      CachedIsLive(d, At(d, generation, actions, j), key);
    }
  }

  lemma CachedIsLive(d: Deployment, s: State, key: Quotes.Key)
    requires Inv(d, s) && key in s.quotes.entries
    ensures s.quotes.entries[key].generation in s.quotes.live
  {
    hide Signing.Inv, Reload.Inv, RequestsOk, ReuseOk, ListOk;
  }

  lemma LiveEarlier(d: Deployment, generation: int, actions: seq<Action>, key: Quotes.Key, g: nat, i: nat, m: nat, j: nat)
    requires Reload.BootFrom(d.world, generation).Ok? && i <= m <= j <= |actions|
    requires key in At(d, generation, actions, i).quotes.entries
    requires At(d, generation, actions, i).quotes.entries[key].generation == g
    ensures g in At(d, generation, actions, j).quotes.live ==>
              key in At(d, generation, actions, m).quotes.entries && At(d, generation, actions, m).quotes.entries[key].generation == g
  {
    hide At, Quotes.After, QuoteEvents, Reload.BootFrom;
    var events := QuoteEvents(d, generation, actions);
    QuotesFollowEvents(d, generation, actions, i);
    QuotesFollowEvents(d, generation, actions, m);
    QuotesFollowEvents(d, generation, actions, j);
    Quotes.LivenessRefinesHistory(Quotes.EMPTY, events, key, i, m);
    Quotes.LivenessRefinesHistory(Quotes.EMPTY, events, key, i, j);
  }

  /**
    No delivered price was disowned. From the moment of the request's first
    snapshot to its last liveness read, in every interleaving, no halt, stale
    source or forget removed the symbol: it was cached under the one generation
    both snapshots carry, although no step compares the two.
   */
  lemma NeverDisowned(d: Deployment, generation: int, actions: seq<Action>, n: nat, r: nat, i: nat)
    requires Reload.BootFrom(d.world, generation).Ok? && n < |actions|
    requires IsDelivered(At(d, generation, actions, n + 1), r, i) && !IsDelivered(At(d, generation, actions, n), r, i)
    ensures var req := At(d, generation, actions, n + 1).requests[r];
            && HasJob(req, i) && req.stage.Finishing?
            && req.stage.firstTick < req.stage.secondTick <= n
            && DisownedNowhere(d, generation, actions, n, JobOf(req, i), req.stage)
  {
    hide At, Step, Reload.BootFrom, DeliveredSafely, ReadingsHold, DisownedNowhere;
    NextAt(d, generation, actions, n);
    var s, t := At(d, generation, actions, n), At(d, generation, actions, n + 1);
    var req := t.requests[r];
    DeliveredItemIsSafe(d, generation, actions, n + 1, r, i);
    DeliveryReadsLive(d, s, actions[n], r, i);
    OneGeneration(d.env, t.signer.produced, JobOf(req, i), FinalOf(req), req.slots[i].stmt, req.slots[i].built);
    LiveWasNeverDisowned(d, generation, actions, n, r, i, req);
  }

  lemma OneGeneration(env: Env, produced: set<(Signing.Hash, Signing.Signature)>, job: Job, f: Final, stmt: Statement, b: Built)
    requires DeliveredSafely(env, produced, job, f, stmt, b)
    ensures job.item.pair.symbol in f.view && f.view[job.item.pair.symbol].generation == job.snap.generation
  {
  }

  lemma LiveWasNeverDisowned(d: Deployment, generation: int, actions: seq<Action>, n: nat, r: nat, i: nat, req: Request)
    requires Reload.BootFrom(d.world, generation).Ok? && n < |actions|
    requires HasJob(req, i) && req.stage.Finishing? && ReadingsHold(d, generation, actions, n + 1, r, req)
    requires JobOf(req, i).item.pair.symbol in req.stage.second
    requires JobOf(req, i).snap.generation in At(d, generation, actions, n).quotes.live
    ensures req.stage.firstTick < req.stage.secondTick <= n
    ensures DisownedNowhere(d, generation, actions, n, JobOf(req, i), req.stage)
  {
    hide At, Reload.BootFrom, UnbrokenAt;
    SnapshotsWereCached(d, generation, actions, n + 1, r, req, i);
    hide ReadingsHold;
    LiveMeansUnbroken(d, generation, actions, (d.env.chainId, JobOf(req, i).item.pair.symbol),
                      JobOf(req, i).snap.generation, req.stage.firstTick, n);
  }

  ghost predicate DisownedNowhere(d: Deployment, generation: int, actions: seq<Action>, n: nat, job: Job, stage: Stage)
    requires Reload.BootFrom(d.world, generation).Ok?
    requires stage.Finishing? && stage.firstTick < stage.secondTick <= n < |actions|
  {
    var key := (d.env.chainId, job.item.pair.symbol);
    var first := At(d, generation, actions, stage.firstTick).quotes;
    var second := At(d, generation, actions, stage.secondTick).quotes;
    && UnbrokenAt(d, generation, actions, key, job.snap.generation, stage.firstTick, n)
    && key in first.entries && first.entries[key].quote == job.snap.quote
    && key.1 in stage.second && key in second.entries && second.entries[key].quote == stage.second[key.1].quote
  }

  lemma SnapshotsWereCached(d: Deployment, generation: int, actions: seq<Action>, n: nat, r: nat, req: Request, i: nat)
    requires Reload.BootFrom(d.world, generation).Ok? && n <= |actions| && ReadingsHold(d, generation, actions, n, r, req)
    requires HasJob(req, i) && req.stage.Finishing? && JobOf(req, i).item.pair.symbol in req.stage.second
    ensures req.stage.firstTick < req.stage.secondTick < n
    ensures var job := JobOf(req, i);
            var key := (d.env.chainId, job.item.pair.symbol);
            var first := At(d, generation, actions, req.stage.firstTick).quotes;
            var second := At(d, generation, actions, req.stage.secondTick).quotes;
            && key in first.entries && first.entries[key] == Quotes.CachedQuote(job.snap.quote, job.snap.generation)
            && key in second.entries && second.entries[key].quote == req.stage.second[key.1].quote
  {
    hide At, Reload.BootFrom, BuiltSymbols, Needed, AllBuilt;
  }

  /** Only the final check of a slot delivers it. */
  lemma OnlyRecheckDelivers(d: Deployment, s: State, a: Action, r: nat, i: nat)
    requires !a.Recheck? && IsDelivered(Step(d, s, a), r, i)
    ensures IsDelivered(s, r, i)
  {
    hide SlotStep, RequestStep, RecheckStep, EnvironmentStep, Resolved;
    if IsSlotAction(a) {
      SlotStepDeliversNone(d, s, a, r, i);
    } else if IsRequestAction(a) {
      RequestStepDeliversNone(d, s, a, r, i);
    } else if !a.Arrive? {
      OuterStepFrame(d, s, a);
    }
  }

  lemma RequestStepDeliversNone(d: Deployment, s: State, a: Action, r: nat, i: nat)
    requires IsRequestAction(a)
    requires IsDelivered(RequestStep(d, s, a), r, i)
    ensures IsDelivered(s, r, i)
  {
    hide Quotes.SnapshotMany, Needed, BuiltSymbols, AllBuilt;
  }

  lemma SlotStepDeliversNone(d: Deployment, s: State, a: Action, r: nat, i: nat)
    requires IsSlotAction(a)
    requires IsDelivered(SlotStep(d, s, a), r, i)
    ensures IsDelivered(s, r, i)
  {
    hide SlotStep, Advance;
    SlotStepWrites(d, s, a);
    if BuildingSlot(s, a.r, a.i) && (a.r, a.i) == (r, i) {
      if a.AdvanceSlot? {
        AdvanceCase(d, s, a);
        AdvanceDeliversNone(d.env, SharedOf(s), JobOf(s.requests[r], i), s.requests[r].slots[i], a.clock, a.timedOut);
      } else {
        SlotStepMoves(d, s, a);
      }
    }
  }

  lemma AdvanceDeliversNone(env: Env, g: Shared, job: Job, slot: Slot, clock: Millis, timedOut: bool)
    ensures Advance(env, g, job, slot, clock, timedOut).Delivered? ==> slot.Delivered?
  {
  }

  /** The step that delivers is the final check of the slot, and it saw the current generation live. */
  lemma DeliveryReadsLive(d: Deployment, s: State, a: Action, r: nat, i: nat)
    requires IsDelivered(Step(d, s, a), r, i) && !IsDelivered(s, r, i)
    ensures var req := Step(d, s, a).requests[r];
            && HasJob(req, i) && req.stage.Finishing?
            && JobOf(req, i).item.pair.symbol in req.stage.second
            && req.stage.second[JobOf(req, i).item.pair.symbol].generation in s.quotes.live
  {
    if !a.Recheck? {
      OnlyRecheckDelivers(d, s, a, r, i);
    } else {
      RecheckReadsLive(s, a.r, a.i, r, i);
    }
  }

  lemma RecheckReadsLive(s: State, r: nat, i: nat, r': nat, i': nat)
    requires IsDelivered(RecheckStep(s, r, i), r', i') && !IsDelivered(s, r', i')
    ensures var req := RecheckStep(s, r, i).requests[r'];
            && HasJob(req, i') && req.stage.Finishing?
            && JobOf(req, i').item.pair.symbol in req.stage.second
            && req.stage.second[JobOf(req, i').item.pair.symbol].generation in s.quotes.live
  {
    assert r == r' && i == i';
    assert JobOf(RecheckStep(s, r, i).requests[r], i) == JobOf(s.requests[r], i);
  }
}
