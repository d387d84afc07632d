/**
  Where the times in a slot and a request come from: each is a reading of the
  clock at a step of the run, taken where the builder takes it.
 */
module Clocks {
  import opened Wire
  import opened Deadlines
  import opened Slots
  import opened System
  import opened Invariants
  import opened Frames
  import opened Theorems
  import opened Guards
  import Quotes
  import Signing
  import Reload
  import Reuse
  import Contexts

  /** What a slot has read: the second of its reuse lookup, and the time its reuse or its signature is checked at. */
  datatype Reading = LookupAt(secs: int) | CheckedAt(ms: int)

  /** The readings a slot carries, or has handed on to its response. */
  function Readings(slot: Slot): set<Reading> {
    match slot
    case Lookup(_, nowSecs) => {LookupAt(nowSecs)}
    case LookupChecks(_, nowSecs, _) => {LookupAt(nowSecs)}
    case ReuseClock(_, nowSecs, _) => {LookupAt(nowSecs)}
    case ReuseLiveness(_, nowSecs, _, atMs) => {LookupAt(nowSecs), CheckedAt(atMs)}
    case PostSignChecks(_, _, atMs) => {CheckedAt(atMs)}
    case Ready(_, built) => if built.reusedAt.Some? then {LookupAt(built.reusedAt.value)} else {}
    case Rechecked(_, built) => if built.reusedAt.Some? then {LookupAt(built.reusedAt.value)} else {}
    case Delivered(_, built) => if built.reusedAt.Some? then {LookupAt(built.reusedAt.value)} else {}
    case _ => {}
  }

  /** The slot stands where it reads the clock, and this is what it reads. */
  predicate ReadsNow(slot: Slot, clock: Millis, reading: Reading) {
    match reading
    case LookupAt(secs) => slot.LookupClock? && secs == clock / 1000
    case CheckedAt(ms) => (slot.ReuseClock? || slot.PostSignClock?) && ms == clock
  }

  lemma AdvanceReads(env: Env, g: Shared, job: Job, slot: Slot, clock: Millis, timedOut: bool, reading: Reading)
    requires reading in Readings(Advance(env, g, job, slot, clock, timedOut))
    ensures reading in Readings(slot) || ReadsNow(slot, clock, reading)
  {
    hide Contexts.BuildStatement, CheckQuoteExpiry, Reuse.Accepts, Reuse.Fetch, ReuseKey;
  }

  /** Slot `i` of request `r` reads the clock in the step from `s`. */
  predicate ReadsClock(s: State, a: Action, r: nat, i: nat, reading: Reading) {
    && a.AdvanceSlot? && a.r == r && a.i == i && BuildingSlot(s, r, i)
    && ReadsNow(s.requests[r].slots[i], a.clock, reading)
  }

  predicate ReadFairly(s: State, t: State, a: Action, r: nat, i: nat, reading: Reading)
    requires HasSlot(t, r, i) && reading in Readings(t.requests[r].slots[i])
  {
    HasSlot(s, r, i) && (reading in Readings(s.requests[r].slots[i]) || ReadsClock(s, a, r, i, reading))
  }

  lemma OneSlotReads(s: State, t: State, a: Action, r0: nat, i0: nat, slot: Slot, r: nat, i: nat, reading: Reading)
    requires HasSlot(s, r0, i0) && t.requests == WithSlot(s, r0, i0, slot).requests
    requires reading in Readings(slot) ==> reading in Readings(s.requests[r0].slots[i0]) || ReadsClock(s, a, r0, i0, reading)
    requires HasSlot(t, r, i) && reading in Readings(t.requests[r].slots[i])
    ensures ReadFairly(s, t, a, r, i, reading)
  {
    hide Readings, ReadsClock;
    if r == r0 && i == i0 {
      assert t.requests[r].slots[i] == slot;
    }
  }

  lemma SlotStepReads(d: Deployment, s: State, a: Action, r: nat, i: nat, reading: Reading)
    requires IsSlotAction(a)
    requires HasSlot(SlotStep(d, s, a), r, i) && reading in Readings(SlotStep(d, s, a).requests[r].slots[i])
    ensures ReadFairly(s, SlotStep(d, s, a), a, r, i, reading)
  {
    hide SlotStep, Readings, Advance, ReadsNow;
    var t := SlotStep(d, s, a);
    SlotStepWrites(d, s, a);
    if BuildingSlot(s, a.r, a.i) {
      var slot, next := s.requests[a.r].slots[a.i], t.requests[a.r].slots[a.i];
      if reading in Readings(next) {
        if a.AdvanceSlot? {
          AdvanceCase(d, s, a);
          AdvanceReads(d.env, SharedOf(s), JobOf(s.requests[a.r], a.i), slot, a.clock, a.timedOut, reading);
        } else {
          SlotStepMoves(d, s, a);
          SideReadsNothing(slot, next, reading);
        }
      }
      OneSlotReads(s, t, a, a.r, a.i, next, r, i, reading);
    }
  }

  lemma SideReadsNothing(slot: Slot, next: Slot, reading: Reading)
    requires SideMoves(slot, next) && reading in Readings(next)
    ensures reading in Readings(slot)
  {
  }

  lemma RecheckReadsNothing(s: State, r: nat, i: nat, reading: Reading)
    requires RecheckStep(s, r, i) != s
    ensures r < |s.requests| && i < |s.requests[r].slots| && i < |RecheckStep(s, r, i).requests[r].slots|
    ensures reading in Readings(RecheckStep(s, r, i).requests[r].slots[i]) ==> reading in Readings(s.requests[r].slots[i])
  {
    hide CheckQuoteExpiry, CheckAddress;
  }

  lemma RequestStepReadsNothing(d: Deployment, s: State, a: Action, r: nat, i: nat, reading: Reading)
    requires IsRequestAction(a)
    requires HasSlot(RequestStep(d, s, a), r, i) && reading in Readings(RequestStep(d, s, a).requests[r].slots[i])
    ensures ReadFairly(s, RequestStep(d, s, a), a, r, i, reading)
  {
    hide Quotes.SnapshotMany, Needed, BuiltSymbols, AllBuilt;
  }

  lemma StepReads(d: Deployment, s: State, a: Action, r: nat, i: nat, reading: Reading)
    requires HasSlot(Step(d, s, a), r, i) && reading in Readings(Step(d, s, a).requests[r].slots[i])
    ensures ReadFairly(s, Step(d, s, a), a, r, i, reading)
  {
    hide Step, SlotStep, RequestStep, RecheckStep, EnvironmentStep, Resolved, Readings, ReadsClock;
    StepCases(d, s, a);
    if IsSlotAction(a) {
      SlotStepReads(d, s, a, r, i, reading);
    } else if IsRequestAction(a) {
      RequestStepReadsNothing(d, s, a, r, i, reading);
    } else if a.Recheck? {
      RecheckWrites(s, a.r, a.i);
      if RecheckStep(s, a.r, a.i) != s {
        RecheckReadsNothing(s, a.r, a.i, reading);
        OneSlotReads(s, RecheckStep(s, a.r, a.i), a, a.r, a.i, RecheckStep(s, a.r, a.i).requests[a.r].slots[a.i], r, i, reading);
      }
    } else if !a.Arrive? {
      OuterStepFrame(d, s, a);
    }
  }

  /**
    Every time in a slot was read off the clock, in every run: the second of a
    reuse lookup at the slot's lookup, the time a reuse or a signature was
    checked at when the slot stood just before that check.
   */
  lemma {:induction false} TimesWereRead(d: Deployment, generation: int, actions: seq<Action>, n: nat, r: nat, i: nat,
                                         reading: Reading) returns (m: nat)
    requires Reload.BootFrom(d.world, generation).Ok? && n <= |actions|
    requires HasSlot(At(d, generation, actions, n), r, i)
    requires reading in Readings(At(d, generation, actions, n).requests[r].slots[i])
    ensures m < n && ReadsClock(At(d, generation, actions, m), actions[m], r, i, reading)
  {
    hide At, Step, Readings, ReadsClock, Reload.BootFrom;
    if n == 0 {
      NoSlotAtBoot(d, generation, actions, r, i);
    } else {
      NextAt(d, generation, actions, n - 1);
      StepReads(d, At(d, generation, actions, n - 1), actions[n - 1], r, i, reading);
      if reading in Readings(At(d, generation, actions, n - 1).requests[r].slots[i]) {
        m := TimesWereRead(d, generation, actions, n - 1, r, i, reading);
      } else {
        m := n - 1;
      }
    }
  }

  // ---- the one final time ----------------------------------------------------------------------

  /** How one step changes a request's final time: the clock is read then, with the set already read, or it stays. */
  lemma StepReadsFinal(d: Deployment, s: State, a: Action, r: nat)
    requires r < |Step(d, s, a).requests| && Step(d, s, a).requests[r].stage.Finishing?
    ensures var after := Step(d, s, a).requests[r].stage;
            && r < |s.requests|
            && if s.requests[r].stage.Finishing?
               then after.atMs == s.requests[r].stage.atMs && after.setTick == s.requests[r].stage.setTick
               else a == ReadClock(r, after.atMs) && s.requests[r].stage.SetRead? && after.setTick == s.requests[r].stage.setTick
  {
    hide Step, SlotStep, RecheckStep, EnvironmentStep, Resolved;
    StepCases(d, s, a);
    if IsSlotAction(a) {
      SlotStepWrites(d, s, a);
    } else if IsRequestAction(a) {
      hide Quotes.SnapshotMany, Needed, BuiltSymbols, AllBuilt, FirstSlots;
    } else if a.Recheck? {
      RecheckWrites(s, a.r, a.i);
    } else if !a.Arrive? {
      OuterStepFrame(d, s, a);
    }
  }

  /** A request in its final pass read its one final time off the clock, after the token set. */
  lemma {:induction false} FinalTimeWasRead(d: Deployment, generation: int, actions: seq<Action>, n: nat, r: nat) returns (m: nat)
    requires Reload.BootFrom(d.world, generation).Ok? && n <= |actions|
    requires r < |At(d, generation, actions, n).requests| && At(d, generation, actions, n).requests[r].stage.Finishing?
    ensures m < n && actions[m] == ReadClock(r, At(d, generation, actions, n).requests[r].stage.atMs)
    ensures At(d, generation, actions, n).requests[r].stage.setTick < m
  {
    hide At, Step, Reload.BootFrom;
    if n == 0 {
      NothingAtBoot(d, generation, actions);
    } else {
      NextAt(d, generation, actions, n - 1);
      StepReadsFinal(d, At(d, generation, actions, n - 1), actions[n - 1], r);
      if At(d, generation, actions, n - 1).requests[r].stage.Finishing? {
        m := FinalTimeWasRead(d, generation, actions, n - 1, r);
      } else {
        m := n - 1;
        SetWasRead(d, generation, actions, n - 1, r);
      }
    }
  }

  lemma SetWasRead(d: Deployment, generation: int, actions: seq<Action>, n: nat, r: nat)
    requires Reload.BootFrom(d.world, generation).Ok? && n <= |actions|
    requires r < |At(d, generation, actions, n).requests| && At(d, generation, actions, n).requests[r].stage.SetRead?
    ensures At(d, generation, actions, n).requests[r].stage.setTick < n
  {
    hide At, Reload.BootFrom, FirstTaken, SecondTaken;
    ReadingsAreOfTheirTicks(d, generation, actions, n);
    assert ReadingsHold(d, generation, actions, n, r, At(d, generation, actions, n).requests[r]);
  }
}
