/**
  Stores for reuse against revocation. A store takes its generation's gate,
  reads the flag, inserts and releases; a revocation takes the same gate. So a
  revocation waits for a store that has begun, and nothing of a generation
  enters the reuse map once it is revoked.
 */
module Gates {
  import opened Wire
  import opened Slots
  import opened System
  import opened Invariants
  import opened Frames
  import opened Theorems
  import Quotes
  import Reuse
  import Signing
  import Reload

  // ---- who holds a gate --------------------------------------------------------------------

  predicate HoldsGate(slot: Slot) {
    slot.Inserting? || slot.Releasing?
  }

  /** A slot inside the gate holds its own generation's, and one that will insert read a flag that is still set. */
  predicate GateOk(quotes: Quotes.State, gates: map<nat, (nat, nat)>, req: Request, r: nat, i: nat) {
    HasJob(req, i) && HoldsGate(req.slots[i]) ==>
      var g := JobOf(req, i).snap.generation;
      && g in gates && gates[g] == (r, i)
      && (req.slots[i].Inserting? ==> g in quotes.live)
  }

  ghost predicate GatesOk(s: State) {
    forall r: nat, i: nat :: r < |s.requests| && HasJob(s.requests[r], i) ==> GateOk(s.quotes, s.gates, s.requests[r], r, i)
  }

  /** What a slot action does to the gates: it takes or releases its own, and no other slot's changes. */
  lemma SlotStepGates(d: Deployment, s: State, a: Action)
    requires IsSlotAction(a) && BuildingSlot(s, a.r, a.i) && GateOk(s.quotes, s.gates, s.requests[a.r], a.r, a.i)
    ensures var t := SlotStep(d, s, a);
            && |t.requests| == |s.requests| && HasJob(t.requests[a.r], a.i)
            && GateOk(s.quotes, t.gates, t.requests[a.r], a.r, a.i)
            && forall g :: g in s.gates && s.gates[g] != (a.r, a.i) ==> g in t.gates && t.gates[g] == s.gates[g]
  {
    var job, slot := JobOf(s.requests[a.r], a.i), s.requests[a.r].slots[a.i];
    AdvanceHoldsNoGate(d.env, SharedOf(s), job, slot, a);
    SlotStepTakesOwnGate(d, s, a);
    SlotStepWrites(d, s, a);
    hide SlotStep, HoldsGate;
    assert JobOf(SlotStep(d, s, a).requests[a.r], a.i) == job;
  }

  lemma SlotStepTakesOwnGate(d: Deployment, s: State, a: Action)
    requires IsSlotAction(a) && BuildingSlot(s, a.r, a.i) && GateOk(s.quotes, s.gates, s.requests[a.r], a.r, a.i)
    ensures var t, g := SlotStep(d, s, a), JobOf(s.requests[a.r], a.i).snap.generation;
            && |t.requests| == |s.requests| && |t.requests[a.r].slots| == |s.requests[a.r].slots|
            && var next := t.requests[a.r].slots[a.i];
               && (HoldsGate(next) ==> g in t.gates && t.gates[g] == (a.r, a.i) && (next.Inserting? ==> g in s.quotes.live))
               && forall h :: h in s.gates && s.gates[h] != (a.r, a.i) ==> h in t.gates && t.gates[h] == s.gates[h]
  {
    if a.StoreGate? || a.StoreInsert? || a.StoreRelease? {
      hide StoredBy, ReuseKey, AfterStore;
      if s.requests[a.r].slots[a.i].Storing? || s.requests[a.r].slots[a.i].Releasing? {
        StoredIsReady(d.env, JobOf(s.requests[a.r], a.i), s.requests[a.r].slots[a.i]);
      }
    } else {
      hide SlotStep;
      OtherStepsTakeNoGate(d, s, a);
    }
  }

  lemma OtherStepsTakeNoGate(d: Deployment, s: State, a: Action)
    requires IsSlotAction(a) && BuildingSlot(s, a.r, a.i) && !a.StoreGate? && !a.StoreInsert? && !a.StoreRelease?
    ensures var t := SlotStep(d, s, a);
            && t.gates == s.gates && |t.requests| == |s.requests| && |t.requests[a.r].slots| == |s.requests[a.r].slots|
            && (HoldsGate(t.requests[a.r].slots[a.i]) ==> t.requests[a.r].slots[a.i] == s.requests[a.r].slots[a.i])
  {
    hide SlotStep;
    SlotStepWrites(d, s, a);
    if a.AdvanceSlot? {
      AdvanceKeepsGates(d, s, a);
      AdvanceStepHoldsNoGate(d, s, a);
    } else {
      SlotStepMoves(d, s, a);
      SideStepHoldsNoGate(d, s, a);
    }
  }

  lemma AdvanceStepHoldsNoGate(d: Deployment, s: State, a: Action)
    requires a.AdvanceSlot? && BuildingSlot(s, a.r, a.i)
    ensures var t, slot := SlotStep(d, s, a), s.requests[a.r].slots[a.i];
            && a.r < |t.requests| && a.i < |t.requests[a.r].slots|
            && (HoldsGate(t.requests[a.r].slots[a.i]) ==> t.requests[a.r].slots[a.i] == slot)
  {
    AdvanceHoldsNoGate(d.env, SharedOf(s), JobOf(s.requests[a.r], a.i), s.requests[a.r].slots[a.i], a);
    hide Advance;
  }

  lemma SideStepHoldsNoGate(d: Deployment, s: State, a: Action)
    requires (a.SignLock? || a.SignDone? || a.DropDeadSign?) && BuildingSlot(s, a.r, a.i)
    ensures var t, slot := SlotStep(d, s, a), s.requests[a.r].slots[a.i];
            && a.r < |t.requests| && a.i < |t.requests[a.r].slots|
            && (HoldsGate(t.requests[a.r].slots[a.i]) ==> t.requests[a.r].slots[a.i] == slot)
  {
    hide Signing.Apply, Signing.CompletedCell, Signing.CanComplete, Hash;
  }

  lemma AdvanceHoldsNoGate(env: Env, g: Shared, job: Job, slot: Slot, a: Action)
    ensures a.AdvanceSlot? ==>
              var next := Advance(env, g, job, slot, a.clock, a.timedOut);
              HoldsGate(next) ==> next == slot
  {
  }

  lemma SlotStepKeepsGates(d: Deployment, s: State, a: Action)
    requires IsSlotAction(a) && GatesOk(s)
    ensures GatesOk(SlotStep(d, s, a))
  {
    hide SlotStep;
    SlotStepWrites(d, s, a);
    SlotStepFrame(d, s, a);
    if BuildingSlot(s, a.r, a.i) {
      SlotStepGates(d, s, a);
      var t := SlotStep(d, s, a);
      forall r: nat, i: nat | r < |t.requests| && HasJob(t.requests[r], i)
        ensures GateOk(t.quotes, t.gates, t.requests[r], r, i)
      {
        if (r, i) != (a.r, a.i) {
          OtherGateStands(s, t, a.r, a.i, r, i);
        }
      }
    }
  }

  lemma OtherGateStands(s: State, t: State, r0: nat, i0: nat, r: nat, i: nat)
    requires GatesOk(s) && r0 < |s.requests| && i0 < |s.requests[r0].slots| && |t.requests| == |s.requests|
    requires |t.requests[r0].slots| == |s.requests[r0].slots|
    requires t.requests == WithSlot(s, r0, i0, t.requests[r0].slots[i0]).requests && t.quotes == s.quotes
    requires forall g :: g in s.gates && s.gates[g] != (r0, i0) ==> g in t.gates && t.gates[g] == s.gates[g]
    requires r < |t.requests| && HasJob(t.requests[r], i) && (r, i) != (r0, i0)
    ensures GateOk(t.quotes, t.gates, t.requests[r], r, i)
  {
    assert HasJob(s.requests[r], i) && JobOf(s.requests[r], i) == JobOf(t.requests[r], i);
    assert GateOk(s.quotes, s.gates, s.requests[r], r, i);
  }

  lemma RequestStepKeepsGates(d: Deployment, s: State, a: Action)
    requires IsRequestAction(a) && GatesOk(s)
    ensures GatesOk(RequestStep(d, s, a))
  {
    RequestStepFrame(d, s, a);
    hide Quotes.SnapshotMany, Needed, BuiltSymbols, AllBuilt;
    var t := RequestStep(d, s, a);
    forall r: nat, i: nat | r < |t.requests| && HasJob(t.requests[r], i)
      ensures GateOk(t.quotes, t.gates, t.requests[r], r, i)
    {
      assert HasJob(s.requests[r], i) ==> GateOk(s.quotes, s.gates, s.requests[r], r, i);
    }
  }

  lemma RecheckKeepsGates(s: State, r0: nat, i0: nat)
    requires GatesOk(s)
    ensures GatesOk(RecheckStep(s, r0, i0))
  {
    hide RecheckStep;
    RecheckWrites(s, r0, i0);
    var t := RecheckStep(s, r0, i0);
    if t != s {
      RecheckHoldsNoGate(s, r0, i0);
      forall r: nat, i: nat | r < |t.requests| && HasJob(t.requests[r], i)
        ensures GateOk(t.quotes, t.gates, t.requests[r], r, i)
      {
        if (r, i) != (r0, i0) {
          OtherGateStands(s, t, r0, i0, r, i);
        }
      }
    }
  }

  lemma RecheckHoldsNoGate(s: State, r: nat, i: nat)
    requires RecheckStep(s, r, i) != s
    ensures r < |s.requests| && i < |RecheckStep(s, r, i).requests[r].slots|
    ensures !HoldsGate(RecheckStep(s, r, i).requests[r].slots[i])
  {
  }

  /** Revocation waits: no action clears the flag of a generation whose gate is held. */
  lemma RevocationWaits(d: Deployment, s: State, a: Action, g: nat)
    requires g in s.gates && g in s.quotes.live
    ensures g in Step(d, s, a).quotes.live
  {
    hide Step;
    StepQuotes(d, s, a);
  }

  lemma StepKeepsGates(d: Deployment, s: State, a: Action)
    requires GatesOk(s)
    ensures GatesOk(Step(d, s, a))
  {
    StepCases(d, s, a);
    hide Step, SlotStep, RequestStep, RecheckStep, EnvironmentStep, Resolved, GateOk;
    if IsSlotAction(a) {
      SlotStepKeepsGates(d, s, a);
    } else if IsRequestAction(a) {
      RequestStepKeepsGates(d, s, a);
    } else if a.Recheck? {
      RecheckKeepsGates(s, a.r, a.i);
    } else if !a.Arrive? {
      OuterStepKeepsGates(d, s, a);
    }
  }

  lemma OuterStepKeepsGates(d: Deployment, s: State, a: Action)
    requires !IsInner(a) && GatesOk(s)
    ensures GatesOk(Step(d, s, a))
  {
    hide Step;
    OuterStepFrame(d, s, a);
    var t := Step(d, s, a);
    hide EnvironmentStep;
    forall r: nat, i: nat | r < |t.requests| && HasJob(t.requests[r], i)
      ensures GateOk(t.quotes, t.gates, t.requests[r], r, i)
    {
      assert GateOk(s.quotes, s.gates, s.requests[r], r, i);
      var g := JobOf(s.requests[r], i).snap.generation;
      if g in s.gates && g in s.quotes.live {
        RevocationWaits(d, s, a, g);
      }
    }
  }

  lemma {:induction false} GatesHold(d: Deployment, generation: int, actions: seq<Action>, n: nat)
    requires Reload.BootFrom(d.world, generation).Ok? && n <= |actions|
    ensures GatesOk(At(d, generation, actions, n))
  {
    hide At, Step, Reload.BootFrom, GatesOk;
    if n == 0 {
      NothingHeldAtBoot(d, generation, actions);
    } else {
      NextAt(d, generation, actions, n - 1);
      GatesHold(d, generation, actions, n - 1);
      StepKeepsGates(d, At(d, generation, actions, n - 1), actions[n - 1]);
    }
  }

  lemma NothingHeldAtBoot(d: Deployment, generation: int, actions: seq<Action>)
    requires Reload.BootFrom(d.world, generation).Ok?
    ensures GatesOk(At(d, generation, actions, 0))
  {
    hide Step, Reload.BootFrom;
  }

  /** In every run, at most one slot of one request is inside the gate of a generation. */
  lemma OneStoreAtATime(d: Deployment, generation: int, actions: seq<Action>, n: nat, r: nat, i: nat, r': nat, i': nat)
    requires Reload.BootFrom(d.world, generation).Ok? && n <= |actions|
    requires var s := At(d, generation, actions, n);
             && r < |s.requests| && HasJob(s.requests[r], i) && HoldsGate(s.requests[r].slots[i])
             && r' < |s.requests| && HasJob(s.requests[r'], i') && HoldsGate(s.requests[r'].slots[i'])
             && JobOf(s.requests[r], i).snap.generation == JobOf(s.requests[r'], i').snap.generation
    ensures (r, i) == (r', i')
  {
    hide At, Reload.BootFrom;
    GatesHold(d, generation, actions, n);
    var s := At(d, generation, actions, n);
    assert GateOk(s.quotes, s.gates, s.requests[r], r, i) && GateOk(s.quotes, s.gates, s.requests[r'], r', i');
  }

  // ---- what enters the reuse map -------------------------------------------------------------

  /** The step inserts an entry under `key`. */
  predicate Inserts(d: Deployment, s: State, a: Action, key: Reuse.Key) {
    && a.StoreInsert? && BuildingSlot(s, a.r, a.i) && s.requests[a.r].slots[a.i].Inserting?
    && ReuseKey(JobOf(s.requests[a.r], a.i)) == key
  }

  /** Only an insert changes the reuse map, and only under its own key. */
  lemma OnlyInsertsChangeReuse(d: Deployment, s: State, a: Action, key: Reuse.Key)
    ensures var t := Step(d, s, a);
            if Inserts(d, s, a, key) then
              var job := JobOf(s.requests[a.r], a.i);
              key in t.reuse && t.reuse[key] == StoredBy(d.env, job, s.requests[a.r].slots[a.i])
            else
              && (key in t.reuse <==> key in s.reuse)
              && (key in s.reuse ==> t.reuse[key] == s.reuse[key])
  {
    hide Step, SlotStep, StoredBy, ReuseKey;
    StepCases(d, s, a);
    if IsSlotAction(a) {
      SlotStepReuse(d, s, a);
    } else if IsInner(a) {
      InnerStepFrame(d, s, a);
    } else {
      OuterStepFrame(d, s, a);
      hide EnvironmentStep;
    }
  }

  lemma SlotStepReuse(d: Deployment, s: State, a: Action)
    requires IsSlotAction(a)
    ensures SlotStep(d, s, a).reuse ==
            if a.StoreInsert? && BuildingSlot(s, a.r, a.i) && s.requests[a.r].slots[a.i].Inserting? then
              var job := JobOf(s.requests[a.r], a.i);
              s.reuse[ReuseKey(job) := StoredBy(d.env, job, s.requests[a.r].slots[a.i])]
            else s.reuse
  {
    hide Advance, AfterStore, Signing.Apply, Signing.CompletedCell, Signing.CanComplete, StoredBy, ReuseKey, Hash;
  }

  /** A slot about to insert holds a generation that is live. */
  lemma InsertsWhileLive(d: Deployment, generation: int, actions: seq<Action>, n: nat, a: Action, key: Reuse.Key)
    requires Reload.BootFrom(d.world, generation).Ok? && n <= |actions|
    requires Inserts(d, At(d, generation, actions, n), a, key)
    ensures var s := At(d, generation, actions, n);
            JobOf(s.requests[a.r], a.i).snap.generation in s.quotes.live
  {
    hide At, Reload.BootFrom;
    GatesHold(d, generation, actions, n);
    var s := At(d, generation, actions, n);
    assert GateOk(s.quotes, s.gates, s.requests[a.r], a.r, a.i);
  }

  lemma RevokedStays(d: Deployment, generation: int, actions: seq<Action>, g: nat, i: nat, j: nat)
    requires Reload.BootFrom(d.world, generation).Ok? && i <= j <= |actions|
    requires g < |At(d, generation, actions, i).quotes.issued| && g !in At(d, generation, actions, i).quotes.live
    ensures g !in At(d, generation, actions, j).quotes.live
  {
    hide At, Quotes.After, QuoteEvents, Reload.BootFrom;
    QuotesFollowEvents(d, generation, actions, i);
    QuotesFollowEvents(d, generation, actions, j);
    Quotes.RevokedForGood(Quotes.EMPTY, QuoteEvents(d, generation, actions), g, i, j);
  }

  /**
    Nothing enters after revocation. In every run, an entry of a generation
    that was already revoked at step `i` and is in the map at step `j >= i` was
    in the map, under the same key, at step `i`.
   */
  lemma {:induction false} NothingEntersAfterRevocation(d: Deployment, generation: int, actions: seq<Action>,
                                                        i: nat, j: nat, key: Reuse.Key)
    requires Reload.BootFrom(d.world, generation).Ok? && i <= j <= |actions|
    requires key in At(d, generation, actions, j).reuse
    requires var g := At(d, generation, actions, j).reuse[key].generation;
             g < |At(d, generation, actions, i).quotes.issued| && g !in At(d, generation, actions, i).quotes.live
    ensures key in At(d, generation, actions, i).reuse
    ensures At(d, generation, actions, i).reuse[key] == At(d, generation, actions, j).reuse[key]
    decreases j
  {
    hide At, Reload.BootFrom;
    if i < j {
      NothingEntersInOneStep(d, generation, actions, i, j - 1, key);
      NothingEntersAfterRevocation(d, generation, actions, i, j - 1, key);
    }
  }

  lemma NothingEntersInOneStep(d: Deployment, generation: int, actions: seq<Action>, i: nat, m: nat, key: Reuse.Key)
    requires Reload.BootFrom(d.world, generation).Ok? && i <= m < |actions|
    requires key in At(d, generation, actions, m + 1).reuse
    requires var g := At(d, generation, actions, m + 1).reuse[key].generation;
             g < |At(d, generation, actions, i).quotes.issued| && g !in At(d, generation, actions, i).quotes.live
    ensures key in At(d, generation, actions, m).reuse
    ensures At(d, generation, actions, m).reuse[key] == At(d, generation, actions, m + 1).reuse[key]
  {
    hide At, Step, Reload.BootFrom, Inserts;
    NextAt(d, generation, actions, m);
    OnlyInsertsChangeReuse(d, At(d, generation, actions, m), actions[m], key);
    RevokedStays(d, generation, actions, At(d, generation, actions, m + 1).reuse[key].generation, i, m);
    if Inserts(d, At(d, generation, actions, m), actions[m], key) {
      InsertedIsLive(d, generation, actions, m, actions[m], key);
    }
  }

  lemma InsertedIsLive(d: Deployment, generation: int, actions: seq<Action>, n: nat, a: Action, key: Reuse.Key)
    requires Reload.BootFrom(d.world, generation).Ok? && n <= |actions|
    requires Inserts(d, At(d, generation, actions, n), a, key)
    ensures var s := At(d, generation, actions, n);
            var t := Step(d, s, a);
            && key in t.reuse && t.reuse[key].generation in s.quotes.live
            && t.reuse[key].generation == JobOf(s.requests[a.r], a.i).snap.generation
  {
    hide At, Step, Reload.BootFrom;
    InsertsWhileLive(d, generation, actions, n, a, key);
    OnlyInsertsChangeReuse(d, At(d, generation, actions, n), a, key);
  }

  lemma {:induction false} JobIsForLife(d: Deployment, generation: int, actions: seq<Action>, n: nat, m: nat, r: nat, i: nat)
    requires Reload.BootFrom(d.world, generation).Ok? && n <= m <= |actions|
    requires r < |At(d, generation, actions, n).requests| && HasJob(At(d, generation, actions, n).requests[r], i)
    ensures r < |At(d, generation, actions, m).requests| && HasJob(At(d, generation, actions, m).requests[r], i)
    ensures JobOf(At(d, generation, actions, m).requests[r], i) == JobOf(At(d, generation, actions, n).requests[r], i)
    decreases m
  {
    hide At, Step, Reload.BootFrom, HasJob;
    if n < m {
      NextAt(d, generation, actions, m - 1);
      JobIsForLife(d, generation, actions, n, m - 1, r, i);
      JobStays(d, At(d, generation, actions, m - 1), actions[m - 1], r, i);
    }
  }

  /**
    A late store is refused. In every run, once the generation of a slot's
    quote is revoked, that slot changes the reuse map no more, whichever step
    of its store it is at: the gate not yet taken, or waiting to be.
   */
  lemma LateStoreIsRefused(d: Deployment, generation: int, actions: seq<Action>, n: nat, m: nat, r: nat, i: nat)
    requires Reload.BootFrom(d.world, generation).Ok? && n <= m < |actions|
    requires BuildingSlot(At(d, generation, actions, n), r, i)
    requires JobOf(At(d, generation, actions, n).requests[r], i).snap.generation !in At(d, generation, actions, n).quotes.live
    requires actions[m] in {StoreGate(r, i), StoreInsert(r, i), StoreRelease(r, i)}
    ensures At(d, generation, actions, m + 1).reuse == At(d, generation, actions, m).reuse
  {
    hide At, Step, Reload.BootFrom, Inserts;
    NextAt(d, generation, actions, m);
    forall key: Reuse.Key
      ensures !Inserts(d, At(d, generation, actions, m), actions[m], key)
    {
      RevokedNeverInserts(d, generation, actions, n, m, r, i, key);
    }
    NoInsertNoChange(d, At(d, generation, actions, m), actions[m]);
  }

  lemma NoInsertNoChange(d: Deployment, s: State, a: Action)
    requires forall key: Reuse.Key :: !Inserts(d, s, a, key)
    ensures Step(d, s, a).reuse == s.reuse
  {
    hide Step, Inserts;
    forall key: Reuse.Key
      ensures key in Step(d, s, a).reuse <==> key in s.reuse
      ensures key in s.reuse ==> Step(d, s, a).reuse[key] == s.reuse[key]
    {
      assert !Inserts(d, s, a, key);
      OnlyInsertsChangeReuse(d, s, a, key);
    }
  }

  lemma RevokedNeverInserts(d: Deployment, generation: int, actions: seq<Action>, n: nat, m: nat, r: nat, i: nat, key: Reuse.Key)
    requires Reload.BootFrom(d.world, generation).Ok? && n <= m < |actions|
    requires BuildingSlot(At(d, generation, actions, n), r, i)
    requires JobOf(At(d, generation, actions, n).requests[r], i).snap.generation !in At(d, generation, actions, n).quotes.live
    requires actions[m] in {StoreGate(r, i), StoreInsert(r, i), StoreRelease(r, i)}
    ensures !Inserts(d, At(d, generation, actions, m), actions[m], key)
  {
    hide At, Step, Reload.BootFrom, Inserts, Inv;
    JobIsForLife(d, generation, actions, n, m, r, i);
    Reachable(d, generation, actions, n);
    JobIsIssued(d, At(d, generation, actions, n), r, i);
    RevokedStays(d, generation, actions, JobOf(At(d, generation, actions, n).requests[r], i).snap.generation, n, m);
    if Inserts(d, At(d, generation, actions, m), actions[m], key) {
      WhoInserts(d, At(d, generation, actions, m), actions[m], key, r, i);
      InsertsWhileLive(d, generation, actions, m, actions[m], key);
    }
  }

  lemma WhoInserts(d: Deployment, s: State, a: Action, key: Reuse.Key, r: nat, i: nat)
    requires Inserts(d, s, a, key) && a in {StoreGate(r, i), StoreInsert(r, i), StoreRelease(r, i)}
    ensures a.r == r && a.i == i
  {
  }

  lemma JobIsIssued(d: Deployment, s: State, r: nat, i: nat)
    requires Inv(d, s) && BuildingSlot(s, r, i)
    ensures var job := JobOf(s.requests[r], i);
            IssuedTo(d.env, s.quotes, job.snap.generation, job.item.pair.symbol)
  {
    hide Inv;
    BuildingSlotIsOk(d, s, r, i);
  }

  // ---- the order of what is stored -------------------------------------------------------------

  lemma NewestOfKey(q: Quotes.State, key: Quotes.Key, older: nat, g: nat)
    requires Quotes.Inv(q) && older < |q.issued| && g < |q.issued|
    requires q.issued[older] == key && q.issued[g] == key && g in q.live
    ensures older <= g
  {
  }

  /** A live generation is the newest of its symbol: no entry stored under a key of that symbol is newer. */
  lemma LiveIsNewest(d: Deployment, s: State, key: Reuse.Key, g: nat)
    requires Inv(d, s) && key in s.reuse
    requires IssuedTo(d.env, s.quotes, g, key.symbol) && g in s.quotes.live
    ensures s.reuse[key].generation <= g
  {
    hide Signing.Inv, Reload.Inv, RequestsOk, ListOk, ResponseOk, Quotes.Inv;
    assert StoredOk(d.env, SharedOf(s), key, s.reuse[key]);
    NewestOfKey(s.quotes, (d.env.chainId, key.symbol), s.reuse[key].generation, g);
  }

  lemma InsertIsNewer(d: Deployment, generation: int, actions: seq<Action>, n: nat, key: Reuse.Key)
    requires Reload.BootFrom(d.world, generation).Ok? && n < |actions|
    requires key in At(d, generation, actions, n).reuse
    ensures key in At(d, generation, actions, n + 1).reuse
    ensures At(d, generation, actions, n).reuse[key].generation <= At(d, generation, actions, n + 1).reuse[key].generation
  {
    hide At, Step, Reload.BootFrom, Inv;
    NextAt(d, generation, actions, n);
    var s, a := At(d, generation, actions, n), actions[n];
    OnlyInsertsChangeReuse(d, s, a, key);
    if Inserts(d, s, a, key) {
      Reachable(d, generation, actions, n);
      InsertedIsLive(d, generation, actions, n, a, key);
      JobIsIssued(d, s, a.r, a.i);
      LiveIsNewest(d, s, key, JobOf(s.requests[a.r], a.i).snap.generation);
    }
  }

  /** The generation stored under a reuse key never moves back to an older one. */
  lemma {:induction false} ReuseNeverGoesBack(d: Deployment, generation: int, actions: seq<Action>,
                                              i: nat, j: nat, key: Reuse.Key)
    requires Reload.BootFrom(d.world, generation).Ok? && i <= j <= |actions|
    requires key in At(d, generation, actions, i).reuse
    ensures key in At(d, generation, actions, j).reuse
    ensures At(d, generation, actions, i).reuse[key].generation <= At(d, generation, actions, j).reuse[key].generation
    decreases j
  {
    hide At, Reload.BootFrom;
    if i < j {
      ReuseNeverGoesBack(d, generation, actions, i, j - 1, key);
      InsertIsNewer(d, generation, actions, j - 1, key);
    }
  }

  /** A slot that reuses an entry, in any reachable state, reuses one of its own snapshot's generation. */
  lemma ReuseStaysInGeneration(d: Deployment, generation: int, actions: seq<Action>, n: nat, r: nat, i: nat)
    requires Reload.BootFrom(d.world, generation).Ok? && n <= |actions|
    requires r < |At(d, generation, actions, n).requests| && HasJob(At(d, generation, actions, n).requests[r], i)
    requires var slot := At(d, generation, actions, n).requests[r].slots[i]; slot.ReuseClock? || slot.ReuseLiveness?
    ensures var req := At(d, generation, actions, n).requests[r];
            && req.slots[i].stored.generation == JobOf(req, i).snap.generation
            && Reuse.SameStatement(req.slots[i].stored.response.context, req.slots[i].stmt.context)
  {
    hide At, Reload.BootFrom, Quotes.Inv, Signing.Inv, Reload.Inv;
    Reachable(d, generation, actions, n);
    var s := At(d, generation, actions, n);
    assert SlotOk(d.env, SharedOf(s), s.requests[r], i);
  }

  // ---- undisturbed, the three steps are one store ------------------------------------------------

  /** With the gate free, gate, insert and release in a row do what `store` does: save, and move on. */
  lemma StoreIsSave(d: Deployment, s: State, r: nat, i: nat)
    requires BuildingSlot(s, r, i) && s.requests[r].slots[i].Storing?
    requires JobOf(s.requests[r], i).snap.generation !in s.gates
    ensures var job, slot := JobOf(s.requests[r], i), s.requests[r].slots[i];
            var t := SlotStep(d, SlotStep(d, SlotStep(d, s, StoreGate(r, i)), StoreInsert(r, i)), StoreRelease(r, i));
            && t.reuse == Reuse.Save(s.reuse, d.env.margin, ReuseKey(job), StoredBy(d.env, job, slot),
                                     job.snap.generation in s.quotes.live)
            && t.gates == s.gates
            && t.requests == WithSlot(s, r, i, AfterStore(d.env, job, slot)).requests
  {
    hide Advance, ReuseKey;
    var job, slot := JobOf(s.requests[r], i), s.requests[r].slots[i];
    assert AfterStore(d.env, job, slot) == AfterStore(d.env, job, Releasing(slot.stmt, slot.signature));
    hide AfterStore;
    var a := SlotStep(d, s, StoreGate(r, i));
    var b := SlotStep(d, a, StoreInsert(r, i));
    if d.env.margin > 0 {
      assert b.requests[r].slots[i] == Releasing(slot.stmt, slot.signature) && JobOf(b.requests[r], i) == job;
      var req, next := s.requests[r], AfterStore(d.env, job, slot);
      assert b.requests[r].slots[i := next] == req.slots[i := next];
      assert b.gates - {job.snap.generation} == s.gates;
    }
  }
}
