/** What an action leaves alone, and what it does to each component of the server. */
module Frames {
  import opened Wire
  import opened Slots
  import opened System
  import Quotes
  import Signing
  import Reload
  import Subscription

  lemma SameSlotWritten(s: State, r: nat, i: nat)
    requires r < |s.requests| && i < |s.requests[r].slots|
    ensures WithSlot(s, r, i, s.requests[r].slots[i]) == s
  {
    var req := s.requests[r];
    assert req.slots[i := req.slots[i]] == req.slots && s.requests[r := req] == s.requests;
  }

  /** The one slot an action may write is all of the requests it changes. */
  predicate WritesSlot(s: State, t: State, a: Action)
    requires IsSlotAction(a) && BuildingSlot(s, a.r, a.i)
  {
    && |t.requests| == |s.requests| && |t.requests[a.r].slots| == |s.requests[a.r].slots|
    && t.requests == WithSlot(s, a.r, a.i, t.requests[a.r].slots[a.i]).requests
  }

  lemma AdvanceCase(d: Deployment, s: State, a: Action)
    requires a.AdvanceSlot? && BuildingSlot(s, a.r, a.i)
    ensures SlotStep(d, s, a)
            == WithSlot(s, a.r, a.i, Advance(d.env, SharedOf(s), JobOf(s.requests[a.r], a.i), s.requests[a.r].slots[a.i],
                                             a.clock, a.timedOut))
  {
    hide Advance;
  }

  lemma SignStepWrites(d: Deployment, s: State, a: Action)
    requires (a.SignLock? || a.SignDone? || a.DropDeadSign?) && BuildingSlot(s, a.r, a.i)
    ensures WritesSlot(s, SlotStep(d, s, a), a)
  {
    SameSlotWritten(s, a.r, a.i);
    hide Signing.Apply, Signing.CompletedCell, Signing.CanComplete, Hash;
  }

  lemma StoreStepWrites(d: Deployment, s: State, a: Action)
    requires (a.StoreGate? || a.StoreInsert? || a.StoreRelease?) && BuildingSlot(s, a.r, a.i)
    ensures WritesSlot(s, SlotStep(d, s, a), a)
  {
    SameSlotWritten(s, a.r, a.i);
    hide AfterStore, StoredBy, ReuseKey;
  }

  lemma IdleSlotStep(d: Deployment, s: State, a: Action)
    requires IsSlotAction(a) && !BuildingSlot(s, a.r, a.i)
    ensures SlotStep(d, s, a) == s
  {
  }

  /** A slot action writes one slot of one request, if that slot is being built. */
  lemma SlotStepWrites(d: Deployment, s: State, a: Action)
    requires IsSlotAction(a)
    ensures var t := SlotStep(d, s, a);
            if BuildingSlot(s, a.r, a.i) then WritesSlot(s, t, a) else t == s
  {
    hide SlotStep, Advance;
    if !BuildingSlot(s, a.r, a.i) {
      IdleSlotStep(d, s, a);
    } else if a.AdvanceSlot? {
      AdvanceCase(d, s, a);
    } else if a.SignLock? || a.SignDone? || a.DropDeadSign? {
      SignStepWrites(d, s, a);
    } else {
      StoreStepWrites(d, s, a);
    }
  }

  /** A signing step of a slot whose turn it is. */
  lemma SignCases(d: Deployment, s: State, r: nat, i: nat, instant: nat, first: set<nat>, second: set<nat>)
    requires BuildingSlot(s, r, i)
    ensures var slot := s.requests[r].slots[i];
            && (slot.SignLookup? && s.signer.lock.None? ==>
                  SlotStep(d, s, SignLock(r, i, instant))
                  == WithSlot(s, r, i, SignLocked(slot.stmt)).(
                       signer := Signing.Apply(d.limits, s.signer, Signing.Acquire((r, i), Hash(d, s, r, i), instant))))
            && (slot.SignLocked? && s.signer.lock.Some? && s.signer.lock.value.caller == (r, i)
                && s.signer.lock.value.hash == Hash(d, s, r, i) && Signing.CanComplete(s.signer, first, second) ==>
                  SlotStep(d, s, SignDone(r, i, first, second))
                  == WithSlot(s, r, i, SignWait(slot.stmt, Signing.CompletedCell(d.limits, s.signer, first))).(
                       signer := Signing.Apply(d.limits, s.signer, Signing.Complete(first, second))))
  {
    hide Signing.Apply, Signing.CompletedCell, Signing.CanComplete, Hash;
  }

  /** The three steps of a store, one by one. */
  lemma StoreCases(d: Deployment, s: State, r: nat, i: nat)
    requires BuildingSlot(s, r, i)
    ensures var job, slot := JobOf(s.requests[r], i), s.requests[r].slots[i];
            var g := job.snap.generation;
            && (slot.Storing? && d.env.margin == 0 ==>
                  SlotStep(d, s, StoreGate(r, i)) == WithSlot(s, r, i, AfterStore(d.env, job, slot)))
            && (slot.Storing? && d.env.margin > 0 && g !in s.gates ==>
                  SlotStep(d, s, StoreGate(r, i))
                  == WithSlot(s, r, i, if g in s.quotes.live then Inserting(slot.stmt, slot.signature)
                                       else Releasing(slot.stmt, slot.signature)).(gates := s.gates[g := (r, i)]))
            && (slot.Inserting? ==>
                  SlotStep(d, s, StoreInsert(r, i))
                  == WithSlot(s, r, i, Releasing(slot.stmt, slot.signature)).(
                       reuse := s.reuse[ReuseKey(job) := StoredBy(d.env, job, slot)]))
            && (slot.Releasing? ==>
                  SlotStep(d, s, StoreRelease(r, i))
                  == WithSlot(s, r, i, AfterStore(d.env, job, slot)).(gates := s.gates - {g}))
  {
    hide AfterStore, StoredBy, ReuseKey;
  }

  /** The waiter of a dead task evicts its cell and fails. */
  lemma DeadCase(d: Deployment, s: State, r: nat, i: nat)
    requires BuildingSlot(s, r, i) && s.requests[r].slots[i].SignDead? && s.signer.lock.None?
    ensures SlotStep(d, s, DropDeadSign(r, i))
            == WithSlot(s, r, i, Failed(Internal("signing task aborted"))).(
                 signer := Signing.Apply(d.limits, s.signer, Signing.EvictDead(s.requests[r].slots[i].cell)))
  {
    hide Signing.Apply;
  }

  /** What a slot action other than `AdvanceSlot` may make of its slot. */
  predicate SideMoves(slot: Slot, next: Slot) {
    || next == slot || next.Failed?
    || (slot.SignLookup? && next == SignLocked(slot.stmt))
    || (slot.SignLocked? && next.SignWait? && next.stmt == slot.stmt)
    || (slot.Storing? && next in {Inserting(slot.stmt, slot.signature), Releasing(slot.stmt, slot.signature)})
    || (slot.Inserting? && next == Releasing(slot.stmt, slot.signature))
    || ((slot.Storing? || slot.Releasing?) && next.Ready? && next.stmt == slot.stmt && next.built.reusedAt.None?)
  }

  lemma StoredMoves(env: Env, job: Job, slot: Slot)
    requires slot.Storing? || slot.Releasing?
    ensures SideMoves(slot, AfterStore(env, job, slot))
  {
  }

  lemma SlotStepMoves(d: Deployment, s: State, a: Action)
    requires IsSlotAction(a) && !a.AdvanceSlot? && BuildingSlot(s, a.r, a.i)
    ensures var t := SlotStep(d, s, a);
            && |t.requests| == |s.requests| && |t.requests[a.r].slots| == |s.requests[a.r].slots|
            && SideMoves(s.requests[a.r].slots[a.i], t.requests[a.r].slots[a.i])
            && (a.SignLock? || a.SignDone? || a.DropDeadSign? ==> t.gates == s.gates)
  {
    if a.SignLock? || a.SignDone? || a.DropDeadSign? {
      SignStepMoves(d, s, a);
    } else {
      StoreStepMoves(d, s, a);
    }
    hide SlotStep, SideMoves;
  }

  lemma SignStepMoves(d: Deployment, s: State, a: Action)
    requires (a.SignLock? || a.SignDone? || a.DropDeadSign?) && BuildingSlot(s, a.r, a.i)
    ensures var t := SlotStep(d, s, a);
            && |t.requests| == |s.requests| && |t.requests[a.r].slots| == |s.requests[a.r].slots|
            && SideMoves(s.requests[a.r].slots[a.i], t.requests[a.r].slots[a.i]) && t.gates == s.gates
  {
    hide Signing.Apply, Signing.CompletedCell, Signing.CanComplete, Hash;
  }

  lemma StoreStepMoves(d: Deployment, s: State, a: Action)
    requires (a.StoreGate? || a.StoreInsert? || a.StoreRelease?) && BuildingSlot(s, a.r, a.i)
    ensures var t := SlotStep(d, s, a);
            && |t.requests| == |s.requests| && |t.requests[a.r].slots| == |s.requests[a.r].slots|
            && SideMoves(s.requests[a.r].slots[a.i], t.requests[a.r].slots[a.i])
  {
    hide AfterStore, StoredBy, ReuseKey;
    var slot := s.requests[a.r].slots[a.i];
    if slot.Storing? || slot.Releasing? {
      StoredMoves(d.env, JobOf(s.requests[a.r], a.i), slot);
    }
  }

  lemma AdvanceKeepsGates(d: Deployment, s: State, a: Action)
    requires a.AdvanceSlot?
    ensures SlotStep(d, s, a).gates == s.gates
  {
    hide Advance;
  }

  lemma SlotStepFrame(d: Deployment, s: State, a: Action)
    requires IsSlotAction(a)
    ensures var t := SlotStep(d, s, a);
            t == s.(requests := t.requests, signer := t.signer, reuse := t.reuse, gates := t.gates)
  {
    if !BuildingSlot(s, a.r, a.i) {
      IdleSlotStep(d, s, a);
      hide SlotStep;
    } else if a.AdvanceSlot? {
      AdvanceCase(d, s, a);
      hide SlotStep, Advance;
    } else if a.SignLock? || a.SignDone? || a.DropDeadSign? {
      hide Signing.Apply, Signing.CompletedCell, Signing.CanComplete, Hash;
    } else {
      hide AfterStore, StoredBy, ReuseKey;
    }
  }

  lemma RequestStepFrame(d: Deployment, s: State, a: Action)
    requires IsRequestAction(a)
    ensures var t := RequestStep(d, s, a);
            t == s.(requests := t.requests) && |t.requests| == |s.requests|
  {
    hide Quotes.SnapshotMany, Needed, BuiltSymbols, FirstSlots, AllBuilt;
  }

  /** The final check of a slot writes that slot. */
  lemma RecheckWrites(s: State, r: nat, i: nat)
    ensures var t := RecheckStep(s, r, i);
            && t == s.(requests := t.requests) && |t.requests| == |s.requests|
            && (t != s ==>
                  && r < |s.requests| && s.requests[r].stage.Finishing? && HasJob(s.requests[r], i)
                  && |t.requests[r].slots| == |s.requests[r].slots|
                  && (s.requests[r].slots[i].Ready? || s.requests[r].slots[i].Rechecked?)
                  && t.requests == WithSlot(s, r, i, t.requests[r].slots[i]).requests)
  {
    hide CheckOwnQuote, CheckCurrentQuote;
  }

  /** Which of the step functions an action runs. */
  lemma StepCases(d: Deployment, s: State, a: Action)
    ensures IsSlotAction(a) ==> Step(d, s, a) == SlotStep(d, s, a).(tick := s.tick + 1)
    ensures IsRequestAction(a) ==> Step(d, s, a) == RequestStep(d, s, a).(tick := s.tick + 1)
    ensures a.Recheck? ==> Step(d, s, a) == RecheckStep(s, a.r, a.i).(tick := s.tick + 1)
    ensures a.Arrive? ==>
              Step(d, s, a) == s.(requests := s.requests + [Request(a.schema, Resolved(s.reload.tokens.registry, a.orders), Arrived, [])],
                                  tick := s.tick + 1)
  {
    hide SlotStep, RequestStep, RecheckStep, EnvironmentStep, Resolved;
  }

  /** An action of a request, not of the feed, the tasks, the reloader or the session. */
  predicate IsInner(a: Action) {
    a.Arrive? || IsRequestAction(a) || IsSlotAction(a) || a.Recheck?
  }

  lemma InnerStepFrame(d: Deployment, s: State, a: Action)
    requires IsInner(a)
    ensures var t := Step(d, s, a);
            && t.quotes == s.quotes && t.reload == s.reload && t.writer == s.writer && t.session == s.session
            && (!IsSlotAction(a) ==> t.signer == s.signer && t.reuse == s.reuse && t.gates == s.gates)
  {
    StepCases(d, s, a);
    hide Step, SlotStep, RequestStep, RecheckStep, Resolved;
    if IsSlotAction(a) {
      SlotStepFrame(d, s, a);
    } else if IsRequestAction(a) {
      RequestStepFrame(d, s, a);
    } else if a.Recheck? {
      RecheckWrites(s, a.r, a.i);
    }
  }

  lemma OuterStepFrame(d: Deployment, s: State, a: Action)
    requires !IsInner(a)
    ensures var t := Step(d, s, a);
            && t == EnvironmentStep(d, s, a).(tick := s.tick + 1)
            && t.requests == s.requests && t.reuse == s.reuse && t.gates == s.gates
  {
    hide SlotStep, RequestStep, RecheckStep, Quotes.Apply, Signing.Apply, Reload.Step, Subscription.Step, WriterStep;
  }

  lemma QuietLeavesAlone(d: Deployment, s: State)
    ensures Signing.Apply(d.limits, s.signer, Signing.Quiet) == s.signer
    ensures Reload.Step(d.world, s.reload, Reload.Quiet) == s.reload
    ensures Subscription.Step(s.session, Subscription.Quiet) == s.session
    ensures Quotes.Apply(s.quotes, Quotes.Quiet) == s.quotes
  {
  }

  /** A price frame's steps touch the write lock and, at the end, the cache. */
  lemma FrameSteps(d: Deployment, s: State, a: Action)
    requires a.FrameLocks? || a.FrameChecks? || a.FrameStores?
    ensures Step(d, s, a)
            == s.(quotes := Quotes.Apply(s.quotes, QuoteEvent(s, a)), writer := WriterStep(s, a), tick := s.tick + 1)
  {
    hide Step, WriterStep, QuoteEvent, Quotes.Apply, Signing.Apply, Reload.Step, Subscription.Step;
    QuietLeavesAlone(d, s);
    OuterStepFrame(d, s, a);
  }

  /** A sign task's steps touch the signer. */
  lemma TaskSteps(d: Deployment, s: State, a: Action)
    requires a.CallReturns? || a.EvictRefused? || a.Broadcast? || a.TaskDies?
    ensures Step(d, s, a) == s.(signer := Signing.Apply(d.limits, s.signer, TaskEvent(a)), tick := s.tick + 1)
  {
    hide Step, TaskEvent, Quotes.Apply, Signing.Apply, Reload.Step, Subscription.Step;
    QuietLeavesAlone(d, s);
    OuterStepFrame(d, s, a);
  }

  lemma StepQuotes(d: Deployment, s: State, a: Action)
    ensures Step(d, s, a).quotes == Quotes.Apply(s.quotes, QuoteEvent(s, a))
  {
    hide Step;
    if IsInner(a) {
      InnerStepFrame(d, s, a);
      assert QuoteEvent(s, a).Quiet?;
    } else {
      OuterStepFrame(d, s, a);
      hide Quotes.Apply, QuoteEvent;
    }
  }

  lemma StepReload(d: Deployment, s: State, a: Action)
    ensures Step(d, s, a).reload == Reload.Step(d.world, s.reload, ReloadEvent(s, a))
  {
    hide Step;
    if IsInner(a) {
      InnerStepFrame(d, s, a);
      assert ReloadEvent(s, a).Quiet?;
    } else {
      OuterStepFrame(d, s, a);
      hide Reload.Step, ReloadEvent;
    }
  }

  lemma StepSession(d: Deployment, s: State, a: Action)
    ensures Step(d, s, a).session == Subscription.Step(s.session, SessionEvent(s, a))
  {
    hide Step;
    if IsInner(a) {
      InnerStepFrame(d, s, a);
      assert SessionEvent(s, a).Quiet?;
    } else {
      OuterStepFrame(d, s, a);
      hide Subscription.Step, SessionEvent;
    }
  }

  /** What an action does to the signer. */
  function SignEvent(d: Deployment, s: State, a: Action): Signing.Event {
    if !IsSlotAction(a) then TaskEvent(a)
    else if !BuildingSlot(s, a.r, a.i) then Signing.Quiet
    else
      var slot := s.requests[a.r].slots[a.i];
      match a
      case SignLock(r, i, instant) =>
        if slot.SignLookup? && s.signer.lock.None? then Signing.Acquire((r, i), Hash(d, s, r, i), instant) else Signing.Quiet
      case SignDone(r, i, first, second) =>
        if && slot.SignLocked? && s.signer.lock.Some? && s.signer.lock.value.caller == (r, i)
           && s.signer.lock.value.hash == Hash(d, s, r, i) && Signing.CanComplete(s.signer, first, second)
        then Signing.Complete(first, second) else Signing.Quiet
      case DropDeadSign(r, i) =>
        if slot.SignDead? && s.signer.lock.None? then Signing.EvictDead(slot.cell) else Signing.Quiet
      case _ => Signing.Quiet
  }

  lemma SlotStepSigner(d: Deployment, s: State, a: Action)
    requires IsSlotAction(a)
    ensures SlotStep(d, s, a).signer == Signing.Apply(d.limits, s.signer, SignEvent(d, s, a))
  {
    assert Signing.Apply(d.limits, s.signer, Signing.Quiet) == s.signer;
    hide Advance, AfterStore, Signing.Apply, Signing.CompletedCell, Signing.CanComplete, StoredBy, ReuseKey, Hash;
  }

  lemma StepSigner(d: Deployment, s: State, a: Action)
    ensures Step(d, s, a).signer == Signing.Apply(d.limits, s.signer, SignEvent(d, s, a))
  {
    hide Step, SlotStep;
    StepCases(d, s, a);
    if IsSlotAction(a) {
      SlotStepSigner(d, s, a);
      hide SignEvent, Signing.Apply;
    } else if IsInner(a) {
      InnerStepFrame(d, s, a);
      assert SignEvent(d, s, a).Quiet?;
    } else {
      OuterStepFrame(d, s, a);
      assert SignEvent(d, s, a) == TaskEvent(a);
      hide SignEvent, Signing.Apply, TaskEvent;
    }
  }

  /** Once a slot has its job, it keeps it. */
  lemma JobStays(d: Deployment, s: State, a: Action, r: nat, i: nat)
    requires r < |s.requests| && HasJob(s.requests[r], i)
    ensures var t := Step(d, s, a);
            r < |t.requests| && HasJob(t.requests[r], i) && JobOf(t.requests[r], i) == JobOf(s.requests[r], i)
  {
    StepCases(d, s, a);
    hide Step, SlotStep, RequestStep, RecheckStep, EnvironmentStep, Resolved;
    if IsSlotAction(a) {
      SlotStepWrites(d, s, a);
    } else if IsRequestAction(a) {
      RequestStepKeepsJob(d, s, a, r, i);
    } else if a.Recheck? {
      RecheckWrites(s, a.r, a.i);
    } else if !a.Arrive? {
      OuterStepFrame(d, s, a);
    }
  }

  lemma RequestStepKeepsJob(d: Deployment, s: State, a: Action, r: nat, i: nat)
    requires IsRequestAction(a) && r < |s.requests| && HasJob(s.requests[r], i)
    ensures var t := RequestStep(d, s, a);
            r < |t.requests| && HasJob(t.requests[r], i) && JobOf(t.requests[r], i) == JobOf(s.requests[r], i)
  {
    hide Quotes.SnapshotMany, Needed, BuiltSymbols, FirstSlots, AllBuilt;
  }
}
