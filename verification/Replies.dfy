/**
  From slots to reply. The outcomes that a reply is made of are those of the
  request's own slots in a run of the server: what a slot resolved to, what its
  build ended with at the second snapshot, and what its final check ended with.
 */
module Replies {
  import opened Wire
  import opened Contexts
  import opened Slots
  import opened System
  import opened Invariants
  import opened Frames
  import opened Theorems
  import Quotes
  import Signing
  import Reload
  import Batch

  // ---- a failed slot keeps its error ------------------------------------------------------

  lemma FailedAdvancesNowhere(d: Deployment, s: State, a: Action)
    requires IsSlotAction(a) && BuildingSlot(s, a.r, a.i) && s.requests[a.r].slots[a.i].Failed?
    ensures SlotStep(d, s, a) == s
  {
    SameSlotWritten(s, a.r, a.i);
    hide Signing.Apply, Signing.CompletedCell, Signing.CanComplete, AfterStore, StoredBy, ReuseKey, Hash;
  }

  /** A slot that has failed stays failed, with the same error. */
  lemma FailedStays(d: Deployment, s: State, a: Action, r: nat, i: nat)
    requires r < |s.requests| && !s.requests[r].stage.Arrived? && i < |s.requests[r].slots| && s.requests[r].slots[i].Failed?
    ensures var t := Step(d, s, a);
            && r < |t.requests| && !t.requests[r].stage.Arrived? && i < |t.requests[r].slots|
            && t.requests[r].slots[i] == s.requests[r].slots[i]
  {
    hide Step, SlotStep, RecheckStep, EnvironmentStep, Resolved;
    StepCases(d, s, a);
    if IsSlotAction(a) {
      SlotStepWrites(d, s, a);
      if BuildingSlot(s, a.r, a.i) && (a.r, a.i) == (r, i) {
        FailedAdvancesNowhere(d, s, a);
      }
    } else if IsRequestAction(a) {
      hide Quotes.SnapshotMany, Needed, BuiltSymbols, FirstSlots, AllBuilt;
    } else if a.Recheck? {
      RecheckWrites(s, a.r, a.i);
    } else if !a.Arrive? {
      OuterStepFrame(d, s, a);
    }
  }

  lemma {:induction false} FailedForGood(d: Deployment, generation: int, actions: seq<Action>, m: nat, n: nat, r: nat, i: nat)
    requires Reload.BootFrom(d.world, generation).Ok? && m <= n <= |actions|
    requires var s := At(d, generation, actions, m);
             && r < |s.requests| && !s.requests[r].stage.Arrived? && i < |s.requests[r].slots|
             && s.requests[r].slots[i].Failed?
    ensures var s, t := At(d, generation, actions, m), At(d, generation, actions, n);
            && r < |t.requests| && !t.requests[r].stage.Arrived? && i < |t.requests[r].slots|
            && t.requests[r].slots[i] == s.requests[r].slots[i]
    decreases n
  {
    hide At, Step, Reload.BootFrom;
    if m < n {
      FailedForGood(d, generation, actions, m, n - 1, r, i);
      NextAt(d, generation, actions, n - 1);
      FailedStays(d, At(d, generation, actions, n - 1), actions[n - 1], r, i);
    }
  }

  // ---- a slot that did not resolve ---------------------------------------------------------

  /** One slot per item, and an item that did not resolve is a slot that failed with its error. */
  predicate ErrorsKept(req: Request) {
    !req.stage.Arrived? ==>
      && |req.slots| == |req.items|
      && forall i :: 0 <= i < |req.items| && req.items[i].Err? ==> req.slots[i] == Failed(req.items[i].error)
  }

  /** A slot that did not resolve is not built. */
  lemma ErroredSlotIsIdle(s: State, a: Action)
    requires IsSlotAction(a)
    ensures BuildingSlot(s, a.r, a.i) ==> s.requests[a.r].items[a.i].Ok?
  {
  }

  lemma RequestStepKeepsErrors(d: Deployment, s: State, a: Action, r: nat)
    requires IsRequestAction(a) && r < |s.requests| && ErrorsKept(s.requests[r])
    ensures var t := RequestStep(d, s, a);
            r < |t.requests| && t.requests[r].items == s.requests[r].items && ErrorsKept(t.requests[r])
  {
    hide Quotes.SnapshotMany, Needed, BuiltSymbols, AllBuilt;
  }

  /** A step keeps a request's items, and the errors of those that did not resolve. */
  lemma ErrorsStayKept(d: Deployment, s: State, a: Action, r: nat)
    requires r < |s.requests| && ErrorsKept(s.requests[r])
    ensures var t := Step(d, s, a);
            r < |t.requests| && t.requests[r].items == s.requests[r].items && ErrorsKept(t.requests[r])
  {
    hide Step, SlotStep, RequestStep, RecheckStep, EnvironmentStep, Resolved;
    StepCases(d, s, a);
    if IsSlotAction(a) {
      SlotStepWrites(d, s, a);
      ErroredSlotIsIdle(s, a);
    } else if IsRequestAction(a) {
      RequestStepKeepsErrors(d, s, a, r);
    } else if a.Recheck? {
      RecheckWrites(s, a.r, a.i);
    } else if !a.Arrive? {
      OuterStepFrame(d, s, a);
    }
  }

  lemma StepArrives(d: Deployment, s: State, a: Action, r: nat)
    requires |s.requests| <= r < |Step(d, s, a).requests|
    ensures Step(d, s, a).requests[r].stage.Arrived?
  {
    StepMovesStages(d, s, a);
    hide Step;
  }

  lemma {:induction false} ErrorsAreKept(d: Deployment, generation: int, actions: seq<Action>, n: nat, r: nat)
    requires Reload.BootFrom(d.world, generation).Ok? && n <= |actions|
    requires r < |At(d, generation, actions, n).requests|
    ensures ErrorsKept(At(d, generation, actions, n).requests[r])
  {
    hide At, Step, Reload.BootFrom;
    if n == 0 {
      NothingAtBoot(d, generation, actions);
    } else {
      NextAt(d, generation, actions, n - 1);
      var s := At(d, generation, actions, n - 1);
      if r < |s.requests| {
        ErrorsAreKept(d, generation, actions, n - 1, r);
        hide ErrorsKept;
        ErrorsStayKept(d, s, actions[n - 1], r);
      } else {
        StepArrives(d, s, actions[n - 1], r);
      }
    }
  }

  lemma {:induction false} ItemsStay(d: Deployment, generation: int, actions: seq<Action>, m: nat, n: nat, r: nat)
    requires Reload.BootFrom(d.world, generation).Ok? && m <= n <= |actions|
    requires r < |At(d, generation, actions, m).requests|
    ensures r < |At(d, generation, actions, n).requests|
    ensures At(d, generation, actions, n).requests[r].items == At(d, generation, actions, m).requests[r].items
    decreases n
  {
    hide At, Step, Reload.BootFrom, ErrorsKept;
    if m < n {
      ItemsStay(d, generation, actions, m, n - 1, r);
      NextAt(d, generation, actions, n - 1);
      ErrorsAreKept(d, generation, actions, n - 1, r);
      ErrorsStayKept(d, At(d, generation, actions, n - 1), actions[n - 1], r);
    }
  }

  // ---- the plan of a request ------------------------------------------------------------------

  function BuiltOutcome(slot: Slot): Outcome<Built> {
    match slot
    case Ready(_, built) => Ok(built)
    case Failed(error) => Err(error)
    case _ => Err(Internal("not built"))
  }

  function FinalOutcome(slot: Slot): Outcome<OracleResponse> {
    match slot
    case Delivered(_, built) => Ok(built.response)
    case Failed(error) => Err(error)
    case _ => Err(Internal("not checked"))
  }

  /** The outcomes of a request's slots: as it was at its second snapshot, and as it is now. */
  function PlanOf(then_: Request, now: Request): Batch.Plan<Item, Built, OracleResponse> {
    Batch.Plan(now.items,
               seq(|then_.slots|, i requires 0 <= i < |then_.slots| => BuiltOutcome(then_.slots[i])),
               seq(|now.slots|, i requires 0 <= i < |now.slots| => FinalOutcome(now.slots[i])))
  }

  /** The request as it was when it took its second snapshot: every slot ready or failed. */
  lemma AtSecond(d: Deployment, generation: int, actions: seq<Action>, n: nat, r: nat) returns (then_: Request)
    requires Reload.BootFrom(d.world, generation).Ok? && n <= |actions|
    requires r < |At(d, generation, actions, n).requests| && At(d, generation, actions, n).requests[r].stage.Finishing?
    ensures var now := At(d, generation, actions, n).requests[r];
            && now.stage.secondTick < n
            && r < |At(d, generation, actions, now.stage.secondTick).requests|
            && then_ == At(d, generation, actions, now.stage.secondTick).requests[r]
            && then_.stage.Building? && AllBuilt(then_)
  {
    hide At, Reload.BootFrom, AllBuilt, BuiltSymbols;
    ReadingsAreOfTheirTicks(d, generation, actions, n);
    var now := At(d, generation, actions, n).requests[r];
    assert ReadingsHold(d, generation, actions, n, r, now);
    then_ := At(d, generation, actions, now.stage.secondTick).requests[r];
  }

  lemma VerdictIsTheSlots(then_: Request, now: Request, i: nat)
    requires |then_.slots| == |now.slots| == |now.items| && i < |now.items|
    requires AllBuilt(then_) && ErrorsKept(now) && !now.stage.Arrived?
    requires then_.slots[i].Failed? ==> now.slots[i] == then_.slots[i]
    ensures PlanOf(then_, now).Valid()
    ensures Batch.Verdict(PlanOf(then_, now), i) == FinalOutcome(now.slots[i])
  {
    assert then_.slots[i].Ready? || then_.slots[i].Failed?;
  }

  /** What the plan of a request in its final pass gives each slot is how that slot ended in the run. */
  ghost predicate Follows(p: Batch.Plan<Item, Built, OracleResponse>, now: Request) {
    && p.Valid() && |p.resolved| == |now.slots|
    && forall i: nat :: i < |now.slots| ==> Batch.Verdict(p, i) == FinalOutcome(now.slots[i])
  }

  /**
    A reply follows the run. Take any request in its final pass. The plan made
    of its slots' outcomes, resolved, built by the second snapshot and checked
    since, gives each slot the verdict it ended with in the run: its own error,
    or the response it was delivered with.
   */
  lemma RepliesFollowSlots(d: Deployment, generation: int, actions: seq<Action>, n: nat, r: nat) returns (then_: Request)
    requires Reload.BootFrom(d.world, generation).Ok? && n <= |actions|
    requires r < |At(d, generation, actions, n).requests| && At(d, generation, actions, n).requests[r].stage.Finishing?
    ensures var now := At(d, generation, actions, n).requests[r];
            && now.stage.secondTick < n
            && r < |At(d, generation, actions, now.stage.secondTick).requests|
            && then_ == At(d, generation, actions, now.stage.secondTick).requests[r]
            && Follows(PlanOf(then_, now), now)
  {
    hide At, Reload.BootFrom, AllBuilt, PlanOf, Batch.Verdict;
    var now := At(d, generation, actions, n).requests[r];
    then_ := AtSecond(d, generation, actions, n, r);
    var m := now.stage.secondTick;
    ItemsStay(d, generation, actions, m, n, r);
    ErrorsAreKept(d, generation, actions, m, r);
    ErrorsAreKept(d, generation, actions, n, r);
    PlanIsValid(then_, now);
    forall i: nat | i < |now.slots|
      ensures Batch.Verdict(PlanOf(then_, now), i) == FinalOutcome(now.slots[i])
    {
      if then_.slots[i].Failed? {
        FailedForGood(d, generation, actions, m, n, r, i);
      }
      VerdictIsTheSlots(then_, now, i);
    }
  }

  lemma PlanIsValid(then_: Request, now: Request)
    requires |then_.slots| == |now.slots| == |now.items|
    ensures PlanOf(then_, now).Valid() && |PlanOf(then_, now).resolved| == |now.slots|
  {
  }

  /**
    So a strict reply is the responses of a request all of whose slots were
    delivered, in order; and one slot that was not makes it that slot's error,
    or that of another that failed in an earlier phase or place.
   */
  lemma StrictReplyIsDelivered(p: Batch.Plan<Item, Built, OracleResponse>, now: Request)
    requires Follows(p, now)
    ensures Batch.StrictReply(p).Ok? <==> forall i: nat :: i < |now.slots| ==> now.slots[i].Delivered?
    ensures Batch.StrictReply(p).Ok? ==>
              && Batch.StrictReply(p).value.Strict?
              && |Batch.StrictReply(p).value.responses| == |now.slots|
              && forall i: nat :: i < |now.slots| ==>
                   now.slots[i].Delivered? && Batch.StrictReply(p).value.responses[i] == now.slots[i].built.response
    ensures Batch.StrictReply(p).Err? ==>
              exists i: nat :: Batch.LeastFailure(p, i) && FinalOutcome(now.slots[i]) == Err(Batch.StrictReply(p).error)
  {
    Batch.StrictRefinesEnvelope(p);
    hide Batch.StrictReply, Batch.Verdict;
    forall i: nat | i < |now.slots|
      ensures Batch.Verdict(p, i).Ok? <==> now.slots[i].Delivered?
    {
    }
    if Batch.StrictReply(p).Err? {
      var i: nat :| Batch.LeastFailure(p, i) && Batch.Verdict(p, i) == Err(Batch.StrictReply(p).error);
      assert FinalOutcome(now.slots[i]) == Err(Batch.StrictReply(p).error);
    }
  }
}
