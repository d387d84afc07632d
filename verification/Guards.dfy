/**
  The checks a slot passes on its way to the signer and to a reply. A slot
  that has passed a check passed it at some earlier step of the same run, on
  its own snapshot, against the shared state and the clock of that step.
 */
module Guards {
  import opened Wire
  import opened Deadlines
  import opened Contexts
  import opened Slots
  import opened System
  import opened Frames
  import opened Theorems
  import Reload
  import Signing
  import Quotes
  import Reuse

  datatype Guard =
    | AdmittedLive | AdmittedAddress | AdmittedExpiry  // before the statement is built
    | LookupLive                                       // before the reuse lookup
    | ReusedStill                                      // before a reused response is returned
    | SignLive | SignExpiry                            // before the signer is asked
    | SignedStill                                      // after the signature, before the store

  const ADMITTED := {AdmittedLive, AdmittedAddress, AdmittedExpiry}
  const CLEARED_TO_SIGN := ADMITTED + {LookupLive, SignLive, SignExpiry}
  const REUSED := ADMITTED + {LookupLive, ReusedStill}
  const SIGNED := CLEARED_TO_SIGN + {SignedStill}

  /** The check that is next, if the slot stands before one. */
  function Station(slot: Slot): Option<Guard> {
    match slot
    case Admission => Some(AdmittedLive)
    case AdmissionAddress => Some(AdmittedAddress)
    case AdmissionExpiry => Some(AdmittedExpiry)
    case LookupLiveness(_) => Some(LookupLive)
    case ReuseLiveness(_, _, _, _) => Some(ReusedStill)
    case PreSignLiveness(_) => Some(SignLive)
    case PreSignExpiry(_) => Some(SignExpiry)
    case PostSignChecks(_, _, _) => Some(SignedStill)
    case _ => None
  }

  /** The checks behind the slot. */
  function Passed(slot: Slot): set<Guard> {
    match slot
    case Failed(_) => {}
    case Admission => {}
    case AdmissionAddress => {AdmittedLive}
    case AdmissionExpiry => {AdmittedLive, AdmittedAddress}
    case LookupLiveness(_) => ADMITTED
    case LookupClock(_) => ADMITTED + {LookupLive}
    case Lookup(_, _) => ADMITTED + {LookupLive}
    case LookupChecks(_, _, _) => ADMITTED + {LookupLive}
    case ReuseClock(_, _, _) => ADMITTED + {LookupLive}
    case ReuseLiveness(_, _, _, _) => ADMITTED + {LookupLive}
    case PreSignLiveness(_) => ADMITTED + {LookupLive}
    case PreSignExpiry(_) => ADMITTED + {LookupLive, SignLive}
    case SignLookup(_) => CLEARED_TO_SIGN
    case SignLocked(_) => CLEARED_TO_SIGN
    case SignWait(_, _) => CLEARED_TO_SIGN
    case SignDead(_, _) => CLEARED_TO_SIGN
    case PostSignClock(_, _) => CLEARED_TO_SIGN
    case PostSignChecks(_, _, _) => CLEARED_TO_SIGN
    case Storing(_, _) => SIGNED
    case Inserting(_, _) => SIGNED
    case Releasing(_, _) => SIGNED
    case Ready(_, built) => if built.reusedAt.Some? then REUSED else SIGNED
    case Rechecked(_, built) => if built.reusedAt.Some? then REUSED else SIGNED
    case Delivered(_, built) => if built.reusedAt.Some? then REUSED else SIGNED
  }

  /** The quote's signed second is ahead of the given time. */
  predicate QuoteLiveAt(q: Quote, atMs: Millis) {
    && q.deadlineMs.Some? && q.deadlineMs.value > 0
    && FlooredSeconds(q.expiryMs) > FlooredSeconds(atMs) && FlooredSeconds(q.deadlineMs.value) > FlooredSeconds(atMs)
  }

  /** What a check asserts, of the shared state and the clock it reads. */
  predicate Holds(g: Shared, job: Job, slot: Slot, clock: Millis, k: Guard) {
    var q, live := job.snap.quote, job.snap.generation in g.quotes.live;
    match k
    case AdmittedLive => live
    case LookupLive => live
    case SignLive => live
    case AdmittedAddress => q.base == job.item.pair.token && q.settlement == g.registry.quoteToken
    case AdmittedExpiry => QuoteLiveAt(q, clock)
    case SignExpiry => QuoteLiveAt(q, clock)
    case ReusedStill => live && slot.ReuseLiveness? && slot.stored.expiry > FlooredSeconds(slot.atMs)
    case SignedStill => live && slot.PostSignChecks? && QuoteLiveAt(q, slot.atMs)
  }

  lemma QuoteCheckMeans(q: Quote, atMs: Millis)
    ensures CheckQuoteExpiry(q, atMs).Pass? <==> QuoteLiveAt(q, atMs)
    ensures CheckQuoteExpiry(q, atMs).Refuse? ==> CheckQuoteExpiry(q, atMs).error == Unavailable(ExpiredQuote)
  {
    QuoteExpiryPasses(q, atMs);
  }

  predicate PassesOnly(g: Shared, job: Job, slot: Slot, next: Slot, clock: Millis) {
    forall k :: k in Passed(next) ==>
      k in Passed(slot) || (Station(slot) == Some(k) && Holds(g, job, slot, clock, k))
  }

  lemma EarlyAdvancePasses(env: Env, g: Shared, job: Job, slot: Slot, clock: Millis, timedOut: bool)
    requires slot.Admission? || slot.AdmissionAddress? || slot.AdmissionExpiry? || slot.LookupLiveness?
          || slot.PreSignLiveness? || slot.PreSignExpiry?
    ensures PassesOnly(g, job, slot, Advance(env, g, job, slot, clock, timedOut), clock)
  {
    QuoteCheckMeans(job.snap.quote, clock);
    hide BuildStatement, CheckQuoteExpiry, QuoteLiveAt;
  }

  lemma LateAdvancePasses(env: Env, g: Shared, job: Job, slot: Slot, clock: Millis, timedOut: bool)
    requires !slot.Admission? && !slot.AdmissionAddress? && !slot.AdmissionExpiry? && !slot.LookupLiveness?
          && !slot.PreSignLiveness? && !slot.PreSignExpiry?
    ensures PassesOnly(g, job, slot, Advance(env, g, job, slot, clock, timedOut), clock)
  {
    if slot.PostSignChecks? {
      QuoteCheckMeans(job.snap.quote, slot.atMs);
    }
    hide BuildStatement, CheckQuoteExpiry, QuoteLiveAt, Reuse.Accepts, Reuse.Fetch, ReuseKey;
  }

  /** One step of a slot passes at most the check it stands before, and only if that check holds. */
  lemma AdvancePasses(env: Env, g: Shared, job: Job, slot: Slot, clock: Millis, timedOut: bool)
    ensures PassesOnly(g, job, slot, Advance(env, g, job, slot, clock, timedOut), clock)
  {
    hide Advance, PassesOnly;
    if slot.Admission? || slot.AdmissionAddress? || slot.AdmissionExpiry? || slot.LookupLiveness?
       || slot.PreSignLiveness? || slot.PreSignExpiry? {
      EarlyAdvancePasses(env, g, job, slot, clock, timedOut);
    } else {
      LateAdvancePasses(env, g, job, slot, clock, timedOut);
    }
  }

  /** A check that does not hold ends the slot with that check's own refusal. */
  lemma FailedCheckRefuses(env: Env, g: Shared, job: Job, slot: Slot, clock: Millis, timedOut: bool)
    requires Station(slot).Some? && !Holds(g, job, slot, clock, Station(slot).value)
    requires slot.ReuseLiveness? ==> slot.stored.expiry * 1000 <= I64_MAX
    ensures var live := job.snap.generation in g.quotes.live;
            Advance(env, g, job, slot, clock, timedOut)
            == Failed(Unavailable(if Station(slot).value in {AdmittedExpiry, SignExpiry} || (slot.PostSignChecks? && live)
                                     || (slot.ReuseLiveness? && live)
                                  then ExpiredQuote else NoLiveQuote))
  {
    QuoteCheckMeans(job.snap.quote, clock);
    if slot.PostSignChecks? {
      QuoteCheckMeans(job.snap.quote, slot.atMs);
    }
    hide BuildStatement, CheckQuoteExpiry, QuoteLiveAt, Reuse.Accepts, Reuse.Fetch, ReuseKey;
  }

  predicate HasSlot(s: State, r: nat, i: nat) {
    r < |s.requests| && HasJob(s.requests[r], i)
  }

  /** Slot `i` of request `r` passes check `k` in the step from `s`. */
  predicate Passes(s: State, a: Action, r: nat, i: nat, k: Guard) {
    && a.AdvanceSlot? && a.r == r && a.i == i && BuildingSlot(s, r, i)
    && Station(s.requests[r].slots[i]) == Some(k)
    && Holds(SharedOf(s), JobOf(s.requests[r], i), s.requests[r].slots[i], a.clock, k)
  }

  /** A step keeps a slot's job, and adds to its passed checks only by passing one. */
  ghost predicate PassesFairly(s: State, t: State, a: Action, r: nat, i: nat, k: Guard)
    requires HasSlot(t, r, i) && k in Passed(t.requests[r].slots[i])
  {
    && HasSlot(s, r, i) && JobOf(s.requests[r], i) == JobOf(t.requests[r], i)
    && (k in Passed(s.requests[r].slots[i]) || Passes(s, a, r, i, k))
  }

  /** Replacing one slot, fairly, is fair to every slot. */
  lemma OneSlotPasses(s: State, t: State, a: Action, r0: nat, i0: nat, slot: Slot, r: nat, i: nat, k: Guard)
    requires HasSlot(s, r0, i0) && t.requests == WithSlot(s, r0, i0, slot).requests
    requires forall k' :: k' in Passed(slot) ==> k' in Passed(s.requests[r0].slots[i0]) || Passes(s, a, r0, i0, k')
    requires HasSlot(t, r, i) && k in Passed(t.requests[r].slots[i])
    ensures PassesFairly(s, t, a, r, i, k)
  {
    hide Passed, Passes;
    if r == r0 && i == i0 {
      assert t.requests[r].slots[i] == slot;
    }
  }

  lemma StepPasses(d: Deployment, s: State, a: Action, r: nat, i: nat, k: Guard)
    requires HasSlot(Step(d, s, a), r, i) && k in Passed(Step(d, s, a).requests[r].slots[i])
    ensures PassesFairly(s, Step(d, s, a), a, r, i, k)
  {
    hide Step, SlotStep, RequestStep, RecheckStep, EnvironmentStep, Resolved, Passed, Passes;
    StepCases(d, s, a);
    if IsSlotAction(a) {
      SlotStepPasses(d, s, a, r, i, k);
    } else if IsRequestAction(a) {
      RequestStepPasses(d, s, a, r, i, k);
    } else if a.Recheck? {
      RecheckPasses(s, a, r, i, k);
    } else if !a.Arrive? {
      OuterStepFrame(d, s, a);
    }
  }

  lemma SlotStepPasses(d: Deployment, s: State, a: Action, r: nat, i: nat, k: Guard)
    requires IsSlotAction(a)
    requires HasSlot(SlotStep(d, s, a), r, i) && k in Passed(SlotStep(d, s, a).requests[r].slots[i])
    ensures PassesFairly(s, SlotStep(d, s, a), a, r, i, k)
  {
    hide SlotStep, Passed, Passes;
    var t := SlotStep(d, s, a);
    SlotStepWrites(d, s, a);
    if BuildingSlot(s, a.r, a.i) {
      if a.AdvanceSlot? {
        AdvanceSlotPasses(d, s, a);
      } else {
        SignStepPasses(d, s, a);
      }
      OneSlotPasses(s, t, a, a.r, a.i, t.requests[a.r].slots[a.i], r, i, k);
    }
  }

  lemma AdvanceSlotPasses(d: Deployment, s: State, a: Action)
    requires a.AdvanceSlot? && BuildingSlot(s, a.r, a.i)
    ensures |SlotStep(d, s, a).requests| == |s.requests| && a.i < |SlotStep(d, s, a).requests[a.r].slots|
    ensures forall k :: k in Passed(SlotStep(d, s, a).requests[a.r].slots[a.i]) ==>
              k in Passed(s.requests[a.r].slots[a.i]) || Passes(s, a, a.r, a.i, k)
  {
    AdvancePasses(d.env, SharedOf(s), JobOf(s.requests[a.r], a.i), s.requests[a.r].slots[a.i], a.clock, a.timedOut);
    hide Advance, Holds, Passed, Station;
  }

  lemma SignStepPasses(d: Deployment, s: State, a: Action)
    requires IsSlotAction(a) && !a.AdvanceSlot? && BuildingSlot(s, a.r, a.i)
    ensures |SlotStep(d, s, a).requests| == |s.requests| && a.i < |SlotStep(d, s, a).requests[a.r].slots|
    ensures Passed(SlotStep(d, s, a).requests[a.r].slots[a.i]) <= Passed(s.requests[a.r].slots[a.i])
  {
    hide SlotStep;
    SlotStepMoves(d, s, a);
  }

  lemma RequestStepPasses(d: Deployment, s: State, a: Action, r: nat, i: nat, k: Guard)
    requires IsRequestAction(a)
    requires HasSlot(RequestStep(d, s, a), r, i) && k in Passed(RequestStep(d, s, a).requests[r].slots[i])
    ensures PassesFairly(s, RequestStep(d, s, a), a, r, i, k)
  {
    hide Quotes.SnapshotMany, Needed, BuiltSymbols, AllBuilt, Passes;
  }

  lemma RecheckPasses(s: State, a: Action, r: nat, i: nat, k: Guard)
    requires a.Recheck?
    requires HasSlot(RecheckStep(s, a.r, a.i), r, i) && k in Passed(RecheckStep(s, a.r, a.i).requests[r].slots[i])
    ensures PassesFairly(s, RecheckStep(s, a.r, a.i), a, r, i, k)
  {
    hide RecheckStep, Passed, Passes;
    var t := RecheckStep(s, a.r, a.i);
    RecheckWrites(s, a.r, a.i);
    if t != s {
      RecheckPassesNone(s, a.r, a.i);
      OneSlotPasses(s, t, a, a.r, a.i, t.requests[a.r].slots[a.i], r, i, k);
    }
  }

  lemma RecheckPassesNone(s: State, r: nat, i: nat)
    requires RecheckStep(s, r, i) != s
    ensures r < |s.requests| && i < |s.requests[r].slots| && i < |RecheckStep(s, r, i).requests[r].slots|
    ensures Passed(RecheckStep(s, r, i).requests[r].slots[i]) <= Passed(s.requests[r].slots[i])
  {
    if s.requests[r].slots[i].Ready? {
      OwnCheckPassesNone(SharedOf(s), JobOf(s.requests[r], i), FinalOf(s.requests[r]), s.requests[r].slots[i]);
    } else {
      CurrentCheckPassesNone(SharedOf(s), JobOf(s.requests[r], i), FinalOf(s.requests[r]), s.requests[r].slots[i]);
    }
    hide CheckOwnQuote, CheckCurrentQuote, Passed;
  }

  lemma OwnCheckPassesNone(g: Shared, job: Job, f: Final, slot: Slot)
    requires slot.Ready?
    ensures Passed(CheckOwnQuote(g, job, f, slot)) <= Passed(slot)
  {
  }

  lemma CurrentCheckPassesNone(g: Shared, job: Job, f: Final, slot: Slot)
    requires slot.Rechecked?
    ensures Passed(CheckCurrentQuote(g, job, f, slot)) <= Passed(slot)
  {
    hide CheckQuoteExpiry, CheckAddress;
  }

  /**
    Every check behind a slot was made. In every run, for every slot and every
    check `k` it has passed, there is an earlier action `m` at which this very
    slot stood before `k` and `k` held, on the same snapshot. So a signature is
    asked for, stored and handed out only after each of its checks has passed.
   */
  lemma {:induction false} ChecksWereMade(d: Deployment, generation: int, actions: seq<Action>, n: nat, r: nat, i: nat, k: Guard)
      returns (m: nat)
    requires Reload.BootFrom(d.world, generation).Ok? && n <= |actions|
    requires HasSlot(At(d, generation, actions, n), r, i)
    requires k in Passed(At(d, generation, actions, n).requests[r].slots[i])
    ensures m < n && Passes(At(d, generation, actions, m), actions[m], r, i, k)
    ensures JobOf(At(d, generation, actions, m).requests[r], i) == JobOf(At(d, generation, actions, n).requests[r], i)
  {
    hide At, Step, Passed, Passes, Reload.BootFrom;
    if n == 0 {
      NoSlotAtBoot(d, generation, actions, r, i);
    } else {
      NextAt(d, generation, actions, n - 1);
      StepPasses(d, At(d, generation, actions, n - 1), actions[n - 1], r, i, k);
      if k in Passed(At(d, generation, actions, n - 1).requests[r].slots[i]) {
        m := ChecksWereMade(d, generation, actions, n - 1, r, i, k);
      } else {
        m := n - 1;
      }
    }
  }

  lemma NoSlotAtBoot(d: Deployment, generation: int, actions: seq<Action>, r: nat, i: nat)
    requires Reload.BootFrom(d.world, generation).Ok?
    ensures !HasSlot(At(d, generation, actions, 0), r, i)
  {
    hide Step, Reload.BootFrom;
  }
}
