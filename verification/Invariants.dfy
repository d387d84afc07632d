/** What every reachable state of the server satisfies, and that every action keeps it. */
module Invariants {
  import opened Wire
  import opened Contexts
  import opened Slots
  import opened System
  import Quotes
  import Reuse
  import Signing
  import Reload
  import TokenFile
  import Subscription

  // ---- requests ------------------------------------------------------------------------

  ghost predicate ViewOk(env: Env, quotes: Quotes.State, view: View) {
    forall sym :: sym in view ==> IssuedTo(env, quotes, view[sym].generation, sym)
  }

  predicate HasSecond(stage: Stage) {
    stage.Gathered? || stage.SetRead? || stage.Finishing?
  }

  ghost predicate FinalOk(env: Env, g: Shared, job: Job, stage: Stage, slot: Slot) {
    && (slot.Rechecked? ==>
          stage.Finishing? && RecheckedOk(job, Final(stage.second, stage.registry, stage.atMs), slot.built))
    && (slot.Delivered? ==>
          && stage.Finishing?
          && DeliveredSafely(env, g.signer.produced, job, Final(stage.second, stage.registry, stage.atMs), slot.stmt, slot.built))
  }

  ghost predicate JobOk(env: Env, g: Shared, job: Job, stage: Stage, slot: Slot) {
    && BuildingOk(env, g, job, slot)
    && (HasSecond(stage) ==> Linked(g, job, stage.second))
    && FinalOk(env, g, job, stage, slot)
  }

  ghost predicate SlotOk(env: Env, g: Shared, req: Request, i: nat)
    requires i < |req.slots|
  {
    if HasJob(req, i) then JobOk(env, g, JobOf(req, i), req.stage, req.slots[i])
    else req.slots[i].Failed?
  }

  ghost predicate RequestOk(env: Env, g: Shared, req: Request) {
    && (req.stage.Arrived? ==> req.slots == [])
    && (!req.stage.Arrived? ==> |req.slots| == |req.items| && ViewOk(env, g.quotes, req.stage.first))
    && forall i: nat :: i < |req.slots| ==> SlotOk(env, g, req, i)
  }

  lemma ViewIsStable(env: Env, q: Quotes.State, r: Quotes.State, view: View)
    requires ViewOk(env, q, view) && Quotes.Evolves(q, r)
    ensures ViewOk(env, r, view)
  {
  }

  lemma JobIsStable(env: Env, g: Shared, h: Shared, job: Job, stage: Stage, slot: Slot)
    requires JobOk(env, g, job, stage, slot) && Evolves(g, h)
    requires job.snap.generation < |g.quotes.issued|
    ensures JobOk(env, h, job, stage, slot)
  {
    BuildingIsStable(env, g, h, job, slot);
  }

  lemma RequestIsStable(env: Env, g: Shared, h: Shared, req: Request)
    requires RequestOk(env, g, req) && Evolves(g, h)
    ensures RequestOk(env, h, req)
  {
    if !req.stage.Arrived? {
      ViewIsStable(env, g.quotes, h.quotes, req.stage.first);
    }
    forall i: nat | i < |req.slots|
      ensures SlotOk(env, h, req, i)
    {
      assert SlotOk(env, g, req, i);
      if HasJob(req, i) {
        assert IssuedTo(env, g.quotes, JobOf(req, i).snap.generation, req.items[i].value.pair.symbol);
        JobIsStable(env, g, h, JobOf(req, i), req.stage, req.slots[i]);
      }
    }
  }

  /** Replacing one slot by one that is fine keeps the request fine. */
  lemma OneSlotChanges(env: Env, g: Shared, req: Request, i: nat, slot: Slot)
    requires RequestOk(env, g, req) && HasJob(req, i)
    requires JobOk(env, g, JobOf(req, i), req.stage, slot)
    ensures RequestOk(env, g, req.(slots := req.slots[i := slot]))
  {
    var next := req.(slots := req.slots[i := slot]);
    forall j: nat | j < |next.slots|
      ensures SlotOk(env, g, next, j)
    {
      assert SlotOk(env, g, req, j);
      assert HasJob(next, j) == HasJob(req, j);
    }
  }

  ghost predicate RequestsOk(env: Env, g: Shared, requests: seq<Request>) {
    forall r :: 0 <= r < |requests| ==> RequestOk(env, g, requests[r])
  }

  lemma RequestsAreStable(env: Env, g: Shared, h: Shared, requests: seq<Request>)
    requires RequestsOk(env, g, requests) && Evolves(g, h)
    ensures RequestsOk(env, h, requests)
  {
    forall r | 0 <= r < |requests|
      ensures RequestOk(env, h, requests[r])
    {
      RequestIsStable(env, g, h, requests[r]);
    }
  }

  lemma StoredIsStable(env: Env, g: Shared, h: Shared, key: Reuse.Key, stored: Reuse.Stored)
    requires StoredOk(env, g, key, stored) && Evolves(g, h)
    ensures StoredOk(env, h, key, stored)
  {
    hide SessionHolds;
  }

  lemma ReuseIsStable(env: Env, g: Shared, h: Shared)
    requires ReuseOk(env, g) && Evolves(g, h) && h.reuse == g.reuse
    ensures ReuseOk(env, h)
  {
    hide StoredOk, Evolves;
    forall key | key in h.reuse
      ensures StoredOk(env, h, key, h.reuse[key])
    {
      StoredIsStable(env, g, h, key, g.reuse[key]);
    }
  }

  // ---- the subscribed list and the cache ---------------------------------------------------

  /** Which symbols may be cached, or be about to be, in each phase of an apply. */
  predicate Listable(reload: Reload.State, sym: Symbol) {
    match reload.phase
    case Rest => sym in reload.tokens.symbols
    case Swapped(_) => sym in reload.listed
    case Listed(forget) => sym in reload.tokens.symbols || sym in forget
  }

  ghost predicate ListOk(quotes: Quotes.State, reload: Reload.State, writer: Writer) {
    && (forall key :: key in quotes.entries ==> Listable(reload, key.1))
    && (writer.Admitted? ==> Listable(reload, writer.quote.asset))
    && (writer.Removing? && writer.forgetting ==>
          && reload.phase.Listed? && reload.phase.forget != {}
          && forall key :: key in quotes.entries && key.1 in reload.phase.forget ==> key in writer.pending)
    && (reload.phase.Swapped? ==>
          forall sym :: sym in reload.listed ==> sym in reload.tokens.symbols || sym in reload.phase.forget)
  }

  // ---- the whole state ---------------------------------------------------------------------

  ghost predicate Inv(d: Deployment, s: State) {
    && Quotes.Inv(s.quotes)
    && Signing.Inv(d.limits, s.signer)
    && Reload.Inv(d.world, s.reload)
    && ReuseOk(d.env, SharedOf(s))
    && RequestsOk(d.env, SharedOf(s), s.requests)
    && ListOk(s.quotes, s.reload, s.writer)
  }

  lemma InitIsOk(d: Deployment, generation: int)
    requires Reload.BootFrom(d.world, generation).Ok?
    ensures Inv(d, Init(d, generation))
  {
    Reload.BootEstablishesInv(d.world, generation);
    assert Signing.InFlight([]) == {};
  }

  lemma NothingEvolves(g: Shared, h: Shared)
    requires g.quotes == h.quotes && g.signer == h.signer
    ensures Evolves(g, h)
  {
  }

  /** A step that changes the signer and one slot, each in a way that is fine. */
  lemma SlotStepKeeps(d: Deployment, s: State, r: nat, i: nat, slot: Slot, signer: Signing.State)
    requires Inv(d, s) && BuildingSlot(s, r, i)
    requires Signing.Inv(d.limits, signer) && Signing.Evolves(s.signer, signer)
    requires BuildingOk(d.env, SharedOf(s.(signer := signer)), JobOf(s.requests[r], i), slot)
    requires !slot.Rechecked? && !slot.Delivered?
    ensures Inv(d, WithSlot(s, r, i, slot).(signer := signer))
  {
    var t := WithSlot(s, r, i, slot).(signer := signer);
    var g, h := SharedOf(s), SharedOf(t);
    assert Evolves(g, h);
    assert h == SharedOf(s.(signer := signer));
    hide Quotes.Inv, Signing.Inv, Reload.Inv, ListOk, ReuseOk, Evolves, BuildingOk;
    RequestsAreStable(d.env, g, h, s.requests);
    ReuseIsStable(d.env, g, h);
    BuildingJobIsOk(d.env, h, s.requests[r], i, slot);
    hide RequestOk, JobOk;
    OneSlotChanges(d.env, h, s.requests[r], i, slot);
  }

  lemma BuildingJobIsOk(env: Env, g: Shared, req: Request, i: nat, slot: Slot)
    requires req.stage.Building? && HasJob(req, i) && BuildingOk(env, g, JobOf(req, i), slot)
    requires !slot.Rechecked? && !slot.Delivered?
    ensures JobOk(env, g, JobOf(req, i), req.stage, slot)
  {
    hide BuildingOk;
  }

  lemma BuildingSlotIsOk(d: Deployment, s: State, r: nat, i: nat)
    requires Inv(d, s) && BuildingSlot(s, r, i)
    ensures var job := JobOf(s.requests[r], i);
            && BuildingOk(d.env, SharedOf(s), job, s.requests[r].slots[i])
            && IssuedTo(d.env, s.quotes, job.snap.generation, job.item.pair.symbol)
  {
    hide Quotes.Inv, Signing.Inv, Reload.Inv, BuildingOk, ReuseOk, ListOk;
    assert SlotOk(d.env, SharedOf(s), s.requests[r], i);
  }

  lemma SignerIsFine(d: Deployment, s: State)
    requires Inv(d, s)
    ensures Signing.Inv(d.limits, s.signer) && Signing.Evolves(s.signer, s.signer)
    ensures forall i: nat :: i < |s.signer.cells| ==> Signing.CellOk(s.signer, i)
    ensures ReuseOk(d.env, SharedOf(s))
  {
  }

  /** One slot moves and nothing else. */
  lemma OnlySlotKeeps(d: Deployment, s: State, r: nat, i: nat, slot: Slot)
    requires Inv(d, s) && BuildingSlot(s, r, i)
    requires BuildingOk(d.env, SharedOf(s), JobOf(s.requests[r], i), slot) && !slot.Rechecked? && !slot.Delivered?
    ensures Inv(d, WithSlot(s, r, i, slot))
  {
    hide Inv, BuildingOk, ReuseOk, Signing.Inv, Signing.Evolves, Signing.CellOk;
    SignerIsFine(d, s);
    assert s.(signer := s.signer) == s && WithSlot(s, r, i, slot).(signer := s.signer) == WithSlot(s, r, i, slot);
    SlotStepKeeps(d, s, r, i, slot, s.signer);
  }

  lemma AdvanceSlotKeeps(d: Deployment, s: State, a: Action)
    requires Inv(d, s) && a.AdvanceSlot? && BuildingSlot(s, a.r, a.i)
    ensures Inv(d, SlotStep(d, s, a))
  {
    hide Inv, BuildingOk, ReuseOk, Signing.Inv, Signing.CellOk, Advance;
    var job, slot := JobOf(s.requests[a.r], a.i), s.requests[a.r].slots[a.i];
    BuildingSlotIsOk(d, s, a.r, a.i);
    SignerIsFine(d, s);
    RequestIsOk(d, s, a.r);
    NothingRechecked(d.env, SharedOf(s), s.requests[a.r]);
    AdvanceKeeps(d.env, SharedOf(s), job, slot, a.clock, a.timedOut);
    AdvanceNeverRechecks(d.env, SharedOf(s), job, slot, a.clock, a.timedOut);
    OnlySlotKeeps(d, s, a.r, a.i, Advance(d.env, SharedOf(s), job, slot, a.clock, a.timedOut));
  }

  lemma AdvanceNeverRechecks(env: Env, g: Shared, job: Job, slot: Slot, clock: Millis, timedOut: bool)
    requires !slot.Rechecked? && !slot.Delivered?
    ensures !Advance(env, g, job, slot, clock, timedOut).Rechecked?
    ensures !Advance(env, g, job, slot, clock, timedOut).Delivered?
  {
  }

  /** The slots around a signing call know the same whatever the signer holds, as long as their cell stands. */
  lemma SignSlotsAreOk(env: Env, g: Shared, h: Shared, job: Job, slot: Slot, cell: nat)
    requires BuildingOk(env, g, job, slot) && h.quotes == g.quotes && (slot.SignLookup? || slot.SignLocked?)
    ensures BuildingOk(env, h, job, SignLocked(slot.stmt))
    ensures cell < |h.signer.cells| && h.signer.cells[cell].hash == env.codec.hash(slot.stmt.context) ==>
              BuildingOk(env, h, job, SignWait(slot.stmt, cell))
  {
    hide HasStatement;
  }

  lemma SignLockKeeps(d: Deployment, s: State, a: Action)
    requires Inv(d, s) && a.SignLock? && BuildingSlot(s, a.r, a.i)
    ensures Inv(d, SlotStep(d, s, a))
  {
    hide Inv, BuildingOk, ReuseOk, Signing.Inv, Signing.Evolves, Signing.CellOk, Signing.Apply;
    var job, slot := JobOf(s.requests[a.r], a.i), s.requests[a.r].slots[a.i];
    if slot.SignLookup? && s.signer.lock.None? {
      var signer := Signing.Apply(d.limits, s.signer, Signing.Acquire((a.r, a.i), Hash(d, s, a.r, a.i), a.instant));
      BuildingSlotIsOk(d, s, a.r, a.i);
      SignerIsFine(d, s);
      Signing.ApplyKeepsInv(d.limits, s.signer, Signing.Acquire((a.r, a.i), Hash(d, s, a.r, a.i), a.instant));
      SignSlotsAreOk(d.env, SharedOf(s), SharedOf(s.(signer := signer)), job, slot, 0);
      SlotStepKeeps(d, s, a.r, a.i, SignLocked(slot.stmt), signer);
    }
  }

  lemma CompleteIsLookup(d: Deployment, signer: Signing.State, first: set<nat>, second: set<nat>)
    requires Signing.CanComplete(signer, first, second)
    ensures Signing.Apply(d.limits, signer, Signing.Complete(first, second))
            == Signing.CompleteLookup(d.limits, signer, first, second)
  {
  }

  lemma SignDoneKeeps(d: Deployment, s: State, a: Action)
    requires Inv(d, s) && a.SignDone? && BuildingSlot(s, a.r, a.i)
    ensures Inv(d, SlotStep(d, s, a))
  {
    hide Inv, BuildingOk, ReuseOk, Signing.Inv, Signing.Evolves, Signing.CellOk, Signing.Apply,
      Signing.CompleteLookup, Signing.CompletedCell, Signing.CanComplete;
    var job, slot := JobOf(s.requests[a.r], a.i), s.requests[a.r].slots[a.i];
    if SlotStep(d, s, a) != s {
      var signer := Signing.CompleteLookup(d.limits, s.signer, a.first, a.second);
      var cell := Signing.CompletedCell(d.limits, s.signer, a.first);
      BuildingSlotIsOk(d, s, a.r, a.i);
      SignerIsFine(d, s);
      CompleteIsLookup(d, s.signer, a.first, a.second);
      Signing.CompleteKeepsInv(d.limits, s.signer, a.first, a.second);
      SignSlotsAreOk(d.env, SharedOf(s), SharedOf(s.(signer := signer)), job, slot, cell);
      SlotStepKeeps(d, s, a.r, a.i, SignWait(slot.stmt, cell), signer);
    }
  }

  lemma DropDeadSignKeeps(d: Deployment, s: State, a: Action)
    requires Inv(d, s) && a.DropDeadSign? && BuildingSlot(s, a.r, a.i)
    ensures Inv(d, SlotStep(d, s, a))
  {
    hide Inv, ReuseOk, Signing.Inv, Signing.Evolves, Signing.CellOk, Signing.Apply;
    var slot := s.requests[a.r].slots[a.i];
    if slot.SignDead? && s.signer.lock.None? {
      SignerIsFine(d, s);
      Signing.ApplyKeepsInv(d.limits, s.signer, Signing.EvictDead(slot.cell));
      SlotStepKeeps(d, s, a.r, a.i, Failed(Internal("signing task aborted")),
                    Signing.Apply(d.limits, s.signer, Signing.EvictDead(slot.cell)));
    }
  }

  /** Gates play no part in the invariant. */
  lemma GatesKeep(d: Deployment, s: State, gates: map<nat, (nat, nat)>)
    requires Inv(d, s)
    ensures Inv(d, s.(gates := gates))
  {
    assert SharedOf(s.(gates := gates)) == SharedOf(s);
  }

  lemma StoredStays(env: Env, g: Shared, h: Shared, key: Reuse.Key, stored: Reuse.Stored)
    requires StoredOk(env, g, key, stored) && h.quotes == g.quotes && h.signer == g.signer
    ensures StoredOk(env, h, key, stored)
  {
  }

  lemma InsertedReuseKeeps(d: Deployment, s: State, key: Reuse.Key, stored: Reuse.Stored)
    requires Inv(d, s) && StoredOk(d.env, SharedOf(s), key, stored)
    ensures Inv(d, s.(reuse := s.reuse[key := stored]))
  {
    var t := s.(reuse := s.reuse[key := stored]);
    var g, h := SharedOf(s), SharedOf(t);
    hide Quotes.Inv, Signing.Inv, Reload.Inv, StoredOk, RequestsOk, ListOk, Evolves;
    NothingEvolves(g, h);
    RequestsAreStable(d.env, g, h, s.requests);
    forall k | k in h.reuse
      ensures StoredOk(d.env, h, k, h.reuse[k])
    {
      StoredStays(d.env, g, h, k, if k == key then stored else g.reuse[k]);
    }
  }

  lemma GatedSlotIsOk(env: Env, g: Shared, job: Job, slot: Slot)
    requires slot.Storing? && BuildingOk(env, g, job, slot)
    ensures BuildingOk(env, g, job, Inserting(slot.stmt, slot.signature))
    ensures BuildingOk(env, g, job, Releasing(slot.stmt, slot.signature))
  {
  }

  lemma StoreGateKeeps(d: Deployment, s: State, a: Action)
    requires Inv(d, s) && a.StoreGate? && BuildingSlot(s, a.r, a.i)
    ensures Inv(d, SlotStep(d, s, a))
  {
    hide Inv, BuildingOk, AfterStore;
    var job, slot := JobOf(s.requests[a.r], a.i), s.requests[a.r].slots[a.i];
    if slot.Storing? && SlotStep(d, s, a) != s {
      BuildingSlotIsOk(d, s, a.r, a.i);
      if d.env.margin == 0 {
        StoreKeeps(d.env, SharedOf(s), job, slot);
        StoredIsReady(d.env, job, slot);
        OnlySlotKeeps(d, s, a.r, a.i, AfterStore(d.env, job, slot));
      } else {
        GatedSlotIsOk(d.env, SharedOf(s), job, slot);
        var next := if job.snap.generation in s.quotes.live then Inserting(slot.stmt, slot.signature)
                    else Releasing(slot.stmt, slot.signature);
        OnlySlotKeeps(d, s, a.r, a.i, next);
        GatesKeep(d, WithSlot(s, a.r, a.i, next), s.gates[job.snap.generation := (a.r, a.i)]);
      }
    }
  }

  lemma StoredIsReady(env: Env, job: Job, slot: Slot)
    requires slot.Storing? || slot.Releasing?
    ensures AfterStore(env, job, slot).Ready? || AfterStore(env, job, slot).Failed?
  {
  }

  lemma InsertingEntryIsOk(env: Env, g: Shared, job: Job, slot: Slot)
    requires slot.Inserting? && BuildingOk(env, g, job, slot)
    requires IssuedTo(env, g.quotes, job.snap.generation, job.item.pair.symbol)
    ensures StoredOk(env, g, ReuseKey(job), StoredBy(env, job, slot))
    ensures forall h: Shared :: h.quotes == g.quotes && h.signer == g.signer ==>
              BuildingOk(env, h, job, Releasing(slot.stmt, slot.signature))
  {
    hide ResponseOk;
    SignedResponseOk(env, g, job, slot.stmt, slot.signature);
  }

  lemma StoreInsertKeeps(d: Deployment, s: State, a: Action)
    requires Inv(d, s) && a.StoreInsert? && BuildingSlot(s, a.r, a.i)
    ensures Inv(d, SlotStep(d, s, a))
  {
    hide Inv, BuildingOk, StoredOk;
    var job, slot := JobOf(s.requests[a.r], a.i), s.requests[a.r].slots[a.i];
    if slot.Inserting? {
      BuildingSlotIsOk(d, s, a.r, a.i);
      InsertingEntryIsOk(d.env, SharedOf(s), job, slot);
      InsertedReuseKeeps(d, s, ReuseKey(job), StoredBy(d.env, job, slot));
      var u := s.(reuse := s.reuse[ReuseKey(job) := StoredBy(d.env, job, slot)]);
      OnlySlotKeeps(d, u, a.r, a.i, Releasing(slot.stmt, slot.signature));
    }
  }

  lemma StoreReleaseKeeps(d: Deployment, s: State, a: Action)
    requires Inv(d, s) && a.StoreRelease? && BuildingSlot(s, a.r, a.i)
    ensures Inv(d, SlotStep(d, s, a))
  {
    hide Inv, BuildingOk, AfterStore;
    var job, slot := JobOf(s.requests[a.r], a.i), s.requests[a.r].slots[a.i];
    if slot.Releasing? {
      BuildingSlotIsOk(d, s, a.r, a.i);
      StoreKeeps(d.env, SharedOf(s), job, slot);
      StoredIsReady(d.env, job, slot);
      var next := AfterStore(d.env, job, slot);
      OnlySlotKeeps(d, s, a.r, a.i, next);
      GatesKeep(d, WithSlot(s, a.r, a.i, next), s.gates - {job.snap.generation});
    }
  }

  // ---- request-wide steps -----------------------------------------------------------------

  lemma OneRequestChanges(d: Deployment, s: State, r: nat, req: Request)
    requires Inv(d, s) && r < |s.requests| && RequestOk(d.env, SharedOf(s), req)
    ensures Inv(d, s.(requests := s.requests[r := req]))
  {
    hide Quotes.Inv, Signing.Inv, Reload.Inv, ListOk, ReuseOk, RequestOk;
    assert SharedOf(s.(requests := s.requests[r := req])) == SharedOf(s);
  }

  /** Before the final pass no slot is past its first check. */
  lemma NothingRechecked(env: Env, g: Shared, req: Request)
    requires RequestOk(env, g, req) && !req.stage.Finishing?
    ensures forall i: nat :: i < |req.slots| ==> !req.slots[i].Rechecked? && !req.slots[i].Delivered?
  {
    hide BuildingOk, Linked, RecheckedOk, DeliveredSafely;
    forall i: nat | i < |req.slots|
      ensures !req.slots[i].Rechecked? && !req.slots[i].Delivered?
    {
      assert SlotOk(env, g, req, i);
    }
  }

  ghost predicate AllLinked(g: Shared, req: Request, second: View) {
    forall i: nat :: HasJob(req, i) ==> Linked(g, JobOf(req, i), second)
  }

  lemma SecondIsLinked(env: Env, g: Shared, req: Request)
    requires RequestOk(env, g, req) && HasSecond(req.stage)
    ensures AllLinked(g, req, req.stage.second)
  {
    hide BuildingOk, Linked, FinalOk;
    forall i: nat | HasJob(req, i)
      ensures Linked(g, JobOf(req, i), req.stage.second)
    {
      assert SlotOk(env, g, req, i);
    }
  }

  /** Moving on to a later stage before the final pass. */
  lemma StageChanges(env: Env, g: Shared, req: Request, stage: Stage)
    requires RequestOk(env, g, req) && !req.stage.Arrived? && !stage.Arrived? && stage.first == req.stage.first
    requires !req.stage.Finishing? && (HasSecond(stage) ==> AllLinked(g, req, stage.second))
    ensures RequestOk(env, g, req.(stage := stage))
  {
    NothingRechecked(env, g, req);
    hide BuildingOk, Linked, RecheckedOk, DeliveredSafely, ViewOk;
    var next := req.(stage := stage);
    forall i: nat | i < |next.slots|
      ensures SlotOk(env, g, next, i)
    {
      assert SlotOk(env, g, req, i);
      if HasJob(next, i) {
        assert HasJob(req, i) && JobOf(next, i) == JobOf(req, i);
      }
    }
  }

  lemma SnapshotIsOk(env: Env, quotes: Quotes.State, symbols: set<Symbol>)
    requires Quotes.Inv(quotes)
    ensures ViewOk(env, quotes, Quotes.SnapshotMany(quotes, env.chainId, symbols))
  {
  }

  lemma FirstSlotsAreOk(env: Env, g: Shared, req: Request, first: View, tick: nat)
    requires ViewOk(env, g.quotes, first)
    ensures RequestOk(env, g, req.(stage := Building(first, tick), slots := FirstSlots(req.items, first)))
  {
    hide ViewOk;
  }

  lemma TakeFirstKeeps(d: Deployment, s: State, a: Action)
    requires Inv(d, s) && a.TakeFirst?
    ensures Inv(d, RequestStep(d, s, a))
  {
    if RequestStep(d, s, a) != s {
      var req := s.requests[a.r];
      var first := Quotes.SnapshotMany(s.quotes, d.env.chainId, Needed(req.items));
      SnapshotIsOk(d.env, s.quotes, Needed(req.items));
      hide Inv, ViewOk, RequestOk, Quotes.SnapshotMany, Needed, FirstSlots;
      FirstSlotsAreOk(d.env, SharedOf(s), req, first, s.tick);
      OneRequestChanges(d, s, a.r, req.(stage := Building(first, s.tick), slots := FirstSlots(req.items, first)));
    }
  }

  /** At the second snapshot, a first-snapshot generation that is still live is the cached one. */
  lemma SecondViewIsLinked(env: Env, g: Shared, job: Job, symbols: set<Symbol>)
    requires Quotes.Inv(g.quotes) && IssuedTo(env, g.quotes, job.snap.generation, job.item.pair.symbol)
    ensures Linked(g, job, Quotes.SnapshotMany(g.quotes, env.chainId, symbols))
  {
    Quotes.LiveMeansCached(g.quotes, (env.chainId, job.item.pair.symbol), job.snap.generation);
  }

  lemma SecondLinksAll(env: Env, g: Shared, req: Request, symbols: set<Symbol>)
    requires Quotes.Inv(g.quotes) && RequestOk(env, g, req)
    ensures AllLinked(g, req, Quotes.SnapshotMany(g.quotes, env.chainId, symbols))
  {
    hide Quotes.Inv, SlotOk, Linked, Quotes.SnapshotMany;
    forall i: nat | HasJob(req, i)
      ensures Linked(g, JobOf(req, i), Quotes.SnapshotMany(g.quotes, env.chainId, symbols))
    {
      assert IssuedTo(env, g.quotes, JobOf(req, i).snap.generation, req.items[i].value.pair.symbol);
      SecondViewIsLinked(env, g, JobOf(req, i), symbols);
    }
  }

  lemma RequestIsOk(d: Deployment, s: State, r: nat)
    requires Inv(d, s) && r < |s.requests|
    ensures Quotes.Inv(s.quotes) && RequestOk(d.env, SharedOf(s), s.requests[r])
  {
  }

  /** The second snapshot, the token set and the final clock reading. */
  lemma ReadingsKeep(d: Deployment, s: State, a: Action)
    requires Inv(d, s) && (a.TakeSecond? || a.ReadTokens? || a.ReadClock?)
    ensures Inv(d, RequestStep(d, s, a))
  {
    hide Inv, Quotes.Inv, RequestOk, AllLinked, Quotes.SnapshotMany, BuiltSymbols;
    if RequestStep(d, s, a) != s {
      var req, g := s.requests[a.r], SharedOf(s);
      RequestIsOk(d, s, a.r);
      if a.TakeSecond? {
        SecondLinksAll(d.env, g, req, BuiltSymbols(req));
      } else {
        SecondIsLinked(d.env, g, req);
      }
      var stage := RequestStep(d, s, a).requests[a.r].stage;
      StageChanges(d.env, g, req, stage);
      OneRequestChanges(d, s, a.r, req.(stage := stage));
    }
  }

  lemma RecheckedSlotIsOk(env: Env, g: Shared, req: Request, i: nat)
    requires RequestOk(env, g, req) && req.stage.Finishing? && HasJob(req, i)
    ensures var job, slot := JobOf(req, i), req.slots[i];
            && (slot.Ready? ==> JobOk(env, g, job, req.stage, CheckOwnQuote(g, job, FinalOf(req), slot)))
            && (slot.Rechecked? ==> JobOk(env, g, job, req.stage, CheckCurrentQuote(g, job, FinalOf(req), slot)))
  {
    var job, slot := JobOf(req, i), req.slots[i];
    assert SlotOk(env, g, req, i);
    hide CheckOwnQuote, CheckCurrentQuote, BuildingOk, Linked, RecheckedOk, DeliveredSafely;
    if slot.Ready? {
      OwnQuoteKeeps(env, g, job, FinalOf(req), slot);
    } else if slot.Rechecked? {
      CurrentQuoteKeeps(env, g, job, FinalOf(req), slot);
    }
  }

  lemma RecheckKeeps(d: Deployment, s: State, r: nat, i: nat)
    requires Inv(d, s)
    ensures Inv(d, RecheckStep(s, r, i))
  {
    hide Inv, Quotes.Inv, RequestOk, JobOk, CheckOwnQuote, CheckCurrentQuote;
    if RecheckStep(s, r, i) != s {
      var req := s.requests[r];
      RequestIsOk(d, s, r);
      RecheckedSlotIsOk(d.env, SharedOf(s), req, i);
      var next := RecheckStep(s, r, i).requests[r].slots[i];
      OneSlotChanges(d.env, SharedOf(s), req, i, next);
      OneRequestChanges(d, s, r, req.(slots := req.slots[i := next]));
    }
  }

  // ---- the feed, the tasks and the reloader --------------------------------------------------

  lemma SymbolsOfProjection(w: Reload.World, tokens: Reload.TokenSet)
    requires Reload.Runs(w, tokens)
    ensures forall sym :: sym in tokens.symbols <==> sym in TokenFile.SymbolSet(TokenFile.RowSet(tokens.projection.value))
  {
    TokenFile.SymbolListMatchesRows(tokens.projection.value);
    var rows := tokens.projection.value.tokens;
    assert forall i :: 0 <= i < |rows| ==> tokens.symbols[i] == rows[i].symbol;
  }

  /** A new set forgets every listed symbol it does not keep. */
  lemma AppliedSetForgets(d: Deployment, s: Reload.State, e: Reload.Event)
    requires Reload.Inv(d.world, s) && s.phase.Rest? && Reload.Step(d.world, s, e).phase.Swapped?
    ensures var t := Reload.Step(d.world, s, e);
            && t.listed == s.listed && s.listed == s.tokens.symbols
            && forall sym :: sym in t.listed ==> sym in t.tokens.symbols || sym in t.phase.forget
  {
    var t := Reload.Step(d.world, s, e);
    Reload.StepKeepsInv(d.world, s, e);
    SymbolsOfProjection(d.world, s.tokens);
    SymbolsOfProjection(d.world, t.tokens);
    AppliedForget(d, s, e);
  }

  lemma AppliedForget(d: Deployment, s: Reload.State, e: Reload.Event)
    requires Reload.Inv(d.world, s) && s.phase.Rest? && Reload.Step(d.world, s, e).phase.Swapped?
    ensures var t := Reload.Step(d.world, s, e);
            && t.listed == s.listed && t.tokens.projection.Some?
            && TokenFile.Removed(s.tokens.projection.value, t.tokens.projection.value) <= t.phase.forget
  {
    hide TokenFile.Candidate, TokenFile.SameAs, TokenFile.Removed, TokenFile.Readdressed, Reload.StaticFieldChanged;
  }

  lemma KeepsSymbols(d: Deployment, s: Reload.State, e: Reload.Event)
    requires Reload.Inv(d.world, s) && s.phase.Rest? && Reload.Step(d.world, s, e).phase.Rest?
    ensures Reload.Step(d.world, s, e).tokens.symbols == s.tokens.symbols
  {
  }

  /** The list, the cache and the write lock after an action. */
  ghost predicate ListOkAfter(d: Deployment, s: State, a: Action) {
    ListOk(Quotes.Apply(s.quotes, QuoteEvent(s, a)), Reload.Step(d.world, s.reload, ReloadEvent(s, a)), WriterStep(s, a))
  }

  lemma PollKeepsListOk(d: Deployment, s: State, a: Action)
    requires Reload.Inv(d.world, s.reload) && ListOk(s.quotes, s.reload, s.writer) && a.Poll?
    ensures ListOkAfter(d, s, a)
  {
    hide Reload.Step, Reload.Inv;
    var e := ReloadEvent(s, a);
    var t := Reload.Step(d.world, s.reload, e);
    PollMovesOn(d.world, s.reload, e);
    if s.reload.phase.Rest? {
      if t.phase.Swapped? {
        AppliedSetForgets(d, s.reload, e);
      } else {
        KeepsSymbols(d, s.reload, e);
      }
    }
  }

  lemma PollMovesOn(w: Reload.World, s: Reload.State, e: Reload.Event)
    requires e.Poll?
    ensures var t := Reload.Step(w, s, e);
            (!s.phase.Rest? ==> t == s) && (s.phase.Rest? ==> t.phase.Rest? || t.phase.Swapped?)
  {
    hide Reload.Decide, Reload.Classify;
  }

  lemma FeedKeepsListOk(d: Deployment, s: State, a: Action)
    requires ListOk(s.quotes, s.reload, s.writer)
    requires a.FrameLocks? || a.FrameChecks? || a.FrameStores? || a.HaltLocks? || a.StaleLocks? || a.Revokes?
    requires !s.reload.phase.Swapped? ==> s.reload.listed == s.reload.tokens.symbols
    ensures ListOkAfter(d, s, a)
  {
    assert Reload.Step(d.world, s.reload, ReloadEvent(s, a)) == s.reload;
    hide Reload.Step;
  }

  /** The list is replaced; an eviction takes the lock; it ends with nothing of the forgotten left. */
  lemma ReloaderKeepsListOk(d: Deployment, s: State, a: Action)
    requires ListOk(s.quotes, s.reload, s.writer)
    requires a.ReplaceList? || a.ForgetLocks? || a.ForgetsNothing? || a.Unlocks?
    ensures ListOkAfter(d, s, a)
  {
    assert Quotes.Apply(s.quotes, QuoteEvent(s, a)) == s.quotes;
    hide Quotes.Apply, Reload.Decide, Reload.Classify;
  }

  predicate TouchesList(a: Action) {
    || a.Poll? || a.ReplaceList? || a.ForgetLocks? || a.ForgetsNothing? || a.Unlocks?
    || a.FrameLocks? || a.FrameChecks? || a.FrameStores? || a.HaltLocks? || a.StaleLocks? || a.Revokes?
  }

  lemma OthersKeepListOk(d: Deployment, s: State, a: Action)
    requires ListOk(s.quotes, s.reload, s.writer) && !TouchesList(a)
    ensures ListOkAfter(d, s, a)
  {
    hide ListOk, Reload.Decide, Reload.Classify;
  }

  lemma EnvironmentKeepsListOk(d: Deployment, s: State, a: Action)
    requires Reload.Inv(d.world, s.reload) && ListOk(s.quotes, s.reload, s.writer)
    ensures ListOkAfter(d, s, a)
  {
    hide ListOk, ListOkAfter;
    assert !s.reload.phase.Swapped? ==> s.reload.listed == s.reload.tokens.symbols;
    hide Reload.Inv;
    if a.Poll? {
      PollKeepsListOk(d, s, a);
    } else if a.ReplaceList? || a.ForgetLocks? || a.ForgetsNothing? || a.Unlocks? {
      ReloaderKeepsListOk(d, s, a);
    } else if TouchesList(a) {
      FeedKeepsListOk(d, s, a);
    } else {
      OthersKeepListOk(d, s, a);
    }
  }

  lemma EnvironmentKeeps(d: Deployment, s: State, a: Action)
    requires Inv(d, s)
    ensures Inv(d, EnvironmentStep(d, s, a))
  {
    hide Quotes.Inv, Signing.Inv, Reload.Inv, ListOk, ReuseOk, RequestsOk, Quotes.Evolves, Signing.Evolves,
      Quotes.Apply, Signing.Apply, Reload.Step, Subscription.Step, QuoteEvent, TaskEvent, ReloadEvent, WriterStep, SessionEvent;
    var t := EnvironmentStep(d, s, a);
    Quotes.ApplyKeepsInv(s.quotes, QuoteEvent(s, a));
    Signing.ApplyKeepsInv(d.limits, s.signer, TaskEvent(a));
    Reload.StepKeepsInv(d.world, s.reload, ReloadEvent(s, a));
    EnvironmentKeepsListOk(d, s, a);
    RequestsAreStable(d.env, SharedOf(s), SharedOf(t), s.requests);
    ReuseIsStable(d.env, SharedOf(s), SharedOf(t));
  }

  lemma ArriveKeeps(d: Deployment, s: State, req: Request)
    requires Inv(d, s) && req.stage.Arrived? && req.slots == []
    ensures Inv(d, s.(requests := s.requests + [req]))
  {
    assert SharedOf(s.(requests := s.requests + [req])) == SharedOf(s);
  }

  lemma TickKeeps(d: Deployment, s: State, tick: nat)
    requires Inv(d, s)
    ensures Inv(d, s.(tick := tick))
  {
    assert SharedOf(s.(tick := tick)) == SharedOf(s);
  }

  lemma IdleSlotAction(d: Deployment, s: State, a: Action)
    requires IsSlotAction(a) && !BuildingSlot(s, a.r, a.i)
    ensures SlotStep(d, s, a) == s
  {
  }

  lemma SlotActionKeeps(d: Deployment, s: State, a: Action)
    requires IsSlotAction(a) && Inv(d, s)
    ensures Inv(d, SlotStep(d, s, a))
  {
    hide Inv, SlotStep;
    if !BuildingSlot(s, a.r, a.i) {
      IdleSlotAction(d, s, a);
    } else {
      match a
      case AdvanceSlot(_, _, _, _) => AdvanceSlotKeeps(d, s, a);
      case SignLock(_, _, _) => SignLockKeeps(d, s, a);
      case SignDone(_, _, _, _) => SignDoneKeeps(d, s, a);
      case DropDeadSign(_, _) => DropDeadSignKeeps(d, s, a);
      case StoreGate(_, _) => StoreGateKeeps(d, s, a);
      case StoreInsert(_, _) => StoreInsertKeeps(d, s, a);
      case StoreRelease(_, _) => StoreReleaseKeeps(d, s, a);
    }
  }

  lemma StepKeeps(d: Deployment, s: State, a: Action)
    requires Inv(d, s)
    ensures Inv(d, Step(d, s, a))
  {
    hide Inv, SlotStep, RequestStep, RecheckStep, EnvironmentStep, Resolved;
    var t := Step(d, s, a);
    if IsSlotAction(a) {
      SlotActionKeeps(d, s, a);
      TickKeeps(d, SlotStep(d, s, a), s.tick + 1);
    } else if a.TakeFirst? {
      TakeFirstKeeps(d, s, a);
      TickKeeps(d, RequestStep(d, s, a), s.tick + 1);
    } else if IsRequestAction(a) {
      ReadingsKeep(d, s, a);
      TickKeeps(d, RequestStep(d, s, a), s.tick + 1);
    } else if a.Recheck? {
      RecheckKeeps(d, s, a.r, a.i);
      TickKeeps(d, RecheckStep(s, a.r, a.i), s.tick + 1);
    } else if a.Arrive? {
      var req := Request(a.schema, Resolved(s.reload.tokens.registry, a.orders), Arrived, []);
      ArriveKeeps(d, s, req);
      TickKeeps(d, s.(requests := s.requests + [req]), s.tick + 1);
    } else {
      EnvironmentKeeps(d, s, a);
      TickKeeps(d, EnvironmentStep(d, s, a), s.tick + 1);
    }
  }

  /** Every state of every run satisfies the invariant. */
  lemma {:induction false} RunKeeps(d: Deployment, first: State, actions: seq<Action>, n: nat)
    requires Inv(d, first) && n <= |actions|
    ensures Inv(d, After(d, first, actions, n))
  {
    hide Inv, Step;
    if n > 0 {
      RunKeeps(d, first, actions, n - 1);
      StepKeeps(d, After(d, first, actions, n - 1), actions[n - 1]);
    }
  }
}
