/**
  The server seen from one component: a run of the server is a run of the
  signer, of the reloader and of the subscription, so what holds over their
  runs holds in the server.
 */
module Projections {
  import opened Wire
  import opened Slots
  import opened System
  import opened Invariants
  import opened Frames
  import opened Theorems
  import Signing
  import Reload
  import Subscription
  import IdleUse
  import Boots

  // ---- the signer ---------------------------------------------------------------------------

  function SignEvents(d: Deployment, generation: int, actions: seq<Action>): (events: seq<Signing.Event>)
    requires Reload.BootFrom(d.world, generation).Ok?
    ensures |events| == |actions|
  {
    seq(|actions|, m requires 0 <= m < |actions| => SignEvent(d, At(d, generation, actions, m), actions[m]))
  }

  lemma {:induction false} SignerFollowsEvents(d: Deployment, generation: int, actions: seq<Action>, n: nat)
    requires Reload.BootFrom(d.world, generation).Ok? && n <= |actions|
    ensures At(d, generation, actions, n).signer == Signing.After(d.limits, SignEvents(d, generation, actions), n)
  {
    hide Step, SignEvent, Signing.Apply, Reload.BootFrom;
    if n > 0 {
      hide At;
      SignerFollowsEvents(d, generation, actions, n - 1);
      NextAt(d, generation, actions, n - 1);
      StepSigner(d, At(d, generation, actions, n - 1), actions[n - 1]);
    }
  }

  /** In every reachable state of the server at most one signing call per context hash is outstanding. */
  lemma ServerSingleFlight(d: Deployment, generation: int, actions: seq<Action>, n: nat, i: nat, j: nat)
    requires Reload.BootFrom(d.world, generation).Ok? && n <= |actions|
    requires var cells := At(d, generation, actions, n).signer.cells;
             && i < |cells| && j < |cells| && cells[i].task.Calling? && cells[j].task.Calling?
             && cells[i].hash == cells[j].hash
    ensures i == j
  {
    hide At, Reload.BootFrom, SignEvents, Signing.After;
    SignerFollowsEvents(d, generation, actions, n);
    Signing.SingleFlight(d.limits, SignEvents(d, generation, actions), n, i, j);
  }

  /** The server's map never outgrows the cap, or one more than the most signs it ever had in flight together. */
  lemma ServerMapStaysBounded(d: Deployment, generation: int, actions: seq<Action>, n: nat) returns (m: nat)
    requires Reload.BootFrom(d.world, generation).Ok? && n <= |actions|
    ensures m <= n
    ensures |At(d, generation, actions, n).signer.slots|
              <= Signing.Max(d.limits.maxEntries, |Signing.InFlight(At(d, generation, actions, m).signer.cells)| + 1)
  {
    hide At, Reload.BootFrom, SignEvents, Signing.After;
    var events := SignEvents(d, generation, actions);
    SignerFollowsEvents(d, generation, actions, n);
    Signing.MapStaysBounded(d.limits, events, n);
    m :| m <= n && |Signing.After(d.limits, events, n).slots|
                     <= Signing.Max(d.limits.maxEntries, Signing.FlightAt(d.limits, events, m) + 1);
    SignerFollowsEvents(d, generation, actions, m);
  }

  /** At step `n` the slot's lookup completes and it waits on `cell`. */
  predicate Returns(d: Deployment, s: State, a: Action, cell: nat) {
    && a.SignDone? && BuildingSlot(s, a.r, a.i) && s.requests[a.r].slots[a.i].SignLocked?
    && SignEvent(d, s, a).Complete? && cell == Signing.CompletedCell(d.limits, s.signer, a.first)
  }

  lemma ReturnsItsCell(d: Deployment, s: State, a: Action, cell: nat)
    requires Returns(d, s, a, cell)
    ensures SlotStep(d, s, a).requests
            == WithSlot(s, a.r, a.i, SignWait(s.requests[a.r].slots[a.i].stmt, cell)).requests
    ensures SignEvent(d, s, a) == Signing.Complete(a.first, a.second)
    ensures s.signer.lock.Some? && s.signer.lock.value.hash == Hash(d, s, a.r, a.i)
    ensures Signing.CanComplete(s.signer, a.first, a.second)
  {
    hide Signing.Apply, Signing.CompletedCell, Signing.CanComplete, Hash;
  }

  /**
    A slot waits on a cell of its own statement's hash, which has not failed;
    and whatever that cell ever reports was produced by a call for that hash.
   */
  lemma ServerReturnsOwnSignatures(d: Deployment, generation: int, actions: seq<Action>, n: nat, later: nat, cell: nat)
    requires Reload.BootFrom(d.world, generation).Ok? && n < later <= |actions|
    requires Returns(d, At(d, generation, actions, n), actions[n], cell)
    ensures var s, t := At(d, generation, actions, n), At(d, generation, actions, later).signer;
            var hash := Hash(d, s, actions[n].r, actions[n].i);
            && cell < |t.cells| && t.cells[cell].hash == hash
            && cell < |At(d, generation, actions, n + 1).signer.cells|
            && !At(d, generation, actions, n + 1).signer.cells[cell].status.Failed?
            && (t.cells[cell].status.Done? ==> (hash, t.cells[cell].status.signature) in t.produced)
  {
    hide At, Reload.BootFrom, Signing.After, SignEvent, SlotStep, Hash;
    var events := SignEvents(d, generation, actions);
    ReturnsItsCell(d, At(d, generation, actions, n), actions[n], cell);
    SignerFollowsEvents(d, generation, actions, n);
    SignerFollowsEvents(d, generation, actions, n + 1);
    SignerFollowsEvents(d, generation, actions, later);
    Signing.CacheAgreesWithSigning(d.limits, events, n, later);
  }

  /** Once a failure is broadcast, no slot of the server is ever handed that cell. */
  lemma ServerNeverReturnsFailed(d: Deployment, generation: int, actions: seq<Action>, failed: nat, n: nat, later: nat, cell: nat)
    requires Reload.BootFrom(d.world, generation).Ok? && n <= later < |actions|
    requires failed < |At(d, generation, actions, n).signer.cells|
    requires At(d, generation, actions, n).signer.cells[failed].status.Failed?
    requires Returns(d, At(d, generation, actions, later), actions[later], cell)
    ensures cell != failed
  {
    hide At, Reload.BootFrom, Signing.After, SignEvent, SlotStep, Hash;
    var events := SignEvents(d, generation, actions);
    ReturnsItsCell(d, At(d, generation, actions, later), actions[later], cell);
    SignerFollowsEvents(d, generation, actions, n);
    SignerFollowsEvents(d, generation, actions, later);
    Signing.FailedCellNeverReturned(d.limits, events, failed, n, later);
  }

  /**
    A statement in use is signed once. In every run, two slots that ask for the
    same hash less than the idle time apart, by clock readings that do not go
    back, wait on the same cell, and the second starts no call: unless in
    between that cell was evicted for a failure, or a lookup was at the cap with
    entries in use.
   */
  lemma ServerSignsOnceWhileInUse(d: Deployment, generation: int, actions: seq<Action>, n: nat, m: nat, cell: nat, again: nat)
    requires Reload.BootFrom(d.world, generation).Ok? && n < m < |actions|
    requires Returns(d, At(d, generation, actions, n), actions[n], cell)
    requires Returns(d, At(d, generation, actions, m), actions[m], again)
    requires var s, t := At(d, generation, actions, n).signer, At(d, generation, actions, m).signer;
             && s.lock.Some? && t.lock.Some? && s.lock.value.hash == t.lock.value.hash
             && d.limits.idleTtl > 0 && t.lock.value.now - s.lock.value.now < d.limits.idleTtl
             && forall k :: n < k < m ==>
                  var u := At(d, generation, actions, k);
                  && IdleUse.ReadsBetween(u.signer, s.lock.value.now, t.lock.value.now)
                  && !IdleUse.EvictsCell(SignEvent(d, u, actions[k]), cell)
                  && !IdleUse.DropsForCap(d.limits, u.signer, SignEvent(d, u, actions[k]))
    ensures again == cell
    ensures At(d, generation, actions, m + 1).signer.cells == At(d, generation, actions, m).signer.cells
  {
    hide At, Reload.BootFrom, Signing.After, SignEvent, SlotStep, Hash, Signing.CompletedCell, Signing.CanComplete,
      IdleUse.ReadsBetween, IdleUse.EvictsCell, IdleUse.DropsForCap;
    var events := SignEvents(d, generation, actions);
    ReturnsItsCell(d, At(d, generation, actions, n), actions[n], cell);
    ReturnsItsCell(d, At(d, generation, actions, m), actions[m], again);
    CompletesCell(d, At(d, generation, actions, n), actions[n], cell);
    CompletesCell(d, At(d, generation, actions, m), actions[m], again);
    SignerFollowsEvents(d, generation, actions, n);
    SignerFollowsEvents(d, generation, actions, m);
    SignerFollowsEvents(d, generation, actions, m + 1);
    forall k | n < k < m
      ensures At(d, generation, actions, k).signer == Signing.After(d.limits, events, k)
    {
      SignerFollowsEvents(d, generation, actions, k);
    }
    IdleUse.InUseIsSignedOnce(d.limits, events, n, m);
  }

  lemma CompletesCell(d: Deployment, s: State, a: Action, cell: nat)
    requires Returns(d, s, a, cell)
    ensures IdleUse.Completes(s.signer, SignEvent(d, s, a))
    ensures s.signer.lock.Some? && Signing.CompletedCell(d.limits, s.signer, SignEvent(d, s, a).first) == cell
  {
    ReturnsItsCell(d, s, a, cell);
    hide Signing.CompletedCell, Signing.CanComplete, SlotStep, SignEvent;
  }

  // ---- the reloader ---------------------------------------------------------------------------

  function ReloadEvents(d: Deployment, generation: int, actions: seq<Action>): (events: seq<Reload.Event>)
    requires Reload.BootFrom(d.world, generation).Ok?
    ensures |events| == |actions|
  {
    seq(|actions|, m requires 0 <= m < |actions| => ReloadEvent(At(d, generation, actions, m), actions[m]))
  }

  lemma {:induction false} ReloaderFollowsEvents(d: Deployment, generation: int, actions: seq<Action>, n: nat)
    requires Reload.BootFrom(d.world, generation).Ok? && n <= |actions|
    ensures At(d, generation, actions, n).reload
            == Reload.After(d.world, Reload.BootFrom(d.world, generation).value, ReloadEvents(d, generation, actions), n)
  {
    hide Step, ReloadEvent, Reload.Step, Reload.BootFrom;
    if n > 0 {
      hide At;
      ReloaderFollowsEvents(d, generation, actions, n - 1);
      NextAt(d, generation, actions, n - 1);
      StepReload(d, At(d, generation, actions, n - 1), actions[n - 1]);
    }
  }

  /**
    The conditional read, in the server. Whenever the reloader is at rest the
    generation it excludes is the last one read; against an honest bucket no
    upload is hidden and the copy seen last is not sent again; and the instance
    is marked invalid exactly while that copy is one boot refuses.
   */
  lemma ServerConditionalRead(d: Deployment, generation: int, actions: seq<Action>, n: nat, latest: int, response: Reload.Response)
    requires Reload.BootFrom(d.world, generation).Ok? && n <= |actions|
    requires At(d, generation, actions, n).reload.phase.Rest?
    requires Reload.Honest(latest, Reload.UnlessGeneration(At(d, generation, actions, n).reload), response)
    ensures var s := At(d, generation, actions, n).reload;
            var read := Reload.Classify(Reload.UnlessGeneration(s), response);
            && Reload.UnlessGeneration(s) == Some(s.lastSeen)
            && (read.NotModified? <==> response.Http? && response.status == 304)
            && (read.Copy? <==>
                response.Http? && 200 <= response.status < 300 && response.generation.Some? && response.generation.value >= 1
                && response.bodyOk)
            && (read.NotModified? ==> latest == s.lastSeen)
            && (read.Copy? ==> read.generation == latest && latest != s.lastSeen)
            && (s.rejected.Some? <==> Reload.BootFrom(d.world, s.lastSeen).Err?)
            && (read.Copy? ==> Reload.Step(d.world, s, Reload.Poll(latest, response)).lastSeen == latest)
            && (!read.Copy? ==> Reload.Step(d.world, s, Reload.Poll(latest, response)) == s)
  {
    hide At, Reload.BootFrom, Reload.After, Reload.Step, Reload.Honest, Reload.Classify;
    ReloaderFollowsEvents(d, generation, actions, n);
    Reload.ConditionalReadTracksLastSeen(d.world, generation, ReloadEvents(d, generation, actions), n, latest, response);
  }

  /** The running set of a serving instance is what a restart would build from the copy it saw last. */
  lemma ServerRunsLikeRestart(d: Deployment, generation: int, actions: seq<Action>, n: nat)
    requires Reload.BootFrom(d.world, generation).Ok? && n <= |actions|
    requires Reload.BootFrom(d.world, At(d, generation, actions, n).reload.lastSeen).Ok?
    ensures var s := At(d, generation, actions, n);
            var restarted := Init(d, s.reload.lastSeen);
            && s.reload.tokens.registry == restarted.reload.tokens.registry
            && s.reload.tokens.symbols == restarted.reload.tokens.symbols
            && (s.reload.phase.Rest? ==> s.reload.listed == restarted.reload.listed)
  {
    hide At, Reload.BootFrom;
    Reachable(d, generation, actions, n);
    Reload.RunsLikeRestart(d.world, At(d, generation, actions, n).reload);
  }

  /**
    A poll applies what boot would accept, and nothing else. When a resting
    server reads a copy, an acceptable one becomes the running set, which boot
    would build from it; any other changes neither set nor list.
   */
  lemma ServerRunsOnlyAcceptable(d: Deployment, generation: int, actions: seq<Action>, n: nat)
    requires Reload.BootFrom(d.world, generation).Ok? && n < |actions|
    requires At(d, generation, actions, n).reload.phase.Rest? && actions[n].Poll?
    requires Reload.Classify(Reload.UnlessGeneration(At(d, generation, actions, n).reload), actions[n].response).Copy?
    ensures var s, t := At(d, generation, actions, n).reload, At(d, generation, actions, n + 1).reload;
            var g := Reload.Classify(Reload.UnlessGeneration(s), actions[n].response).generation;
            if Boots.Acceptable(d.world.config, d.world.contents(g))
            then t.tokens.generation == Some(g) && !t.phase.Listed? && (t.phase.Rest? ==> t.rejected == None)
            else t.tokens == s.tokens && t.listed == s.listed && t.phase.Rest? && t.rejected == Some(g)
  {
    hide At, Step, Reload.BootFrom, Inv, Reload.Step, Reload.Classify, Boots.Acceptable;
    NextAt(d, generation, actions, n);
    StepReload(d, At(d, generation, actions, n), actions[n]);
    Reachable(d, generation, actions, n);
    ReloadIsOk(d, At(d, generation, actions, n));
    Boots.UnacceptableChangesNothing(d.world, At(d, generation, actions, n).reload, actions[n].latest, actions[n].response);
  }

  lemma ReloadIsOk(d: Deployment, s: State)
    requires Inv(d, s)
    ensures Reload.Inv(d.world, s.reload)
  {
    hide Signing.Inv, RequestsOk, ReuseOk, ListOk, Reload.Inv;
  }

  // ---- the subscription --------------------------------------------------------------------------

  function SessionEvents(d: Deployment, generation: int, actions: seq<Action>): (events: seq<Subscription.Event>)
    requires Reload.BootFrom(d.world, generation).Ok?
    ensures |events| == |actions|
  {
    seq(|actions|, m requires 0 <= m < |actions| => SessionEvent(At(d, generation, actions, m), actions[m]))
  }

  lemma {:induction false} SessionFollowsEvents(d: Deployment, generation: int, actions: seq<Action>, n: nat)
    requires Reload.BootFrom(d.world, generation).Ok? && n <= |actions|
    ensures At(d, generation, actions, n).session
            == Subscription.After(Reload.BootFrom(d.world, generation).value.listed, SessionEvents(d, generation, actions), n)
  {
    hide Step, SessionEvent, Subscription.Step, Reload.BootFrom;
    if n > 0 {
      hide At;
      SessionFollowsEvents(d, generation, actions, n - 1);
      NextAt(d, generation, actions, n - 1);
      StepSession(d, At(d, generation, actions, n - 1), actions[n - 1]);
    }
  }

  lemma StepPublishes(d: Deployment, s: State, a: Action)
    requires s.session.history[|s.session.history| - 1] == s.reload.listed
    ensures var history := Subscription.Step(s.session, SessionEvent(s, a)).history;
            history[|history| - 1] == Reload.Step(d.world, s.reload, ReloadEvent(s, a)).listed
  {
    hide Reload.Decide, Reload.Classify;
  }

  /** The watched list is the reloader's list, at every step. */
  lemma {:induction false} ListIsPublished(d: Deployment, generation: int, actions: seq<Action>, n: nat)
    requires Reload.BootFrom(d.world, generation).Ok? && n <= |actions|
    ensures var s := At(d, generation, actions, n);
            s.session.history[|s.session.history| - 1] == s.reload.listed
  {
    hide Step, SessionEvent, ReloadEvent, Subscription.Step, Reload.Step, Reload.BootFrom;
    if n > 0 {
      hide At;
      ListIsPublished(d, generation, actions, n - 1);
      NextAt(d, generation, actions, n - 1);
      var s, a := At(d, generation, actions, n - 1), actions[n - 1];
      StepSession(d, s, a);
      StepReload(d, s, a);
      StepPublishes(d, s, a);
    }
  }

  /**
    The subscription follows the token set. In every run of the server, a
    session that has seen the latest list has sent frames that fold to exactly
    the list in force, and while the reloader rests that is the running set.
   */
  lemma ServerSubscribesTheList(d: Deployment, generation: int, actions: seq<Action>, n: nat)
    requires Reload.BootFrom(d.world, generation).Ok? && n <= |actions|
    requires var session := At(d, generation, actions, n).session;
             !session.session.Disconnected? && session.session.observed == |session.history| - 1
    ensures var s := At(d, generation, actions, n);
            && Subscription.Subscribed(s.session.session.frames) == Subscription.AsSet(s.reload.listed)
            && (s.reload.phase.Rest? ==>
                  Subscription.Subscribed(s.session.session.frames) == Subscription.AsSet(s.reload.tokens.symbols))
  {
    hide At, Reload.BootFrom, Subscription.After, Inv;
    SessionFollowsEvents(d, generation, actions, n);
    Subscription.FramesFoldToTheList(Reload.BootFrom(d.world, generation).value.listed, SessionEvents(d, generation, actions), n);
    ListIsPublished(d, generation, actions, n);
    Reachable(d, generation, actions, n);
    if At(d, generation, actions, n).reload.phase.Rest? {
      RestingList(d, At(d, generation, actions, n));
    }
  }

  lemma RestingList(d: Deployment, s: State)
    requires Inv(d, s) && s.reload.phase.Rest?
    ensures s.reload.listed == s.reload.tokens.symbols
  {
    hide Signing.Inv, RequestsOk, ReuseOk, ListOk;
  }

  /** And it can always see it: a session opens on any list that is not empty, and an open one reads the latest. */
  lemma SessionCatchesUp(d: Deployment, s: State)
    requires Subscription.Inv(s.session)
    ensures var list := s.session.history[|s.session.history| - 1];
            var t, u := Step(d, s, SessionConnects).session, Step(d, s, SessionObserves).session;
            && t.history == s.session.history && u.history == s.session.history
            && (!s.session.session.Connected? && Subscription.AsSet(list) != {} ==>
                  t.session.Connected? && t.session.observed == |t.history| - 1
                  && Subscription.Subscribed(t.session.frames) == Subscription.AsSet(list))
            && (s.session.session.Connected? ==>
                  && !u.session.Disconnected? && u.session.observed == |u.history| - 1
                  && Subscription.Subscribed(u.session.frames) == Subscription.AsSet(list)
                  && (u.session.Ended? <==> Subscription.AsSet(list) == {}))
  {
    hide Step, Subscription.AsSet;
    StepSession(d, s, SessionConnects);
    StepSession(d, s, SessionObserves);
    Subscription.StepKeepsInv(s.session, Subscription.Connect);
    Subscription.StepKeepsInv(s.session, Subscription.Observe);
  }
}
