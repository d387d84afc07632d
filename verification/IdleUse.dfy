/** What the signature cache keeps: a hash in use is not signed again. */
module IdleUse {
  import opened Wire
  import opened Signing

  /** Seen in flight, or used within the idle time before `now`. */
  predicate InUse(limits: Limits, slot: Slot, now: nat, seen: set<nat>) {
    slot.cell in seen || (limits.idleTtl > 0 && now - slot.lastUsed < limits.idleTtl)
  }

  /** The entries of other hashes that are in use when the lookup under the lock runs. */
  function OthersInUse(limits: Limits, s: State, seen: set<nat>): set<Hash>
    requires s.lock.Some?
  {
    set h | h in s.slots && h != s.lock.value.hash && InUse(limits, s.slots[h], s.lock.value.now, seen)
  }

  // ---- one lookup ---------------------------------------------------------------------

  /** Below the cap, and fewer than 256 inserts after the last sweep, a lookup touches no other entry. */
  lemma LookupTouchesNoOther(limits: Limits, s: State, first: set<nat>, second: set<nat>, h: Hash)
    requires s.lock.Some? && h != s.lock.value.hash
    requires s.insertsSinceSweep + 1 < 256 && |s.slots.Keys - {s.lock.value.hash}| < limits.maxEntries
    ensures var t := CompleteLookup(limits, s, first, second);
            && (h in t.slots <==> h in s.slots)
            && (h in s.slots ==> t.slots[h] == s.slots[h])
  {
    assert (s.slots - {s.lock.value.hash}).Keys == s.slots.Keys - {s.lock.value.hash};
    hide InFlight, RetainLive, RetainInFlight;
  }

  /** Whether or not a lookup sweeps, it keeps every other entry in use, as long as those are below the cap. */
  lemma LookupKeepsOthersInUse(limits: Limits, s: State, first: set<nat>, second: set<nat>, h: Hash)
    requires s.lock.Some? && h in OthersInUse(limits, s, first)
    requires |OthersInUse(limits, s, first)| < limits.maxEntries
    ensures var t := CompleteLookup(limits, s, first, second);
            h in t.slots && t.slots[h] == s.slots[h]
  {
    hide InFlight, RetainInFlight;
    var l := s.lock.value;
    assert RetainLive(limits, s.slots - {l.hash}, l.now, first).Keys == OthersInUse(limits, s, first);
  }

  /** At the cap even then, what the second scan saw in flight is kept. */
  lemma LookupKeepsOthersInFlight(limits: Limits, s: State, first: set<nat>, second: set<nat>, h: Hash)
    requires s.lock.Some? && second <= first && h in OthersInUse(limits, s, second) && s.slots[h].cell in second
    ensures var t := CompleteLookup(limits, s, first, second);
            h in t.slots && t.slots[h] == s.slots[h]
  {
    hide InFlight;
  }

  // ---- over runs ------------------------------------------------------------------------

  /** The event completes a lookup. */
  predicate Completes(s: State, e: Event) {
    e.Complete? && CanComplete(s, e.first, e.second)
  }

  /** The event is a lookup that may drop entries in use for the cap. */
  predicate DropsForCap(limits: Limits, s: State, e: Event) {
    Completes(s, e) && |OthersInUse(limits, s, e.first)| >= limits.maxEntries
  }

  /** The event evicts this cell: its sign failed or its task died. */
  predicate EvictsCell(e: Event, cell: nat) {
    (e.EvictRefused? || e.EvictDead?) && e.cell == cell
  }

  /** Clock readings under the lock between `from` and `to`. */
  predicate ReadsBetween(s: State, from: nat, to: nat) {
    s.lock.Some? ==> from <= s.lock.value.now <= to
  }

  /** `hash` is registered with this cell, last used no earlier than `from`. */
  predicate Registered(s: State, hash: Hash, cell: nat, from: nat) {
    hash in s.slots && s.slots[hash].cell == cell && from <= s.slots[hash].lastUsed
  }

  lemma StepKeepsRegistered(limits: Limits, s: State, e: Event, hash: Hash, cell: nat, from: nat, to: nat)
    requires Inv(limits, s) && Registered(s, hash, cell, from)
    requires ReadsBetween(s, from, to) && limits.idleTtl > 0 && to - from < limits.idleTtl
    requires !EvictsCell(e, cell) && !DropsForCap(limits, s, e)
    ensures Registered(Apply(limits, s, e), hash, cell, from)
  {
    match e
    case Complete(first, second) =>
      if CanComplete(s, first, second) {
        if s.lock.value.hash == hash {
          hide InFlight, MakeRoom;
        } else {
          assert hash in OthersInUse(limits, s, first);
          hide InFlight, CompleteLookup, Inv;
          LookupKeepsOthersInUse(limits, s, first, second, hash);
        }
      }
    case EvictRefused(i) => OtherCellStands(limits, s, i, hash, cell);
    case EvictDead(i) => OtherCellStands(limits, s, i, hash, cell);
    case _ =>
  }

  lemma OtherCellStands(limits: Limits, s: State, i: nat, hash: Hash, cell: nat)
    requires i != cell && hash in s.slots && s.slots[hash].cell == cell
    ensures i < |s.cells| ==>
              var slots := EvictCell(s.slots, s.cells[i].hash, i);
              hash in slots && slots[hash] == s.slots[hash]
  {
  }

  lemma {:induction false} StaysRegistered(limits: Limits, events: seq<Event>, n: nat, m: nat, hash: Hash, cell: nat, from: nat, to: nat)
    requires n <= m <= |events| && Registered(After(limits, events, n), hash, cell, from)
    requires limits.idleTtl > 0 && to - from < limits.idleTtl
    requires forall k :: n <= k < m ==>
               && ReadsBetween(After(limits, events, k), from, to)
               && !EvictsCell(events[k], cell) && !DropsForCap(limits, After(limits, events, k), events[k])
    ensures Registered(After(limits, events, m), hash, cell, from)
    decreases m
  {
    hide Apply, Inv, DropsForCap, Registered;
    if n < m {
      StaysRegistered(limits, events, n, m - 1, hash, cell, from, to);
      RunKeepsInv(limits, events, m - 1);
      StepKeepsRegistered(limits, After(limits, events, m - 1), events[m - 1], hash, cell, from, to);
    }
  }

  /**
    A hash in use is signed once. Take any run, a lookup of `hash` at step `n`
    and another at step `m` less than the idle time after it, by clock readings
    that do not go back. If in between its cell was not evicted for a failure
    and no lookup was at the cap with entries in use, the second lookup starts
    no call: it hands back the cell of the first.
   */
  lemma InUseIsSignedOnce(limits: Limits, events: seq<Event>, n: nat, m: nat)
    requires n < m < |events|
    requires Completes(After(limits, events, n), events[n]) && Completes(After(limits, events, m), events[m])
    requires var s, t := After(limits, events, n), After(limits, events, m);
             var cell := CompletedCell(limits, s, events[n].first);
             && s.lock.value.hash == t.lock.value.hash
             && limits.idleTtl > 0 && t.lock.value.now - s.lock.value.now < limits.idleTtl
             && forall k :: n < k < m ==>
                  && ReadsBetween(After(limits, events, k), s.lock.value.now, t.lock.value.now)
                  && !EvictsCell(events[k], cell) && !DropsForCap(limits, After(limits, events, k), events[k])
    ensures var s, t := After(limits, events, n), After(limits, events, m);
            && CompletedCell(limits, t, events[m].first) == CompletedCell(limits, s, events[n].first)
            && After(limits, events, m + 1).cells == t.cells
  {
    hide Apply, InFlight, DropsForCap;
    var s, t := After(limits, events, n), After(limits, events, m);
    var cell, hash, from := CompletedCell(limits, s, events[n].first), s.lock.value.hash, s.lock.value.now;
    LookupRegisters(limits, s, events[n]);
    hide CompletedCell, Registered;
    StaysRegistered(limits, events, n + 1, m, hash, cell, from, t.lock.value.now);
    RegisteredIsHit(limits, t, events[m], cell, from);
  }

  lemma LookupRegisters(limits: Limits, s: State, e: Event)
    requires Completes(s, e)
    ensures Registered(Apply(limits, s, e), s.lock.value.hash, CompletedCell(limits, s, e.first), s.lock.value.now)
  {
    hide InFlight, MakeRoom, MustSweep;
  }

  lemma RegisteredIsHit(limits: Limits, s: State, e: Event, cell: nat, from: nat)
    requires Completes(s, e) && Registered(s, s.lock.value.hash, cell, from)
    requires limits.idleTtl > 0 && s.lock.value.now - from < limits.idleTtl
    ensures CompletedCell(limits, s, e.first) == cell && Apply(limits, s, e).cells == s.cells
  {
    hide InFlight, MakeRoom, MustSweep;
  }
}
