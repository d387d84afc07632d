/**
  The content-addressed signature cache and the detached tasks that fill it.
  A cell is one `Arc<CacheEntry>` and its index is its identity; tasks keep
  running while the map lock is held, so a lookup is two steps, `Acquire` and
  `Complete`, and its scans may have seen a sign in flight that has ended since.
 */
module Signing {
  import opened Wire

  type Hash = Word
  type Signature = seq<int>

  /** What the watch channel of a cell holds. */
  datatype Status = Pending | Done(signature: Signature) | Failed

  /** Where the task of a cell is; the sender lives until `Ended`. */
  datatype Task =
    | Calling                          // the signing call is outstanding
    | Returned(signature: Signature)   // it succeeded, not yet broadcast
    | Refused                          // it failed, entry not yet evicted
    | Evicted                          // it failed and the entry is gone, not yet broadcast
    | Ended                            // broadcast, or died without a result

  datatype Cell = Cell(hash: Hash, startedAt: nat, status: Status, task: Task) {
    /** Pending with a live sender. */
    predicate InFlight() {
      status.Pending? && !task.Ended?
    }
  }

  datatype Slot = Slot(lastUsed: nat, cell: nat)

  /** A lookup that holds the map lock, and the signs in flight when it took it. */
  datatype Held = Held(caller: (nat, nat), hash: Hash, now: nat, before: set<nat>)

  datatype State = State(
    cells: seq<Cell>,
    slots: map<Hash, Slot>,
    insertsSinceSweep: nat,
    lock: Option<Held>,
    /** Every signature a signing call has returned, with the hash it signed. */
    produced: set<(Hash, Signature)>,
    /** The most signs ever in flight together. */
    peak: nat)

  const EMPTY := State([], map[], 0, None, {}, 0)

  const SWEEP_EVERY_INSERTS := 256

  datatype Limits = Limits(idleTtl: nat, maxEntries: nat)

  function InFlight(cells: seq<Cell>): set<nat> {
    set i | 0 <= i < |cells| && cells[i].InFlight()
  }

  // ---- lookup and eviction ---------------------------------------------------

  /** `Instant::duration_since` saturates at zero. */
  function Elapsed(now: nat, since: nat): nat {
    if now >= since then now - since else 0
  }

  predicate IsLive(limits: Limits, slot: Slot, now: nat, inFlight: set<nat>) {
    slot.cell in inFlight || Elapsed(now, slot.lastUsed) < limits.idleTtl
  }

  function RetainLive(limits: Limits, slots: map<Hash, Slot>, now: nat, inFlight: set<nat>): map<Hash, Slot> {
    map h | h in slots && IsLive(limits, slots[h], now, inFlight) :: slots[h]
  }

  function RetainInFlight(slots: map<Hash, Slot>, inFlight: set<nat>): map<Hash, Slot> {
    map h | h in slots && slots[h].cell in inFlight :: slots[h]
  }

  predicate Hits(limits: Limits, slots: map<Hash, Slot>, hash: Hash, now: nat, inFlight: set<nat>) {
    hash in slots && IsLive(limits, slots[hash], now, inFlight)
  }

  predicate MustSweep(limits: Limits, slots: map<Hash, Slot>, inserts: nat) {
    inserts >= SWEEP_EVERY_INSERTS || |slots| >= limits.maxEntries
  }

  /** The map just before a missing `hash` is inserted; `first` and `second` are what the scans saw in flight. */
  function MakeRoom(limits: Limits, slots: map<Hash, Slot>, inserts: nat, hash: Hash, now: nat,
                    first: set<nat>, second: set<nat>): map<Hash, Slot> {
    var rest := slots - {hash};
    if MustSweep(limits, rest, inserts + 1) then
      var kept := RetainLive(limits, rest, now, first);
      if |kept| >= limits.maxEntries then RetainInFlight(kept, second) else kept
    else
      rest
  }

  /** Drop `cell` from the map only if it is the one registered for `hash`. */
  function EvictCell(slots: map<Hash, Slot>, hash: Hash, cell: nat): map<Hash, Slot> {
    if hash in slots && slots[hash].cell == cell then slots - {hash} else slots
  }

  // ---- the steps ---------------------------------------------------------------

  datatype Event =
    | Acquire(caller: (nat, nat), hash: Hash, now: nat)
    | Complete(first: set<nat>, second: set<nat>)
    | CallReturns(cell: nat, result: Option<Signature>)
    | EvictRefused(cell: nat)
    | Broadcast(cell: nat)
    | Die(cell: nat)
    | EvictDead(cell: nat)
    | Quiet

  /** The scans run while the lock is held: they see what is in flight now, at most what was at the start. */
  predicate CanComplete(s: State, first: set<nat>, second: set<nat>) {
    s.lock.Some? && InFlight(s.cells) <= second <= first <= s.lock.value.before
  }

  /** The cell a completing lookup returns: the one found, or the one it is about to create. */
  function CompletedCell(limits: Limits, s: State, first: set<nat>): nat
    requires s.lock.Some?
  {
    var l := s.lock.value;
    if Hits(limits, s.slots, l.hash, l.now, first) then s.slots[l.hash].cell else |s.cells|
  }

  function CompleteLookup(limits: Limits, s: State, first: set<nat>, second: set<nat>): State
    requires s.lock.Some?
  {
    var l := s.lock.value;
    if Hits(limits, s.slots, l.hash, l.now, first) then
      s.(slots := s.slots[l.hash := Slot(l.now, s.slots[l.hash].cell)], lock := None)
    else
      var room := MakeRoom(limits, s.slots, s.insertsSinceSweep, l.hash, l.now, first, second);
      var swept := MustSweep(limits, s.slots - {l.hash}, s.insertsSinceSweep + 1);
      Start(s, room, if swept then 0 else s.insertsSinceSweep + 1)
  }

  /** A new cell for the hash under lookup, entered into `room`, with its task calling. */
  function Start(s: State, room: map<Hash, Slot>, inserts: nat): State
    requires s.lock.Some?
  {
    var l := s.lock.value;
    var cells := s.cells + [Cell(l.hash, l.now, Pending, Calling)];
    State(cells, room[l.hash := Slot(l.now, |s.cells|)], inserts, None, s.produced, Max(s.peak, |InFlight(cells)|))
  }

  function Max(a: nat, b: nat): nat { if a >= b then a else b }

  function WithTask(s: State, i: nat, task: Task, status: Status): State
    requires i < |s.cells|
  {
    s.(cells := s.cells[i := s.cells[i].(task := task, status := status)])
  }

  function Apply(limits: Limits, s: State, e: Event): State {
    match e
    case Acquire(caller, hash, now) =>
      if s.lock.None? then s.(lock := Some(Held(caller, hash, now, InFlight(s.cells)))) else s
    case Complete(first, second) =>
      if CanComplete(s, first, second) then CompleteLookup(limits, s, first, second) else s
    case CallReturns(i, result) =>
      if i < |s.cells| && s.cells[i].task.Calling? then
        match result
        case Some(sig) =>
          WithTask(s, i, Returned(sig), s.cells[i].status).(produced := s.produced + {(s.cells[i].hash, sig)})
        case None => WithTask(s, i, Refused, s.cells[i].status)
      else s
    case EvictRefused(i) =>
      if i < |s.cells| && s.cells[i].task.Refused? && s.lock.None? then
        WithTask(s, i, Evicted, s.cells[i].status).(slots := EvictCell(s.slots, s.cells[i].hash, i))
      else s
    case Broadcast(i) =>
      if i < |s.cells| && s.cells[i].task.Returned? then
        WithTask(s, i, Ended, Done(s.cells[i].task.signature))
      else if i < |s.cells| && s.cells[i].task.Evicted? then
        WithTask(s, i, Ended, Failed)
      else s
    case Die(i) =>
      if i < |s.cells| && s.cells[i].InFlight() then WithTask(s, i, Ended, Pending) else s
    case EvictDead(i) =>
      if i < |s.cells| && s.cells[i].status.Pending? && s.cells[i].task.Ended? && s.lock.None? then
        s.(slots := EvictCell(s.slots, s.cells[i].hash, i))
      else s
    case Quiet => s
  }

  // ---- the invariant -------------------------------------------------------------

  predicate Mapped(s: State, i: nat)
    requires i < |s.cells|
  {
    s.cells[i].hash in s.slots && s.slots[s.cells[i].hash].cell == i
  }

  predicate CellOk(s: State, i: nat)
    requires i < |s.cells|
  {
    var c := s.cells[i];
    && (!c.task.Ended? ==> c.status.Pending?)
    && (c.task.Calling? || c.task.Returned? || c.task.Refused? ==> Mapped(s, i))
    && (c.task.Evicted? || c.status.Failed? ==> !Mapped(s, i))
    && (c.task.Returned? ==> (c.hash, c.task.signature) in s.produced)
    && (c.status.Done? ==> (c.hash, c.status.signature) in s.produced)
  }

  predicate SlotOk(s: State, h: Hash)
    requires h in s.slots
  {
    s.slots[h].cell < |s.cells| && s.cells[s.slots[h].cell].hash == h
  }

  ghost predicate Inv(limits: Limits, s: State) {
    && (forall i: nat :: i < |s.cells| ==> CellOk(s, i))
    && (forall h :: h in s.slots ==> SlotOk(s, h))
    && (s.lock.Some? ==> InFlight(s.cells) <= s.lock.value.before && |s.lock.value.before| <= s.peak)
    && |InFlight(s.cells)| <= s.peak
    && |s.slots| <= Max(limits.maxEntries, s.peak + 1)
  }

  /** What never goes back: cells keep their hash, results and produced signatures stay. */
  ghost predicate Evolves(s: State, t: State) {
    && |s.cells| <= |t.cells|
    && (forall i :: 0 <= i < |s.cells| ==> t.cells[i].hash == s.cells[i].hash)
    && (forall i :: 0 <= i < |s.cells| && s.cells[i].task.Ended? ==> t.cells[i] == s.cells[i])
    && s.produced <= t.produced
  }

  /** A map whose slots point at distinct cells of `cells` is no larger than `cells`. */
  lemma {:induction false} DistinctCellsBound(s: State, m: map<Hash, Slot>, cells: set<nat>)
    requires forall h :: h in m ==> m[h].cell < |s.cells| && s.cells[m[h].cell].hash == h && m[h].cell in cells
    ensures |m| <= |cells|
    decreases |m|
  {
    if m != map[] {
      var h :| h in m;
      var smaller := m - {h};
      assert |smaller| == |m| - 1 by {
        assert smaller.Keys == m.Keys - {h};
      }
      DistinctCellsBound(s, smaller, cells - {m[h].cell});
    }
  }

  /** Room for one more: every in-flight entry is kept, the rest unchanged, and the bound leaves space. */
  ghost predicate RoomFor(limits: Limits, s: State, hash: Hash, room: map<Hash, Slot>) {
    && |room| + 1 <= Max(limits.maxEntries, s.peak + 1)
    && hash !in room
    && (forall h :: h in room ==> h in s.slots && room[h] == s.slots[h])
    && (forall h :: h in s.slots && h != hash && s.slots[h].cell in InFlight(s.cells) ==> h in room)
  }

  /** What making room may drop: nothing in flight, and it invents nothing. */
  lemma RoomKeepsFlying(limits: Limits, slots: map<Hash, Slot>, inserts: nat, hash: Hash, now: nat,
                        first: set<nat>, second: set<nat>, flying: set<nat>)
    requires flying <= second <= first
    ensures var room := MakeRoom(limits, slots, inserts, hash, now, first, second);
            && hash !in room
            && (forall h :: h in room ==> h in slots && room[h] == slots[h])
            && (forall h :: h in slots && h != hash && slots[h].cell in flying ==> h in room)
  {
  }

  lemma RoomIsMade(limits: Limits, s: State, first: set<nat>, second: set<nat>)
    requires Inv(limits, s) && CanComplete(s, first, second)
    ensures var l := s.lock.value;
            RoomFor(limits, s, l.hash, MakeRoom(limits, s.slots, s.insertsSinceSweep, l.hash, l.now, first, second))
  {
    var l := s.lock.value;
    RoomKeepsFlying(limits, s.slots, s.insertsSinceSweep, l.hash, l.now, first, second, InFlight(s.cells));
    RoomIsSmall(limits, s, first, second);
    hide MakeRoom, Inv, CanComplete;
  }

  lemma RoomIsSmall(limits: Limits, s: State, first: set<nat>, second: set<nat>)
    requires Inv(limits, s) && CanComplete(s, first, second)
    ensures var l := s.lock.value;
            |MakeRoom(limits, s.slots, s.insertsSinceSweep, l.hash, l.now, first, second)| + 1
              <= Max(limits.maxEntries, s.peak + 1)
  {
    var l := s.lock.value;
    var rest := s.slots - {l.hash};
    var kept := RetainLive(limits, rest, l.now, first);
    if MustSweep(limits, rest, s.insertsSinceSweep + 1) && |kept| >= limits.maxEntries {
      InFlightIsSmall(limits, s, kept, second);
    }
    hide IsLive, InFlight, CellOk, SlotOk, RetainInFlight, RetainLive, Inv;
  }

  /** What is kept in flight fits below the peak. */
  lemma InFlightIsSmall(limits: Limits, s: State, kept: map<Hash, Slot>, second: set<nat>)
    requires Inv(limits, s) && s.lock.Some? && second <= s.lock.value.before
    requires forall h :: h in kept ==> h in s.slots && kept[h] == s.slots[h]
    ensures |RetainInFlight(kept, second)| <= s.peak
  {
    var last := RetainInFlight(kept, second);
    forall h | h in last
      ensures last[h].cell < |s.cells| && s.cells[last[h].cell].hash == h
    {
      assert SlotOk(s, h);
    }
    DistinctCellsBound(s, last, second);
    SubsetSize(second, s.lock.value.before);
  }

  lemma OneCellEnds(cells: seq<Cell>, i: nat, c: Cell)
    requires i < |cells|
    requires c.InFlight() ==> cells[i].InFlight()
    ensures InFlight(cells[i := c]) <= InFlight(cells)
    ensures |InFlight(cells[i := c])| <= |InFlight(cells)|
  {
    SubsetSize(InFlight(cells[i := c]), InFlight(cells));
  }

  lemma CompleteKeepsInv(limits: Limits, s: State, first: set<nat>, second: set<nat>)
    requires Inv(limits, s) && CanComplete(s, first, second)
    ensures Inv(limits, CompleteLookup(limits, s, first, second))
    ensures Evolves(s, CompleteLookup(limits, s, first, second))
    ensures var t, i := CompleteLookup(limits, s, first, second), CompletedCell(limits, s, first);
            i < |t.cells| && t.cells[i].hash == s.lock.value.hash && Mapped(t, i)
  {
    var l := s.lock.value;
    var t := CompleteLookup(limits, s, first, second);
    if Hits(limits, s.slots, l.hash, l.now, first) {
      HitKeepsInv(limits, s, first, second);
    } else {
      MissKeepsInv(limits, s, first, second);
    }
  }

  lemma HitKeepsInv(limits: Limits, s: State, first: set<nat>, second: set<nat>)
    requires Inv(limits, s) && CanComplete(s, first, second)
    requires Hits(limits, s.slots, s.lock.value.hash, s.lock.value.now, first)
    ensures Inv(limits, CompleteLookup(limits, s, first, second))
    ensures Evolves(s, CompleteLookup(limits, s, first, second))
    ensures var t, i := CompleteLookup(limits, s, first, second), CompletedCell(limits, s, first);
            i < |t.cells| && t.cells[i].hash == s.lock.value.hash && Mapped(t, i)
  {
    var l := s.lock.value;
    var t := CompleteLookup(limits, s, first, second);
    assert SlotOk(s, l.hash);
    assert t.slots.Keys == s.slots.Keys;
    forall i: nat | i < |t.cells|
      ensures CellOk(t, i)
    {
      assert CellOk(s, i);
      assert Mapped(t, i) == Mapped(s, i);
    }
    forall h | h in t.slots
      ensures SlotOk(t, h)
    {
      assert SlotOk(s, h);
    }
  }

  lemma MissKeepsInv(limits: Limits, s: State, first: set<nat>, second: set<nat>)
    requires Inv(limits, s) && CanComplete(s, first, second)
    requires !Hits(limits, s.slots, s.lock.value.hash, s.lock.value.now, first)
    ensures Inv(limits, CompleteLookup(limits, s, first, second))
    ensures Evolves(s, CompleteLookup(limits, s, first, second))
    ensures var t, i := CompleteLookup(limits, s, first, second), CompletedCell(limits, s, first);
            i < |t.cells| && t.cells[i].hash == s.lock.value.hash && Mapped(t, i)
  {
    var l := s.lock.value;
    RoomIsMade(limits, s, first, second);
    var room := MakeRoom(limits, s.slots, s.insertsSinceSweep, l.hash, l.now, first, second);
    var swept := MustSweep(limits, s.slots - {l.hash}, s.insertsSinceSweep + 1);
    assert l.hash in s.slots ==> s.slots[l.hash].cell !in InFlight(s.cells);
    hide MakeRoom, MustSweep, RoomFor, Inv, InFlight;
    StartKeepsInv(limits, s, room, if swept then 0 else s.insertsSinceSweep + 1);
  }

  lemma StartKeepsInv(limits: Limits, s: State, room: map<Hash, Slot>, inserts: nat)
    requires Inv(limits, s) && s.lock.Some? && RoomFor(limits, s, s.lock.value.hash, room)
    requires s.lock.value.hash in s.slots ==> s.slots[s.lock.value.hash].cell !in InFlight(s.cells)
    ensures Inv(limits, Start(s, room, inserts)) && Evolves(s, Start(s, room, inserts))
    ensures var t := Start(s, room, inserts);
            |s.cells| < |t.cells| && t.cells[|s.cells|].hash == s.lock.value.hash && Mapped(t, |s.cells|)
  {
    StartKeepsSlots(limits, s, room, inserts);
    StartKeepsCells(limits, s, room, inserts);
    hide CellOk, SlotOk, RoomFor, InFlight;
  }

  lemma StartKeepsSlots(limits: Limits, s: State, room: map<Hash, Slot>, inserts: nat)
    requires Inv(limits, s) && s.lock.Some? && RoomFor(limits, s, s.lock.value.hash, room)
    ensures var t := Start(s, room, inserts);
            && |t.slots| <= Max(limits.maxEntries, s.peak + 1)
            && forall h :: h in t.slots ==> SlotOk(t, h)
  {
    hide CellOk, InFlight;
    var l, t := s.lock.value, Start(s, room, inserts);
    OneMoreSlot(room, l.hash, Slot(l.now, |s.cells|));
    forall h | h in t.slots
      ensures SlotOk(t, h)
    {
      if h != l.hash {
        assert h in room;
        OldSlotStands(limits, s, room, inserts, h);
      }
    }
  }

  lemma OneMoreSlot(room: map<Hash, Slot>, h: Hash, slot: Slot)
    ensures |room[h := slot]| <= |room| + 1
  {
    assert room[h := slot].Keys == room.Keys + {h};
  }

  lemma OldSlotStands(limits: Limits, s: State, room: map<Hash, Slot>, inserts: nat, h: Hash)
    requires Inv(limits, s) && s.lock.Some? && RoomFor(limits, s, s.lock.value.hash, room) && h in room
    ensures h in Start(s, room, inserts).slots && SlotOk(Start(s, room, inserts), h)
  {
    hide CellOk, InFlight;
    assert h in s.slots && room[h] == s.slots[h] && SlotOk(s, h);
  }

  lemma StartKeepsCells(limits: Limits, s: State, room: map<Hash, Slot>, inserts: nat)
    requires Inv(limits, s) && s.lock.Some? && RoomFor(limits, s, s.lock.value.hash, room)
    requires s.lock.value.hash in s.slots ==> s.slots[s.lock.value.hash].cell !in InFlight(s.cells)
    ensures forall i: nat :: i <= |s.cells| ==> CellOk(Start(s, room, inserts), i)
  {
    var t := Start(s, room, inserts);
    forall i: nat | i < |s.cells|
      ensures CellOk(t, i)
    {
      assert CellOk(s, i);
      var c := s.cells[i];
      if c.hash == s.lock.value.hash {
        assert !Mapped(t, i);
        assert Mapped(s, i) ==> i !in InFlight(s.cells);
      } else {
        assert c.InFlight() ==> i in InFlight(s.cells);
        assert Mapped(t, i) ==> Mapped(s, i);
        assert Mapped(s, i) && c.InFlight() ==> Mapped(t, i);
      }
    }
  }

  /** Evicting a cell changes no other cell's registration. */
  lemma EvictTouchesOneCell(s: State, slots: map<Hash, Slot>, i: nat)
    requires i < |s.cells| && slots == EvictCell(s.slots, s.cells[i].hash, i)
    ensures var t := s.(slots := slots);
            && !Mapped(t, i)
            && (forall j: nat :: j < |s.cells| && j != i ==> Mapped(t, j) == Mapped(s, j))
            && slots.Keys <= s.slots.Keys && |slots| <= |s.slots|
            && (forall h :: h in slots ==> slots[h] == s.slots[h])
  {
    SubsetSize(slots.Keys, s.slots.Keys);
  }

  lemma EvictKeepsInv(limits: Limits, s: State, i: nat, task: Task)
    requires Inv(limits, s) && i < |s.cells| && s.lock.None?
    requires (s.cells[i].task.Refused? && task.Evicted?)
          || (s.cells[i].task.Ended? && s.cells[i].status.Pending? && task.Ended?)
    ensures var t := WithTask(s, i, task, s.cells[i].status).(slots := EvictCell(s.slots, s.cells[i].hash, i));
            Inv(limits, t) && Evolves(s, t)
  {
    var slots := EvictCell(s.slots, s.cells[i].hash, i);
    var t := WithTask(s, i, task, s.cells[i].status).(slots := slots);
    EvictTouchesOneCell(s, slots, i);
    OneCellEnds(s.cells, i, t.cells[i]);
    forall j: nat | j < |t.cells|
      ensures CellOk(t, j)
    {
      assert CellOk(s, j);
      assert j != i ==> Mapped(t, j) == Mapped(s.(slots := slots), j);
    }
    forall h | h in t.slots
      ensures SlotOk(t, h)
    {
      assert SlotOk(s, h);
    }
  }

  lemma TaskStepKeepsInv(limits: Limits, s: State, i: nat, task: Task, status: Status, produced: set<(Hash, Signature)>)
    requires Inv(limits, s) && i < |s.cells| && !s.cells[i].task.Ended? && s.produced <= produced
    requires var c := s.cells[i].(task := task, status := status);
             && (c.InFlight() ==> s.cells[i].InFlight())
             && CellOk(s.(cells := s.cells[i := c], produced := produced), i)
    ensures var t := WithTask(s, i, task, status).(produced := produced);
            Inv(limits, t) && Evolves(s, t)
  {
    var t := WithTask(s, i, task, status).(produced := produced);
    OneCellEnds(s.cells, i, t.cells[i]);
    forall j: nat | j < |t.cells|
      ensures CellOk(t, j)
    {
      assert CellOk(s, j);
      assert Mapped(t, j) == Mapped(s, j);
    }
    forall h | h in t.slots
      ensures SlotOk(t, h)
    {
      assert SlotOk(s, h);
    }
  }

  lemma AcquireKeepsInv(limits: Limits, s: State, lock: Option<Held>)
    requires Inv(limits, s)
    requires lock.Some? ==> InFlight(s.cells) <= lock.value.before && |lock.value.before| <= s.peak
    ensures Inv(limits, s.(lock := lock))
  {
    var t := s.(lock := lock);
    forall i: nat | i < |t.cells|
      ensures CellOk(t, i)
    {
      assert CellOk(s, i) && Mapped(t, i) == Mapped(s, i);
    }
    forall h | h in t.slots
      ensures SlotOk(t, h)
    {
      assert SlotOk(s, h);
    }
  }

  predicate TaskMoves(s: State, e: Event) {
    (e.CallReturns? || e.Broadcast? || e.Die?) && e.cell < |s.cells|
  }

  /** A task's own step changes one cell and what has been produced, and leaves that cell well-formed. */
  lemma TaskEventKeepsInv(limits: Limits, s: State, e: Event)
    requires Inv(limits, s) && TaskMoves(s, e)
    ensures Inv(limits, Apply(limits, s, e)) && Evolves(s, Apply(limits, s, e))
  {
    var t, i := Apply(limits, s, e), e.cell;
    if t != s {
      assert CellOk(s, i) && Mapped(s, i) == Mapped(t, i);
      assert t == WithTask(s, i, t.cells[i].task, t.cells[i].status).(produced := t.produced);
      TaskStepKeepsInv(limits, s, i, t.cells[i].task, t.cells[i].status, t.produced);
    }
  }

  lemma ApplyKeepsInv(limits: Limits, s: State, e: Event)
    requires Inv(limits, s)
    ensures Inv(limits, Apply(limits, s, e)) && Evolves(s, Apply(limits, s, e))
  {
    hide CompleteLookup, CellOk, SlotOk, InFlight;
    var t := Apply(limits, s, e);
    if t != s {
      match e
      case Acquire(_, _, _) =>
        AcquireKeepsInv(limits, s, t.lock);
      case Complete(first, second) =>
        CompleteKeepsInv(limits, s, first, second);
      case EvictRefused(i) =>
        EvictKeepsInv(limits, s, i, Evicted);
      case EvictDead(i) =>
        EvictKeepsInv(limits, s, i, Ended);
        assert WithTask(s, i, Ended, s.cells[i].status).cells == s.cells;
      case _ =>
        TaskEventKeepsInv(limits, s, e);
    }
  }

  // ---- runs ------------------------------------------------------------------------

  /** The cache and its tasks after the first `n` events of a run from the empty state. */
  function After(limits: Limits, events: seq<Event>, n: nat): State
    requires n <= |events|
  {
    if n == 0 then EMPTY else Apply(limits, After(limits, events, n - 1), events[n - 1])
  }

  lemma {:induction false} RunKeepsInv(limits: Limits, events: seq<Event>, n: nat)
    requires n <= |events|
    ensures Inv(limits, After(limits, events, n))
  {
    if n > 0 {
      RunKeepsInv(limits, events, n - 1);
      ApplyKeepsInv(limits, After(limits, events, n - 1), events[n - 1]);
    } else {
      assert InFlight(EMPTY.cells) == {};
    }
  }

  lemma {:induction false} RunEvolves(limits: Limits, events: seq<Event>, i: nat, j: nat)
    requires i <= j <= |events|
    ensures Evolves(After(limits, events, i), After(limits, events, j))
    decreases j
  {
    hide Apply, Inv;
    if i < j {
      RunEvolves(limits, events, i, j - 1);
      RunKeepsInv(limits, events, j - 1);
      ApplyKeepsInv(limits, After(limits, events, j - 1), events[j - 1]);
      EvolvesTransitively(After(limits, events, i), After(limits, events, j - 1), After(limits, events, j));
    }
  }

  lemma EvolvesTransitively(s: State, t: State, u: State)
    requires Evolves(s, t) && Evolves(t, u)
    ensures Evolves(s, u)
  {
  }

  /** Single flight: in every reachable state at most one signing call per hash is outstanding. */
  lemma SingleFlight(limits: Limits, events: seq<Event>, n: nat, i: nat, j: nat)
    requires n <= |events|
    requires var s := After(limits, events, n);
             && i < |s.cells| && j < |s.cells|
             && s.cells[i].task.Calling? && s.cells[j].task.Calling?
             && s.cells[i].hash == s.cells[j].hash
    ensures i == j
  {
    RunKeepsInv(limits, events, n);
    var s := After(limits, events, n);
    assert CellOk(s, i) && CellOk(s, j);
  }

  function FlightAt(limits: Limits, events: seq<Event>, m: nat): nat
    requires m <= |events|
  {
    |InFlight(After(limits, events, m).cells)|
  }

  lemma FlightBelowPeak(limits: Limits, events: seq<Event>, n: nat)
    requires n <= |events|
    ensures FlightAt(limits, events, n) <= After(limits, events, n).peak
  {
    RunKeepsInv(limits, events, n);
  }

  lemma PeakStep(limits: Limits, events: seq<Event>, n: nat)
    requires 0 < n <= |events|
    ensures After(limits, events, n - 1).peak <= After(limits, events, n).peak
    ensures After(limits, events, n).peak in {After(limits, events, n - 1).peak, FlightAt(limits, events, n)}
  {
  }

  /** `peak` really is the most signs in flight together, over every state of the run so far. */
  lemma {:induction false} PeakIsReached(limits: Limits, events: seq<Event>, n: nat)
    requires n <= |events|
    ensures forall m: nat :: m <= n ==> FlightAt(limits, events, m) <= After(limits, events, n).peak
    ensures exists m: nat :: m <= n && FlightAt(limits, events, m) == After(limits, events, n).peak
  {
    FlightBelowPeak(limits, events, n);
    if n == 0 {
      assert InFlight(EMPTY.cells) == {};
      assert FlightAt(limits, events, 0) == 0;
    } else {
      PeakIsReached(limits, events, n - 1);
      PeakStep(limits, events, n);
      hide Apply;
      var m: nat :| m <= n - 1 && FlightAt(limits, events, m) == After(limits, events, n - 1).peak;
      if After(limits, events, n).peak == After(limits, events, n - 1).peak {
        assert FlightAt(limits, events, m) == After(limits, events, n).peak;
      } else {
        assert FlightAt(limits, events, n) == After(limits, events, n).peak;
      }
    }
  }

  /** The map never outgrows the cap, or one more than the most signs ever in flight together. */
  lemma MapStaysBounded(limits: Limits, events: seq<Event>, n: nat)
    requires n <= |events|
    ensures exists m: nat :: m <= n &&
              |After(limits, events, n).slots| <= Max(limits.maxEntries, FlightAt(limits, events, m) + 1)
  {
    RunKeepsInv(limits, events, n);
    PeakIsReached(limits, events, n);
    var m: nat :| m <= n && FlightAt(limits, events, m) == After(limits, events, n).peak;
  }

  /**
    A run whose map ends one larger than the most signs it ever had in flight,
    with a cap of one: a sign seen by the scan ends before the new one starts.
   */
  lemma BoundIsTight(events: seq<Event>)
    requires events == [Acquire((0, 0), 7, 0), Complete({}, {}), Acquire((0, 1), 8, 0),
                        CallReturns(0, Some([])), Broadcast(0), Complete({0}, {0})]
    ensures After(Limits(1, 1), events, 6).peak == 1 && |After(Limits(1, 1), events, 6).slots| == 2
  {
    var limits := Limits(1, 1);
    hide After, Apply;
    FirstSign(limits, events);
    assert events[2..5] == [events[2], events[3], events[4]];
    FirstSignEnds(limits, events);
    SecondSign(limits, After(limits, events, 5));
    SixthState(limits, events);
  }

  lemma SixthState(limits: Limits, events: seq<Event>)
    requires |events| >= 6
    ensures After(limits, events, 6) == Apply(limits, After(limits, events, 5), events[5])
  {
  }

  lemma SecondSign(limits: Limits, s: State)
    requires limits == Limits(1, 1)
    requires s == State([Cell(7, 0, Done([]), Ended)], map[7 := Slot(0, 0)], 1, Some(Held((0, 1), 8, 0, {0})), {(7, [])}, 1)
    ensures var t := Apply(limits, s, Complete({0}, {0}));
            t.peak == 1 && |t.slots| == 2
  {
    assert InFlight(s.cells) == {};
    assert s.slots - {8} == s.slots;
    assert RetainLive(limits, s.slots, 0, {0}) == s.slots && RetainInFlight(s.slots, {0}) == s.slots;
    var t := CompleteLookup(limits, s, {0}, {0});
    assert InFlight(t.cells) == {1};
    assert t.slots.Keys == {7, 8};
  }

  lemma FirstSign(limits: Limits, events: seq<Event>)
    requires limits == Limits(1, 1) && |events| >= 2
    requires events[0] == Acquire((0, 0), 7, 0) && events[1] == Complete({}, {})
    ensures After(limits, events, 2)
            == State([Cell(7, 0, Pending, Calling)], map[7 := Slot(0, 0)], 1, None, {}, 1)
  {
    assert After(limits, events, 0) == EMPTY && InFlight(EMPTY.cells) == {};
    var s := EMPTY.(lock := Some(Held((0, 0), 7, 0, {})));
    assert After(limits, events, 1) == s;
    var empty: map<Hash, Slot> := map[];
    assert s.slots - {7} == empty && RetainLive(limits, empty, 0, {}) == empty;
    var t := CompleteLookup(limits, s, {}, {});
    assert After(limits, events, 2) == t;
    assert InFlight(t.cells) == {0};
  }

  lemma FirstSignEnds(limits: Limits, events: seq<Event>)
    requires |events| >= 5
    requires After(limits, events, 2) == State([Cell(7, 0, Pending, Calling)], map[7 := Slot(0, 0)], 1, None, {}, 1)
    requires events[2..5] == [Acquire((0, 1), 8, 0), CallReturns(0, Some([])), Broadcast(0)]
    ensures After(limits, events, 5)
            == State([Cell(7, 0, Done([]), Ended)], map[7 := Slot(0, 0)], 1, Some(Held((0, 1), 8, 0, {0})), {(7, [])}, 1)
    ensures InFlight(After(limits, events, 5).cells) == {}
  {
    assert events[2] == events[2..5][0] && events[3] == events[2..5][1] && events[4] == events[2..5][2];
    var s2 := After(limits, events, 2);
    assert InFlight(s2.cells) == {0};
    var s3 := s2.(lock := Some(Held((0, 1), 8, 0, {0})));
    assert After(limits, events, 3) == s3;
    var s4 := s3.(cells := [Cell(7, 0, Pending, Returned([]))], produced := {(7, [])});
    assert After(limits, events, 4) == s4;
    assert After(limits, events, 5).cells == [Cell(7, 0, Done([]), Ended)];
  }

  /** Neither the sweep nor the cap drop nor a newer lookup removes an entry whose sign is in flight. */
  lemma InFlightIsNeverDropped(limits: Limits, s: State, first: set<nat>, second: set<nat>, h: Hash)
    requires Inv(limits, s) && CanComplete(s, first, second)
    requires h in s.slots && s.slots[h].cell in InFlight(s.cells)
    ensures var t := CompleteLookup(limits, s, first, second);
            h in t.slots && t.slots[h].cell == s.slots[h].cell
  {
    var l := s.lock.value;
    if !Hits(limits, s.slots, l.hash, l.now, first) {
      assert h != l.hash;
      RoomIsMade(limits, s, first, second);
    }
  }

  /**
    A lookup starts a signing call exactly when the hash has no entry, or one
    that is neither seen in flight nor used within the idle time. Otherwise it
    hands back that entry, starts nothing, and only renews it.
   */
  lemma LookupSignsOnlyWhenIdle(limits: Limits, s: State, first: set<nat>, second: set<nat>)
    requires s.lock.Some?
    ensures var t, l := CompleteLookup(limits, s, first, second), s.lock.value;
            && (|t.cells| > |s.cells| <==>
                l.hash !in s.slots
                || (s.slots[l.hash].cell !in first
                    && (limits.idleTtl == 0 || l.now - s.slots[l.hash].lastUsed >= limits.idleTtl)))
            && (|t.cells| == |s.cells| ==>
                && l.hash in s.slots && CompletedCell(limits, s, first) == s.slots[l.hash].cell
                && t == s.(slots := s.slots[l.hash := Slot(l.now, s.slots[l.hash].cell)], lock := None))
            && (|t.cells| > |s.cells| ==>
                && CompletedCell(limits, s, first) == |s.cells| && t.cells[..|s.cells|] == s.cells
                && t.cells[|s.cells|] == Cell(l.hash, l.now, Pending, Calling)
                && l.hash in t.slots && t.slots[l.hash] == Slot(l.now, |s.cells|))
  {
    hide MakeRoom, MustSweep, InFlight;
  }

  /** What a sweep leaves is in flight or in use, and never more than the cap unless all of it is in flight. */
  lemma SweepLeavesNoIdleEntry(limits: Limits, s: State, first: set<nat>, second: set<nat>, h: Hash)
    requires s.lock.Some? && second <= first
    requires var l := s.lock.value;
             && !Hits(limits, s.slots, l.hash, l.now, first)
             && MustSweep(limits, s.slots - {l.hash}, s.insertsSinceSweep + 1)
    ensures var t, l := CompleteLookup(limits, s, first, second), s.lock.value;
            && t.insertsSinceSweep == 0
            && (h in t.slots && h != l.hash ==>
                && h in s.slots && t.slots[h] == s.slots[h]
                && (t.slots[h].cell in first || (limits.idleTtl > 0 && l.now - t.slots[h].lastUsed < limits.idleTtl))
                && (|t.slots| > limits.maxEntries ==> t.slots[h].cell in second))
  {
    var t, l := CompleteLookup(limits, s, first, second), s.lock.value;
    var room := MakeRoom(limits, s.slots, s.insertsSinceSweep, l.hash, l.now, first, second);
    assert t.slots.Keys == room.Keys + {l.hash};
  }

  /** Over every run, a sweep comes at least once in every 256 inserts. */
  lemma {:induction false} SweepIsRegular(limits: Limits, events: seq<Event>, n: nat)
    requires n <= |events|
    ensures After(limits, events, n).insertsSinceSweep < 256
  {
    if n > 0 {
      SweepIsRegular(limits, events, n - 1);
      CountStaysBelow(limits, After(limits, events, n - 1), events[n - 1]);
    }
  }

  lemma CountStaysBelow(limits: Limits, s: State, e: Event)
    requires s.insertsSinceSweep < SWEEP_EVERY_INSERTS
    ensures Apply(limits, s, e).insertsSinceSweep < SWEEP_EVERY_INSERTS
  {
    hide MakeRoom, InFlight, Hits;
  }

  /**
    The cache agrees with direct signing. What a lookup returns is a cell for
    the hash asked for, not a failed one; and whatever that cell ever reports
    as done was produced by a signing call for that very hash.
   */
  lemma CacheAgreesWithSigning(limits: Limits, events: seq<Event>, n: nat, later: nat)
    requires n < later <= |events|
    requires events[n].Complete? && CanComplete(After(limits, events, n), events[n].first, events[n].second)
    ensures var s := After(limits, events, n);
            var i := CompletedCell(limits, s, events[n].first);
            var t := After(limits, events, later);
            && i < |t.cells| && t.cells[i].hash == s.lock.value.hash
            && i < |After(limits, events, n + 1).cells|
            && !After(limits, events, n + 1).cells[i].status.Failed?
            && (t.cells[i].status.Done? ==> (s.lock.value.hash, t.cells[i].status.signature) in t.produced)
  {
    ReturnedCellIsMapped(limits, events, n);
    RunEvolves(limits, events, n + 1, later);
    DoneIsProduced(limits, events, later);
    hide Apply, CanComplete, CompletedCell;
  }

  lemma ReturnedCellIsMapped(limits: Limits, events: seq<Event>, n: nat)
    requires n < |events|
    requires events[n].Complete? && CanComplete(After(limits, events, n), events[n].first, events[n].second)
    ensures var s := After(limits, events, n);
            var i, t := CompletedCell(limits, s, events[n].first), After(limits, events, n + 1);
            i < |t.cells| && t.cells[i].hash == s.lock.value.hash && !t.cells[i].status.Failed?
  {
    RunKeepsInv(limits, events, n);
    var s := After(limits, events, n);
    CompleteKeepsInv(limits, s, events[n].first, events[n].second);
    assert CellOk(CompleteLookup(limits, s, events[n].first, events[n].second), CompletedCell(limits, s, events[n].first));
  }

  lemma DoneIsProduced(limits: Limits, events: seq<Event>, n: nat)
    requires n <= |events|
    ensures var t := After(limits, events, n);
            forall i: nat :: i < |t.cells| && t.cells[i].status.Done? ==>
              (t.cells[i].hash, t.cells[i].status.signature) in t.produced
  {
    RunKeepsInv(limits, events, n);
    hide Apply;
    var t := After(limits, events, n);
    forall i: nat | i < |t.cells| && t.cells[i].status.Done?
      ensures (t.cells[i].hash, t.cells[i].status.signature) in t.produced
    {
      assert CellOk(t, i);
    }
  }

  /** Once a failure is broadcast, no later lookup returns that cell. */
  lemma FailedCellNeverReturned(limits: Limits, events: seq<Event>, i: nat, n: nat, later: nat)
    requires n <= later < |events|
    requires i < |After(limits, events, n).cells| && After(limits, events, n).cells[i].status.Failed?
    requires events[later].Complete?
    requires CanComplete(After(limits, events, later), events[later].first, events[later].second)
    ensures CompletedCell(limits, After(limits, events, later), events[later].first) != i
  {
    RunKeepsInv(limits, events, n);
    assert CellOk(After(limits, events, n), i);
    RunEvolves(limits, events, n, later);
    RunKeepsInv(limits, events, later);
    assert CellOk(After(limits, events, later), i);
  }

  /** A late eviction, of a failed or a dead cell, never removes a newer entry for the same hash. */
  lemma EvictionIsPointerGuarded(s: State, i: nat, h: Hash)
    requires i < |s.cells|
    ensures var after := EvictCell(s.slots, s.cells[i].hash, i);
            && (h in after <==> h in s.slots && (h == s.cells[i].hash ==> s.slots[h].cell != i))
            && (h in after ==> after[h] == s.slots[h])
  {
  }

  // ---- the cache as the server updates it --------------------------------------------

  class SignatureCache {
    var slots: map<Hash, Slot>
    var cells: seq<Cell>
    var insertsSinceSweep: nat
    const limits: Limits

    constructor (limits: Limits)
      ensures slots == map[] && cells == [] && insertsSinceSweep == 0 && this.limits == limits
    {
      this.slots, this.cells, this.insertsSinceSweep, this.limits := map[], [], 0, limits;
    }

    /** `entries.retain(is_live)`. */
    method SweepIdle(now: nat)
      modifies this`slots
      ensures slots == RetainLive(limits, old(slots), now, InFlight(cells))
    {
      var pending := slots.Keys;
      while pending != {}
        invariant pending <= old(slots).Keys
        invariant slots == map h | h in old(slots)
                             && (h in pending || IsLive(limits, old(slots)[h], now, InFlight(cells))) :: old(slots)[h]
        decreases |pending|
      {
        var h :| h in pending;
        pending := pending - {h};
        if !IsLive(limits, slots[h], now, InFlight(cells)) {
          slots := slots - {h};
        }
      }
    }

    /** `entries.retain(is_in_flight)`. */
    method DropFinished()
      modifies this`slots
      ensures slots == RetainInFlight(old(slots), InFlight(cells))
    {
      var pending := slots.Keys;
      while pending != {}
        invariant pending <= old(slots).Keys
        invariant slots == map h | h in old(slots)
                             && (h in pending || old(slots)[h].cell in InFlight(cells)) :: old(slots)[h]
        decreases |pending|
      {
        var h :| h in pending;
        pending := pending - {h};
        if slots[h].cell !in InFlight(cells) {
          slots := slots - {h};
        }
      }
    }

    /** The state machine's view of this cache while no lookup holds the lock. */
    ghost function Contents(produced: set<(Hash, Signature)>, peak: nat): State
      reads this
    {
      State(cells, slots, insertsSinceSweep, None, produced, peak)
    }

    /** A miss: drop what is in the way, enter a new cell and count the insert. */
    method Miss(hash: Hash, now: nat) returns (cell: nat)
      modifies this
      ensures var rest := old(slots) - {hash};
              var swept := MustSweep(limits, rest, old(insertsSinceSweep) + 1);
              && insertsSinceSweep == (if swept then 0 else old(insertsSinceSweep) + 1)
              && slots == MakeRoom(limits, old(slots), old(insertsSinceSweep), hash, now,
                                   InFlight(old(cells)), InFlight(old(cells)))[hash := Slot(now, cell)]
      ensures cell == |old(cells)| && cells == old(cells) + [Cell(hash, now, Pending, Calling)]
    {
      hide RetainLive, RetainInFlight, InFlight;
      slots := slots - {hash};
      insertsSinceSweep := insertsSinceSweep + 1;
      if insertsSinceSweep >= SWEEP_EVERY_INSERTS || |slots| >= limits.maxEntries {
        insertsSinceSweep := 0;
        SweepIdle(now);
        if |slots| >= limits.maxEntries {
          DropFinished();
        }
      }
      cell := |cells|;
      cells := cells + [Cell(hash, now, Pending, Calling)];
      slots := slots[hash := Slot(now, cell)];
    }

    /** `lookup` with no task ending meanwhile: the two steps above, taken at once. */
    method Lookup(hash: Hash, now: nat, ghost caller: (nat, nat), ghost produced: set<(Hash, Signature)>, ghost peak: nat)
      returns (cell: nat, started: bool)
      modifies this
      ensures var before := old(Contents(produced, peak));
              var held := Apply(limits, before, Acquire(caller, hash, now));
              var scan := InFlight(old(cells));
              var after := Apply(limits, held, Complete(scan, scan));
              && after == Contents(produced, after.peak)
              && cell == CompletedCell(limits, held, scan)
              && (started <==> !Hits(limits, old(slots), hash, now, scan))
    {
      hide MakeRoom, MustSweep, InFlight;
      if hash in slots && IsLive(limits, slots[hash], now, InFlight(cells)) {
        slots := slots[hash := Slot(now, slots[hash].cell)];
        return slots[hash].cell, false;
      }
      started := true;
      cell := Miss(hash, now);
    }

    method Evict(hash: Hash, cell: nat)
      modifies this`slots
      ensures slots == EvictCell(old(slots), hash, cell)
    {
      if hash in slots && slots[hash].cell == cell {
        slots := slots - {hash};
      }
    }
  }
}
