/**
  The whole server: requests, the pricing feed, sign tasks and the reloader
  share the quote cache, the two signature caches and the running token set.
  A run is any sequence of actions; an action whose guard fails does nothing.
 */
module System {
  import opened Wire
  import opened Registry
  import opened Contexts
  import opened Slots
  import Quotes
  import Reuse
  import Signing
  import Reload
  import Subscription

  /** What is fixed for the life of the process. */
  datatype Deployment = Deployment(env: Env, limits: Signing.Limits, world: Reload.World)

  /** Who holds the quote cache's write lock, if anyone. */
  datatype Writer =
    | Idle
    | LockHeld(quote: Quote)  // a price frame, not yet checked against the list
    | Admitted(quote: Quote)  // one that passed the check
    /** An eviction and the keys it has yet to revoke and remove; `forgetting` for the reloader's. */
    | Removing(pending: set<Quotes.Key>, forgetting: bool)

  /** The snapshots and readings a request has taken, in this order; `tick` numbers are step counts. */
  datatype Stage =
    | Arrived
    | Building(first: View, firstTick: nat)
    | Gathered(first: View, firstTick: nat, second: View, secondTick: nat)
    | SetRead(first: View, firstTick: nat, second: View, secondTick: nat, registry: TokenRegistry, setTick: nat)
    | Finishing(first: View, firstTick: nat, second: View, secondTick: nat, registry: TokenRegistry, setTick: nat,
                atMs: Millis)

  datatype Request = Request(schema: Schema, items: seq<Outcome<Item>>, stage: Stage, slots: seq<Slot>)

  datatype State = State(
    quotes: Quotes.State,
    reuse: map<Reuse.Key, Reuse.Stored>,
    /** The store gates that are held: which slot of which request holds a generation's. */
    gates: map<nat, (nat, nat)>,
    signer: Signing.State,
    reload: Reload.State,
    writer: Writer,
    session: Subscription.State,
    requests: seq<Request>,
    tick: nat)

  function SharedOf(s: State): Shared {
    Shared(s.quotes, s.reuse, s.signer, s.reload.tokens.registry)
  }

  datatype Action =
    // a request
    | Arrive(schema: Schema, orders: seq<Outcome<(Address, Address)>>)
    | TakeFirst(r: nat)
    | AdvanceSlot(r: nat, i: nat, clock: Millis, timedOut: bool)
    | SignLock(r: nat, i: nat, instant: nat)
    | SignDone(r: nat, i: nat, first: set<nat>, second: set<nat>)
    | DropDeadSign(r: nat, i: nat)
    | StoreGate(r: nat, i: nat)
    | StoreInsert(r: nat, i: nat)
    | StoreRelease(r: nat, i: nat)
    | TakeSecond(r: nat)
    | ReadTokens(r: nat)
    | ReadClock(r: nat, clock: Millis)
    | Recheck(r: nat, i: nat)
    // a detached sign task
    | CallReturns(cell: nat, result: Option<Signing.Signature>)
    | EvictRefused(cell: nat)
    | Broadcast(cell: nat)
    | TaskDies(cell: nat)
    // the pricing feed
    | FrameLocks(quote: Quote)
    | FrameChecks
    | FrameStores
    | HaltLocks(key: Quotes.Key)
    | StaleLocks(asset: Symbol)
    | Revokes(key: Quotes.Key)
    | Unlocks
    | SessionConnects
    | SessionObserves
    | SessionDrops
    // the reloader
    | Poll(latest: int, response: Reload.Response)
    | ReplaceList
    | ForgetLocks
    | ForgetsNothing

  // ---- requests and slots ---------------------------------------------------------------

  function Resolved(registry: TokenRegistry, orders: seq<Outcome<(Address, Address)>>): seq<Outcome<Item>> {
    seq(|orders|, i requires 0 <= i < |orders| =>
      match orders[i]
      case Err(e) => Err(e)
      case Ok(pair) =>
        (match Resolve(registry, pair.0, pair.1)
         case None => Err(BadRequest("unknown pair"))
         case Some(p) => Ok(Item(pair.0, pair.1, p))))
  }

  function Needed(items: seq<Outcome<Item>>): set<Symbol> {
    set i | 0 <= i < |items| && items[i].Ok? :: items[i].value.pair.symbol
  }

  /** The slots once the first snapshot is taken: failed ones keep their error. */
  function FirstSlots(items: seq<Outcome<Item>>, first: View): seq<Slot> {
    seq(|items|, i requires 0 <= i < |items| =>
      if items[i].Err? then Failed(items[i].error)
      else if items[i].value.pair.symbol in first then Admission
      else Failed(Unavailable(NoLiveQuote)))
  }

  /** Slot `i` of the request has work left in its build: it resolved and had a quote. */
  predicate HasJob(req: Request, i: nat) {
    && !req.stage.Arrived? && i < |req.items| && i < |req.slots|
    && req.items[i].Ok? && req.items[i].value.pair.symbol in req.stage.first
  }

  function JobOf(req: Request, i: nat): Job
    requires HasJob(req, i)
  {
    Job(req.schema, req.items[i].value, req.stage.first[req.items[i].value.pair.symbol])
  }

  predicate AllBuilt(req: Request) {
    forall i :: 0 <= i < |req.slots| ==> req.slots[i].Ready? || req.slots[i].Failed?
  }

  function FinalOf(req: Request): Final
    requires req.stage.Finishing?
  {
    Final(req.stage.second, req.stage.registry, req.stage.atMs)
  }

  function WithSlot(s: State, r: nat, i: nat, slot: Slot): State
    requires r < |s.requests| && i < |s.requests[r].slots|
  {
    s.(requests := s.requests[r := s.requests[r].(slots := s.requests[r].slots[i := slot])])
  }

  function WithStage(s: State, r: nat, stage: Stage): State
    requires r < |s.requests|
  {
    s.(requests := s.requests[r := s.requests[r].(stage := stage)])
  }

  /** Slot `i` of request `r` is being built. */
  predicate BuildingSlot(s: State, r: nat, i: nat) {
    r < |s.requests| && s.requests[r].stage.Building? && HasJob(s.requests[r], i)
  }

  function Hash(d: Deployment, s: State, r: nat, i: nat): Signing.Hash
    requires r < |s.requests| && i < |s.requests[r].slots|
    requires s.requests[r].slots[i].SignLookup? || s.requests[r].slots[i].SignLocked?
  {
    d.env.codec.hash(s.requests[r].slots[i].stmt.context)
  }

  predicate IsSlotAction(a: Action) {
    || a.AdvanceSlot? || a.SignLock? || a.SignDone? || a.DropDeadSign?
    || a.StoreGate? || a.StoreInsert? || a.StoreRelease?
  }

  predicate IsRequestAction(a: Action) {
    a.TakeFirst? || a.TakeSecond? || a.ReadTokens? || a.ReadClock?
  }

  function SlotStep(d: Deployment, s: State, a: Action): State
    requires IsSlotAction(a)
  {
    if !BuildingSlot(s, a.r, a.i) then s
    else
      var job, slot := JobOf(s.requests[a.r], a.i), s.requests[a.r].slots[a.i];
      match a
      case AdvanceSlot(r, i, clock, timedOut) =>
        WithSlot(s, r, i, Advance(d.env, SharedOf(s), job, slot, clock, timedOut))
      case SignLock(r, i, instant) =>
        if slot.SignLookup? && s.signer.lock.None? then
          WithSlot(s, r, i, SignLocked(slot.stmt)).(
            signer := Signing.Apply(d.limits, s.signer, Signing.Acquire((r, i), Hash(d, s, r, i), instant)))
        else s
      case SignDone(r, i, first, second) =>
        if && slot.SignLocked? && s.signer.lock.Some? && s.signer.lock.value.caller == (r, i)
           && s.signer.lock.value.hash == Hash(d, s, r, i) && Signing.CanComplete(s.signer, first, second)
        then
          WithSlot(s, r, i, SignWait(slot.stmt, Signing.CompletedCell(d.limits, s.signer, first))).(
            signer := Signing.Apply(d.limits, s.signer, Signing.Complete(first, second)))
        else s
      case DropDeadSign(r, i) =>
        if slot.SignDead? && s.signer.lock.None? then
          WithSlot(s, r, i, Failed(Internal("signing task aborted"))).(
            signer := Signing.Apply(d.limits, s.signer, Signing.EvictDead(slot.cell)))
        else s
      case StoreGate(r, i) =>
        if !slot.Storing? then s
        else if d.env.margin == 0 then WithSlot(s, r, i, AfterStore(d.env, job, slot))
        else if job.snap.generation in s.gates then s
        else
          WithSlot(s, r, i,
                   if job.snap.generation in s.quotes.live then Inserting(slot.stmt, slot.signature)
                   else Releasing(slot.stmt, slot.signature)).(
            gates := s.gates[job.snap.generation := (r, i)])
      case StoreInsert(r, i) =>
        if slot.Inserting? then
          WithSlot(s, r, i, Releasing(slot.stmt, slot.signature)).(
            reuse := s.reuse[ReuseKey(job) := StoredBy(d.env, job, slot)])
        else s
      case StoreRelease(r, i) =>
        if slot.Releasing? then
          WithSlot(s, r, i, AfterStore(d.env, job, slot)).(gates := s.gates - {job.snap.generation})
        else s
  }

  /** The entry a slot stores for reuse. */
  function StoredBy(env: Env, job: Job, slot: Slot): Reuse.Stored
    requires slot.Storing? || slot.Inserting?
  {
    Reuse.Stored(slot.stmt.expiry, Response(env, slot.stmt, slot.signature), job.snap.generation)
  }

  function RequestStep(d: Deployment, s: State, a: Action): State
    requires IsRequestAction(a)
  {
    if a.r >= |s.requests| then s
    else
      var req := s.requests[a.r];
      match a
      case TakeFirst(r) =>
        if req.stage.Arrived? && s.writer.Idle? then
          var first := Quotes.SnapshotMany(s.quotes, d.env.chainId, Needed(req.items));
          s.(requests := s.requests[r := req.(stage := Building(first, s.tick), slots := FirstSlots(req.items, first))])
        else s
      case TakeSecond(r) =>
        if req.stage.Building? && AllBuilt(req) && s.writer.Idle? then
          var second := Quotes.SnapshotMany(s.quotes, d.env.chainId, BuiltSymbols(req));
          WithStage(s, r, Gathered(req.stage.first, req.stage.firstTick, second, s.tick))
        else s
      case ReadTokens(r) =>
        if req.stage.Gathered? then
          WithStage(s, r, SetRead(req.stage.first, req.stage.firstTick, req.stage.second, req.stage.secondTick,
                                  s.reload.tokens.registry, s.tick))
        else s
      case ReadClock(r, clock) =>
        if req.stage.SetRead? then
          WithStage(s, r, Finishing(req.stage.first, req.stage.firstTick, req.stage.second, req.stage.secondTick,
                                    req.stage.registry, req.stage.setTick, clock))
        else s
  }

  function BuiltSymbols(req: Request): set<Symbol> {
    set i | 0 <= i < |req.slots| && i < |req.items| && req.slots[i].Ready? && req.items[i].Ok? ::
      req.items[i].value.pair.symbol
  }

  function RecheckStep(s: State, r: nat, i: nat): State {
    if r < |s.requests| && s.requests[r].stage.Finishing? && HasJob(s.requests[r], i) then
      var req := s.requests[r];
      var job, slot := JobOf(req, i), req.slots[i];
      if slot.Ready? then WithSlot(s, r, i, CheckOwnQuote(SharedOf(s), job, FinalOf(req), slot))
      else if slot.Rechecked? then WithSlot(s, r, i, CheckCurrentQuote(SharedOf(s), job, FinalOf(req), slot))
      else s
    else s
  }

  // ---- the feed, the tasks and the reloader ------------------------------------------------

  /** The eviction in progress may revoke and remove `key`: no store holds that generation's gate. */
  predicate CanRevoke(s: State, key: Quotes.Key) {
    && s.writer.Removing? && key in s.writer.pending
    && (key in s.quotes.entries ==> s.quotes.entries[key].generation !in s.gates)
  }

  predicate CanUnlock(s: State) {
    s.writer.Removing? && s.writer.pending == {}
  }

  /** What an action does to the quote cache. */
  function QuoteEvent(s: State, a: Action): Quotes.Event {
    match a
    case FrameStores => if s.writer.Admitted? then Quotes.Price(s.writer.quote) else Quotes.Quiet
    case Revokes(key) => if CanRevoke(s, key) then Quotes.Halt(key) else Quotes.Quiet
    case _ => Quotes.Quiet
  }

  function TaskEvent(a: Action): Signing.Event {
    match a
    case CallReturns(cell, result) => Signing.CallReturns(cell, result)
    case EvictRefused(cell) => Signing.EvictRefused(cell)
    case Broadcast(cell) => Signing.Broadcast(cell)
    case TaskDies(cell) => Signing.Die(cell)
    case _ => Signing.Quiet
  }

  function ReloadEvent(s: State, a: Action): Reload.Event {
    match a
    case Poll(latest, response) => Reload.Poll(latest, response)
    case ReplaceList => Reload.ReplaceList
    case Unlocks => if CanUnlock(s) && s.writer.forgetting then Reload.ForgetDone else Reload.Quiet
    case ForgetsNothing =>
      if s.reload.phase.Listed? && s.reload.phase.forget == {} then Reload.ForgetDone else Reload.Quiet
    case _ => Reload.Quiet
  }

  /** The write lock: a frame checks the list under it, an eviction revokes key by key under it. */
  function WriterStep(s: State, a: Action): Writer {
    match a
    case FrameLocks(q) => if s.writer.Idle? then LockHeld(q) else s.writer
    case FrameChecks =>
      if s.writer.LockHeld? then
        if s.writer.quote.asset in s.reload.listed then Admitted(s.writer.quote) else Idle
      else s.writer
    case FrameStores => if s.writer.Admitted? then Idle else s.writer
    case HaltLocks(key) => if s.writer.Idle? then Removing({key}, false) else s.writer
    case StaleLocks(asset) => if s.writer.Idle? then Removing(KeysOf(s.quotes, {asset}), false) else s.writer
    case ForgetLocks =>
      if s.writer.Idle? && s.reload.phase.Listed? && s.reload.phase.forget != {} then
        Removing(KeysOf(s.quotes, s.reload.phase.forget), true)
      else s.writer
    case Revokes(key) =>
      if CanRevoke(s, key) then Removing(s.writer.pending - {key}, s.writer.forgetting) else s.writer
    case Unlocks => if CanUnlock(s) then Idle else s.writer
    case _ => s.writer
  }

  function KeysOf(quotes: Quotes.State, symbols: set<Symbol>): set<Quotes.Key> {
    set k | k in quotes.entries && k.1 in symbols
  }

  /** What the pricing session sees: the list is published between the swap and the eviction. */
  function SessionEvent(s: State, a: Action): Subscription.Event {
    match a
    case ReplaceList =>
      if s.reload.phase.Swapped? then Subscription.Publish(s.reload.tokens.symbols) else Subscription.Quiet
    case SessionConnects => Subscription.Connect
    case SessionObserves => Subscription.Observe
    case SessionDrops => Subscription.Drop
    case _ => Subscription.Quiet
  }

  function EnvironmentStep(d: Deployment, s: State, a: Action): State {
    s.(quotes := Quotes.Apply(s.quotes, QuoteEvent(s, a)),
       signer := Signing.Apply(d.limits, s.signer, TaskEvent(a)),
       reload := Reload.Step(d.world, s.reload, ReloadEvent(s, a)),
       writer := WriterStep(s, a),
       session := Subscription.Step(s.session, SessionEvent(s, a)))
  }

  function Step(d: Deployment, s: State, a: Action): State {
    var t :=
      if a.Arrive? then
        s.(requests := s.requests + [Request(a.schema, Resolved(s.reload.tokens.registry, a.orders), Arrived, [])])
      else if IsRequestAction(a) then RequestStep(d, s, a)
      else if IsSlotAction(a) then SlotStep(d, s, a)
      else if a.Recheck? then RecheckStep(s, a.r, a.i)
      else EnvironmentStep(d, s, a);
    t.(tick := s.tick + 1)
  }

  /** The server right after boot. */
  function Init(d: Deployment, generation: int): State
    requires Reload.BootFrom(d.world, generation).Ok?
  {
    var boot := Reload.BootFrom(d.world, generation).value;
    State(Quotes.EMPTY, map[], map[], Signing.EMPTY, boot, Idle,
          Subscription.State([boot.listed], Subscription.Disconnected), [], 0)
  }

  function After(d: Deployment, first: State, actions: seq<Action>, n: nat): State
    requires n <= |actions|
  {
    if n == 0 then first else Step(d, After(d, first, actions, n - 1), actions[n - 1])
  }
}
