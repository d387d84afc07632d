/** What a request's two snapshots hold, symbol by symbol, and what becomes of an item by the first. */
module Readings {
  import opened Wire
  import opened Slots
  import opened System
  import opened Invariants
  import opened Frames
  import opened Theorems
  import opened Replies
  import Quotes
  import Reload
  import Contexts

  /** The view holds the symbol's cached quote and generation of this server's chain, or nothing if it is not cached. */
  predicate SeesCache(d: Deployment, quotes: Quotes.State, view: View, symbol: Symbol) {
    && (symbol in view <==> (d.env.chainId, symbol) in quotes.entries)
    && (symbol in view ==>
          && view[symbol].quote == quotes.entries[(d.env.chainId, symbol)].quote
          && view[symbol].generation == quotes.entries[(d.env.chainId, symbol)].generation)
  }

  lemma SnapshotSeesCache(d: Deployment, quotes: Quotes.State, symbols: set<Symbol>, symbol: Symbol)
    requires symbol in symbols
    ensures SeesCache(d, quotes, Quotes.SnapshotMany(quotes, d.env.chainId, symbols), symbol)
  {
  }

  /** The first snapshot holds what the cache held of every item that resolved. */
  lemma FirstSeesTheCache(d: Deployment, generation: int, actions: seq<Action>, n: nat, r: nat, i: nat)
    requires Reload.BootFrom(d.world, generation).Ok? && n <= |actions|
    requires r < |At(d, generation, actions, n).requests| && !At(d, generation, actions, n).requests[r].stage.Arrived?
    requires var req := At(d, generation, actions, n).requests[r]; i < |req.items| && req.items[i].Ok?
    ensures var req := At(d, generation, actions, n).requests[r];
            && req.stage.firstTick < n
            && SeesCache(d, At(d, generation, actions, req.stage.firstTick).quotes, req.stage.first, req.items[i].value.pair.symbol)
  {
    hide At, Reload.BootFrom, SeesCache, SecondTaken, SetTaken, Quotes.SnapshotMany;
    ReadingsAreOfTheirTicks(d, generation, actions, n);
    var req := At(d, generation, actions, n).requests[r];
    assert ReadingsHold(d, generation, actions, n, r, req);
    SnapshotSeesCache(d, At(d, generation, actions, req.stage.firstTick).quotes, Needed(req.items), req.items[i].value.pair.symbol);
  }

  /** The second holds what the cache held then of every item that had been built. */
  lemma SecondSeesTheCache(d: Deployment, generation: int, actions: seq<Action>, n: nat, r: nat, i: nat)
    requires Reload.BootFrom(d.world, generation).Ok? && n <= |actions|
    requires r < |At(d, generation, actions, n).requests| && IsDelivered(At(d, generation, actions, n), r, i)
    ensures var req := At(d, generation, actions, n).requests[r];
            && HasJob(req, i) && req.stage.Finishing? && req.stage.secondTick < n
            && SeesCache(d, At(d, generation, actions, req.stage.secondTick).quotes, req.stage.second, JobOf(req, i).item.pair.symbol)
  {
    hide At, Reload.BootFrom, SeesCache, FirstTaken, SetTaken, Quotes.SnapshotMany, DeliveredSafely, AllBuilt;
    DeliveredItemIsSafe(d, generation, actions, n, r, i);
    var req := At(d, generation, actions, n).requests[r];
    var m := req.stage.secondTick;
    ItemsStay(d, generation, actions, m, n, r);
    var then_ := AtSecond(d, generation, actions, n, r);
    DeliveredWasBuilt(d, generation, actions, n, r, i, then_);
    SnapshotSeesCache(d, At(d, generation, actions, m).quotes, BuiltSymbols(then_), JobOf(req, i).item.pair.symbol);
  }

  lemma DeliveredWasBuilt(d: Deployment, generation: int, actions: seq<Action>, n: nat, r: nat, i: nat, then_: Request)
    requires Reload.BootFrom(d.world, generation).Ok? && n <= |actions|
    requires IsDelivered(At(d, generation, actions, n), r, i)
    requires var now := At(d, generation, actions, n).requests[r];
             && HasJob(now, i) && now.stage.Finishing? && now.stage.secondTick < n
             && r < |At(d, generation, actions, now.stage.secondTick).requests|
             && then_ == At(d, generation, actions, now.stage.secondTick).requests[r] && then_.items == now.items
             && then_.stage.Building? && AllBuilt(then_)
    ensures JobOf(At(d, generation, actions, n).requests[r], i).item.pair.symbol in BuiltSymbols(then_)
  {
    hide At, Reload.BootFrom, ErrorsKept;
    var now := At(d, generation, actions, n).requests[r];
    ErrorsAreKept(d, generation, actions, now.stage.secondTick, r);
    SlotPerItem(then_);
    if then_.slots[i].Failed? {
      FailedForGood(d, generation, actions, now.stage.secondTick, n, r, i);
    }
    assert then_.slots[i].Ready?;
  }

  lemma SlotPerItem(req: Request)
    requires ErrorsKept(req) && !req.stage.Arrived?
    ensures |req.slots| == |req.items|
  {
  }

  /** Taking the first snapshot admits the items whose symbol is cached, and refuses the others as having no live quote. */
  lemma AdmittedExactlyWhenCached(d: Deployment, s: State, r: nat, i: nat)
    requires r < |s.requests| && s.requests[r].stage.Arrived? && s.writer.Idle? && i < |s.requests[r].items|
    ensures var t, item := Step(d, s, TakeFirst(r)), s.requests[r].items[i];
            && r < |t.requests| && t.requests[r].stage.Building? && i < |t.requests[r].slots|
            && t.requests[r].slots[i] ==
               if item.Err? then Failed(item.error)
               else if (d.env.chainId, item.value.pair.symbol) in s.quotes.entries then Admission
               else Failed(Unavailable(NoLiveQuote))
  {
    StepCases(d, s, TakeFirst(r));
    hide Step, Quotes.SnapshotMany, Needed;
    var item := s.requests[r].items[i];
    if item.Ok? {
      IsNeeded(s.requests[r].items, i);
      SnapshotSeesCache(d, s.quotes, Needed(s.requests[r].items), item.value.pair.symbol);
    }
  }

  lemma IsNeeded(items: seq<Outcome<Contexts.Item>>, i: nat)
    requires i < |items| && items[i].Ok?
    ensures items[i].value.pair.symbol in Needed(items)
  {
  }
}
