/**
  The live quote cache. Consecutive price frames of one (chain, symbol) share a
  generation; removing the entry revokes it for good. A generation is a number,
  its `Arc` identity; `issued[g]` records the key it was created for.
 */
module Quotes {
  import opened Wire

  type Key = (U64, Symbol)

  datatype CachedQuote = CachedQuote(quote: Quote, generation: nat)

  datatype State = State(entries: map<Key, CachedQuote>, live: set<nat>, issued: seq<Key>)

  const EMPTY := State(map[], {}, [])

  /** One quote version, held by a request together with its generation. */
  datatype Snapshot = Snapshot(quote: Quote, generation: nat)

  function KeyOf(q: Quote): Key { (q.chainId, q.asset) }

  /** What the pricing feed and the reloader do to the cache, each under its write lock. */
  datatype Event =
    | Price(quote: Quote)
    | Halt(key: Key)               // one key revoked and removed: a halt, or one step of an eviction
    | Evict(symbols: set<Symbol>)  // all of an eviction: stale source, or `forget` after a reload
    | Quiet                        // anything that leaves the cache alone

  // ---- the operations ------------------------------------------------------

  /** A frame for a cached key keeps its generation; otherwise a new one starts. */
  function InsertQuote(s: State, q: Quote): State {
    var key := KeyOf(q);
    if key in s.entries then
      s.(entries := s.entries[key := CachedQuote(q, s.entries[key].generation)])
    else
      State(s.entries[key := CachedQuote(q, |s.issued|)], s.live + {|s.issued|}, s.issued + [key])
  }

  function RemoveKeys(s: State, gone: set<Key>): State {
    State(s.entries - gone,
          s.live - (set k | k in s.entries && k in gone :: s.entries[k].generation),
          s.issued)
  }

  function Apply(s: State, e: Event): State {
    match e
    case Price(q) => InsertQuote(s, q)
    case Halt(key) => RemoveKeys(s, {key})
    case Evict(symbols) => RemoveKeys(s, set k | k in s.entries && k.1 in symbols)
    case Quiet => s
  }

  /** The entries of one chain, for the symbols asked for, under one read lock. */
  function SnapshotMany(s: State, chainId: U64, symbols: set<Symbol>): map<Symbol, Snapshot> {
    map sym | sym in symbols && (chainId, sym) in s.entries ::
      Snapshot(s.entries[(chainId, sym)].quote, s.entries[(chainId, sym)].generation)
  }

  // ---- the invariant -------------------------------------------------------

  /** The liveness flags and the cache agree, and a cached generation is its key's newest. */
  ghost predicate Inv(s: State) {
    && (forall k :: k in s.entries ==> s.entries[k].generation in s.live)
    && (forall k :: k in s.entries ==> KeyOf(s.entries[k].quote) == k)
    && (forall k :: k in s.entries ==> s.entries[k].generation < |s.issued|)
    && (forall k :: k in s.entries ==> s.issued[s.entries[k].generation] == k)
    && (forall g :: g in s.live ==> g < |s.issued| && s.issued[g] in s.entries && s.entries[s.issued[g]].generation == g)
    && (forall g :: 0 <= g < |s.issued| && s.issued[g] in s.entries ==> g <= s.entries[s.issued[g]].generation)
  }

  /** What never goes back: issued generations stay issued, revoked ones stay revoked. */
  ghost predicate Evolves(s: State, t: State) {
    && s.issued <= t.issued
    && (forall g :: g in t.live && g < |s.issued| ==> g in s.live)
  }

  lemma UpdateKeepsInv(s: State, q: Quote)
    requires Inv(s) && KeyOf(q) in s.entries
    ensures Inv(InsertQuote(s, q)) && Evolves(s, InsertQuote(s, q))
  {
    var t := InsertQuote(s, q);
    forall k | k in t.entries
      ensures k in s.entries && t.entries[k].generation == s.entries[k].generation && KeyOf(t.entries[k].quote) == k
    {
    }
  }

  lemma StartKeepsInv(s: State, q: Quote)
    requires Inv(s) && KeyOf(q) !in s.entries
    ensures Inv(InsertQuote(s, q)) && Evolves(s, InsertQuote(s, q))
  {
    var key, t, n := KeyOf(q), InsertQuote(s, q), |s.issued|;
    assert t.issued[n] == key && forall g :: 0 <= g < n ==> t.issued[g] == s.issued[g];
    forall k | k in t.entries && k != key
      ensures k in s.entries && t.entries[k] == s.entries[k]
    {
    }
    forall g | g in t.live
      ensures g < |t.issued| && t.issued[g] in t.entries && t.entries[t.issued[g]].generation == g
    {
      if g != n {
        assert g in s.live && t.issued[g] == s.issued[g];
      }
    }
  }

  lemma InsertKeepsInv(s: State, q: Quote)
    requires Inv(s)
    ensures Inv(InsertQuote(s, q)) && Evolves(s, InsertQuote(s, q))
  {
    hide Inv, InsertQuote, Evolves;
    if KeyOf(q) in s.entries {
      UpdateKeepsInv(s, q);
    } else {
      StartKeepsInv(s, q);
    }
  }

  lemma RemoveKeepsInv(s: State, gone: set<Key>)
    requires Inv(s)
    ensures Inv(RemoveKeys(s, gone)) && Evolves(s, RemoveKeys(s, gone))
    ensures forall k :: k in s.entries && k in gone ==> s.entries[k].generation !in RemoveKeys(s, gone).live
  {
    assert forall k, k' :: k in s.entries && k' in s.entries && s.entries[k].generation == s.entries[k'].generation ==> k == k';
  }

  lemma ApplyKeepsInv(s: State, e: Event)
    requires Inv(s)
    ensures Inv(Apply(s, e)) && Evolves(s, Apply(s, e))
  {
    match e
    case Price(q) => InsertKeepsInv(s, q);
    case Halt(key) => RemoveKeepsInv(s, {key});
    case Evict(symbols) => RemoveKeepsInv(s, set k | k in s.entries && k.1 in symbols);
    case Quiet =>
  }

  lemma EvolvesTransitively(s: State, t: State, u: State)
    requires Evolves(s, t) && Evolves(t, u)
    ensures Evolves(s, u)
  {
  }

  /** Two keys never share a generation, and a live one is cached under the key it was issued for. */
  lemma LiveMeansCached(s: State, k: Key, g: nat)
    requires Inv(s) && g < |s.issued| && s.issued[g] == k
    ensures g in s.live <==> k in s.entries && s.entries[k].generation == g
  {
  }

  // ---- runs ----------------------------------------------------------------

  /** The cache after the first `n` events of a run. */
  function After(s: State, events: seq<Event>, n: nat): State
    requires n <= |events|
  {
    if n == 0 then s else Apply(After(s, events, n - 1), events[n - 1])
  }

  lemma {:induction false} RunKeepsInv(s: State, events: seq<Event>, n: nat)
    requires Inv(s) && n <= |events|
    ensures Inv(After(s, events, n))
  {
    if n > 0 {
      RunKeepsInv(s, events, n - 1);
      ApplyKeepsInv(After(s, events, n - 1), events[n - 1]);
    }
  }

  lemma {:induction false} RunEvolves(s: State, events: seq<Event>, i: nat, j: nat)
    requires Inv(s) && i <= j <= |events|
    ensures Evolves(After(s, events, i), After(s, events, j))
    decreases j
  {
    if i < j {
      RunEvolves(s, events, i, j - 1);
      RunKeepsInv(s, events, j - 1);
      ApplyKeepsInv(After(s, events, j - 1), events[j - 1]);
      EvolvesTransitively(After(s, events, i), After(s, events, j - 1), After(s, events, j));
    }
  }

  /** `key` was cached after each of the first `i`, `i + 1`, ..., `j` events. */
  ghost predicate CachedThroughout(s: State, events: seq<Event>, key: Key, i: nat, j: nat)
    requires i <= j <= |events|
  {
    forall m :: i <= m <= j ==> key in After(s, events, m).entries
  }

  lemma StepKeepsGeneration(s: State, e: Event, key: Key)
    requires Inv(s) && key in s.entries && key in Apply(s, e).entries
    ensures Apply(s, e).entries[key].generation == s.entries[key].generation
  {
  }

  lemma StepRemovalRevokes(s: State, e: Event, key: Key)
    requires Inv(s) && key in s.entries && key !in Apply(s, e).entries
    ensures s.entries[key].generation !in Apply(s, e).live
  {
    match e
    case Price(q) =>
    case Halt(k) => RemoveKeepsInv(s, {k});
    case Evict(symbols) => RemoveKeepsInv(s, set k | k in s.entries && k.1 in symbols);
    case Quiet =>
  }

  lemma OneMoreEvent(s: State, e: Event, key: Key, g: nat)
    requires Inv(s) && g < |s.issued| && s.issued[g] == key
    ensures g in Apply(s, e).live <==> g in s.live && key in Apply(s, e).entries
    ensures g in Apply(s, e).live ==> Apply(s, e).entries[key].generation == g
  {
    ApplyKeepsInv(s, e);
    if g in s.live {
      if key in Apply(s, e).entries {
        StepKeepsGeneration(s, e, key);
      } else {
        StepRemovalRevokes(s, e, key);
      }
    }
  }

  /**
    The liveness flag refines history. Take a generation cached under `key`
    after `i` events of any run. After `j >= i` events it is live exactly when
    `key` stayed in the cache without a break in between; and then it is still
    the generation cached there.
   */
  lemma {:induction false} LivenessRefinesHistory(s: State, events: seq<Event>, key: Key, i: nat, j: nat)
    requires Inv(s) && i <= j <= |events|
    requires key in After(s, events, i).entries
    ensures var g := After(s, events, i).entries[key].generation;
            var now := After(s, events, j);
            && (g in now.live <==> CachedThroughout(s, events, key, i, j))
            && (g in now.live ==> key in now.entries && now.entries[key].generation == g)
    decreases j
  {
    hide Apply, Inv, Evolves;
    var g := After(s, events, i).entries[key].generation;
    RunKeepsInv(s, events, i);
    CachedIsIssued(After(s, events, i), key);
    if i < j {
      LivenessRefinesHistory(s, events, key, i, j - 1);
      RunKeepsInv(s, events, j - 1);
      RunEvolves(s, events, i, j - 1);
      StillIssued(After(s, events, i), After(s, events, j - 1), g);
      OneMoreEvent(After(s, events, j - 1), events[j - 1], key, g);
    }
  }

  lemma CachedIsIssued(s: State, key: Key)
    requires Inv(s) && key in s.entries
    ensures var g := s.entries[key].generation;
            g in s.live && g < |s.issued| && s.issued[g] == key
  {
  }

  lemma StillIssued(s: State, t: State, g: nat)
    requires Evolves(s, t) && g < |s.issued|
    ensures g < |t.issued| && t.issued[g] == s.issued[g]
  {
  }

  /** The event takes `key` out of the cache. */
  predicate Removes(e: Event, key: Key) {
    (e.Halt? && e.key == key) || (e.Evict? && key.1 in e.symbols)
  }

  /** The newest price of `key` among the first `n` events, unless something removed it since. */
  function LastPrice(events: seq<Event>, n: nat, key: Key): Option<Quote>
    requires n <= |events|
  {
    if n == 0 || Removes(events[n - 1], key) then None
    else if events[n - 1].Price? && KeyOf(events[n - 1].quote) == key then Some(events[n - 1].quote)
    else LastPrice(events, n - 1, key)
  }

  /** The cache holds exactly the newest price of every key that nothing has removed since. */
  lemma {:induction false} CacheRefinesHistory(events: seq<Event>, n: nat, key: Key)
    requires n <= |events|
    ensures var s := After(EMPTY, events, n);
            && (key in s.entries <==> LastPrice(events, n, key).Some?)
            && (key in s.entries ==> Some(s.entries[key].quote) == LastPrice(events, n, key))
  {
    if n > 0 {
      CacheRefinesHistory(events, n - 1, key);
    }
  }

  /** A revoked generation never returns, neither to the flags nor to any cache entry. */
  lemma RevokedForGood(s: State, events: seq<Event>, g: nat, i: nat, j: nat)
    requires Inv(s) && i <= j <= |events|
    requires g < |After(s, events, i).issued| && g !in After(s, events, i).live
    ensures g !in After(s, events, j).live
    ensures forall k :: k in After(s, events, j).entries ==> After(s, events, j).entries[k].generation != g
  {
    RunEvolves(s, events, i, j);
    RunKeepsInv(s, events, j);
  }

  function HaltAll(keys: seq<Key>): seq<Event> {
    seq(|keys|, i requires 0 <= i < |keys| => Halt(keys[i]))
  }

  /** Revoking key by key, in whatever order, removes exactly those keys. */
  lemma {:induction false} HaltsAddUp(s: State, keys: seq<Key>, n: nat)
    requires n <= |keys|
    ensures After(s, HaltAll(keys), n) == RemoveKeys(s, set i | 0 <= i < n :: keys[i])
  {
    var gone := set i | 0 <= i < n :: keys[i];
    if n == 0 {
      assert gone == {};
      assert RemoveKeys(s, {}) == s;
    } else {
      HaltsAddUp(s, keys, n - 1);
      var before := set i | 0 <= i < n - 1 :: keys[i];
      assert gone == before + {keys[n - 1]};
      RemoveTwice(s, before, keys[n - 1]);
    }
  }

  lemma RemoveTwice(s: State, gone: set<Key>, k: Key)
    ensures RemoveKeys(RemoveKeys(s, gone), {k}) == RemoveKeys(s, gone + {k})
  {
    var t, u := RemoveKeys(RemoveKeys(s, gone), {k}), RemoveKeys(s, gone + {k});
    assert t.entries == u.entries;
    forall g
      ensures g in t.live <==> g in u.live
    {
      if g in s.live && g !in u.live {
        var x :| x in s.entries && x in gone + {k} && s.entries[x].generation == g;
        assert x in gone || x in RemoveKeys(s, gone).entries;
      }
    }
  }

  /** So an eviction is its keys halted one after another. */
  lemma EvictIsKeyByKey(s: State, symbols: set<Symbol>, keys: seq<Key>)
    requires forall k :: k in keys <==> k in s.entries && k.1 in symbols
    ensures After(s, HaltAll(keys), |keys|) == Apply(s, Evict(symbols))
  {
    HaltsAddUp(s, keys, |keys|);
    assert (set i | 0 <= i < |keys| :: keys[i]) == set k | k in s.entries && k.1 in symbols;
  }

  // ---- the cache as the server updates it -----------------------------------

  /** `LiveClient` and the generations it has handed out. */
  class QuoteCache {
    var entries: map<Key, CachedQuote>
    var live: set<nat>
    var issued: seq<Key>

    ghost function Contents(): State
      reads this
    {
      State(entries, live, issued)
    }

    constructor ()
      ensures Contents() == EMPTY
    {
      entries, live, issued := map[], {}, [];
    }

    /** `QuoteGeneration::new`. */
    method NewGeneration(key: Key) returns (g: nat)
      modifies this
      ensures g == |old(issued)| && issued == old(issued) + [key]
      ensures live == old(live) + {g} && entries == old(entries)
    {
      g := |issued|;
      issued := issued + [key];
      live := live + {g};
    }

    method Insert(q: Quote)
      modifies this
      ensures Contents() == InsertQuote(old(Contents()), q)
    {
      var key := KeyOf(q);
      var g;
      if key in entries {
        g := entries[key].generation;
      } else {
        g := NewGeneration(key);
      }
      entries := entries[key := CachedQuote(q, g)];
    }

    /** A halted asset: remove one key and revoke what was there. */
    method HaltKey(key: Key)
      modifies this
      ensures Contents() == Apply(old(Contents()), Halt(key))
    {
      if key in entries {
        live := live - {entries[key].generation};
      }
      entries := entries - {key};
      assert live == RemoveKeys(old(Contents()), {key}).live;
    }

    /** `retain` with revocation, for the symbols of a stale source or a reload. */
    method EvictSymbols(symbols: set<Symbol>)
      modifies this
      ensures Contents() == Apply(old(Contents()), Evict(symbols))
    {
      ghost var before := Contents();
      var pending := entries.Keys;
      NothingGone(before, symbols);
      while pending != {}
        invariant pending <= before.entries.Keys
        invariant Contents() == RemoveKeys(before, Gone(before, symbols, pending))
        decreases |pending|
      {
        var k :| k in pending;
        OneMoreGone(before, symbols, pending, k);
        pending := pending - {k};
        if k.1 in symbols {
          live := live - {entries[k].generation};
          entries := entries - {k};
        }
      }
      assert Gone(before, symbols, {}) == set k | k in before.entries && k.1 in symbols;
    }

    /** One read lock for the whole batch; symbols without an entry are absent. */
    method Snapshots(chainId: U64, symbols: seq<Symbol>) returns (out: map<Symbol, Snapshot>)
      ensures out == SnapshotMany(Contents(), chainId, set i | 0 <= i < |symbols| :: symbols[i])
    {
      out := map[];
      for i := 0 to |symbols|
        invariant out == SnapshotMany(Contents(), chainId, set j | 0 <= j < i :: symbols[j])
      {
        var sym := symbols[i];
        if (chainId, sym) in entries {
          out := out[sym := Snapshot(entries[(chainId, sym)].quote, entries[(chainId, sym)].generation)];
        }
      }
    }
  }

  /** The keys of `symbols` the retain loop has visited. */
  ghost function Gone(s: State, symbols: set<Symbol>, pending: set<Key>): set<Key> {
    set k | k in s.entries && k !in pending && k.1 in symbols
  }

  lemma NothingGone(s: State, symbols: set<Symbol>)
    ensures RemoveKeys(s, Gone(s, symbols, s.entries.Keys)) == s
  {
    assert Gone(s, symbols, s.entries.Keys) == {};
  }

  lemma OneMoreGone(s: State, symbols: set<Symbol>, pending: set<Key>, k: Key)
    requires k in pending && pending <= s.entries.Keys
    ensures var t := RemoveKeys(s, Gone(s, symbols, pending));
            var u := RemoveKeys(s, Gone(s, symbols, pending - {k}));
            && k in t.entries
            && u == if k.1 in symbols then State(t.entries - {k}, t.live - {t.entries[k].generation}, t.issued) else t
  {
    var gone, more := Gone(s, symbols, pending), Gone(s, symbols, pending - {k});
    if k.1 in symbols {
      assert more == gone + {k};
      hide Gone;
      RemoveOneMore(s, gone, k);
    } else {
      assert more == gone;
    }
  }

  lemma RemoveOneMore(s: State, gone: set<Key>, k: Key)
    requires k in s.entries && k !in gone
    ensures var t := RemoveKeys(s, gone);
            State(t.entries - {k}, t.live - {t.entries[k].generation}, t.issued) == RemoveKeys(s, gone + {k})
  {
    var u := RemoveKeys(s, gone + {k});
    var revoked := set x | x in s.entries && x in gone :: s.entries[x].generation;
    var all := set x | x in s.entries && x in gone + {k} :: s.entries[x].generation;
    assert all == revoked + {s.entries[k].generation};
  }
}
