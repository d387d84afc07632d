/**
  A halt, a stale source and a forget disown what they name, and only that. Whatever runs in between,
  once the cache's write lock is free again, nothing of the named asset is left
  in the cache and every generation handed out for it before is dead for good;
  everything else is as it was.
 */
module Halts {
  import opened Wire
  import opened Slots
  import opened System
  import opened Invariants
  import opened Frames
  import opened Theorems
  import opened Gates
  import Quotes
  import Reload

  /** The action begins an eviction: a halt, a stale source, or the reloader's forget. */
  predicate Evicts(s: State, a: Action) {
    a.HaltLocks? || a.StaleLocks? || (a.ForgetLocks? && s.reload.phase.Listed? && s.reload.phase.forget != {})
  }

  /** The eviction is of `key`: a halt names one key, the other two a symbol on every chain. */
  predicate Aims(s: State, a: Action, key: Quotes.Key) {
    || a == HaltLocks(key) || a == StaleLocks(key.1)
    || (a.ForgetLocks? && s.reload.phase.Listed? && key.1 in s.reload.phase.forget)
  }

  /** An eviction began at step `m` with the cache free, and `n` is the first step after at which it is free again. */
  ghost predicate Eviction(d: Deployment, generation: int, actions: seq<Action>, m: nat, n: nat)
    requires Reload.BootFrom(d.world, generation).Ok?
  {
    && m < n <= |actions| && Evicts(At(d, generation, actions, m), actions[m])
    && At(d, generation, actions, m).writer.Idle? && At(d, generation, actions, n).writer.Idle?
    && forall k :: m < k < n ==> !At(d, generation, actions, k).writer.Idle?
  }

  ghost predicate Disowns(d: Deployment, generation: int, actions: seq<Action>, m: nat, n: nat, key: Quotes.Key)
    requires Reload.BootFrom(d.world, generation).Ok?
  {
    Eviction(d, generation, actions, m, n) && Aims(At(d, generation, actions, m), actions[m], key)
  }

  // ---- while the lock is held -------------------------------------------------------------

  /** The eviction under way will still come to `key`, if it is cached. */
  predicate Draining(s: State, key: Quotes.Key) {
    s.writer.Removing? && (key in s.quotes.entries ==> key in s.writer.pending)
  }

  lemma StepWriter(d: Deployment, s: State, a: Action)
    ensures Step(d, s, a).writer == WriterStep(s, a)
  {
    hide Step;
    if IsInner(a) {
      InnerStepFrame(d, s, a);
    } else {
      OuterStepFrame(d, s, a);
      hide WriterStep;
    }
  }

  lemma AimStartsDraining(d: Deployment, s: State, a: Action, key: Quotes.Key)
    requires Aims(s, a, key) && s.writer.Idle?
    ensures Draining(Step(d, s, a), key)
  {
    hide Step;
    StepWriter(d, s, a);
    StepQuotes(d, s, a);
    hide Quotes.InsertQuote, Quotes.RemoveKeys;
  }

  /** No frame lands and no key is forgotten about: the eviction goes on, or is over with `key` gone. */
  lemma DrainingGoesOn(d: Deployment, s: State, a: Action, key: Quotes.Key)
    requires Draining(s, key)
    ensures var t := Step(d, s, a);
            Draining(t, key) || (t.writer.Idle? && key !in t.quotes.entries)
  {
    hide Step;
    StepWriter(d, s, a);
    StepQuotes(d, s, a);
  }

  lemma {:induction false} StaysDraining(d: Deployment, generation: int, actions: seq<Action>, m: nat, k: nat, key: Quotes.Key)
    requires Reload.BootFrom(d.world, generation).Ok? && m < k <= |actions| && Aims(At(d, generation, actions, m), actions[m], key)
    requires At(d, generation, actions, m).writer.Idle?
    requires forall j :: m < j < k ==> !At(d, generation, actions, j).writer.Idle?
    ensures var t := At(d, generation, actions, k);
            Draining(t, key) || (t.writer.Idle? && key !in t.quotes.entries)
    decreases k
  {
    hide At, Step, Reload.BootFrom, Draining;
    NextAt(d, generation, actions, k - 1);
    if k == m + 1 {
      AimStartsDraining(d, At(d, generation, actions, m), actions[m], key);
    } else {
      StaysDraining(d, generation, actions, m, k - 1, key);
      DrainingGoesOn(d, At(d, generation, actions, k - 1), actions[k - 1], key);
    }
  }

  /** The eviction under way will not come to `key`, which is as it was at the start. */
  predicate Sparing(first: Quotes.State, s: State, key: Quotes.Key) {
    s.writer.Removing? && key !in s.writer.pending && SameEntry(first, s.quotes, key)
  }

  predicate SameEntry(p: Quotes.State, q: Quotes.State, key: Quotes.Key) {
    (key in p.entries <==> key in q.entries) && (key in p.entries ==> p.entries[key] == q.entries[key])
  }

  lemma EvictionSpares(d: Deployment, s: State, a: Action, key: Quotes.Key)
    requires Evicts(s, a) && !Aims(s, a, key) && s.writer.Idle?
    ensures Sparing(s.quotes, Step(d, s, a), key)
  {
    hide Step;
    StepWriter(d, s, a);
    StepQuotes(d, s, a);
    hide Quotes.InsertQuote, Quotes.RemoveKeys;
  }

  lemma SparingGoesOn(d: Deployment, first: Quotes.State, s: State, a: Action, key: Quotes.Key)
    requires Sparing(first, s, key)
    ensures var t := Step(d, s, a);
            Sparing(first, t, key) || (t.writer.Idle? && SameEntry(first, t.quotes, key))
  {
    hide Step;
    StepWriter(d, s, a);
    StepQuotes(d, s, a);
  }

  lemma {:induction false} StaysSparing(d: Deployment, generation: int, actions: seq<Action>, m: nat, k: nat, key: Quotes.Key)
    requires Reload.BootFrom(d.world, generation).Ok? && m < k <= |actions|
    requires var s := At(d, generation, actions, m); Evicts(s, actions[m]) && !Aims(s, actions[m], key) && s.writer.Idle?
    requires forall j :: m < j < k ==> !At(d, generation, actions, j).writer.Idle?
    ensures var s, t := At(d, generation, actions, m), At(d, generation, actions, k);
            Sparing(s.quotes, t, key) || (t.writer.Idle? && SameEntry(s.quotes, t.quotes, key))
    decreases k
  {
    hide At, Step, Reload.BootFrom, Sparing, SameEntry, Evicts, Aims;
    NextAt(d, generation, actions, k - 1);
    if k == m + 1 {
      EvictionSpares(d, At(d, generation, actions, m), actions[m], key);
    } else {
      StaysSparing(d, generation, actions, m, k - 1, key);
      SparingGoesOn(d, At(d, generation, actions, m).quotes, At(d, generation, actions, k - 1), actions[k - 1], key);
    }
  }

  // ---- once it is free --------------------------------------------------------------------

  lemma IssuedStays(d: Deployment, generation: int, actions: seq<Action>, g: nat, i: nat, j: nat)
    requires Reload.BootFrom(d.world, generation).Ok? && i <= j <= |actions|
    requires g < |At(d, generation, actions, i).quotes.issued|
    ensures g < |At(d, generation, actions, j).quotes.issued|
    ensures At(d, generation, actions, j).quotes.issued[g] == At(d, generation, actions, i).quotes.issued[g]
  {
    hide At, Quotes.After, QuoteEvents, Reload.BootFrom;
    QuotesFollowEvents(d, generation, actions, i);
    QuotesFollowEvents(d, generation, actions, j);
    Quotes.RunEvolves(Quotes.EMPTY, QuoteEvents(d, generation, actions), i, j);
  }

  lemma UncachedIsDead(d: Deployment, s: State, g: nat)
    requires Inv(d, s) && g < |s.quotes.issued| && s.quotes.issued[g] !in s.quotes.entries
    ensures g !in s.quotes.live
  {
    hide Signing.Inv, Reload.Inv, RequestsOk, ReuseOk, ListOk;
  }

  /**
    An eviction disowns what it names. In every run, when one of `key` that
    began at step `m` has ended at step `n`, `key` is not cached, and no
    generation issued for it by step `m` is live then, or ever after.
   */
  lemma NamedIsDisowned(d: Deployment, generation: int, actions: seq<Action>, m: nat, n: nat, key: Quotes.Key, g: nat, j: nat)
    requires Reload.BootFrom(d.world, generation).Ok? && Disowns(d, generation, actions, m, n, key)
    ensures key !in At(d, generation, actions, n).quotes.entries
    ensures var s := At(d, generation, actions, m).quotes;
            g < |s.issued| && s.issued[g] == key && n <= j <= |actions| ==> g !in At(d, generation, actions, j).quotes.live
  {
    hide At, Reload.BootFrom, Inv;
    StaysDraining(d, generation, actions, m, n, key);
    assert key !in At(d, generation, actions, n).quotes.entries;
    var s := At(d, generation, actions, m).quotes;
    if g < |s.issued| && s.issued[g] == key && n <= j <= |actions| {
      IssuedStays(d, generation, actions, g, m, n);
      Reachable(d, generation, actions, n);
      UncachedIsDead(d, At(d, generation, actions, n), g);
      RevokedStays(d, generation, actions, g, n, j);
    }
  }

  /** And only that: any other key is cached as before, the same quote under the same generation. */
  lemma NothingElseIsDisowned(d: Deployment, generation: int, actions: seq<Action>, m: nat, n: nat, key: Quotes.Key)
    requires Reload.BootFrom(d.world, generation).Ok? && Eviction(d, generation, actions, m, n)
    requires !Aims(At(d, generation, actions, m), actions[m], key)
    ensures var p, q := At(d, generation, actions, m).quotes, At(d, generation, actions, n).quotes;
            && (key in p.entries <==> key in q.entries)
            && (key in p.entries ==> p.entries[key] == q.entries[key])
  {
    hide At, Reload.BootFrom, Evicts, Aims;
    StaysSparing(d, generation, actions, m, n, key);
  }

  /**
    No price is delivered past its halt. If an item is delivered by step `n`,
    then no halt, stale source or forget of its symbol that began at or after the item's
    first snapshot had ended by step `n`, the last liveness read.
   */
  lemma NothingDeliveredPastItsHalt(d: Deployment, generation: int, actions: seq<Action>, n: nat, r: nat, i: nat,
                                    from: nat, to: nat)
    requires Reload.BootFrom(d.world, generation).Ok? && n < |actions|
    requires IsDelivered(At(d, generation, actions, n + 1), r, i) && !IsDelivered(At(d, generation, actions, n), r, i)
    requires HasJob(At(d, generation, actions, n + 1).requests[r], i)
    requires Disowns(d, generation, actions, from, to,
                     (d.env.chainId, JobOf(At(d, generation, actions, n + 1).requests[r], i).item.pair.symbol))
    requires At(d, generation, actions, n + 1).requests[r].stage.firstTick <= from
    ensures n < to
  {
    hide At, Reload.BootFrom, DisownedNowhere;
    NeverDisowned(d, generation, actions, n, r, i);
    var req := At(d, generation, actions, n + 1).requests[r];
    if to <= n {
      CachedAllAlong(d, generation, actions, n, JobOf(req, i), req.stage, to);
      NamedIsDisowned(d, generation, actions, from, to, (d.env.chainId, JobOf(req, i).item.pair.symbol), 0, to);
    }
  }

  lemma CachedAllAlong(d: Deployment, generation: int, actions: seq<Action>, n: nat, job: Job, stage: Stage, k: nat)
    requires Reload.BootFrom(d.world, generation).Ok?
    requires stage.Finishing? && stage.firstTick < stage.secondTick <= n < |actions|
    requires DisownedNowhere(d, generation, actions, n, job, stage) && stage.firstTick <= k <= n
    ensures (d.env.chainId, job.item.pair.symbol) in At(d, generation, actions, k).quotes.entries
  {
    hide At, Reload.BootFrom;
  }
}
