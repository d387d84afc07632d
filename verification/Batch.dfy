/**
  One request's slots: built one after another in strict mode, in a rolling
  window in envelope mode, re-checked in order, and turned into one reply.
 */
module Batch {
  import opened Wire

  /** The most slots of one request built at the same time. */
  const MAX_CONCURRENT_SLOT_BUILDS := 10

  datatype Reply<+R> = Strict(responses: seq<R>) | Envelope(items: seq<Outcome<R>>)

  /** A slot keeps its resolution error, or gets its build's outcome. */
  function Built<S, T>(slot: Outcome<S>, outcome: Outcome<T>): Outcome<T> {
    if slot.Err? then Err(slot.error) else outcome
  }

  function BuiltAll<S, T>(slots: seq<Outcome<S>>, outcomes: seq<Outcome<T>>): (all: seq<Outcome<T>>)
    requires |outcomes| == |slots|
    ensures |all| == |slots|
    ensures forall i :: 0 <= i < |slots| ==> all[i] == Built(slots[i], outcomes[i])
  {
    seq(|slots|, i requires 0 <= i < |slots| => Built(slots[i], outcomes[i]))
  }

  // ---- building in a window ---------------------------------------------------------

  predicate Distinct(s: seq<nat>) {
    forall i, j :: 0 <= i < j < |s| ==> s[i] != s[j]
  }

  /** What has been started and finished once slots `0 .. next` have entered the window. */
  ghost predicate Progress<S>(slots: seq<Outcome<S>>, next: nat, inFlight: set<nat>, calls: seq<nat>, finished: seq<nat>)
    requires next <= |slots|
  {
    && (forall i :: i in inFlight ==> i < next)
    && Distinct(finished) && (forall i: nat :: i in finished <==> i < next && i !in inFlight)
    && Distinct(calls) && (forall i: nat :: i in calls <==> i < next && slots[i].Ok?)
  }

  lemma NextStarts<S>(slots: seq<Outcome<S>>, next: nat, inFlight: set<nat>, calls: seq<nat>, finished: seq<nat>)
    requires next < |slots| && Progress(slots, next, inFlight, calls, finished)
    ensures next !in inFlight && Progress(slots, next + 1, inFlight + {next}, if slots[next].Ok? then calls + [next] else calls, finished)
  {
  }

  lemma AllProgressed<S>(slots: seq<Outcome<S>>, calls: seq<nat>, finished: seq<nat>)
    requires Progress(slots, |slots|, {}, calls, finished)
    ensures Distinct(finished) && forall i: nat :: i in finished <==> i < |slots|
    ensures Distinct(calls) && forall i: nat :: i in calls <==> i < |slots| && slots[i].Ok?
  {
  }

  lemma OneFinishes<S>(slots: seq<Outcome<S>>, next: nat, inFlight: set<nat>, calls: seq<nat>, finished: seq<nat>, i: nat)
    requires next <= |slots| && Progress(slots, next, inFlight, calls, finished) && i in inFlight
    ensures i < next && Progress(slots, next, inFlight - {i}, calls, finished + [i])
  {
  }

  /** The results array: what has left the window is there, in its place. */
  function Produced<S, T>(slots: seq<Outcome<S>>, outcomes: seq<Outcome<T>>, next: nat, inFlight: set<nat>)
      : (all: seq<Option<Outcome<T>>>)
    requires |outcomes| == |slots|
    ensures |all| == |slots|
  {
    seq(|slots|, i requires 0 <= i < |slots| =>
      if i < next && i !in inFlight then Some(Built(slots[i], outcomes[i])) else None)
  }

  lemma NoneProduced<S, T>(slots: seq<Outcome<S>>, outcomes: seq<Outcome<T>>)
    requires |outcomes| == |slots|
    ensures forall i :: 0 <= i < |slots| ==> Produced(slots, outcomes, 0, {})[i] == None
  {
  }

  lemma ProducedStarts<S, T>(slots: seq<Outcome<S>>, outcomes: seq<Outcome<T>>, next: nat, inFlight: set<nat>)
    requires |outcomes| == |slots| && next !in inFlight
    ensures Produced(slots, outcomes, next + 1, inFlight + {next}) == Produced(slots, outcomes, next, inFlight)
  {
  }

  lemma ProducedFinishes<S, T>(slots: seq<Outcome<S>>, outcomes: seq<Outcome<T>>, next: nat, inFlight: set<nat>, i: nat)
    requires |outcomes| == |slots| && i in inFlight && i < next && i < |slots|
    ensures Produced(slots, outcomes, next, inFlight - {i})
            == Produced(slots, outcomes, next, inFlight)[i := Some(Built(slots[i], outcomes[i]))]
  {
  }

  lemma AllProduced<S, T>(slots: seq<Outcome<S>>, outcomes: seq<Outcome<T>>)
    requires |outcomes| == |slots|
    ensures forall i :: 0 <= i < |slots| ==>
              Produced(slots, outcomes, |slots|, {})[i] == Some(BuiltAll(slots, outcomes)[i])
  {
  }

  /**
    Envelope build. Slots start in request order while the window has room; any
    slot in flight may be the next to finish. Whatever that order is, each slot
    is produced once, in its place, with its own outcome; a slot that failed to
    resolve is never built; and ten run at once, or all of fewer, but never more. `outcomes[i]` is what
    building slot `i` gives, `calls` lists the builds started and `finished`
    the indexes in completion order.
   */
  method BuildInWindow<S, T>(slots: seq<Outcome<S>>, outcomes: seq<Outcome<T>>)
    returns (results: seq<Outcome<T>>, calls: seq<nat>, finished: seq<nat>, widest: nat)
    requires |outcomes| == |slots|
    ensures results == BuiltAll(slots, outcomes)
    ensures Distinct(finished) && forall i: nat :: i in finished <==> i < |slots|
    ensures Distinct(calls) && forall i: nat :: i in calls <==> i < |slots| && slots[i].Ok?
    ensures widest == if |slots| < 10 then |slots| else 10
  {
    var n := |slots|;
    var built := new Option<Outcome<T>>[n](_ => None);
    var next, inFlight: set<nat> := 0, {};
    calls, finished, widest := [], [], 0;
    assert Progress(slots, next, inFlight, calls, finished);
    NoneProduced(slots, outcomes);
    assert built[..] == Produced(slots, outcomes, 0, {});
    hide Progress, BuiltAll, Built, Produced;
    while next < n || inFlight != {}
      invariant next <= n && |inFlight| <= MAX_CONCURRENT_SLOT_BUILDS
      invariant widest == (if next < 10 then next else 10) && (next < n && next < 10 ==> |inFlight| == next)
      invariant built[..] == Produced(slots, outcomes, next, inFlight)
      invariant Progress(slots, next, inFlight, calls, finished)
      decreases 2 * (n - next) + |inFlight|
    {
      if next < n && |inFlight| < MAX_CONCURRENT_SLOT_BUILDS {
        NextStarts(slots, next, inFlight, calls, finished);
        ProducedStarts(slots, outcomes, next, inFlight);
        if slots[next].Ok? {
          calls := calls + [next];
        }
        inFlight := inFlight + {next};
        next := next + 1;
        widest := if |inFlight| > widest then |inFlight| else widest;
      } else {
        var i :| i in inFlight;
        OneFinishes(slots, next, inFlight, calls, finished, i);
        ProducedFinishes(slots, outcomes, next, inFlight, i);
        ghost var before := built[..];
        built[i] := Some(Built(slots[i], outcomes[i]));
        assert built[..] == before[i := Some(Built(slots[i], outcomes[i]))];
        finished := finished + [i];
        inFlight := inFlight - {i};
      }
    }
    AllProgressed(slots, calls, finished);
    AllProduced(slots, outcomes);
    assert forall i :: 0 <= i < n ==> built[i] == built[..][i];
    results := Collect(built, BuiltAll(slots, outcomes));
  }

  /** Every index has been produced, so the results are read off in order. */
  method Collect<T>(built: array<Option<Outcome<T>>>, ghost all: seq<Outcome<T>>) returns (results: seq<Outcome<T>>)
    requires built.Length == |all| && forall i :: 0 <= i < |all| ==> built[i] == Some(all[i])
    ensures results == all
  {
    results := [];
    for i := 0 to built.Length
      invariant results == all[..i]
    {
      results := results + [built[i].value];
    }
  }

  // ---- the strict order --------------------------------------------------------------

  /** The first error in request order. */
  function FirstError<T>(items: seq<Outcome<T>>): Option<AppError> {
    if items == [] then None
    else if items[0].Err? then Some(items[0].error)
    else FirstError(items[1..])
  }

  function Values<T>(items: seq<Outcome<T>>): seq<T>
    requires forall i :: 0 <= i < |items| ==> items[i].Ok?
  {
    seq(|items|, i requires 0 <= i < |items| => items[i].value)
  }

  lemma {:induction false} FirstErrorIsFirst<T>(items: seq<Outcome<T>>, i: nat)
    requires i < |items| && items[i].Err? && forall j :: 0 <= j < i ==> items[j].Ok?
    ensures FirstError(items) == Some(items[i].error)
  {
    if i > 0 {
      FirstErrorIsFirst(items[1..], i - 1);
    }
  }

  lemma {:induction false} NoErrorNoFirst<T>(items: seq<Outcome<T>>)
    ensures FirstError(items).None? <==> forall i :: 0 <= i < |items| ==> items[i].Ok?
  {
    if items != [] {
      NoErrorNoFirst(items[1..]);
      assert forall i :: 1 <= i < |items| ==> items[1..][i - 1] == items[i];
    }
  }

  /** Strict build: stop at the first error, and start nothing after it. */
  method BuildInOrder<S, T>(slots: seq<Outcome<S>>, outcomes: seq<Outcome<T>>)
    returns (r: Outcome<seq<T>>, started: nat)
    requires |outcomes| == |slots|
    ensures var items := BuiltAll(slots, outcomes);
            && (r.Err? <==> FirstError(items).Some?)
            && (r.Err? ==> FirstError(items) == Some(r.error))
            && (r.Ok? ==> (forall i :: 0 <= i < |items| ==> items[i].Ok?) && r.value == Values(items))
            && started <= |slots|
            && (forall i :: 0 <= i < started - 1 ==> items[i].Ok?)
            && (r.Err? ==> 0 < started && items[started - 1].Err?)
  {
    ghost var items := BuiltAll(slots, outcomes);
    var built: seq<T> := [];
    for i := 0 to |slots|
      invariant |built| == i
      invariant forall j :: 0 <= j < i ==> items[j] == Ok(built[j])
    {
      if slots[i].Err? {
        FirstErrorIsFirst(items, i);
        return Err(slots[i].error), i + 1;
      }
      if outcomes[i].Err? {
        FirstErrorIsFirst(items, i);
        return Err(outcomes[i].error), i + 1;
      }
      built := built + [outcomes[i].value];
    }
    NoErrorNoFirst(items);
    return Ok(built), |slots|;
  }

  // ---- the final pass and the reply --------------------------------------------------------

  /** `revalidate_batch`: `checks[i]` is what the final check of built slot `i` gives. */
  method Revalidate<T, R>(built: seq<Outcome<T>>, checks: seq<Outcome<R>>, envelope: bool)
    returns (r: Outcome<seq<Outcome<R>>>)
    requires |checks| == |built|
    ensures var items := BuiltAll(built, checks);
            && (r.Err? <==> !envelope && FirstError(items).Some?)
            && (r.Err? ==> FirstError(items) == Some(r.error))
            && (r.Ok? ==> r.value == items)
  {
    ghost var all := BuiltAll(built, checks);
    var items: seq<Outcome<R>> := [];
    for i := 0 to |built|
      invariant items == all[..i]
      invariant !envelope ==> forall j :: 0 <= j < i ==> all[j].Ok?
    {
      var item := Built(built[i], checks[i]);
      if !envelope && item.Err? {
        FirstErrorIsFirst(all, i);
        return Err(item.error);
      }
      items := items + [item];
    }
    NoErrorNoFirst(all);
    return Ok(items);
  }

  method Finish<R>(items: seq<Outcome<R>>, envelope: bool) returns (reply: Outcome<Reply<R>>)
    ensures envelope ==> reply == Ok(Envelope(items))
    ensures !envelope && FirstError(items).Some? ==> reply == Err(FirstError(items).value)
    ensures !envelope && FirstError(items).None? ==>
              (forall i :: 0 <= i < |items| ==> items[i].Ok?) && reply == Ok(Strict(Values(items)))
  {
    if envelope {
      return Ok(Envelope(items));
    }
    var responses: seq<R> := [];
    for i := 0 to |items|
      invariant |responses| == i
      invariant forall j :: 0 <= j < i ==> items[j] == Ok(responses[j])
    {
      if items[i].Err? {
        FirstErrorIsFirst(items, i);
        return Err(items[i].error);
      }
      responses := responses + [items[i].value];
    }
    NoErrorNoFirst(items);
    assert responses == Values(items);
    return Ok(Strict(responses));
  }

  /** What each slot of a request comes to, at each of its three phases. */
  datatype Plan<S, T, R> = Plan(resolved: seq<Outcome<S>>, built: seq<Outcome<T>>, checked: seq<Outcome<R>>) {
    predicate Valid() { |resolved| == |built| == |checked| }
  }

  /** The slot's own verdict, as an envelope reports it. */
  function Verdict<S, T, R>(p: Plan<S, T, R>, i: nat): Outcome<R>
    requires p.Valid() && i < |p.resolved|
  {
    if p.resolved[i].Err? then Err(p.resolved[i].error)
    else if p.built[i].Err? then Err(p.built[i].error)
    else p.checked[i]
  }

  /** The phase in which slot `i` fails; 3 when it does not. */
  function FailurePhase<S, T, R>(p: Plan<S, T, R>, i: nat): nat
    requires p.Valid() && i < |p.resolved|
  {
    if p.resolved[i].Err? then 0 else if p.built[i].Err? then 1 else if p.checked[i].Err? then 2 else 3
  }

  /** Slot `i` fails, no slot fails in an earlier phase, and none before it in the same phase. */
  predicate LeastFailure<S, T, R>(p: Plan<S, T, R>, i: nat)
    requires p.Valid()
  {
    && i < |p.resolved| && FailurePhase(p, i) < 3
    && forall j: nat :: j < |p.resolved| ==>
         FailurePhase(p, i) < FailurePhase(p, j) || (FailurePhase(p, i) == FailurePhase(p, j) && i <= j)
  }

  lemma {:induction false} FirstErrorIndex<T>(items: seq<Outcome<T>>) returns (i: nat)
    requires FirstError(items).Some?
    ensures i < |items| && items[i] == Err(FirstError(items).value)
    ensures forall j :: 0 <= j < i ==> items[j].Ok?
  {
    if items[0].Err? {
      i := 0;
    } else {
      var k := FirstErrorIndex(items[1..]);
      i := k + 1;
      assert forall j :: 1 <= j < i ==> items[j] == items[1..][j - 1];
    }
  }

  /** Strict mode over a plan: the first error of the first phase that has one, or every payload in order. */
  function StrictReply<S, T, R>(p: Plan<S, T, R>): Outcome<Reply<R>>
    requires p.Valid()
  {
    var built := BuiltAll(p.resolved, p.built);
    var checked := BuiltAll(built, p.checked);
    if FirstError(p.resolved).Some? then Err(FirstError(p.resolved).value)
    else if FirstError(built).Some? then Err(FirstError(built).value)
    else if FirstError(checked).Some? then Err(FirstError(checked).value)
    else
      NoErrorNoFirst(checked);
      Ok(Strict(Values(checked)))
  }

  /** The handler, from resolved slots to reply, in either mode. */
  method Respond<S, T, R>(p: Plan<S, T, R>, envelope: bool) returns (reply: Outcome<Reply<R>>)
    requires p.Valid()
    ensures envelope ==>
              reply == Ok(Envelope(seq(|p.resolved|, i requires 0 <= i < |p.resolved| => Verdict(p, i))))
    ensures !envelope ==> reply == StrictReply(p)
  {
    if !envelope {
      for i := 0 to |p.resolved|
        invariant forall j :: 0 <= j < i ==> p.resolved[j].Ok?
      {
        if p.resolved[i].Err? {
          FirstErrorIsFirst(p.resolved, i);
          return Err(p.resolved[i].error);
        }
      }
      NoErrorNoFirst(p.resolved);
    }
    var built: seq<Outcome<T>>;
    if envelope {
      var calls, finished, widest;
      built, calls, finished, widest := BuildInWindow(p.resolved, p.built);
    } else {
      var values, started := BuildInOrder(p.resolved, p.built);
      if values.Err? {
        return Err(values.error);
      }
      built := seq(|values.value|, i requires 0 <= i < |values.value| => Ok(values.value[i]));
    }
    ghost var slots := BuiltAll(p.resolved, p.built);
    assert built == slots;
    var items := Revalidate(built, p.checked, envelope);
    if items.Err? {
      NoErrorNoFirst(slots);
      return Err(items.error);
    }
    if !envelope {
      NoErrorNoFirst(slots);
    }
    reply := Finish(items.value, envelope);
    if envelope {
      assert items.value == seq(|p.resolved|, i requires 0 <= i < |p.resolved| => Verdict(p, i));
    }
  }

  /**
    Strict refines envelope. For any fixed outcomes, strict mode succeeds
    exactly when every envelope slot is ok, with the same payloads in the same
    order; otherwise its error is the envelope's error of the slot that is
    least by phase, then by index.
   */
  lemma StrictRefinesEnvelope<S, T, R>(p: Plan<S, T, R>)
    requires p.Valid()
    ensures StrictReply(p).Ok? <==> forall i: nat :: i < |p.resolved| ==> Verdict(p, i).Ok?
    ensures StrictReply(p).Ok? ==>
              && StrictReply(p).value.Strict?
              && |StrictReply(p).value.responses| == |p.resolved|
              && forall i: nat :: i < |p.resolved| ==> Verdict(p, i) == Ok(StrictReply(p).value.responses[i])
    ensures StrictReply(p).Err? ==>
              exists i: nat :: LeastFailure(p, i) && Verdict(p, i) == Err(StrictReply(p).error)
  {
    var built := BuiltAll(p.resolved, p.built);
    var checked := BuiltAll(built, p.checked);
    NoErrorNoFirst(p.resolved);
    NoErrorNoFirst(built);
    NoErrorNoFirst(checked);
    if FirstError(p.resolved).Some? {
      var i := FirstErrorIndex(p.resolved);
      assert Verdict(p, i).Err? && LeastFailure(p, i);
    } else if FirstError(built).Some? {
      var i := FirstErrorIndex(built);
      BuildFailureIsLeast(p, i);
    } else if FirstError(checked).Some? {
      var i := FirstErrorIndex(checked);
      assert Verdict(p, i).Err? && LeastFailure(p, i);
    } else {
      assert forall i: nat :: i < |p.resolved| ==> checked[i] == Verdict(p, i);
    }
  }

  lemma BuildFailureIsLeast<S, T, R>(p: Plan<S, T, R>, i: nat)
    requires p.Valid() && i < |p.resolved|
    requires forall j: nat :: j < |p.resolved| ==> p.resolved[j].Ok?
    requires p.built[i].Err? && forall j: nat :: j < i ==> p.built[j].Ok?
    ensures LeastFailure(p, i) && Verdict(p, i) == Err(p.built[i].error)
  {
  }

  // ---- what a batch costs -----------------------------------------------------------------

  /** The slots before `k` that have not finished at time `t`. */
  function Unfinished(start: seq<nat>, cost: seq<nat>, k: nat, t: int): set<nat>
    requires |start| >= k && |cost| >= k
  {
    set j: nat | j < k && start[j] + cost[j] > t
  }

  /** Slot `k` starts in order, when the window has room, and not a moment later. */
  predicate StartsOnTime(start: seq<nat>, cost: seq<nat>, k: nat)
    requires k < |start| == |cost|
  {
    var earliest := if k == 0 then 0 else start[k - 1];
    && earliest <= start[k]
    && |Unfinished(start, cost, k, start[k])| < MAX_CONCURRENT_SLOT_BUILDS
    && forall t :: earliest <= t < start[k] ==> |Unfinished(start, cost, k, t)| >= MAX_CONCURRENT_SLOT_BUILDS
  }

  /** Start times of the rolling window, counted from the start of the build. */
  predicate RollingWindow(start: seq<nat>, cost: seq<nat>) {
    |start| == |cost| && forall k: nat :: k < |start| ==> StartsOnTime(start, cost, k)
  }

  function Ceil(n: nat): nat { (n + MAX_CONCURRENT_SLOT_BUILDS - 1) / MAX_CONCURRENT_SLOT_BUILDS }

  function Range(lo: nat, hi: nat): (r: set<nat>)
    ensures forall j: nat :: j in r <==> lo <= j < hi
    ensures lo <= hi ==> |r| == hi - lo
  {
    if lo >= hi then {} else Range(lo, hi - 1) + {hi - 1}
  }

  /** The full waits of the groups before slot `k`. */
  function Due(k: nat, wait: nat): nat { k / MAX_CONCURRENT_SLOT_BUILDS * wait }

  /** The first slot of the group of ten that `k` is in. */
  function GroupStart(k: nat): nat { k / MAX_CONCURRENT_SLOT_BUILDS * MAX_CONCURRENT_SLOT_BUILDS }

  lemma DueGrows(j: nat, k: nat, wait: nat)
    requires j <= k
    ensures Due(j, wait) <= Due(k, wait)
    ensures j < GroupStart(k) ==> Due(j, wait) + wait <= Due(k, wait)
  {
    var a, b := j / MAX_CONCURRENT_SLOT_BUILDS, k / MAX_CONCURRENT_SLOT_BUILDS;
    Scales(a, b, wait);
    if a < b {
      Scales(a + 1, b, wait);
    }
  }

  /** Slot `k` starts no later than the full waits of the groups of ten before it. */
  lemma {:induction false} SlotStartBound(start: seq<nat>, cost: seq<nat>, wait: nat, k: nat)
    requires RollingWindow(start, cost) && k < |start|
    requires forall j :: 0 <= j < |cost| ==> cost[j] <= wait
    ensures start[k] <= Due(k, wait) == k / 10 * wait
  {
    var due, first := Due(k, wait), GroupStart(k);
    assert first <= k < first + MAX_CONCURRENT_SLOT_BUILDS;
    hide Due, GroupStart;
    assert StartsOnTime(start, cost, k);
    if k > 0 {
      SlotStartBound(start, cost, wait, k - 1);
      DueGrows(k - 1, k, wait);
    }
    forall j: nat | j < first
      ensures start[j] + cost[j] <= due
    {
      SlotStartBound(start, cost, wait, j);
      DueGrows(j, k, wait);
    }
    SubsetSize(Unfinished(start, cost, k, due), Range(first, k));
  }

  lemma Scales(a: nat, b: nat, wait: nat)
    requires a <= b
    ensures a * wait <= b * wait
    ensures (a + 1) * wait == a * wait + wait
  {
  }

  /** A batch of N slots, each taking at most `wait`, ends within ceil(N / 10) waits. */
  lemma BatchCostBound(start: seq<nat>, cost: seq<nat>, wait: nat, k: nat)
    requires RollingWindow(start, cost) && k < |start|
    requires forall j :: 0 <= j < |cost| ==> cost[j] <= wait
    ensures start[k] + cost[k] <= (|start| + 9) / 10 * wait
  {
    SlotStartBound(start, cost, wait, k);
    var group := k / MAX_CONCURRENT_SLOT_BUILDS;
    assert group + 1 <= Ceil(|start|);
    Scales(group, Ceil(|start|), wait);
    Scales(group + 1, Ceil(|start|), wait);
  }

  /** The window never runs more than ten slots at a time. */
  lemma AtMostTenRunning(start: seq<nat>, cost: seq<nat>, t: nat)
    requires RollingWindow(start, cost)
    ensures |set j: nat | j < |start| && start[j] <= t < start[j] + cost[j]| <= 10
  {
    var running := set j: nat | j < |start| && start[j] <= t < start[j] + cost[j];
    if running != {} {
      var last := Greatest(running);
      assert StartsOnTime(start, cost, last);
      var others := Unfinished(start, cost, last, start[last]);
      assert running <= others + {last};
      SubsetSize(running, others + {last});
    }
  }

  lemma {:induction false} Greatest(s: set<nat>) returns (m: nat)
    requires s != {}
    ensures m in s && forall x :: x in s ==> x <= m
  {
    var x :| x in s;
    if s == {x} {
      m := x;
    } else {
      var y := Greatest(s - {x});
      m := if x >= y then x else y;
      assert forall z :: z in s ==> z == x || z in s - {x};
    }
  }

  /** Every list of durations has such a schedule: run the window and read the clock. */
  method RunWindow(cost: seq<nat>) returns (start: seq<nat>)
    ensures RollingWindow(start, cost)
  {
    start := [];
    var horizon := 0;
    for k := 0 to |cost|
      invariant |start| == k
      invariant RollingWindow(start, cost[..k])
      invariant forall i :: 0 <= i < k ==> start[i] + cost[i] <= horizon
      invariant k > 0 ==> start[k - 1] <= horizon
    {
      var earliest := if k == 0 then 0 else start[k - 1];
      var t := earliest;
      NoneUnfinished(start, cost, k, horizon);
      while |Unfinished(start, cost, k, t)| >= MAX_CONCURRENT_SLOT_BUILDS
        invariant earliest <= t
        invariant forall u :: earliest <= u < t ==> |Unfinished(start, cost, k, u)| >= MAX_CONCURRENT_SLOT_BUILDS
        decreases (horizon as int) - t
      {
        t := t + 1;
      }
      assert cost[..k + 1] == cost[..k] + [cost[k]];
      SameUnfinished(start, cost, start, cost[..k], k);
      OneMoreSlot(start, cost[..k], t, cost[k]);
      start := start + [t];
      horizon := if t + cost[k] > horizon then t + cost[k] else horizon;
    }
    assert cost[..|cost|] == cost;
  }

  /** What is unfinished before slot `k` depends on the slots before it only. */
  lemma SameUnfinished(start: seq<nat>, cost: seq<nat>, start': seq<nat>, cost': seq<nat>, k: nat)
    requires |start| >= k && |start'| >= k && |cost| >= k && |cost'| >= k
    requires start[..k] == start'[..k] && cost[..k] == cost'[..k]
    ensures forall t: int :: Unfinished(start, cost, k, t) == Unfinished(start', cost', k, t)
  {
    forall t: int
      ensures Unfinished(start, cost, k, t) == Unfinished(start', cost', k, t)
    {
      assert forall j :: 0 <= j < k ==> start[j] == start[..k][j] && start'[j] == start'[..k][j];
      assert forall j :: 0 <= j < k ==> cost[j] == cost[..k][j] && cost'[j] == cost'[..k][j];
    }
  }

  lemma NoneUnfinished(start: seq<nat>, cost: seq<nat>, k: nat, horizon: nat)
    requires |start| >= k && |cost| >= k
    requires forall i :: 0 <= i < k ==> start[i] + cost[i] <= horizon
    ensures forall t: int :: t >= horizon ==> |Unfinished(start, cost, k, t)| == 0
  {
  }

  lemma OneMoreSlot(start: seq<nat>, cost: seq<nat>, t: nat, c: nat)
    requires RollingWindow(start, cost)
    requires var k := |start|;
             var earliest := if k == 0 then 0 else start[k - 1];
             && earliest <= t && |Unfinished(start, cost, k, t)| < MAX_CONCURRENT_SLOT_BUILDS
             && forall u :: earliest <= u < t ==> |Unfinished(start, cost, k, u)| >= MAX_CONCURRENT_SLOT_BUILDS
    ensures RollingWindow(start + [t], cost + [c])
  {
    var start', cost' := start + [t], cost + [c];
    forall i: nat | i < |start'|
      ensures StartsOnTime(start', cost', i)
    {
      assert start[..i] == start'[..i] && cost[..i] == cost'[..i];
      SameUnfinished(start, cost, start', cost', i);
      assert i < |start| ==> StartsOnTime(start, cost, i);
    }
  }
}
