/**
  A pricing session follows the symbol list: one Subscribe for the first list,
  then set deltas. The list is a watched cell, so a session may skip values.
 */
module Subscription {
  import opened Wire

  datatype Frame = Subscribe(assets: set<Symbol>) | Unsubscribe(assets: set<Symbol>)

  function AsSet(list: seq<Symbol>): set<Symbol> {
    set s | s in list
  }

  /** What the server holds for this session after the frames it was sent. */
  function Subscribed(frames: seq<Frame>): set<Symbol> {
    if frames == [] then {}
    else
      var before := Subscribed(frames[..|frames| - 1]);
      match frames[|frames| - 1]
      case Subscribe(assets) => before + assets
      case Unsubscribe(assets) => before - assets
  }

  /** A session: open, returned because the list became empty, or none (never opened, or the socket failed). */
  datatype Session =
    | Disconnected
    | Connected(sent: set<Symbol>, frames: seq<Frame>, observed: nat)
    | Ended(frames: seq<Frame>, observed: nat)

  /** Every value the watched list has had, the current one last. */
  type History = h: seq<seq<Symbol>> | h != [] witness [[]]

  /** The watched list and the session following it. */
  datatype State = State(history: History, session: Session)

  datatype Event =
    | Publish(list: seq<Symbol>)  // the reloader replaces the list
    | Connect                     // a session starts on the current list
    | Observe                     // the session wakes up and reads the current list
    | Drop                        // the socket fails
    | Quiet

  function Latest(s: State): nat {
    |s.history| - 1
  }

  function Delta(sent: set<Symbol>, next: set<Symbol>): seq<Frame> {
    (if next - sent != {} then [Subscribe(next - sent)] else [])
    + (if sent - next != {} then [Unsubscribe(sent - next)] else [])
  }

  function Step(s: State, e: Event): State {
    match e
    case Publish(list) => s.(history := s.history + [list])
    case Connect =>
      var first := AsSet(s.history[Latest(s)]);
      if !s.session.Connected? && first != {} then
        s.(session := Connected(first, [Subscribe(first)], Latest(s)))
      else s
    case Observe =>
      if s.session.Connected? && s.session.observed < Latest(s) then
        var next := AsSet(s.history[Latest(s)]);
        var frames := s.session.frames + Delta(s.session.sent, next);
        s.(session := if next == {} then Ended(frames, Latest(s)) else Connected(next, frames, Latest(s)))
      else s
    case Drop => s.(session := Disconnected)
    case Quiet => s
  }

  /** What holds in every state: the server holds exactly the last observed list. */
  ghost predicate Inv(s: State) {
    (!s.session.Disconnected? ==>
          && s.session.observed <= Latest(s)
          && AsSet(s.history[s.session.observed]) == Subscribed(s.session.frames)
          && (if s.session.Connected? then s.session.sent else {}) == Subscribed(s.session.frames)
          && (s.session.Connected? <==> Subscribed(s.session.frames) != {})
          && forall f :: f in s.session.frames ==> f.assets != {})
  }

  /** The deltas never overlap, are never empty, and carry the server from one list to the next. */
  lemma DeltaIsExact(frames: seq<Frame>, next: set<Symbol>)
    ensures var sent := Subscribed(frames);
            && Subscribed(frames + Delta(sent, next)) == next
            && (forall f :: f in Delta(sent, next) ==> f.assets != {})
            && (forall f, g :: f in Delta(sent, next) && g in Delta(sent, next) && f != g ==> f.assets !! g.assets)
            && (Delta(sent, next) == [] <==> next == sent)
  {
    var sent := Subscribed(frames);
    var added, removed := Subscribe(next - sent), Unsubscribe(sent - next);
    var delta := Delta(sent, next);
    assert sent + (next - sent) - (sent - next) == next;
    if next - sent != {} && sent - next != {} {
      assert (frames + delta)[..|frames| + 1] == frames + [added];
      assert (frames + [added])[..|frames|] == frames;
    } else if next - sent != {} || sent - next != {} {
      assert (frames + delta)[..|frames|] == frames;
    } else {
      assert frames + delta == frames;
    }
  }

  lemma StepKeepsInv(s: State, e: Event)
    requires Inv(s)
    ensures Inv(Step(s, e))
  {
    match e
    case Publish(_) =>
    case Connect =>
      var first := AsSet(s.history[Latest(s)]);
      assert [Subscribe(first)][..0] == [];
    case Observe =>
      if s.session.Connected? && s.session.observed < Latest(s) {
        DeltaIsExact(s.session.frames, AsSet(s.history[Latest(s)]));
      }
    case Drop =>
    case Quiet =>
  }

  function After(first: seq<Symbol>, events: seq<Event>, n: nat): State
    requires n <= |events|
  {
    if n == 0 then State([first], Disconnected) else Step(After(first, events, n - 1), events[n - 1])
  }

  lemma {:induction false} RunKeepsInv(first: seq<Symbol>, events: seq<Event>, n: nat)
    requires n <= |events|
    ensures Inv(After(first, events, n))
  {
    if n > 0 {
      RunKeepsInv(first, events, n - 1);
      StepKeepsInv(After(first, events, n - 1), events[n - 1]);
    }
  }

  /**
    Over every run of list changes, skipped ones included, the frames of a
    session fold to exactly the list it observed last: the current one unless a
    change is still unseen, and empty exactly when the session has ended. No
    frame is ever empty.
   */
  lemma FramesFoldToTheList(first: seq<Symbol>, events: seq<Event>, n: nat)
    requires n <= |events| && !After(first, events, n).session.Disconnected?
    ensures var s := After(first, events, n);
            && s.session.observed < |s.history|
            && Subscribed(s.session.frames) == AsSet(s.history[s.session.observed])
            && (s.session.Ended? <==> Subscribed(s.session.frames) == {})
            && (s.session.observed == Latest(s) ==> Subscribed(s.session.frames) == AsSet(s.history[|s.history| - 1]))
            && (forall f :: f in s.session.frames ==> f.assets != {})
  {
    RunKeepsInv(first, events, n);
  }

  /** A session that reads the list ends exactly when the list has become empty. */
  lemma SessionEndsOnEmptyList(s: State)
    requires Inv(s) && s.session.Connected?
    ensures Step(s, Observe).session.Ended? <==> AsSet(s.history[Latest(s)]) == {}
    ensures Step(s, Observe).session.Ended? ==> Subscribed(Step(s, Observe).session.frames) == {}
  {
    StepKeepsInv(s, Observe);
    if s.session.observed == Latest(s) {
      assert Step(s, Observe) == s;
    }
  }

  // ---- the loop as the client runs it -------------------------------------------------

  /**
    `run_session`, given the lists it observes in order, the first at connect.
    `done` counts the lists read before it returned.
   */
  method RunSession(lists: seq<seq<Symbol>>) returns (frames: seq<Frame>, done: nat)
    requires lists != []
    ensures 1 <= done <= |lists|
    ensures Subscribed(frames) == AsSet(lists[done - 1])
    ensures forall f :: f in frames ==> f.assets != {}
    ensures forall i :: 0 <= i < done - 1 ==> AsSet(lists[i]) != {}
    ensures done < |lists| ==> AsSet(lists[done - 1]) == {}
  {
    frames := [];
    var sent := AsSet(lists[0]);
    done := 1;
    if sent == {} {
      return;
    }
    frames := [Subscribe(sent)];
    assert [Subscribe(sent)][..0] == [];
    while done < |lists|
      invariant 1 <= done <= |lists|
      invariant sent == AsSet(lists[done - 1]) == Subscribed(frames) && sent != {} && NoneEmpty(frames)
      invariant forall i :: 0 <= i < done ==> AsSet(lists[i]) != {}
    {
      var next := AsSet(lists[done]);
      frames := SendDelta(frames, sent, next);
      sent := next;
      done := done + 1;
      if sent == {} {
        return;
      }
    }
  }

  predicate NoneEmpty(frames: seq<Frame>) {
    forall f :: f in frames ==> f.assets != {}
  }

  /** One wake-up of the loop: what was added, then what was removed. */
  method SendDelta(frames: seq<Frame>, sent: set<Symbol>, next: set<Symbol>) returns (more: seq<Frame>)
    requires sent == Subscribed(frames) && NoneEmpty(frames)
    ensures frames <= more && Subscribed(more) == next && NoneEmpty(more)
    ensures more == frames <==> next == sent
  {
    DeltaIsExact(frames, next);
    var added, removed := next - sent, sent - next;
    more := frames;
    if added != {} {
      more := more + [Subscribe(added)];
    }
    if removed != {} {
      more := more + [Unsubscribe(removed)];
    }
    assert more == frames + Delta(sent, next);
  }
}
