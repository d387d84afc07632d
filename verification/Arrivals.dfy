/** Which order a slot answers: slot `i` of a request is order `i` of the body it arrived with. */
module Arrivals {
  import opened Wire
  import opened Registry
  import opened Contexts
  import opened Slots
  import opened System
  import opened Invariants
  import opened Frames
  import opened Theorems
  import opened Meaning
  import opened Replies
  import Quotes
  import Signing
  import Reload
  import Batch

  type Orders = seq<Outcome<(Address, Address)>>

  /**
    What an item makes of its order: the order's own error; the listed token it
    trades against the settlement token, with the side it is on; or a bad request.
   */
  predicate Answers(registry: TokenRegistry, order: Outcome<(Address, Address)>, item: Outcome<Item>) {
    match order
    case Err(e) => item == Err(e)
    case Ok((input, output)) =>
      if input == registry.quoteToken && output in registry.tokens then
        item == Ok(Item(input, output, ResolvedPair(registry.tokens[output], output, QuoteToBase)))
      else if input != registry.quoteToken && output == registry.quoteToken && input in registry.tokens then
        item == Ok(Item(input, output, ResolvedPair(registry.tokens[input], input, BaseToQuote)))
      else item.Err? && item.error.BadRequest?
  }

  predicate AnswersAll(registry: TokenRegistry, schema: Schema, orders: Orders, req: Request) {
    && req.schema == schema && |req.items| == |orders|
    && forall i :: 0 <= i < |orders| ==> Answers(registry, orders[i], req.items[i])
  }

  lemma ResolvedAnswers(registry: TokenRegistry, orders: Orders)
    ensures |Resolved(registry, orders)| == |orders|
    ensures forall i :: 0 <= i < |orders| ==> Answers(registry, orders[i], Resolved(registry, orders)[i])
  {
    forall i | 0 <= i < |orders|
      ensures Answers(registry, orders[i], Resolved(registry, orders)[i])
    {
      if orders[i].Ok? {
        ResolvedPairNamesTheOrder(registry, orders[i].value.0, orders[i].value.1);
      }
    }
  }

  /** An arriving request is appended, one item for each order in its place, against the set running then. */
  lemma ArrivalIsAnswered(d: Deployment, s: State, schema: Schema, orders: Orders)
    ensures var t := Step(d, s, Arrive(schema, orders));
            && |t.requests| == |s.requests| + 1 && t.requests[..|s.requests|] == s.requests
            && AnswersAll(s.reload.tokens.registry, schema, orders, t.requests[|s.requests|])
            && t.requests[|s.requests|].stage.Arrived?
  {
    StepCases(d, s, Arrive(schema, orders));
    ResolvedAnswers(s.reload.tokens.registry, orders);
    hide Step, Resolved, Answers;
  }

  // ---- a request keeps its items -----------------------------------------------------------

  lemma RequestStepKeepsTerms(d: Deployment, s: State, a: Action)
    requires IsRequestAction(a)
    ensures var t := RequestStep(d, s, a);
            && |t.requests| == |s.requests|
            && forall r :: 0 <= r < |s.requests| ==>
                 t.requests[r].schema == s.requests[r].schema && t.requests[r].items == s.requests[r].items
  {
    hide Quotes.SnapshotMany, Needed, BuiltSymbols, AllBuilt, FirstSlots;
  }

  /** Only an arrival adds a request, and no step changes a request's schema or items. */
  lemma TermsStay(d: Deployment, s: State, a: Action)
    requires !a.Arrive?
    ensures var t := Step(d, s, a);
            && |t.requests| == |s.requests|
            && forall r :: 0 <= r < |s.requests| ==>
                 t.requests[r].schema == s.requests[r].schema && t.requests[r].items == s.requests[r].items
  {
    hide Step, SlotStep, RequestStep, RecheckStep, EnvironmentStep;
    StepCases(d, s, a);
    if IsSlotAction(a) {
      SlotStepWrites(d, s, a);
    } else if IsRequestAction(a) {
      RequestStepKeepsTerms(d, s, a);
    } else if a.Recheck? {
      RecheckWrites(s, a.r, a.i);
    } else {
      OuterStepFrame(d, s, a);
    }
  }

  /** Request `r` is the one that arrived at step `m`, and still asks for just what arrived. */
  ghost predicate ArrivedAt(d: Deployment, generation: int, actions: seq<Action>, m: nat, r: nat, req: Request)
    requires Reload.BootFrom(d.world, generation).Ok?
  {
    && m < |actions| && actions[m].Arrive? && r == |At(d, generation, actions, m).requests|
    && AnswersAll(At(d, generation, actions, m).reload.tokens.registry, actions[m].schema, actions[m].orders, req)
  }

  /** Every request of a run arrived at some step, and its items answer the orders that arrived, place by place. */
  lemma {:induction false} EveryRequestArrived(d: Deployment, generation: int, actions: seq<Action>, n: nat, r: nat) returns (m: nat)
    requires Reload.BootFrom(d.world, generation).Ok? && n <= |actions| && r < |At(d, generation, actions, n).requests|
    ensures m < n && ArrivedAt(d, generation, actions, m, r, At(d, generation, actions, n).requests[r])
  {
    hide At, Step, Reload.BootFrom, AnswersAll;
    if n == 0 {
      NothingAtBoot(d, generation, actions);
    } else {
      NextAt(d, generation, actions, n - 1);
      var s, a := At(d, generation, actions, n - 1), actions[n - 1];
      if a.Arrive? {
        ArrivalIsAnswered(d, s, a.schema, a.orders);
        if r == |s.requests| {
          m := n - 1;
        } else {
          assert At(d, generation, actions, n).requests[r] == At(d, generation, actions, n).requests[..|s.requests|][r];
          m := EveryRequestArrived(d, generation, actions, n - 1, r);
        }
      } else {
        TermsStay(d, s, a);
        m := EveryRequestArrived(d, generation, actions, n - 1, r);
        SameTermsAnswer(At(d, generation, actions, m).reload.tokens.registry, actions[m].schema, actions[m].orders,
                        s.requests[r], At(d, generation, actions, n).requests[r]);
      }
    }
  }

  lemma SameTermsAnswer(registry: TokenRegistry, schema: Schema, orders: Orders, before: Request, after: Request)
    requires AnswersAll(registry, schema, orders, before) && after.schema == before.schema && after.items == before.items
    ensures AnswersAll(registry, schema, orders, after)
  {
  }

  // ---- from order to reply -------------------------------------------------------------------

  /** The response in this place is for this order: its two tokens, and the schema asked for. */
  predicate IsFor(codec: Codec, schema: Schema, order: Outcome<(Address, Address)>, response: OracleResponse) {
    && order.Ok? && |response.context| == (if schema.V5? then 9 else 10)
    && codec.float(if schema.V5? then 5 else if schema.V6? then 6 else 7) == Some(response.context[0])
    && response.context[6] == order.value.0 && response.context[7] == order.value.1
  }

  lemma SaysItsOrder(env: Env, produced: set<(Signing.Hash, Signing.Signature)>, registry: TokenRegistry, schema: Schema,
                     orders: Orders, req: Request, i: nat, stmt: Statement, b: Built)
    requires AnswersAll(registry, schema, orders, req) && HasJob(req, i) && Says(env, produced, JobOf(req, i), stmt, b)
    ensures i < |orders| && IsFor(env.codec, schema, orders[i], b.response)
    ensures var (input, output), pair := orders[i].value, JobOf(req, i).item.pair;
            && pair.token == (if pair.direction.QuoteToBase? then output else input)
            && registry.quoteToken == (if pair.direction.QuoteToBase? then input else output)
            && pair.token in registry.tokens && registry.tokens[pair.token] == pair.symbol
  {
    hide BuildStatement, SameTerms, PublishedInSession;
    assert Answers(registry, orders[i], req.items[i]);
  }

  /**
    A delivered slot answers its own order. In every run, slot `i` of a request
    is delivered only if order `i` of the body it arrived with trades a listed
    token against the settlement token, and its response is for that order.
   */
  lemma DeliveredAnswersItsOrder(d: Deployment, generation: int, actions: seq<Action>, n: nat, r: nat, i: nat) returns (m: nat)
    requires Reload.BootFrom(d.world, generation).Ok? && n <= |actions|
    requires IsDelivered(At(d, generation, actions, n), r, i)
    ensures m < n && ArrivedAt(d, generation, actions, m, r, At(d, generation, actions, n).requests[r])
    ensures i < |actions[m].orders|
    ensures IsFor(d.env.codec, actions[m].schema, actions[m].orders[i],
                  At(d, generation, actions, n).requests[r].slots[i].built.response)
  {
    hide At, Reload.BootFrom, AnswersAll, Says, IsFor;
    m := EveryRequestArrived(d, generation, actions, n, r);
    DeliveredSaysItsTerms(d, generation, actions, n, r, i);
    var s := At(d, generation, actions, n);
    SaysItsOrder(d.env, s.signer.produced, At(d, generation, actions, m).reload.tokens.registry, actions[m].schema,
                 actions[m].orders, s.requests[r], i, s.requests[r].slots[i].stmt, s.requests[r].slots[i].built);
  }

  /** In an envelope reply, place `i` is for order `i`, or carries what order `i` came to. */
  predicate EnvelopeAnswers(codec: Codec, schema: Schema, orders: Orders, items: seq<Outcome<OracleResponse>>) {
    && |items| == |orders|
    && forall i :: 0 <= i < |orders| ==>
         && (items[i].Ok? ==> IsFor(codec, schema, orders[i], items[i].value))
         && (orders[i].Err? ==> items[i] == Err(orders[i].error))
  }

  /**
    The reply answers the body. For every request in its final pass, the plan of
    its slots gives each place of the reply to the order in that place: a
    response for it, or an error, its own if it could not be read. A strict
    reply has one response for every order, in order.
   */
  lemma ReplyAnswersTheBody(d: Deployment, generation: int, actions: seq<Action>, n: nat, r: nat)
      returns (m: nat, p: Batch.Plan<Item, Built, OracleResponse>)
    requires Reload.BootFrom(d.world, generation).Ok? && n <= |actions|
    requires r < |At(d, generation, actions, n).requests| && At(d, generation, actions, n).requests[r].stage.Finishing?
    ensures m < n && ArrivedAt(d, generation, actions, m, r, At(d, generation, actions, n).requests[r])
    ensures Follows(p, At(d, generation, actions, n).requests[r])
    ensures EnvelopeAnswers(d.env.codec, actions[m].schema, actions[m].orders,
                            seq(|p.resolved|, i requires 0 <= i < |p.resolved| => Batch.Verdict(p, i)))
    ensures Batch.StrictReply(p).Ok? ==>
              && Batch.StrictReply(p).value.Strict?
              && |Batch.StrictReply(p).value.responses| == |actions[m].orders|
              && forall i :: 0 <= i < |actions[m].orders| ==>
                   IsFor(d.env.codec, actions[m].schema, actions[m].orders[i], Batch.StrictReply(p).value.responses[i])
  {
    hide At, Reload.BootFrom, AnswersAll, Says, IsFor, PlanOf, Batch.Verdict, Batch.StrictReply, ErrorsKept;
    var now := At(d, generation, actions, n).requests[r];
    m := EveryRequestArrived(d, generation, actions, n, r);
    var then_ := RepliesFollowSlots(d, generation, actions, n, r);
    p := PlanOf(then_, now);
    StrictReplyIsDelivered(p, now);
    ErrorsAreKept(d, generation, actions, n, r);
    OneSlotPerOrder(At(d, generation, actions, m).reload.tokens.registry, actions[m].schema, actions[m].orders, now);
    forall i: nat | i < |now.slots|
      ensures now.slots[i].Delivered? ==>
                IsFor(d.env.codec, actions[m].schema, actions[m].orders[i], now.slots[i].built.response)
    {
      if now.slots[i].Delivered? {
        var k := DeliveredAnswersItsOrder(d, generation, actions, n, r, i);
        OneArrival(d, generation, actions, m, k, r, now);
      }
    }
  }

  lemma OneSlotPerOrder(registry: TokenRegistry, schema: Schema, orders: Orders, now: Request)
    requires AnswersAll(registry, schema, orders, now) && ErrorsKept(now) && !now.stage.Arrived?
    ensures |now.slots| == |orders|
    ensures forall i :: 0 <= i < |orders| && orders[i].Err? ==> now.slots[i] == Failed(orders[i].error)
  {
    forall i | 0 <= i < |orders| && orders[i].Err?
      ensures now.slots[i] == Failed(orders[i].error)
    {
      assert Answers(registry, orders[i], now.items[i]);
    }
  }

  lemma {:induction false} RequestsGrow(d: Deployment, generation: int, actions: seq<Action>, i: nat, j: nat)
    requires Reload.BootFrom(d.world, generation).Ok? && i <= j <= |actions|
    ensures |At(d, generation, actions, i).requests| <= |At(d, generation, actions, j).requests|
    decreases j
  {
    hide At, Step, Reload.BootFrom;
    if i < j {
      RequestsGrow(d, generation, actions, i, j - 1);
      NextAt(d, generation, actions, j - 1);
      StepMovesStages(d, At(d, generation, actions, j - 1), actions[j - 1]);
    }
  }

  /** A request arrives once. */
  lemma OneArrival(d: Deployment, generation: int, actions: seq<Action>, m: nat, k: nat, r: nat, req: Request)
    requires Reload.BootFrom(d.world, generation).Ok?
    requires ArrivedAt(d, generation, actions, m, r, req) && ArrivedAt(d, generation, actions, k, r, req)
    ensures m == k
  {
    hide At, Step, Reload.BootFrom, AnswersAll;
    if m != k {
      var a, b := if m < k then m else k, if m < k then k else m;
      NextAt(d, generation, actions, a);
      ArrivalIsAnswered(d, At(d, generation, actions, a), actions[a].schema, actions[a].orders);
      RequestsGrow(d, generation, actions, a + 1, b);
    }
  }
}
