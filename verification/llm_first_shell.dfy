/**
  runLLMFirst (ai/llm_first.go): the shell around one turn, from the cost gate to what runs after the send.
  Every way out of it before the first write of the pipeline leaves the conversation as it was.
 */
module LlmFirstShell {
  import opened Checkout
  import opened LlmFirst
  import opened LlmFirstConsent
  import opened LlmFirstSteps
  import opened TurnPlan

  // What the shell meets in one turn: the quota, the loads, whether a language the buyer chose can be stored
  // and whether the language must be asked first, the model's answers, whether the order-status handler took
  // the turn, and the turn to apply, but for its plan.
  datatype Inbound = Inbound(quota: bool, loaded: bool, language: bool, asksLanguage: bool,
                             answer: nat -> TurnPlan.Call, status: bool, turn: Turn)

  // How the shell ends: it answered, it leaves the turn to the older flow, or it returns an error.
  datatype Ending = Answered | LeftToOlderFlow | Error

  function Ended(sent: bool): Ending {
    if sent then Answered else Error
  }

  // planTurn, as PlanTurn computes it
  function PlannedBy(cart: seq<CartLine>, answer: nat -> TurnPlan.Call): Planned {
    if answer(1).CallFailed? then Fallback(1)
    else if Valid(answer(1)) then Accepted(WithCartOf(cart, answer(1).plan), 1)
    else if Valid(answer(2)) then Accepted(WithCartOf(cart, answer(2).plan), 2)
    else Fallback(2)
  }

  // No decision of the model is reached.
  predicate StopsEarly(x: Inbound) {
    !x.quota || !x.loaded || !x.language || x.asksLanguage
  }

  // The event this turn is in a run of the conversation.
  function EventOf(env: Env, w: World, x: Inbound): Event {
    if StopsEarly(x) then AnsweredElsewhere
    else
      match PlannedBy(CartIn(env, w.state), x.answer)
      case Fallback(_) => FellBack(x.turn.replies.sent)
      case Accepted(plan, _) =>
        if plan.intent == StatusQuestion then AnsweredElsewhere else Applied(x.turn.(plan := plan))
  }

  method RunLLMFirst(c: Conversation, x: Inbound) returns (ending: Ending)
    requires c.Valid()
    modifies c, c.table
    ensures c.World() == Next(c.env, old(c.World()), EventOf(c.env, old(c.World()), x))
    ensures var e := EventOf(c.env, old(c.World()), x);
            e.Applied? ==>
              ending == Ended(!ApplyIntent(c.env, e.turn, old(c.World()).(calls := [])).failed && e.turn.replies.sent)
    ensures ending == LeftToOlderFlow ==> c.World() == old(c.World()).(calls := [])
    ensures ending == Answered && EventOf(c.env, old(c.World()), x).FellBack? ==> AtConfirm(c.env, old(c.state))
    ensures ending == Error && EventOf(c.env, old(c.World()), x).FellBack? ==> c.World() == old(c.World()).(calls := [])
  {
    c.calls := [];
    if !x.quota {
      return Ended(x.turn.replies.sent);
    }
    if !x.loaded || !x.language {
      return LeftToOlderFlow;
    }
    if x.asksLanguage {
      return Ended(x.turn.replies.sent);
    }
    var cart := CartIn(c.env, c.state);
    var planned := PlanTurn(cart, x.answer);
    assert planned == PlannedBy(cart, x.answer);
    match planned {
      case Fallback(_) =>
        if !AtConfirm(c.env, c.state) {
          return LeftToOlderFlow;
        }
        if !x.turn.replies.sent {
          return Error;
        }
        c.calls := c.calls + [TellOwner];
        return Answered;
      case Accepted(plan, _) =>
        if plan.intent == StatusQuestion {
          return if x.status then Answered else LeftToOlderFlow;
        }
        var t := x.turn.(plan := plan);
        var sent := c.RunTurn(t);
        return Ended(sent);
    }
  }

  // A turn without a usable decision of the model writes nothing, whatever the buyer said and wherever the
  // checkout stands: no save, no cancellation, the checkout and the pending question as they were. All it can
  // do is show the summary again at the confirm step and tell the owner.
  lemma {:induction false} NothingWithoutADecision(env: Env, w: World, x: Inbound)
    requires StopsEarly(x) || PlannedBy(CartIn(env, w.state), x.answer).Fallback?
    ensures var w' := Next(env, w, EventOf(env, w, x));
            && w' == w.(calls := w'.calls)
            && (w'.calls == [] || (w'.calls == [TellOwner] && AtConfirm(env, w.state)))
  {
  }

  // A decision that fails validation in both calls is never applied: every save and cancellation of a turn is
  // permitted by a proposal that violates no rule, its cart operations counted only for an order or a change.
  lemma {:induction false} OnlyValidDecisionsAct(env: Env, w: World, x: Inbound)
    ensures var e := EventOf(env, w, x); var calls := Next(env, w, e).calls;
            calls != [] ==>
              || (e.FellBack? && calls == [TellOwner])
              || (&& e.Applied? && AllPermitted(env, e.turn, w, calls)
                  && (e.turn.plan.changed ==> OrdersItems(e.turn.plan))
                  && exists n: nat :: 1 <= n <= MAX_CALLS && Valid(x.answer(n))
                      && e.turn.plan == WithCartOf(CartIn(env, w.state), x.answer(n).plan))
  {
    var e := EventOf(env, w, x);
    if e.Applied? {
      TurnConsent(env, e.turn, w);
    }
  }

  // The decision a model call proposes, if it violates no rule.
  predicate Proposes(c: TurnPlan.Call) {
    c.Proposal? && c.violations == 0
  }

  // The call whose decision is applied: the first one if it proposes one, else the second one, which is only
  // made if the first did not fail.
  function DecidingCall(x: Inbound): nat {
    if Proposes(x.answer(1)) then 1 else if !x.answer(1).CallFailed? && Proposes(x.answer(2)) then 2 else 0
  }

  // The decision as it is applied: its cart counts for an order or a change only.
  function DecisionOf(env: Env, w: World, p: LlmFirst.Plan): LlmFirst.Plan {
    if p.intent == OrderIntent || p.intent == AmendIntent then p
    else p.(cart := CartIn(env, w.state), changed := false, refused := 0)
  }

  // A valid decision acts: unless the quota, a load or the language stops the turn before, the first valid
  // decision of the model is the one the turn applies, with its effects, its send and what follows; a question
  // for the state of an order goes to the order-status handler; and without a valid decision the turn falls back.
  lemma {:induction false} ValidDecisionActs(env: Env, w: World, x: Inbound)
    requires x.quota && x.loaded && x.language && !x.asksLanguage
    ensures var n, e := DecidingCall(x), EventOf(env, w, x);
            if n == 0 then e == FellBack(x.turn.replies.sent)
            else
              var p := x.answer(n).plan;
              if p.intent == StatusQuestion then e == AnsweredElsewhere
              else
                var t := x.turn.(plan := DecisionOf(env, w, p));
                e == Applied(t) && Next(env, w, e) == RunTurn(env, t, w)
  {
  }
}
