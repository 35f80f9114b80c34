/**
  Planning one turn (planTurn and lfPendingAfterOps in ai/llm_first_plan.go): at most two model calls, a
  proposal that passes validation or a fallback, and the checkout field the reply leads back to.
 */
module TurnPlan {
  import opened Checkout
  import opened LlmFirst

  const MAX_CALLS: nat := 2

  // One model call: it fails, its output is not a decision, or it proposes one, with what its cart
  // operations lead to and the number of rules its reply violates.
  datatype Call = CallFailed | Unreadable | Proposal(plan: LlmFirst.Plan, violations: nat)

  datatype Planned = Fallback(calls: nat) | Accepted(plan: LlmFirst.Plan, calls: nat)

  predicate OrdersItems(p: LlmFirst.Plan) {
    p.intent == OrderIntent || p.intent == AmendIntent
  }

  // Cart operations count for an order or a change only; any other intent leaves the cart as it is.
  function WithCartOf(cart: seq<CartLine>, p: LlmFirst.Plan): LlmFirst.Plan {
    if OrdersItems(p) then p else p.(cart := cart, changed := false, refused := 0)
  }

  predicate Valid(c: Call) {
    c.Proposal? && c.violations == 0
  }

  // planTurn: `answer` gives the model's answer to the first and the second call.
  method PlanTurn(cart: seq<CartLine>, answer: nat -> Call) returns (planned: Planned)
    ensures planned.Accepted? <==> Valid(answer(1)) || (!answer(1).CallFailed? && Valid(answer(2)))
    ensures planned.calls == if answer(1).CallFailed? || Valid(answer(1)) then 1 else 2
    ensures planned.Accepted? ==>
              Valid(answer(planned.calls)) && planned.plan == WithCartOf(cart, answer(planned.calls).plan)
    ensures planned.Accepted? && planned.plan.changed ==> OrdersItems(planned.plan)
    ensures planned.Accepted? && !OrdersItems(planned.plan) ==> planned.plan.cart == cart
  {
    var attempt := 1;
    while attempt <= MAX_CALLS
      invariant 1 <= attempt <= MAX_CALLS + 1
      invariant attempt > 1 ==> !answer(1).CallFailed? && !Valid(answer(1))
      invariant attempt > 2 ==> !Valid(answer(2))
    {
      var c := answer(attempt);
      match c {
        case CallFailed => return Fallback(attempt);
        case Unreadable =>
        case Proposal(plan, violations) =>
          var accepted := plan.(cart := cart, changed := false, refused := 0);
          if plan.intent == OrderIntent || plan.intent == AmendIntent {
            accepted := plan;
          }
          if violations == 0 {
            return Accepted(accepted, attempt);
          }
      }
      attempt := attempt + 1;
    }
    return Fallback(MAX_CALLS);
  }

  // ── the field the reply leads back to ──────────────────────────────────────

  // pendingFieldAfterVariant
  function PendingAfterVariant(shop: Shop, st: State): Field {
    if st.step == AskVariant then
      if Cart(shop, st) != [] then FieldOf(StepAfterItems(st)) else NoField
    else FieldOf(st.step)
  }

  // lfPendingAfterOps. A buyer without a stored checkout has NoState, which waits for nothing.
  function PendingAfterOps(shop: Shop, st: State, cart: seq<CartLine>): Field {
    if MissingVariant(cart) then VariantField
    else if PendingField(shop, st) == VariantField then PendingAfterVariant(shop, st)
    else PendingField(shop, st)
  }

  // The field a reply leads back to after a cart change (lfComposeReply): a cart without an open field
  // is led to the recipient.
  function ResumeField(shop: Shop, st: State, cart: seq<CartLine>): Field {
    var pending := PendingAfterOps(shop, st, cart);
    if pending == NoField then RecipientField else pending
  }

  // The resume line itself is left out when the model's reply already asks a question.
  function ResumeLine(shop: Shop, st: State, cart: seq<CartLine>, asks: bool): Field {
    if cart == [] || asks then NoField else ResumeField(shop, st, cart)
  }

  // The stored step leads elsewhere: a step of the older flow, or an open variant question in a
  // checkout without a cart whose recipient is already known.
  predicate StrayStep(shop: Shop, st: State) {
    st.step.OtherStep? || (st.step == AskVariant && Cart(shop, st) == [] && StepAfterItems(st) != AskRecipient)
  }

  lemma {:induction false} MissingReadsBack(shop: Shop, known: seq<Line>, cart: seq<CartLine>, read: seq<CartLine>)
    requires AllReadBack(shop, known, cart, read)
    ensures MissingVariant(read) == MissingVariant(cart)
  {
    if cart != [] {
      var n := |cart| - 1;
      assert ReadBack(shop, known, cart[n], read[n]);
      MissingReadsBack(shop, known, cart[..n], read[..n]);
    }
  }

  // The stored checkout's field, and the reply's, from the step, what follows the items, and whether
  // the cart was empty and a variant is open.
  function StoredField(step: Step, next: Step, missing: bool): Field {
    if missing then VariantField
    else if step == AskVariant then FieldOf(next)
    else if step == NoStep || step == AskProduct || step == AskQty then RecipientField
    else FieldOf(step)
  }

  function ReplyField(step: Step, next: Step, empty: bool, missing: bool): Field {
    var field := if step == AskVariant then (if empty then NoField else FieldOf(next)) else FieldOf(step);
    if missing then VariantField else if field == NoField then RecipientField else field
  }

  lemma {:induction false} FieldsAgree(step: Step, next: Step, empty: bool, missing: bool)
    requires next == AskRecipient || next == AskAddressFull || next == Confirm
    ensures ReplyField(step, next, empty, missing) == StoredField(step, next, missing) <==>
            missing || !(step.OtherStep? || (step == AskVariant && empty && next != AskRecipient))
  {
  }

  lemma {:induction false} FieldOfStored(shop: Shop, before: State, cart: seq<CartLine>, catalog: seq<Row>)
    requires cart != []
    requires var stored := WithCart(shop, before, cart, catalog);
             && MissingVariant(Cart(shop, stored)) == MissingVariant(cart)
             && StepAfterItems(stored) == StepAfterItems(before)
    ensures PendingField(shop, WithCart(shop, before, cart, catalog)) ==
            StoredField(before.step, StepAfterItems(before), MissingVariant(cart))
  {
  }

  lemma {:induction false} FieldOfReply(shop: Shop, st: State, cart: seq<CartLine>)
    ensures ResumeField(shop, st, cart) ==
            ReplyField(st.step, StepAfterItems(st), Cart(shop, st) == [], MissingVariant(cart))
  {
  }

  lemma {:induction false} AfterItemsIsOfTheShipping(a: State, b: State)
    requires a.ship == b.ship
    ensures StepAfterItems(a) == StepAfterItems(b)
  {
  }

  lemma {:induction false} StoredLikeTheCart(shop: Shop, st: State, cart: seq<CartLine>, catalog: seq<Row>)
    requires cart != [] && forall k :: 0 <= k < |cart| ==> IsCartLine(shop, cart[k])
    ensures var stored := WithCart(shop, st, cart, catalog);
            MissingVariant(Cart(shop, stored)) == MissingVariant(cart) && StepAfterItems(stored) == StepAfterItems(st)
  {
    var stored := WithCart(shop, st, cart, catalog);
    CartRoundTrip(shop, st, cart, catalog);
    MissingReadsBack(shop, KnownLines(st), cart, Cart(shop, stored));
    AfterItemsIsOfTheShipping(st, stored);
  }

  // What the reply asks for is what the stored checkout waits for: after a cart change the resume line
  // names the pending field of the state the code stores, exactly when a variant is still open or the
  // step it started from is not a stray one; it is left out only behind a question of the model's own.
  lemma {:induction false} ReplyAsksForTheStoredField(shop: Shop, st: State, cart: seq<CartLine>, catalog: seq<Row>,
                                                      asks: bool)
    requires cart != [] && forall k :: 0 <= k < |cart| ==> IsCartLine(shop, cart[k])
    ensures ResumeLine(shop, st, cart, asks) == NoField <==> asks
    ensures !asks ==>
              (ResumeLine(shop, st, cart, asks) == PendingField(shop, WithCart(shop, st, cart, catalog)) <==>
               MissingVariant(cart) || !StrayStep(shop, st))
  {
    StoredLikeTheCart(shop, st, cart, catalog);
    FieldOfStored(shop, st, cart, catalog);
    FieldOfReply(shop, st, cart);
    FieldsAgree(st.step, StepAfterItems(st), Cart(shop, st) == [], MissingVariant(cart));
  }
}
