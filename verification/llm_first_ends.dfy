/**
  How a turn of the LLM-first pipeline ends: which checkout it leaves, which calls it makes for sure, and when
  the owner is told (ai/llm_first_effects.go).
 */
module LlmFirstEnds {
  import opened Writes
  import opened Text
  import opened Checkout
  import opened CheckoutLines
  import opened OrderStore
  import opened OrderSaved
  import opened LlmFirst
  import opened LlmFirstConsent
  import opened LlmFirstRows
  import opened LlmFirstRetry
  import opened LlmFirstServed
  import opened LlmFirstMeant

  // ── a cart turn ────────────────────────────────────────────────────────────

  // The line names a product, and no variant of it is open.
  predicate CanBeParked(c: CartLine) {
    Trim(c.id) != "" && !c.missing
  }

  ghost predicate CartCanBeParked(cart: seq<CartLine>) {
    cart != [] && forall k :: 0 <= k < |cart| ==> CanBeParked(cart[k])
  }

  lemma {:induction false} LineIsReadyIff(shop: Shop, known: seq<Line>, catalog: seq<Row>, c: CartLine)
    requires IsCartLine(shop, c) && !c.missing
    ensures LineReady(shop, LineFor(shop, known, catalog, c)) <==> Trim(c.id) != ""
  {
  }

  ghost predicate AllNameAProduct(cart: seq<CartLine>) {
    forall k :: 0 <= k < |cart| ==> Trim(cart[k].id) != ""
  }

  lemma {:induction false} OneMoreProduct(cart: seq<CartLine>, c: CartLine)
    ensures AllNameAProduct(cart + [c]) <==> AllNameAProduct(cart) && Trim(c.id) != ""
  {
    assert (cart + [c])[|cart|] == c;
    forall k | 0 <= k < |cart| ensures (cart + [c])[k] == cart[k] {
    }
  }

  lemma {:induction false} LastLineReady(shop: Shop, lines: seq<Line>, l: Line)
    ensures LinesReady(shop, lines + [l]) <==> LinesReady(shop, lines) && LineReady(shop, l)
  {
    assert (lines + [l])[|lines|] == l;
    forall k | 0 <= k < |lines| ensures (lines + [l])[k] == lines[k] {
    }
  }

  // The lines written for the cart are ready for a save exactly when each names a product.
  ghost predicate ReadyIff(shop: Shop, known: seq<Line>, catalog: seq<Row>, cart: seq<CartLine>) {
    LinesReady(shop, LinesFor(shop, known, catalog, cart)) <==> AllNameAProduct(cart)
  }

  lemma {:induction false} OneMoreReady(shop: Shop, known: seq<Line>, catalog: seq<Row>, cart: seq<CartLine>,
                                        c: CartLine)
    requires IsCartLine(shop, c) && !c.missing && ReadyIff(shop, known, catalog, cart)
    ensures ReadyIff(shop, known, catalog, cart + [c])
  {
    LineIsReadyIff(shop, known, catalog, c);
    OneMoreProduct(cart, c);
    LastLineReady(shop, LinesFor(shop, known, catalog, cart), LineFor(shop, known, catalog, c));
    assert (cart + [c])[..|cart|] == cart;
  }

  // The cart as a plan leads to it, without an open variant.
  ghost predicate IsClosed(shop: Shop, cart: seq<CartLine>) {
    forall k :: 0 <= k < |cart| ==> IsCartLine(shop, cart[k]) && !cart[k].missing
  }

  lemma {:induction false} ClosedFront(shop: Shop, cart: seq<CartLine>)
    requires IsClosed(shop, cart) && cart != []
    ensures IsClosed(shop, cart[..|cart| - 1])
    ensures IsCartLine(shop, cart[|cart| - 1]) && !cart[|cart| - 1].missing
    ensures cart[..|cart| - 1] + [cart[|cart| - 1]] == cart
  {
  }

  lemma {:induction false} LinesAreReadyIff(shop: Shop, known: seq<Line>, catalog: seq<Row>, cart: seq<CartLine>)
    requires IsClosed(shop, cart)
    ensures ReadyIff(shop, known, catalog, cart)
  {
    if cart != [] {
      var front, last := cart[..|cart| - 1], cart[|cart| - 1];
      ClosedFront(shop, cart);
      LinesAreReadyIff(shop, known, catalog, front);
      OneMoreReady(shop, known, catalog, front, last);
    }
  }

  // The step a cart leads to is one of the recipient's or later, unless a variant is open.
  lemma {:induction false} StepReachesTheRecipient(st: State, missing: bool)
    ensures ReachedRecipient(StepWithCart(st, missing)) <==> !missing
  {
  }

  lemma {:induction false} DraftOfACart(env: Env, t: Turn, w: World)
    requires ChangesCart(t) && t.plan.cart != []
    requires forall k :: 0 <= k < |t.plan.cart| ==> IsCartLine(env.shop, t.plan.cart[k])
    ensures var d := ApplyCart(env, t, w);
            d.draft == (if CartCanBeParked(t.plan.cart) then d.w.state else Nothing) && d.w.state.Just?
  {
    var before, cart := if w.state.Just? then w.state.value else NoState, t.plan.cart;
    MissingIff(cart);
    StepReachesTheRecipient(before, MissingVariant(cart));
    if !MissingVariant(cart) {
      assert IsClosed(env.shop, cart);
      LinesAreReadyIff(env.shop, KnownLines(before), t.catalog, cart);
    }
  }

  // A cart turn saves its cart as a draft exactly when every line names a product and has its variant: nothing
  // more is asked, not the recipient, not the address.
  lemma {:induction false} CartIsParkedIff(env: Env, t: Turn, w: World)
    requires ChangesCart(t) && forall k :: 0 <= k < |t.plan.cart| ==> IsCartLine(env.shop, t.plan.cart[k])
    ensures var o := ApplyIntent(env, t, w.(calls := []));
            && (o.draft.Just? <==> CartCanBeParked(t.plan.cart))
            && (o.draft.Just? ==> o.draft == o.w.state)
  {
    var start := QuestionDropped(t, w.(calls := []));
    EffectsOfIntent(env, t, w.(calls := []));
    if t.plan.cart != [] {
      DraftOfACart(env, t, start);
    }
  }

  lemma {:induction false} WorkingSaveEarly(shop: Shop, db: Db, scope: Scope, st: State, a: Answers)
    requires Works(a) && LinesReady(shop, DraftLines(shop, st))
    ensures var outcome := SaveEarly(shop, db, scope, st, a).outcome;
            outcome.Saved? || (outcome.NeedPick? && !st.forceNew)
  {
    AllLinesPlaced(a, DraftLines(shop, st));
    SaveEarlyEnds(shop, db, scope, st, a);
    PlacedUnlessRefused(a.stock, DraftLines(shop, st));
  }

  lemma {:induction false} WorkingDraftGoesThrough(env: Env, t: Turn, db: Db, st: State)
    requires Works(t.replies.first) && Works(t.replies.second) && LinesReady(env.shop, DraftLines(env.shop, st))
    ensures DraftGoesThrough(env, t, db, st)
  {
    var one, two := st.(forceNew := st.pinned == NO_ORDER), st.(pinned := NO_ORDER, forceNew := true);
    assert DraftLines(env.shop, one) == DraftLines(env.shop, st) == DraftLines(env.shop, two);
    WorkingSaveEarly(env.shop, db, env.scope, one, t.replies.first);
    WorkingSaveEarly(env.shop, FirstDraft(env, t, db, st).db, env.scope, two, t.replies.second);
  }

  lemma {:induction false} DraftIsReady(env: Env, t: Turn, w: World)
    requires ChangesCart(t)
    ensures var d := ApplyCart(env, t, w).draft; d.Just? ==> LinesReady(env.shop, DraftLines(env.shop, d.value))
  {
  }

  // When nothing fails and the reply is sent, the turn leaves the checkout pinned to a draft that rebuilds to the
  // same cart, whatever the cart was pinned to before.
  lemma {:induction false} CompleteCartIsParked(env: Env, t: Turn, w: World)
    requires ChangesCart(t) && forall k :: 0 <= k < |t.plan.cart| ==> IsCartLine(env.shop, t.plan.cart[k])
    requires CartCanBeParked(t.plan.cart) && t.replies.sent && Works(t.replies.first) && Works(t.replies.second)
    ensures Backed(env, RunTurn(env, t, w))
  {
    var start := w.(calls := []);
    var draft := ApplyIntent(env, t, start).draft;
    CartIsParkedIff(env, t, w);
    EffectsOfIntent(env, t, start);
    DraftIsReady(env, t, QuestionDropped(t, start));
    WorkingDraftGoesThrough(env, t, w.db, draft.value);
    CartTurnSavesTheCart(env, t, w);
  }

  lemma {:induction false} FailedDraftTells(env: Env, t: Turn, w: World, st: State)
    requires FirstDraft(env, t, w.db, st).outcome == Failed
    ensures TellOwner in SaveDraftNow(env, t, w, st).calls
  {
    var one := st.(forceNew := st.pinned == NO_ORDER);
    var r := SaveEarly(env.shop, w.db, env.scope, one, t.replies.first);
    var calls := w.calls + [SaveDraft(one)] + [TellOwner];
    assert calls[|calls| - 1] == TellOwner;
    assert SaveDraftNow(env, t, w, st) == w.(db := r.db, calls := calls);
  }

  // A draft that can not be saved is the owner's to know: the buyer has been answered by then.
  lemma {:induction false} FailedDraftTellsTheOwner(env: Env, t: Turn, w: World)
    requires ChangesCart(t) && t.replies.sent
    ensures var draft := ApplyIntent(env, t, w.(calls := [])).draft;
            draft.Just? && FirstDraft(env, t, w.db, draft.value).outcome == Failed ==>
              TellOwner in RunTurn(env, t, w).calls
  {
    var start := w.(calls := []);
    var o := ApplyIntent(env, t, start);
    CartTurnEffects(env, t, start);
    if o.draft.Just? && FirstDraft(env, t, w.db, o.draft.value).outcome == Failed {
      FailedDraftTells(env, t, o.w, o.draft.value);
      LaterAddsCalls(t, SaveDraftNow(env, t, o.w, o.draft.value), o.later);
    }
  }

  // An offer of another product is remembered, and a cart without a draft of its own never goes into another one.
  lemma {:induction false} CartTurnRemembers(env: Env, t: Turn, w: World)
    requires (t.plan.intent == OrderIntent || t.plan.intent == AmendIntent) && !ConfirmsAll(t, w)
    ensures var before := if w.state.Just? then w.state.value else NoState; var st := ApplyIntent(env, t, w).w.state;
            st.Just? ==>
              && st.value.upsell == (before.upsell || t.plan.offers)
              && (ChangesCart(t) && before.pinned == NO_ORDER ==> st.value.forceNew)
              && (!ChangesCart(t) ==> st.value == before.(upsell := st.value.upsell))
  {
    EffectsOfIntent(env, t, w);
  }

  // The summary is shown once: by the cart turn that brings the checkout to the confirm step, if no operation of
  // it was refused.
  lemma {:induction false} SummaryIsShownOnce(env: Env, t: Turn, w: World)
    requires ChangesCart(t) && t.plan.cart != []
    ensures var o := ApplyIntent(env, t, w); var was := w.state.Just? && w.state.value.step == Confirm;
            && o.w.state.Just?
            && o.reply == if o.w.state.value.step == Confirm && !was && t.plan.refused == 0 then SummaryShown
                          else ModelText
  {
    EffectsOfIntent(env, t, w);
  }

  // ── a field answer ─────────────────────────────────────────────────────────

  function FieldsEnd(env: Env, t: Turn, w: World): Maybe<State> {
    if w.state.Just? && t.fields.Just? then
      Just(FieldsApplied(env.shop, t.buyer, t.fields.value, t.isPart, w.state.value))
    else w.state
  }

  // The reply to a field answer: the summary exactly when the OK is all that is missing, else the field.
  function FieldsReply(env: Env, st: Maybe<State>): Reply {
    if st.Nothing? || PendingField(env.shop, st.value) == NoField then ModelText
    else if PendingField(env.shop, st.value) == ConfirmField then SummaryShown
    else FieldProgress(PendingField(env.shop, st.value))
  }

  lemma {:induction false} FieldTurnNow(env: Env, t: Turn, w: World)
    ensures var d := ApplyFields(env, t, w);
            d == Plain(w.(state := FieldsEnd(env, t, w)), FieldsReply(env, FieldsEnd(env, t, w)))
  {
  }

  // A field answer is stored, and the reply asks for what is missing then; no order is touched.
  lemma {:induction false} FieldTurnStoresTheAnswer(env: Env, t: Turn, w: World)
    requires t.plan.intent == FieldAnswer && !ConfirmsAll(t, w)
    ensures var w' := RunTurn(env, t, w); w'.state == FieldsEnd(env, t, w) && w'.db == w.db && Cancels(w'.calls) == []
    ensures ApplyIntent(env, t, w.(calls := [])).reply == FieldsReply(env, FieldsEnd(env, t, w))
  {
    var start := QuestionDropped(t, w.(calls := []));
    FieldTurnNow(env, t, start);
    OrdinaryTurn(env, t, w, ApplyFields(env, t, start));
    assert Cancels([]) == [];
  }

  // ── a confirmation ─────────────────────────────────────────────────────────

  predicate AtTheSummary(env: Env, w: World) {
    && w.state.Just? && w.state.value.step == Confirm && ShippingComplete(w.state.value.ship)
    && Cart(env.shop, w.state.value) != []
  }

  predicate VariantIsOpen(env: Env, w: World) {
    AtTheSummary(env, w) && MissingVariant(Cart(env.shop, w.state.value))
  }

  lemma {:induction false} UnapprovedNow(env: Env, t: Turn, w: World)
    requires !AtTheSummary(env, w) || VariantIsOpen(env, w) || !t.explicitOk
    ensures var d := ApplyConfirm(env, t, w);
            && d.w == (if VariantIsOpen(env, w) then w.(state := Just(w.state.value.(step := AskVariant))) else w)
            && d.draft.Nothing? && d.later == []
            && (VariantIsOpen(env, w) ==> d.reply == VariantAsked)
            && (AtTheSummary(env, w) && !VariantIsOpen(env, w) ==> d.reply == SummaryShown)
            && !d.reply.OrderSaved?
  {
  }

  // Without an approval a confirmation saves nothing: an open variant is asked for, the summary is shown again
  // to words that are no explicit OK, and a checkout that is not there yet stays where it is.
  lemma {:induction false} UnapprovedSavesNothing(env: Env, t: Turn, w: World)
    requires t.plan.intent == ConfirmIntent && !ConfirmsAll(t, w)
    requires !AtTheSummary(env, w) || VariantIsOpen(env, w) || !t.explicitOk
    ensures var w' := RunTurn(env, t, w);
            && w'.db == w.db && Cancels(w'.calls) == []
            && w'.state == if VariantIsOpen(env, w) then Just(w.state.value.(step := AskVariant)) else w.state
    ensures var reply := ApplyIntent(env, t, w.(calls := [])).reply;
            && (VariantIsOpen(env, w) ==> reply == VariantAsked) && !reply.OrderSaved?
            && (AtTheSummary(env, w) && !VariantIsOpen(env, w) ==> reply == SummaryShown)
  {
    var start := QuestionDropped(t, w.(calls := []));
    UnapprovedNow(env, t, start);
    OrdinaryTurn(env, t, w, ApplyConfirm(env, t, start));
    assert Cancels([]) == [];
  }

  // The field a checkout that is not ready is led back to: an open variant first, the field its step asks for, or
  // what its data lacks.
  function LedBackTo(env: Env, st: State): Field {
    if MissingVariant(Cart(env.shop, st)) then VariantField
    else if st.step == AskRecipient then RecipientField
    else if st.step == AskAddress || st.step == AskAddressFull then AddressField
    else if Trim(st.ship.name) == "" || Trim(st.ship.phone) == "" then RecipientField
    else if !ShippingComplete(st.ship) then AddressField
    else NoField
  }

  // A confirmation of something that is not ready leads the buyer back to what is missing; the model's own reply
  // stands only without a live cart, or when nothing is missing.
  lemma {:induction false} UnreadyIsLedBack(env: Env, t: Turn, w: World)
    requires t.plan.intent == ConfirmIntent && !ConfirmsAll(t, w) && !AtTheSummary(env, w)
    ensures var reply := ApplyIntent(env, t, w.(calls := [])).reply;
            if w.state.Nothing? || Cart(env.shop, w.state.value) == [] || LedBackTo(env, w.state.value) == NoField
            then reply == ModelText else reply == NotReady(LedBackTo(env, w.state.value))
  {
    var start := QuestionDropped(t, w.(calls := []));
    EffectsOfIntent(env, t, w.(calls := []));
    UnreadyField(env, start);
  }

  lemma {:induction false} UnreadyField(env: Env, w: World)
    requires !AtTheSummary(env, w)
    ensures PendingForUnconfirmed(env, w.state) ==
            if w.state.Nothing? || Cart(env.shop, w.state.value) == [] then NoField else LedBackTo(env, w.state.value)
  {
  }

  // A turn with a step that drops the checkout, or without one.
  lemma {:induction false} LaterDropsState(t: Turn, w: World, steps: seq<Later>)
    ensures RunAll(t, w, steps).state == if DropState in steps then Nothing else w.state
    ensures RunAll(t, w, steps).db == w.db
    ensures TellLater in steps ==> TellOwner in RunAll(t, w, steps).calls
  {
    if steps != [] {
      var n := |steps| - 1;
      LaterDropsState(t, w, steps[..n]);
      LaterAddsCalls(t, RunAll(t, w, steps[..n]), [steps[n]]);
      assert steps == steps[..n] + [steps[n]];
    }
  }

  lemma {:induction false} HandoffKeeps(t: Turn, o: Out)
    ensures forall x :: x in o.later ==> x in ApplyHandoff(t, o).later
    ensures DropState in ApplyHandoff(t, o).later <==> DropState in o.later
    ensures HandoffLevel(t) != NoHandoff ==> TellLater in ApplyHandoff(t, o).later
  {
    if HandoffLevel(t) != NoHandoff {
      var after := ApplyHandoff(t, o).later;
      assert after[|after| - 1] == TellLater;
    }
  }

  // What an approval comes to: saved, with its id pinned until the reply is out, or a busy system.
  ghost predicate ApprovedNow(env: Env, w: World, d: Out) {
    && !d.failed && d.draft.Nothing?
    && (d.reply.OrderSaved? ==>
          && d.later == [DropState] && d.w.state.Just? && d.w.state.value.pinned == d.reply.id
          && Cart(env.shop, d.w.state.value) == CartIn(env, w.state))
    && (!d.reply.OrderSaved? ==> d.reply == SystemBusy && d.later == [TellLater] && d.w.state == w.state)
  }

  lemma {:induction false} PlacedKeepsTheCart(env: Env, t: Turn, w: World, st: State)
    ensures var (w', st', _) := PersistOrder(env, t, w, st);
            Cart(env.shop, st') == Cart(env.shop, st) && w'.state == w.state
  {
    var one := st.(forceNew := st.pinned == NO_ORDER);
    var r := Save(env.shop, w.db, env.scope, one, t.replies.first);
    var placed := PlacedAs(st, r);
    var two := placed.(pinned := NO_ORDER, forceNew := true);
    SavedLinesAreTheCart(env, st, one, w.db, t.replies.first);
    SavedLinesAreTheCart(env, placed, two, r.db, t.replies.second);
  }

  lemma {:induction false} ApprovalNow(env: Env, t: Turn, w: World, st: State)
    requires w.state == Just(st)
    ensures ApprovedNow(env, w, SaveApproved(env, t, w, st))
  {
    var (w', st', outcome) := PersistOrder(env, t, w, st);
    PlacedKeepsTheCart(env, t, w, st);
    if outcome.Saved? {
      CartIsOfTheLines(env.shop, st', st'.(pinned := outcome.id, forceNew := false));
    }
  }

  // The checkout and the calls an approval leaves.
  ghost predicate ApprovalEnds(env: Env, t: Turn, w: World, reply: Reply, w': World) {
    && (reply.OrderSaved? && t.replies.sent ==> w'.state == Nothing)
    && (reply.OrderSaved? && !t.replies.sent ==>
          && w'.state.Just? && w'.state.value.pinned == reply.id
          && Cart(env.shop, w'.state.value) == CartIn(env, w.state))
    && (!reply.OrderSaved? ==>
          reply == SystemBusy && w'.state == w.state && (t.replies.sent ==> TellOwner in w'.calls))
  }

  lemma {:induction false} AfterApproval(env: Env, t: Turn, w: World, d: Out, o: Out, w': World)
    requires ApprovedNow(env, w, d) && o == ApplyHandoff(t, d.(ran := d.ran || ChangesCart(t)))
    requires w' == if t.replies.sent then RunAll(t, d.w, o.later) else d.w
    ensures ApprovalEnds(env, t, w, d.reply, w')
  {
    HandoffKeeps(t, d.(ran := d.ran || ChangesCart(t)));
    LaterDropsState(t, d.w, o.later);
  }

  lemma {:induction false} ApprovedTurn(env: Env, t: Turn, w: World, d: Out)
    requires !ConfirmsAll(t, w) && d == Dispatch(env, t, QuestionDropped(t, w.(calls := [])))
    requires !d.failed && d.draft.Nothing?
    ensures var o := ApplyHandoff(t, d.(ran := d.ran || ChangesCart(t)));
            && RunTurn(env, t, w) == (if t.replies.sent then RunAll(t, d.w, o.later) else d.w)
            && ApplyIntent(env, t, w.(calls := [])).reply == d.reply
  {
    HandoffAddsSteps(t, d.(ran := d.ran || ChangesCart(t)));
  }

  // The buyer's approval: once the reply that the order is saved is out, the checkout is cleared; if it can not
  // be sent, the checkout keeps its cart, pinned to the saved order. When the order could not be saved the
  // checkout stays, and the owner is told with the reply.
  lemma {:induction false} ApprovedTurnEnds(env: Env, t: Turn, w: World)
    requires t.plan.intent == ConfirmIntent && !ConfirmsAll(t, w)
    requires AtTheSummary(env, w) && !VariantIsOpen(env, w) && t.explicitOk
    ensures ApprovalEnds(env, t, w, ApplyIntent(env, t, w.(calls := [])).reply, RunTurn(env, t, w))
  {
    var st, w0 := w.state.value, QuestionDropped(t, w.(calls := []));
    var d := SaveApproved(env, t, w0, st);
    ApprovalNow(env, t, w0, st);
    ApprovedIntent(env, t, w0, st);
    ApprovedTurn(env, t, w, d);
    AfterApproval(env, t, w0, d, ApplyHandoff(t, d.(ran := d.ran || ChangesCart(t))), RunTurn(env, t, w));
  }

  lemma {:induction false} ApprovedIntent(env: Env, t: Turn, w: World, st: State)
    requires t.plan.intent == ConfirmIntent && AtTheSummary(env, w) && !VariantIsOpen(env, w) && t.explicitOk
    requires w.state == Just(st)
    ensures Dispatch(env, t, w) == SaveApproved(env, t, w, st)
  {
    assert FindingOf(env, t, w) == Approval;
  }

  lemma {:induction false} SavedLinesArePlaced(env: Env, t: Turn, w: World, st: State, r: SaveResult)
    requires r == Save(env.shop, w.db, env.scope, st.(forceNew := st.pinned == NO_ORDER), t.replies.first)
    requires r.outcome.Saved? && st.items != []
    ensures AtTheirWarehouses(t.replies.first.stock, st.items, PlacedAs(st, r).items)
    ensures SaveApproved(env, t, w, st).w.state == Just(PlacedAs(st, r).(pinned := r.outcome.id, forceNew := false))
  {
    PlacedAtTheirWarehouses(t.replies.first.stock, st.items);
  }

  // A saved order's lines are in the checkout at the warehouses they were saved with, until the reply is out.
  lemma {:induction false} ApprovedLinesArePlaced(env: Env, t: Turn, w: World)
    requires t.plan.intent == ConfirmIntent && !ConfirmsAll(t, w)
    requires AtTheSummary(env, w) && !VariantIsOpen(env, w) && t.explicitOk && w.state.value.items != []
    requires var st := w.state.value;
             Save(env.shop, w.db, env.scope, st.(forceNew := st.pinned == NO_ORDER), t.replies.first).outcome.Saved?
    ensures var o := ApplyIntent(env, t, w.(calls := []));
            o.w.state.Just? && AtTheirWarehouses(t.replies.first.stock, w.state.value.items, o.w.state.value.items)
  {
    var st, w0 := w.state.value, QuestionDropped(t, w.(calls := []));
    var r := Save(env.shop, w.db, env.scope, st.(forceNew := st.pinned == NO_ORDER), t.replies.first);
    SavedLinesArePlaced(env, t, w0, st, r);
    ApprovedIntent(env, t, w0, st);
    EffectsOfIntent(env, t, w.(calls := []));
  }

  // ── the owner ──────────────────────────────────────────────────────────────

  // A buyer who asks for a person, or whose turn the model hands over, is never left to nobody: once the reply
  // is out the owner is told.
  lemma {:induction false} HandoffTellsTheOwner(env: Env, t: Turn, w: World)
    requires t.plan.intent == HumanRequest || t.plan.handoff != NoHandoff
    requires !ApplyIntent(env, t, w.(calls := [])).failed && t.replies.sent
    ensures TellOwner in RunTurn(env, t, w).calls
  {
    var start := w.(calls := []);
    var o := ApplyIntent(env, t, start);
    if ConfirmsAll(t, start) {
      HandoffKeeps(t, CancelAllConfirmed(env, t, start, start.pending));
    } else {
      var d := Dispatch(env, t, QuestionDropped(t, start));
      HandoffKeeps(t, d.(ran := d.ran || ChangesCart(t)));
    }
    LaterDropsState(t, DraftAfterSend(env, t, o.w, o.draft), o.later);
  }

  // The reply says that something was done or asked for this turn.
  predicate SaysDone(r: Reply) {
    r.OrderSaved? || r.OrderCancelled? || r.PassedToTeam? || r.CancelAllAsked? || r.CancelAllDone?
  }

  // The question to cancel all could not be stored.
  predicate AskFailed(t: Turn, r: Reply) {
    t.plan.intent == CancelIntent && t.plan.cancelAll && r == SystemBusy
  }

  lemma {:induction false} ConfirmRan(env: Env, t: Turn, w: World, st: State, found: Finding)
    ensures var d := AfterFinding(env, t, w, st, found); d.ran <==> SaysDone(d.reply)
  {
  }

  lemma {:induction false} CancelRan(env: Env, t: Turn, w: World)
    requires t.plan.intent == CancelIntent
    ensures var d := ApplyCancel(env, t, w); !d.failed ==> (d.ran <==> SaysDone(d.reply) || AskFailed(t, d.reply))
  {
    TargetIsActive(env, t, w);
    var target := CancelTarget(env, t, w);
    if target != NO_ORDER {
      var d := CancelSingle(env, t, w, target);
      assert !d.failed ==> d.ran && SaysDone(d.reply);
    }
  }

  lemma {:induction false} DispatchRan(env: Env, t: Turn, w: World)
    ensures var d := Dispatch(env, t, w); !d.failed ==> (d.ran <==> SaysDone(d.reply) || AskFailed(t, d.reply))
  {
    match t.plan.intent
    case ConfirmIntent => ConfirmRan(env, t, w, if w.state.Just? then w.state.value else NoState, FindingOf(env, t, w));
    case CancelIntent => CancelRan(env, t, w);
    case _ =>
  }

  lemma {:induction false} HandoffKeepsRan(t: Turn, o: Out)
    ensures ApplyHandoff(t, o).ran == o.ran && ApplyHandoff(t, o).reply == o.reply
  {
  }

  // A turn has done something of its own exactly when it changed the cart, its reply says that an order was
  // saved, cancelled, passed on or asked about, or the question to cancel all could not be stored: only then a
  // takeover becomes a note.
  lemma {:induction false} RanIff(env: Env, t: Turn, w: World)
    ensures var o := ApplyIntent(env, t, w);
            !o.failed ==>
              (o.ran <==>
                 || SaysDone(o.reply)
                 || (!ConfirmsAll(t, w) && t.plan.intent in {OrderIntent, AmendIntent} && t.plan.changed)
                 || (!ConfirmsAll(t, w) && AskFailed(t, o.reply)))
  {
    if ConfirmsAll(t, w) {
      HandoffKeepsRan(t, CancelAllConfirmed(env, t, w, w.pending));
    } else {
      var d := Dispatch(env, t, QuestionDropped(t, w));
      DispatchRan(env, t, QuestionDropped(t, w));
      HandoffKeepsRan(t, d.(ran := d.ran || ChangesCart(t)));
    }
  }

  // ── cancel all ─────────────────────────────────────────────────────────────

  // The orders among the ids that are to be cancelled, in their order.
  function DueIds(env: Env, seen: Db, ids: seq<OrderId>): seq<OrderId> {
    if ids == [] then []
    else
      var rest, id := DueIds(env, seen, ids[..|ids| - 1]), ids[|ids| - 1];
      if FateOf(env, seen, id) == ToCancel then rest + [id] else rest
  }

  // The calls were made in order, each after the one before it was answered; the one that failed is the last.
  ghost predicate CalledInOrder(t: Turn, due: seq<OrderId>, called: seq<OrderId>, failed: bool) {
    && called <= due
    && (if failed then called != [] && t.replies.cancel(called[|called| - 1]) != Ok else called == due)
    && forall k :: 0 <= k < |called| - (if failed then 1 else 0) ==> t.replies.cancel(called[k]) == Ok
  }

  lemma {:induction false} OneMoreDue(env: Env, seen: Db, ids: seq<OrderId>, id: OrderId)
    ensures DueIds(env, seen, ids + [id]) ==
            if FateOf(env, seen, id) == ToCancel then DueIds(env, seen, ids) + [id] else DueIds(env, seen, ids)
  {
    assert (ids + [id])[..|ids|] == ids;
  }

  lemma {:induction false} StoppedBefore(t: Turn, due: seq<OrderId>, called: seq<OrderId>, more: seq<OrderId>)
    requires CalledInOrder(t, due, called, true)
    ensures CalledInOrder(t, due + more, called, true)
  {
  }

  lemma {:induction false} OneMoreAnswered(t: Turn, due: seq<OrderId>, id: OrderId)
    requires CalledInOrder(t, due, due, false)
    ensures CalledInOrder(t, due + [id], due + [id], t.replies.cancel(id) != Ok)
  {
  }

  // Where one step of the loop ends: its call, if it makes one, and whether it failed.
  lemma {:induction false} OneCancelCalls(env: Env, t: Turn, seen: Db, y: Tally, id: OrderId)
    requires !y.failed
    ensures var y' := CancelOne(env, t, seen, y, id); var due := FateOf(env, seen, id) == ToCancel;
            && Cancels(y'.w.calls) == (if due then Cancels(y.w.calls) + [id] else Cancels(y.w.calls))
            && (y'.failed <==> due && t.replies.cancel(id) != Ok)
  {
    CancelsSnoc(y.w.calls, CancelOrder(id));
  }

  lemma {:induction false} CalledOneMore(env: Env, t: Turn, seen: Db, ids: seq<OrderId>, y: Tally, id: OrderId)
    requires CalledInOrder(t, DueIds(env, seen, ids), Cancels(y.w.calls), y.failed)
    ensures var y' := if y.failed then y else CancelOne(env, t, seen, y, id);
            CalledInOrder(t, DueIds(env, seen, ids + [id]), Cancels(y'.w.calls), y'.failed)
  {
    var due, called := DueIds(env, seen, ids), Cancels(y.w.calls);
    OneMoreDue(env, seen, ids, id);
    if y.failed {
      StoppedBefore(t, due, called, [id]);
    } else {
      OneCancelCalls(env, t, seen, y, id);
      OneMoreAnswered(t, due, id);
    }
  }

  // A confirmed cancel-all cancels one order after the other and stops at the first failure: nothing is called
  // after it, and the job retries.
  lemma {:induction false} CancelAllStops(env: Env, t: Turn, ids: seq<OrderId>, w: World)
    requires w.calls == []
    ensures var y := CancelEach(env, t, w.db, ids, w);
            CalledInOrder(t, DueIds(env, w.db, ids), Cancels(y.w.calls), y.failed)
  {
    if ids == [] {
      assert Cancels([]) == [];
    } else {
      var n := |ids| - 1;
      assert ids[..n] + [ids[n]] == ids;
      CancelAllStops(env, t, ids[..n], w);
      CalledOneMore(env, t, w.db, ids[..n], CancelEach(env, t, w.db, ids[..n], w), ids[n]);
    }
  }

  // The live checkout is of an order this turn cancels.
  predicate CartIsCancelled(env: Env, w: World, ids: seq<OrderId>) {
    w.state.Just? && w.state.value.pinned in ids && FateOf(env, w.db, w.state.value.pinned) == ToCancel
  }

  lemma {:induction false} CancelEachDrops(env: Env, t: Turn, ids: seq<OrderId>, w: World)
    ensures var y := CancelEach(env, t, w.db, ids, w);
            y.w.state == w.state && (!y.failed ==> (y.dropCart <==> CartIsCancelled(env, w, ids)))
  {
    if ids != [] {
      CancelEachDrops(env, t, ids[..|ids| - 1], w);
      assert ids == ids[..|ids| - 1] + [ids[|ids| - 1]];
    }
  }

  lemma {:induction false} CancelAllNow(env: Env, t: Turn, w: World)
    requires !CancelAllConfirmed(env, t, w, w.pending).failed
    ensures var d := CancelAllConfirmed(env, t, w, w.pending);
            && d.draft.Nothing? && d.later == [DropPending]
            && d.w.state == (if CartIsCancelled(env, w, w.pending) then Nothing else w.state)
            && (NamedPaid(env, w.db, w.pending) != [] ==> TellOwner in d.w.calls)
  {
    CancelEachDrops(env, t, w.pending, w);
    CancelEachDoes(env, t, w.pending, w);
  }

  // A confirmed cancel-all that gets through clears the live checkout exactly when its order is one it cancels,
  // and the owner is told of the paid orders.
  lemma {:induction false} CancelAllEnds(env: Env, t: Turn, w: World)
    requires ConfirmsAll(t, w) && !ApplyIntent(env, t, w.(calls := [])).failed
    ensures var w' := RunTurn(env, t, w);
            && w'.state == (if CartIsCancelled(env, w, w.pending) then Nothing else w.state)
            && (NamedPaid(env, w.db, w.pending) != [] ==> TellOwner in w'.calls)
  {
    var start := w.(calls := []);
    var d, o := CancelAllConfirmed(env, t, start, w.pending), ApplyIntent(env, t, start);
    HandoffAddsSteps(t, d);
    CancelAllNow(env, t, start);
    HandoffKeeps(t, d);
    LaterDropsState(t, o.w, o.later);
    LaterAddsCalls(t, o.w, o.later);
  }

  // ── turns that touch nothing ───────────────────────────────────────────────

  // A question, small talk or a call for a person leaves orders and checkout alone; "new order" clears the
  // checkout and leaves the orders alone.
  lemma {:induction false} OtherTurnsEnd(env: Env, t: Turn, w: World)
    requires !ConfirmsAll(t, w)
    requires t.plan.intent == OtherIntent || t.plan.intent == HumanRequest || t.plan.intent == NewOrder
    ensures var w' := RunTurn(env, t, w);
            && w'.db == w.db && Cancels(w'.calls) == []
            && w'.state == if t.plan.intent == NewOrder then Nothing else w.state
  {
    var start := QuestionDropped(t, w.(calls := []));
    OrdinaryTurn(env, t, w, Dispatch(env, t, start));
    assert Cancels([]) == [];
  }
}
