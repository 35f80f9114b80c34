/**
  What the buyer means is what happens: the order a cancel or a continue is about is the one that is cancelled,
  passed to the team, or brought back (ai/llm_first_effects.go).
 */
module LlmFirstMeant {
  import opened Writes
  import opened Text
  import opened Checkout
  import opened OrderStore
  import opened OrderSaved
  import opened LlmFirst
  import opened LlmFirstConsent
  import opened LlmFirstRows
  import opened LlmFirstServed

  // ── orders by number ───────────────────────────────────────────────────────

  predicate HasRef(env: Env, ref: string, id: OrderId) {
    ref <= env.number(id)
  }

  // No newer order of the list has this number.
  ghost predicate NewestWithRef(env: Env, ids: seq<OrderId>, ref: string, id: OrderId) {
    id in ids && HasRef(env, ref, id) && forall a :: a in ids && HasRef(env, ref, a) ==> a <= id
  }

  lemma {:induction false} FindsTheNewest(env: Env, ids: seq<OrderId>, ref: string, id: OrderId)
    requires NewestFirst(ids) && NewestWithRef(env, ids, ref, id)
    ensures FindByRef(env, ids, ref) == id
  {
    if ids[0] != id {
      var i :| 0 <= i < |ids| && ids[i] == id;
      assert ids[0] > ids[i];
      assert !HasRef(env, ref, ids[0]);
      assert ids[1..][i - 1] == id;
      FindsTheNewest(env, ids[1..], ref, id);
    }
  }

  lemma {:induction false} FindsNone(env: Env, ids: seq<OrderId>, ref: string)
    requires forall a :: a in ids ==> !HasRef(env, ref, a)
    ensures FindByRef(env, ids, ref) == NO_ORDER
  {
    if ids != [] {
      assert !HasRef(env, ref, ids[0]);
      FindsNone(env, ids[1..], ref);
    }
  }

  // The newest of the buyer's active orders with this number.
  ghost predicate NewestActive(env: Env, db: Db, ref: string, id: OrderId) {
    && Active(db, env.scope, id) && HasRef(env, ref, id)
    && forall a: OrderId :: Active(db, env.scope, a) && HasRef(env, ref, a) ==> a <= id
  }

  lemma {:induction false} FindsTheActive(env: Env, db: Db, ref: string, id: OrderId)
    requires NewestActive(env, db, ref, id)
    ensures FindByRef(env, ActiveIds(db, env.scope), ref) == id
  {
    var ids := ActiveIds(db, env.scope);
    forall a: OrderId ensures a in ids <==> Active(db, env.scope, a) {
      ActiveIdsAreTheActive(db, env.scope, a);
    }
    ActiveIdsNewestFirst(db, env.scope);
    FindsTheNewest(env, ids, ref, id);
  }

  // ── the unfinished orders ──────────────────────────────────────────────────

  lemma {:induction false} UnfinishedNewestFirst(db: Db, scope: Scope, n: nat)
    requires n <= |db|
    ensures NewestFirst(UnfinishedBelow(db, scope, n))
  {
    if n > 0 {
      UnfinishedNewestFirst(db, scope, n - 1);
      var rest := UnfinishedBelow(db, scope, n - 1);
      forall k | 0 <= k < |rest| ensures rest[k] < n {
        UnfinishedBelowAreWaiting(db, scope, n - 1, rest[k]);
      }
    }
  }

  // An order of the buyer that is neither cancelled, shipped nor completed.
  predicate IsUnfinished(db: Db, scope: Scope, id: OrderId) {
    1 <= id <= |db| && IsTheBuyers(db[id - 1], scope) && db[id - 1].status !in {Cancelled, Shipped, Completed}
  }

  // The orders the prompt lists: the ten newest of the unfinished ones, newest first.
  lemma {:induction false} OpenIdsAreTheNewest(db: Db, scope: Scope)
    ensures var open, all := OpenIds(db, scope), UnfinishedIds(db, scope);
            && NewestFirst(open) && open <= all && (open == all || |open| == MAX_LISTED)
            && (forall id :: id in all <==> IsUnfinished(db, scope, id))
  {
    UnfinishedNewestFirst(db, scope, |db|);
    forall id: OrderId ensures id in UnfinishedIds(db, scope) <==> IsUnfinished(db, scope, id) {
      UnfinishedBelowAreWaiting(db, scope, |db|, id);
    }
  }

  // The only unfinished order of the buyer.
  ghost predicate OnlyWaiting(db: Db, scope: Scope, id: OrderId) {
    Waiting(db, scope, id) && forall a: OrderId :: Waiting(db, scope, a) ==> a == id
  }

  lemma {:induction false} OnlyOneBelow(db: Db, scope: Scope, id: OrderId, n: nat)
    requires OnlyWaiting(db, scope, id) && n <= |db|
    ensures UnfinishedBelow(db, scope, n) == if id <= n then [id] else []
  {
    if n > 0 {
      OnlyOneBelow(db, scope, id, n - 1);
      assert Waiting(db, scope, n) <==> n == id;
    }
  }

  // ── a single cancel ────────────────────────────────────────────────────────

  // The turn cancels one order, and answers no question.
  predicate CancelsOne(env: Env, t: Turn, w: World) {
    && t.plan.intent == CancelIntent && !ConfirmsAll(t, w)
    && (!t.plan.cancelAll || t.ref != "" || |UnfinishedIds(w.db, env.scope)| < 2)
  }

  // The live checkout is pinned to one of the buyer's active orders.
  predicate PinnedToAnOrder(env: Env, w: World) {
    w.state.Just? && Active(w.db, env.scope, w.state.value.pinned)
  }

  // The order a cancel is about: the newest one with the number the buyer named; without a number, the one the
  // live checkout is pinned to; without either and with no live cart, the only unfinished one.
  ghost predicate MeantToCancel(env: Env, t: Turn, w: World, id: OrderId) {
    if t.ref != "" then NewestActive(env, w.db, t.ref, id)
    else if PinnedToAnOrder(env, w) then w.state.value.pinned == id
    else CartIn(env, w.state) == [] && OnlyWaiting(w.db, env.scope, id) && NewestActive(env, w.db, env.number(id), id)
  }

  lemma {:induction false} MeantIsTheTarget(env: Env, t: Turn, w: World, id: OrderId)
    requires MeantToCancel(env, t, w, id)
    ensures CancelTarget(env, t, w) == id && Active(w.db, env.scope, id)
  {
    if t.ref != "" {
      FindsTheActive(env, w.db, t.ref, id);
    } else if !PinnedToAnOrder(env, w) {
      OnlyOneBelow(w.db, env.scope, id, |w.db|);
      assert OpenIds(w.db, env.scope) == [id];
      FindsTheActive(env, w.db, env.number(id), id);
    }
  }

  predicate UnpaidDraft(env: Env, db: Db, id: OrderId) {
    && 1 <= id <= |db| && InScope(db[id - 1], env.scope)
    && db[id - 1].status == Draft && db[id - 1].pay != ProofSubmitted && db[id - 1].pay != Verified
  }

  // A live cart of another order.
  predicate OtherCartLives(env: Env, w: World, id: OrderId) {
    w.state.Just? && Cart(env.shop, w.state.value) != [] && w.state.value.pinned != id
  }

  // Row id is cancelled, by one call, and no other row changes; the checkout is cleared unless it has a live
  // cart of another order.
  ghost predicate OneCancelled(env: Env, w: World, w': World, id: OrderId) {
    && 1 <= id <= |w.db| && w'.db == w.db[id - 1 := w.db[id - 1].(status := Cancelled)]
    && Cancels(w'.calls) == [id] && w'.state == if OtherCartLives(env, w, id) then w.state else Nothing
  }

  // Neither table nor checkout changes, and nothing is cancelled.
  ghost predicate NothingDone(w: World, w': World) {
    w'.db == w.db && w'.state == w.state && Cancels(w'.calls) == []
  }

  // ── what follows the effects ───────────────────────────────────────────────

  lemma {:induction false} LaterAddsCalls(t: Turn, w: World, steps: seq<Later>)
    ensures w.calls <= RunAll(t, w, steps).calls
  {
    if steps != [] {
      LaterAddsCalls(t, w, steps[..|steps| - 1]);
    }
  }

  // Effects without a draft to save and without a checkout to drop are what the turn comes to.
  ghost predicate EndsAs(o: Out, w': World) {
    w'.db == o.w.db && w'.state == o.w.state && Cancels(w'.calls) == Cancels(o.w.calls) && o.w.calls <= w'.calls
  }

  lemma {:induction false} TurnEndsAs(env: Env, t: Turn, w: World, o: Out)
    requires o == ApplyIntent(env, t, w.(calls := [])) && o.draft.Nothing? && DropState !in o.later
    ensures EndsAs(o, RunTurn(env, t, w))
  {
    TellingKeepsState(t, o.w, o.later);
    LaterFramed(t, o.w, o.later);
    LaterAddsCalls(t, o.w, o.later);
  }

  lemma {:induction false} HandoffDropsNothing(t: Turn, o: Out)
    requires DropState !in o.later
    ensures DropState !in ApplyHandoff(t, o).later
  {
  }

  // The effects of an ordinary turn whose intent needs nothing after the send.
  lemma {:induction false} OrdinaryTurn(env: Env, t: Turn, w: World, d: Out)
    requires !ConfirmsAll(t, w) && d == Dispatch(env, t, QuestionDropped(t, w.(calls := [])))
    requires d.draft.Nothing? && DropState !in d.later
    ensures EndsAs(d, RunTurn(env, t, w)) && ApplyIntent(env, t, w.(calls := [])).reply == d.reply
    ensures ApplyIntent(env, t, w.(calls := [])).failed == d.failed
  {
    var start := w.(calls := []);
    var o := ApplyIntent(env, t, start);
    EffectsOfIntent(env, t, start);
    HandoffDropsNothing(t, d.(ran := d.ran || ChangesCart(t)));
    TurnEndsAs(env, t, w, o);
  }

  // ── the cancel turn ────────────────────────────────────────────────────────

  lemma {:induction false} CancelNeedsNothingLater(env: Env, t: Turn, w: World)
    ensures ApplyCancel(env, t, w).draft.Nothing? && ApplyCancel(env, t, w).later == []
  {
    TargetIsActive(env, t, w);
    var target := CancelTarget(env, t, w);
    if target != NO_ORDER {
      assert CancelSingle(env, t, w, target).later == [];
    }
  }

  lemma {:induction false} SingleCancel(env: Env, t: Turn, w: World, id: OrderId)
    requires CancelsOne(env, t, w) && MeantToCancel(env, t, w, id)
    ensures Active(w.db, env.scope, id) && ApplyCancel(env, t, w) == CancelSingle(env, t, w, id)
  {
    MeantIsTheTarget(env, t, w, id);
  }

  lemma {:induction false} SameMeaning(env: Env, t: Turn, w: World, w': World, id: OrderId)
    requires w'.db == w.db && w'.state == w.state && MeantToCancel(env, t, w, id)
    ensures MeantToCancel(env, t, w', id)
  {
  }

  lemma {:induction false} CancelTurn(env: Env, t: Turn, w: World, id: OrderId)
    requires CancelsOne(env, t, w) && MeantToCancel(env, t, w, id)
    ensures Active(w.db, env.scope, id)
    ensures var start := QuestionDropped(t, w.(calls := [])); var d := CancelSingle(env, t, start, id);
            && EndsAs(d, RunTurn(env, t, w)) && ApplyIntent(env, t, w.(calls := [])).reply == d.reply
            && ApplyIntent(env, t, w.(calls := [])).failed == d.failed
  {
    var start := QuestionDropped(t, w.(calls := []));
    SameMeaning(env, t, w, start, id);
    SingleCancel(env, t, start, id);
    CancelNeedsNothingLater(env, t, start);
    OrdinaryTurn(env, t, w, ApplyCancel(env, t, start));
  }

  lemma {:induction false} OneCall(c: Call)
    ensures Cancels([c]) == if c.CancelOrder? then [c.id] else []
  {
    assert [c][..0] == [];
    assert Cancels([]) == [];
  }

  lemma {:induction false} DraftIsCancelled(env: Env, t: Turn, w: World, id: OrderId)
    requires w.calls == [] && Active(w.db, env.scope, id) && UnpaidDraft(env, w.db, id) && t.replies.cancel(id) == Ok
    ensures var d := CancelSingle(env, t, w, id);
            OneCancelled(env, w, d.w, id) && d.w.calls == [CancelOrder(id)] && d.reply == OrderCancelled(id)
                && !d.failed
  {
    OneCall(CancelOrder(id));
  }

  // A buyer who means an unpaid draft gets it cancelled: the call is made, the row is cancelled, no other row
  // changes, and the checkout is cleared unless it has a live cart of another order.
  lemma {:induction false} MeantDraftIsCancelled(env: Env, t: Turn, w: World, id: OrderId)
    requires CancelsOne(env, t, w) && MeantToCancel(env, t, w, id) && UnpaidDraft(env, w.db, id)
    requires t.replies.cancel(id) == Ok
    ensures OneCancelled(env, w, RunTurn(env, t, w), id) && CancelOrder(id) in RunTurn(env, t, w).calls
    ensures ApplyIntent(env, t, w.(calls := [])).reply == OrderCancelled(id)
  {
    CancelTurn(env, t, w, id);
    DraftIsCancelled(env, t, QuestionDropped(t, w.(calls := [])), id);
  }

  lemma {:induction false} FailedDraftCancel(env: Env, t: Turn, w: World, id: OrderId)
    requires w.calls == [] && Active(w.db, env.scope, id) && UnpaidDraft(env, w.db, id) && t.replies.cancel(id) != Ok
    ensures var d := CancelSingle(env, t, w, id); d.failed && d.w.state == w.state && d.w.calls == [CancelOrder(id)]
  {
  }

  // A cancellation that fails is an error, which the job retries, with the checkout as it was.
  lemma {:induction false} FailedCancelIsRetried(env: Env, t: Turn, w: World, id: OrderId)
    requires CancelsOne(env, t, w) && MeantToCancel(env, t, w, id) && UnpaidDraft(env, w.db, id)
    requires t.replies.cancel(id) != Ok
    ensures ApplyIntent(env, t, w.(calls := [])).failed && RunTurn(env, t, w).state == w.state
    ensures CancelOrder(id) in RunTurn(env, t, w).calls
  {
    CancelTurn(env, t, w, id);
    FailedDraftCancel(env, t, QuestionDropped(t, w.(calls := [])), id);
  }

  lemma {:induction false} PaidIsPassedOn(env: Env, t: Turn, w: World, id: OrderId)
    requires w.calls == [] && Active(w.db, env.scope, id) && !UnpaidDraft(env, w.db, id)
    ensures var d := CancelSingle(env, t, w, id);
            NothingDone(w, d.w) && d.w.calls == [TellOwner] && d.reply == PassedToTeam(id)
  {
    OneCall(TellOwner);
  }

  // A buyer who means an order that is past the draft, or has a proof, gets the team: nothing is cancelled, and
  // the owner is told.
  lemma {:induction false} MeantPaidOrderGoesToTheTeam(env: Env, t: Turn, w: World, id: OrderId)
    requires CancelsOne(env, t, w) && MeantToCancel(env, t, w, id) && !UnpaidDraft(env, w.db, id)
    ensures NothingDone(w, RunTurn(env, t, w)) && TellOwner in RunTurn(env, t, w).calls
    ensures ApplyIntent(env, t, w.(calls := [])).reply == PassedToTeam(id)
  {
    CancelTurn(env, t, w, id);
    PaidIsPassedOn(env, t, QuestionDropped(t, w.(calls := [])), id);
  }

  // ── a cancel of nothing ────────────────────────────────────────────────────

  // No order is meant: an unknown number; or no number, no pinned order, and a live cart or not exactly one
  // unfinished order.
  ghost predicate NoneMeant(env: Env, t: Turn, w: World) {
    if t.ref != "" then forall a: OrderId :: Active(w.db, env.scope, a) ==> !HasRef(env, t.ref, a)
    else !PinnedToAnOrder(env, w) && (CartIn(env, w.state) != [] || |OpenIds(w.db, env.scope)| != 1)
  }

  // The buyer has to pick: no number, no live cart, and two or more unfinished orders.
  predicate HasToPick(env: Env, t: Turn, w: World) {
    t.ref == "" && CartIn(env, w.state) == [] && |OpenIds(w.db, env.scope)| >= 2
  }

  lemma {:induction false} NoTarget(env: Env, t: Turn, w: World)
    requires NoneMeant(env, t, w)
    ensures CancelTarget(env, t, w) == NO_ORDER
  {
    if t.ref != "" {
      var ids := ActiveIds(w.db, env.scope);
      forall a | a in ids ensures !HasRef(env, t.ref, a) {
        ActiveIdsAreTheActive(w.db, env.scope, a);
      }
      FindsNone(env, ids, t.ref);
    }
  }

  lemma {:induction false} NothingToCancel(env: Env, t: Turn, w: World)
    requires w.calls == [] && CancelsOne(env, t, w) && NoneMeant(env, t, w)
    ensures var d := ApplyCancel(env, t, w);
            && d.w == (if t.ref != "" || HasToPick(env, t, w) then w else w.(state := Nothing))
            && d.reply == (if HasToPick(env, t, w) then PickList else ModelText)
  {
    NoTarget(env, t, w);
  }

  // When no order is meant none is touched: a number nobody has changes nothing at all, two or more orders to
  // choose from are listed, and otherwise only the live cart is dropped.
  lemma {:induction false} NoneMeantNoneCancelled(env: Env, t: Turn, w: World)
    requires CancelsOne(env, t, w) && NoneMeant(env, t, w)
    ensures var w' := RunTurn(env, t, w);
            && w'.db == w.db && Cancels(w'.calls) == []
            && w'.state == if t.ref != "" || HasToPick(env, t, w) then w.state else Nothing
    ensures ApplyIntent(env, t, w.(calls := [])).reply == if HasToPick(env, t, w) then PickList else ModelText
  {
    var start := QuestionDropped(t, w.(calls := []));
    NothingToCancel(env, t, start);
    CancelNeedsNothingLater(env, t, start);
    OrdinaryTurn(env, t, w, ApplyCancel(env, t, start));
    assert Cancels([]) == [];
  }

  // ── cancel all, asked first ────────────────────────────────────────────────

  lemma {:induction false} AskedNow(env: Env, t: Turn, w: World)
    requires t.plan.cancelAll && t.ref == "" && |UnfinishedIds(w.db, env.scope)| >= 2
    ensures ApplyCancel(env, t, w) == AskCancelAll(env, t, w)
  {
  }

  // "Cancel all" with two or more unfinished orders cancels nothing: they are listed, newest first, with the
  // question, or the system is busy when the question could not be stored.
  lemma {:induction false} CancelAllIsAskedFirst(env: Env, t: Turn, w: World)
    requires t.plan.intent == CancelIntent && t.plan.cancelAll && t.ref == "" && !ConfirmsAll(t, w)
    requires |UnfinishedIds(w.db, env.scope)| >= 2
    ensures NothingDone(w, RunTurn(env, t, w))
    ensures ApplyIntent(env, t, w.(calls := [])).reply ==
            if t.replies.ask == Ok then CancelAllAsked(UnfinishedIds(w.db, env.scope)) else SystemBusy
  {
    var start := QuestionDropped(t, w.(calls := []));
    AskedNow(env, t, start);
    OrdinaryTurn(env, t, w, ApplyCancel(env, t, start));
    assert Cancels([]) == [];
  }

  // ── continue ───────────────────────────────────────────────────────────────

  // The order a continue is about, with no live cart: of those listed, the newest one with the number the buyer
  // named; without a number, the newest unpaid one. No newer order's number starts with its own.
  ghost predicate MeantToContinue(env: Env, t: Turn, w: World, id: OrderId) {
    var open := OpenIds(w.db, env.scope);
    && CartIn(env, w.state) == [] && id in open && NewestActive(env, w.db, env.number(id), id)
    && (if t.ref != "" then NewestWithRef(env, open, t.ref, id)
        else UnpaidDraft(env, w.db, id) && forall a :: a in open && UnpaidDraft(env, w.db, a) ==> a <= id)
  }

  lemma {:induction false} FindsTheUnpaid(env: Env, db: Db, ids: seq<OrderId>, id: OrderId)
    requires NewestFirst(ids)
    requires forall k :: 0 <= k < |ids| ==> 1 <= ids[k] <= |db| && InScope(db[ids[k] - 1], env.scope)
    requires id in ids && UnpaidDraft(env, db, id) && forall a :: a in ids && UnpaidDraft(env, db, a) ==> a <= id
    ensures FirstUnpaid(db, ids) == id
  {
    if ids[0] != id {
      var i :| 0 <= i < |ids| && ids[i] == id;
      assert ids[0] > ids[i];
      assert !UnpaidDraft(env, db, ids[0]);
      assert ids[1..][i - 1] == id;
      FindsTheUnpaid(env, db, ids[1..], id);
    }
  }

  lemma {:induction false} MeantIsContinued(env: Env, t: Turn, w: World, id: OrderId)
    requires MeantToContinue(env, t, w, id)
    ensures ContinueTarget(env, t, w) == id && Active(w.db, env.scope, id)
  {
    var open := OpenIds(w.db, env.scope);
    OpenIdsAreWaiting(w.db, env.scope);
    OpenIdsAreTheNewest(w.db, env.scope);
    if t.ref != "" {
      FindsTheNewest(env, open, t.ref, id);
    } else {
      FindsTheUnpaid(env, w.db, open, id);
    }
    FindsTheActive(env, w.db, env.number(id), id);
  }

  predicate NoRecipient(a: Shipping) {
    Trim(a.name) == "" || Trim(a.phone) == ""
  }

  predicate NoAddress(a: Shipping) {
    Trim(a.street) == "" || Trim(a.city) == "" || Trim(a.province) == "" || |a.postal| != 5 || !Digits(a.postal)
  }

  // The row has a line, and a blank recipient or an incomplete address: there is something to continue.
  predicate LeftToCollect(env: Env, o: Order, id: OrderId) {
    Cart(env.shop, StateFromDraft(o, id)) != [] && (NoRecipient(o.ship) || NoAddress(o.ship))
  }

  // The checkout is the row's: its items, its address, its pin, and the step that asks for what is missing.
  ghost predicate BroughtBack(o: Order, id: OrderId, st: State) {
    && st.pinned == id && BringsAddress(o.ship, st.ship)
    && |st.items| == |o.items| && (forall k :: 0 <= k < |o.items| ==> FromItem(o.items[k], st.items[k]))
    && st.step == if NoRecipient(o.ship) then AskRecipient else AskAddressFull
  }

  lemma {:induction false} BroughtField(saved: string, now: string)
    requires Brings(saved, now)
    ensures Trim(now) == "" <==> Trim(saved) == ""
    ensures now == "" <==> Trim(saved) == ""
    ensures |now| == 5 && Digits(now) <==> |saved| == 5 && Digits(saved)
  {
    if |saved| == 5 && Digits(saved) {
      assert !IsSpace(saved[0]) && !IsSpace(saved[4]);
    }
  }

  lemma {:induction false} BroughtAddress(saved: Shipping, now: Shipping)
    requires BringsAddress(saved, now)
    ensures NoRecipient(now) <==> NoRecipient(saved)
    ensures !NoRecipient(saved) ==> (ShippingComplete(now) <==> !NoAddress(saved))
  {
    BroughtField(saved.name, now.name);
    BroughtField(saved.phone, now.phone);
    BroughtField(saved.street, now.street);
    BroughtField(saved.city, now.city);
    BroughtField(saved.province, now.province);
    BroughtField(saved.postal, now.postal);
  }

  lemma {:induction false} RowIsBroughtBack(env: Env, o: Order, id: OrderId)
    ensures var st := StateFromOpenOrder(env.shop, o, id);
            if LeftToCollect(env, o, id) then st.Just? && BroughtBack(o, id, st.value) else st.Nothing?
  {
    RebuiltFromTheRow(o, id);
    BroughtAddress(o.ship, StateFromDraft(o, id).ship);
  }

  // The checkout is brought back from the row if there is something left to collect, and stays as it is if not;
  // no row changes.
  ghost predicate Continued(env: Env, w: World, w': World, id: OrderId) {
    && 1 <= id <= |w.db| && w'.db == w.db
    && if LeftToCollect(env, w.db[id - 1], id) then w'.state.Just? && BroughtBack(w.db[id - 1], id, w'.state.value)
       else w'.state == w.state
  }

  lemma {:induction false} ContinueNow(env: Env, t: Turn, w: World, id: OrderId, d: Out)
    requires MeantToContinue(env, t, w, id) && d == ApplyContinue(env, t, w)
    ensures Continued(env, w, d.w, id) && d.w.calls == w.calls && d.draft.Nothing? && d.later == []
    ensures d.reply == if LeftToCollect(env, w.db[id - 1], id) then Resumed(id) else ModelText
  {
    MeantIsContinued(env, t, w, id);
    RowIsBroughtBack(env, w.db[id - 1], id);
  }

  lemma {:induction false} SameContinue(env: Env, t: Turn, w: World, w': World, id: OrderId)
    requires w'.db == w.db && w'.state == w.state && MeantToContinue(env, t, w, id)
    ensures MeantToContinue(env, t, w', id)
  {
  }

  lemma {:induction false} SameContinued(env: Env, start: World, w: World, dw: World, w': World, id: OrderId)
    requires start.db == w.db && start.state == w.state && w'.db == dw.db && w'.state == dw.state
    requires Continued(env, start, dw, id)
    ensures Continued(env, w, w', id)
  {
  }

  // A buyer who means a saved draft gets it back as the live checkout, items and address, asking for what it
  // lacks; one with nothing left to collect leaves everything as it is. No row changes.
  lemma {:induction false} MeantDraftIsContinued(env: Env, t: Turn, w: World, id: OrderId)
    requires t.plan.intent == ContinueOrder && !ConfirmsAll(t, w) && MeantToContinue(env, t, w, id)
    ensures Continued(env, w, RunTurn(env, t, w), id) && Cancels(RunTurn(env, t, w).calls) == []
  {
    var start := QuestionDropped(t, w.(calls := []));
    var d := ApplyContinue(env, t, start);
    SameContinue(env, t, w, start, id);
    ContinueNow(env, t, start, id, d);
    ContinueDispatch(env, t, start, d);
    OrdinaryTurn(env, t, w, d);
    SameContinued(env, start, w, d.w, RunTurn(env, t, w), id);
    assert Cancels([]) == [];
  }

  lemma {:induction false} ContinueDispatch(env: Env, t: Turn, w: World, d: Out)
    requires t.plan.intent == ContinueOrder && d == ApplyContinue(env, t, w)
    ensures Dispatch(env, t, w) == d
  {
  }
}
