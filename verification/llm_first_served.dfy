/**
  What a turn of the LLM-first pipeline does for the buyer when nothing fails: the cart is stored and
  saved, an approved order is saved, the order that is named is the one that is cancelled or continued,
  and a person is called exactly when one is needed.
 */
module LlmFirstServed {
  import opened Writes
  import opened Text
  import opened Checkout
  import opened OrderStore
  import opened LlmFirst
  import opened LlmFirstQuestion
  import opened LlmFirstConsent
  import opened LlmFirstRows
  import opened LlmFirstRetry

  // ── the cart ───────────────────────────────────────────────────────────────

  lemma {:induction false} CartIsStored(env: Env, t: Turn, w: World)
    requires t.plan.cart != [] && forall k :: 0 <= k < |t.plan.cart| ==> IsCartLine(env.shop, t.plan.cart[k])
    ensures var before := if w.state.Just? then w.state.value else NoState; var st := CartWritten(env, t, w);
            && AllReadBack(env.shop, KnownLines(before), t.plan.cart, Cart(env.shop, st))
            && st.pinned == before.pinned && st.ship == before.ship
  {
    var before := if w.state.Just? then w.state.value else NoState;
    var next := WithCart(env.shop, before, t.plan.cart, t.catalog);
    CartRoundTrip(env.shop, before, t.plan.cart, t.catalog);
    CartIsOfTheLines(env.shop, next, CartWritten(env, t, w));
  }

  // A cart change is stored: the checkout reads back as the cart of the plan, with the recipient and
  // the draft it had; a cart that has become empty clears the checkout.
  lemma {:induction false} CartTurnStoresTheCart(env: Env, t: Turn, w: World)
    requires ChangesCart(t) && forall k :: 0 <= k < |t.plan.cart| ==> IsCartLine(env.shop, t.plan.cart[k])
    ensures var before := if w.state.Just? then w.state.value else NoState; var st := ApplyIntent(env, t, w).w.state;
            if t.plan.cart == [] then st == Nothing
            else && st.Just? && AllReadBack(env.shop, KnownLines(before), t.plan.cart, Cart(env.shop, st.value))
                 && st.value.pinned == before.pinned && st.value.ship == before.ship
  {
    EffectsOfIntent(env, t, w);
    if t.plan.cart != [] {
      CartIsStored(env, t, QuestionDropped(t, w));
      assert ApplyIntent(env, t, w).w.state == Just(CartWritten(env, t, QuestionDropped(t, w)));
    }
  }

  // The checkout is pinned to a draft of this buyer that rebuilds to the same cart.
  ghost predicate BackedBy(env: Env, db: Db, st: State) {
    HoldsOrder(env, db, st.pinned, Cart(env.shop, st))
  }

  ghost predicate Backed(env: Env, w: World) {
    w.state.Just? && BackedBy(env, w.db, w.state.value)
  }

  lemma {:induction false} SavedIsBacked(env: Env, w: World, st: State, outcome: Outcome)
    requires outcome.Saved? && HoldsOrder(env, w.db, outcome.id, Cart(env.shop, st))
    requires w.state.Just? && w.state.value == st.(pinned := w.state.value.pinned, forceNew := w.state.value.forceNew)
    requires st.forceNew || w.state.value.pinned == st.pinned
    ensures Backed(env, DraftSaved(w, st, outcome))
  {
    var force := if outcome.id == st.pinned && !st.forceNew then w.state.value.forceNew else false;
    var st' := st.(pinned := outcome.id, forceNew := force);
    CartIsOfTheLines(env.shop, st, st.(pinned := outcome.id, forceNew := force));
    assert BackedBy(env, w.db, st');
    assert DraftSaved(w, st, outcome) == w.(state := Just(st'));
  }

  function FirstDraft(env: Env, t: Turn, db: Db, st: State): SaveResult {
    SaveEarly(env.shop, db, env.scope, st.(forceNew := st.pinned == NO_ORDER), t.replies.first)
  }

  // The early draft goes through: at the first attempt, or at the second one as a new draft, after the pinned
  // one turned out to be gone.
  ghost predicate DraftGoesThrough(env: Env, t: Turn, db: Db, st: State) {
    var one, two := FirstDraft(env, t, db, st), st.(pinned := NO_ORDER, forceNew := true);
    || one.outcome.Saved?
    || (one.outcome.NeedPick? && st.pinned != NO_ORDER
        && SaveEarly(env.shop, one.db, env.scope, two, t.replies.second).outcome.Saved?)
  }

  // One save of a cart, in either attempt.
  lemma {:induction false} SaveIsBacked(env: Env, w: World, st: State, a: Answers)
    requires w.state.Just? && w.state.value == st.(pinned := w.state.value.pinned, forceNew := w.state.value.forceNew)
    requires st.forceNew || w.state.value.pinned == st.pinned
    requires SaveEarly(env.shop, w.db, env.scope, st, a).outcome.Saved?
    ensures var r := SaveEarly(env.shop, w.db, env.scope, st, a);
            forall calls :: Backed(env, DraftSaved(w.(db := r.db, calls := calls), st, r.outcome))
  {
    var r := SaveEarly(env.shop, w.db, env.scope, st, a);
    ParkAndContinue(env.shop, w.db, env.scope, st, a);
    forall calls ensures Backed(env, DraftSaved(w.(db := r.db, calls := calls), st, r.outcome)) {
      SavedIsBacked(env, w.(db := r.db, calls := calls), st, r.outcome);
    }
  }

  lemma {:induction false} DraftIsBacked(env: Env, t: Turn, w: World, st: State)
    requires w.state == Just(st) && DraftGoesThrough(env, t, w.db, st)
    ensures Backed(env, SaveDraftNow(env, t, w, st))
  {
    var one := st.(forceNew := st.pinned == NO_ORDER);
    var r := SaveEarly(env.shop, w.db, env.scope, one, t.replies.first);
    if r.outcome.Saved? {
      SaveIsBacked(env, w, one, t.replies.first);
    } else {
      var two := st.(pinned := NO_ORDER, forceNew := true);
      SaveIsBacked(env, w.(db := r.db), two, t.replies.second);
      SecondAttempt(env, t, w, st, r);
    }
  }

  lemma {:induction false} SecondAttempt(env: Env, t: Turn, w: World, st: State, r: SaveResult)
    requires r == FirstDraft(env, t, w.db, st) && r.outcome.NeedPick? && st.pinned != NO_ORDER
    ensures var two := st.(pinned := NO_ORDER, forceNew := true);
            var r' := SaveEarly(env.shop, r.db, env.scope, two, t.replies.second);
            exists calls :: SaveDraftNow(env, t, w, st) == DraftSaved(w.(db := r'.db, calls := calls), two, r'.outcome)
  {
    var two := st.(pinned := NO_ORDER, forceNew := true);
    var r' := SaveEarly(env.shop, r.db, env.scope, two, t.replies.second);
    var calls := w.calls + [SaveDraft(st.(forceNew := false))] + [SaveDraft(two)];
    assert SaveDraftNow(env, t, w, st) == DraftSaved(w.(db := r'.db, calls := calls), two, r'.outcome);
  }

  lemma {:induction false} StaysBacked(env: Env, w: World, w': World)
    requires Backed(env, w) && w'.db == w.db && w'.state == w.state
    ensures Backed(env, w')
  {
  }

  lemma {:induction false} AfterTheSend(env: Env, t: Turn, w: World, st: State, later: seq<Later>)
    requires w.state == Just(st) && DraftGoesThrough(env, t, w.db, st) && DropState !in later
    ensures Backed(env, RunAll(t, DraftAfterSend(env, t, w, Just(st)), later))
  {
    var drafted := DraftAfterSend(env, t, w, Just(st));
    DraftIsBacked(env, t, w, st);
    TellingKeepsState(t, drafted, later);
    StaysBacked(env, drafted, RunAll(t, drafted, later));
  }

  // When the reply of a cart change has gone out and either attempt saved its draft, the checkout is pinned to
  // that draft, and the draft rebuilds to the same cart: nothing of the cart is only in Redis.
  lemma {:induction false} CartTurnSavesTheCart(env: Env, t: Turn, w: World)
    requires ChangesCart(t) && t.replies.sent
    ensures var draft := ApplyIntent(env, t, w.(calls := [])).draft;
            draft.Just? && DraftGoesThrough(env, t, w.db, draft.value) ==> Backed(env, RunTurn(env, t, w))
  {
    var start := w.(calls := []);
    var o := ApplyIntent(env, t, start);
    CartTurnEffects(env, t, start);
    if o.draft.Just? && DraftGoesThrough(env, t, w.db, o.draft.value) {
      AfterTheSend(env, t, o.w, o.draft.value, o.later);
    }
  }

  lemma {:induction false} CartTurnEffects(env: Env, t: Turn, w: World)
    requires ChangesCart(t)
    ensures var o := ApplyIntent(env, t, w);
            && !o.failed && DropState !in o.later
            && (o.draft.Just? ==> o.w.state == o.draft && o.w.db == w.db)
  {
    EffectsOfIntent(env, t, w);
    CartTurnOnlyTells(env, t, w);
    CartFramed(env, t, QuestionDropped(t, w));
  }

  lemma {:induction false} CartTurnOnlyTells(env: Env, t: Turn, w: World)
    requires ChangesCart(t)
    ensures DropState !in ApplyIntent(env, t, w).later
  {
  }

  lemma {:induction false} TellingKeepsState(t: Turn, w: World, steps: seq<Later>)
    requires DropState !in steps
    ensures RunAll(t, w, steps).state == w.state && RunAll(t, w, steps).db == w.db
  {
    if steps != [] {
      TellingKeepsState(t, w, steps[..|steps| - 1]);
    }
  }

  // ── an approved order ──────────────────────────────────────────────────────

  // Nothing fails and the stock guard rejects nothing.
  ghost predicate Works(a: Answers) {
    a.lookup && a.list && a.update == Ok && a.insert == Ok && forall l: Line :: !a.stock(l).Reject?
  }

  // What the save itself asks of a state, beyond the confirm step: every stored line, also one the cart
  // leaves out for its quantity, names a product and has a quantity and its variant.
  predicate Savable(shop: Shop, st: State) {
    LinesReady(shop, DraftLines(shop, st)) && Trim(st.ship.name) != "" && Trim(st.ship.phone) != ""
  }

  lemma {:induction false} AllLinesPlaced(a: Answers, lines: seq<Line>)
    requires Works(a)
    ensures AllPlaced(a.stock, lines).Just?
  {
    if lines != [] {
      AllLinesPlaced(a, lines[..|lines| - 1]);
    }
  }

  lemma {:induction false} WorkingWrite(db: Db, scope: Scope, pin: OrderId, force: bool, items: seq<Item>,
                                        ship: Shipping, a: Answers)
    requires Works(a)
    ensures var outcome := Write(db, scope, pin, force, items, Just(ship), ship, a).1;
            outcome.Saved? || (outcome.NeedPick? && !force)
  {
  }

  lemma {:induction false} WorkingSave(shop: Shop, db: Db, scope: Scope, st: State, a: Answers)
    requires Works(a) && ShippingComplete(st.ship)
    ensures var outcome := Save(shop, db, scope, st, a).outcome;
            if Savable(shop, st) then outcome.Saved? || (outcome.NeedPick? && !st.forceNew) else outcome == Failed
  {
    AllLinesPlaced(a, DraftLines(shop, st));
    if Savable(shop, st) {
      WorkingWrite(db, scope, st.pinned, st.forceNew,
                   ItemsOf(shop, AllPlaced(a.stock, DraftLines(shop, st)).value, FreeText(st)), Addressed(st.ship), a);
    }
  }

  lemma {:induction false} MovedLinesReady(shop: Shop, lines: seq<Line>, placed: seq<Line>)
    requires LinesReady(shop, lines) && SameButWarehouse(lines, placed)
    ensures LinesReady(shop, placed)
  {
    if lines != [] {
      var n, m := |lines| - 1, |placed| - 1;
      assert LineReady(shop, lines[n]);
      MovedLinesReady(shop, lines[..n], placed[..m]);
      forall k | 0 <= k < |placed| ensures LineReady(shop, placed[k]) {
        assert k < m ==> placed[..m][k] == placed[k];
        assert k == m ==> MovedLine(lines[n], placed[m]);
      }
    }
  }

  lemma {:induction false} PlacedIsSavable(shop: Shop, db: Db, scope: Scope, st: State, one: State, a: Answers)
    requires Savable(shop, st) && one == st.(forceNew := one.forceNew)
    ensures Savable(shop, PlacedAs(st, Save(shop, db, scope, one, a)))
  {
    var r := Save(shop, db, scope, one, a);
    if st.items != [] && r.lines != [] {
      PlacingKeepsTheLines(shop, a.stock, st.items);
      MovedLinesReady(shop, st.items, r.lines);
    }
  }

  lemma {:induction false} SavableIgnoresPin(shop: Shop, st: State, pin: OrderId, force: bool)
    ensures Savable(shop, st.(pinned := pin, forceNew := force)) == Savable(shop, st)
  {
  }

  lemma {:induction false} WorkingSaveAgain(env: Env, t: Turn, w: World, st: State)
    requires Works(t.replies.second) && ShippingComplete(st.ship) && Savable(env.shop, st)
    ensures SaveAgain(env, t, w, st).2.Saved?
  {
    SavableIgnoresPin(env.shop, st, NO_ORDER, true);
    WorkingSave(env.shop, w.db, env.scope, st.(pinned := NO_ORDER, forceNew := true), t.replies.second);
  }

  lemma {:induction false} SavedWhenSavable(env: Env, t: Turn, w: World, st: State)
    requires Works(t.replies.first) && Works(t.replies.second) && ShippingComplete(st.ship)
    ensures PersistOrder(env, t, w, st).2.Saved? <==> Savable(env.shop, st)
  {
    var one := st.(forceNew := st.pinned == NO_ORDER);
    var r := Save(env.shop, w.db, env.scope, one, t.replies.first);
    SavableIgnoresPin(env.shop, st, st.pinned, one.forceNew);
    WorkingSave(env.shop, w.db, env.scope, one, t.replies.first);
    if Savable(env.shop, st) {
      PlacedIsSavable(env.shop, w.db, env.scope, st, one, t.replies.first);
      WorkingSaveAgain(env, t, w.(db := r.db, calls := w.calls + [SaveOrder(one)]), PlacedAs(st, r));
    }
  }

  lemma {:induction false} ReplyOfApproval(env: Env, t: Turn, w: World, st: State)
    ensures AfterFinding(env, t, w, st, Approval).reply ==
            var outcome := PersistOrder(env, t, w, st).2; if outcome.Saved? then OrderSaved(outcome.id) else SystemBusy
  {
  }

  // When nothing fails, the turn of an approved order reports it as saved exactly when every stored line is
  // ready and the recipient is not blank; otherwise the buyer who approved is told the system is busy.
  lemma {:induction false} ApprovedOrderIsSaved(env: Env, t: Turn, w: World)
    requires Works(t.replies.first) && Works(t.replies.second) && FindingOf(env, t, w) == Approval
    ensures ApplyConfirm(env, t, w).reply.OrderSaved? <==> Savable(env.shop, w.state.value)
    ensures !ApplyConfirm(env, t, w).reply.OrderSaved? ==> ApplyConfirm(env, t, w).reply == SystemBusy
  {
    SavedWhenSavable(env, t, w, w.state.value);
    ReplyOfApproval(env, t, w, w.state.value);
  }

  // ── the order that is meant ────────────────────────────────────────────────

  lemma {:induction false} FoundHasTheNumber(env: Env, ids: seq<OrderId>, ref: string)
    ensures FindByRef(env, ids, ref) != NO_ORDER ==> ref <= env.number(FindByRef(env, ids, ref))
  {
    if ids != [] {
      FoundHasTheNumber(env, ids[1..], ref);
    }
  }

  // Why a single cancellation is about this order: the buyer named it, it is the draft of the live
  // checkout, or there is no live cart and it is the only unfinished order.
  ghost predicate Meant(env: Env, t: Turn, w: World, id: OrderId) {
    if t.ref != "" then t.ref <= env.number(id)
    else
      || (w.state.Just? && w.state.value.pinned == id)
      || (CartIn(env, w.state) == [] && OpenIds(w.db, env.scope) == [id])
  }

  lemma {:induction false} TheOnlyOne(db: Db, scope: Scope, id: OrderId)
    requires Waiting(db, scope, id) && |OpenIds(db, scope)| == 1
    ensures OpenIds(db, scope) == [id]
  {
    UnfinishedBelowAreWaiting(db, scope, |db|, id);
    assert OpenIds(db, scope) == UnfinishedIds(db, scope);
  }

  lemma {:induction false} TargetIsMeant(env: Env, t: Turn, w: World)
    ensures Waiting(w.db, env.scope, CancelTarget(env, t, w)) ==> Meant(env, t, w, CancelTarget(env, t, w))
  {
    var active, open := ActiveIds(w.db, env.scope), OpenIds(w.db, env.scope);
    var target := CancelTarget(env, t, w);
    FoundHasTheNumber(env, active, t.ref);
    if |open| == 1 && Waiting(w.db, env.scope, target) {
      TheOnlyOne(w.db, env.scope, target);
    }
  }

  // A cancellation is never guessed: a turn that does not answer a "cancel all?" question cancels only
  // the order that is meant, and none when the buyer names an unknown number.
  lemma {:induction false} CancelIsNeverGuessed(env: Env, t: Turn, w: World, id: OrderId)
    requires !ConfirmsAll(t, w)
    ensures CancelOrder(id) in ApplyIntent(env, t, w.(calls := [])).w.calls ==>
              t.plan.intent == CancelIntent && Meant(env, t, w, id)
  {
    var start := QuestionDropped(t, w.(calls := []));
    EffectsOfIntent(env, t, w.(calls := []));
    TargetIsMeant(env, t, start);
    OnlyCancelTurnsCancel(env, t, start, id);
  }

  lemma {:induction false} OnlyCancelTurnsCancel(env: Env, t: Turn, w: World, id: OrderId)
    requires w.calls == []
    ensures CancelOrder(id) in Dispatch(env, t, w).w.calls ==>
              t.plan.intent == CancelIntent && id == CancelTarget(env, t, w) && Waiting(w.db, env.scope, id)
  {
    match t.plan.intent
    case ConfirmIntent =>
      var st := if w.state.Just? then w.state.value else NoState;
      ConfirmCancelsNothing(env, t, w, st, FindingOf(env, t, w), id);
    case CancelIntent => TargetIsActive(env, t, w);
    case _ =>
  }

  lemma {:induction false} SavesCancelNothing(shop: Shop, st: State, calls: seq<Call>, id: OrderId)
    requires SavesOf(shop, st, calls)
    ensures CancelOrder(id) !in calls
  {
  }

  lemma {:induction false} ApprovalCancelsNothing(env: Env, t: Turn, w: World, st: State, id: OrderId)
    requires w.calls == []
    ensures CancelOrder(id) !in SaveApproved(env, t, w, st).w.calls
  {
    PersistCalls(env, t, w, st);
    ApprovedCallsAreTheSaves(env, t, w, st);
    SavesCancelNothing(env.shop, st, PersistOrder(env, t, w, st).0.calls, id);
  }

  lemma {:induction false} ConfirmCancelsNothing(env: Env, t: Turn, w: World, st: State, found: Finding, id: OrderId)
    requires w.calls == []
    ensures CancelOrder(id) !in AfterFinding(env, t, w, st, found).w.calls
  {
    if found == Approval {
      ApprovalCancelsNothing(env, t, w, st, id);
    } else {
      OtherFindingCalls(env, t, w, st, found);
    }
  }

  // A continue brings back the order the buyer named, if one was named.
  lemma {:induction false} ContinueIsMeant(env: Env, t: Turn, w: World)
    requires t.ref != "" && ContinueTarget(env, t, w) != NO_ORDER
    ensures t.ref <= env.number(ContinueTarget(env, t, w))
  {
    OpenIdsAreWaiting(w.db, env.scope);
    var open := OpenIds(w.db, env.scope);
    var picked := FindByRef(env, open, t.ref);
    FoundHasTheNumber(env, open, t.ref);
    FoundHasTheNumber(env, ActiveIds(w.db, env.scope), env.number(picked));
  }

  // ── a person is called ─────────────────────────────────────────────────────

  lemma {:induction false} LaterPauses(t: Turn, w: World, steps: seq<Later>)
    ensures RunAll(t, w, steps).paused <==> w.paused || (t.replies.paused && PauseLater in steps)
  {
    if steps != [] {
      LaterPauses(t, w, steps[..|steps| - 1]);
      assert steps == steps[..|steps| - 1] + [steps[|steps| - 1]];
    }
  }

  lemma {:induction false} CancelEachPauses(env: Env, t: Turn, seen: Db, ids: seq<OrderId>, w: World)
    ensures CancelEach(env, t, seen, ids, w).w.paused == w.paused
  {
    if ids != [] {
      CancelEachPauses(env, t, seen, ids[..|ids| - 1], w);
    }
  }

  // The effects of a turn neither pause the AI nor queue a pause.
  ghost predicate NoPause(w: World, o: Out) {
    o.w.paused == w.paused && PauseLater !in o.later
  }

  lemma {:induction false} ConfirmDoesNotPause(env: Env, t: Turn, w: World, st: State, found: Finding)
    ensures NoPause(w, AfterFinding(env, t, w, st, found))
  {
  }

  lemma {:induction false} CancelDoesNotPause(env: Env, t: Turn, w: World)
    ensures NoPause(w, ApplyCancel(env, t, w))
  {
    TargetIsActive(env, t, w);
    var target := CancelTarget(env, t, w);
    if target != NO_ORDER {
      assert NoPause(w, CancelSingle(env, t, w, target));
    }
  }

  lemma {:induction false} EffectsDoNotPause(env: Env, t: Turn, w: World)
    ensures NoPause(w, Dispatch(env, t, w))
  {
    match t.plan.intent
    case ConfirmIntent =>
      ConfirmDoesNotPause(env, t, w, if w.state.Just? then w.state.value else NoState, FindingOf(env, t, w));
    case CancelIntent => CancelDoesNotPause(env, t, w);
    case _ =>
  }

  // A pause is queued exactly for a takeover that follows no step of the turn that worked, unless the
  // buyer asked for a person.
  ghost predicate PauseIsDue(t: Turn, w: World, o: Out) {
    && o.w.paused == w.paused
    && (!o.failed ==>
          (PauseLater in o.later <==> HandoffLevel(t) == Takeover && (t.plan.intent == HumanRequest || !o.ran)))
  }

  lemma {:induction false} HandoffPauses(t: Turn, w: World, o: Out)
    requires NoPause(w, o)
    ensures PauseIsDue(t, w, ApplyHandoff(t, o))
  {
    if HandoffLevel(t) == Takeover && (t.plan.intent == HumanRequest || !o.ran) {
      assert ApplyHandoff(t, o).later[|o.later|] == PauseLater;
    }
  }

  lemma {:induction false} IntentPauses(env: Env, t: Turn, w: World)
    ensures PauseIsDue(t, w, ApplyIntent(env, t, w))
  {
    if ConfirmsAll(t, w) {
      CancelEachPauses(env, t, w.db, w.pending, w);
      HandoffPauses(t, w, CancelAllConfirmed(env, t, w, w.pending));
    } else {
      EffectsDoNotPause(env, t, QuestionDropped(t, w));
      var o := Dispatch(env, t, QuestionDropped(t, w));
      HandoffPauses(t, w, o.(ran := o.ran || ChangesCart(t)));
    }
  }

  // The AI is paused exactly after a sent reply, for a takeover of a buyer who asked for a person or
  // whose turn did nothing of its own: a buyer whose cancellation, order or cart change went through is
  // never left without an answer afterwards.
  lemma {:induction false} PausesExactlyUnserved(env: Env, t: Turn, w: World)
    ensures var o := ApplyIntent(env, t, w.(calls := []));
            RunTurn(env, t, w).paused <==>
              w.paused || (!o.failed && t.replies.sent && t.replies.paused
                           && (t.plan.intent == HumanRequest || (t.plan.handoff == Takeover && !o.ran)))
  {
    var o := ApplyIntent(env, t, w.(calls := []));
    IntentPauses(env, t, w.(calls := []));
    DraftKeepsQuestion(env, t, o.w, o.draft);
    LaterPauses(t, DraftAfterSend(env, t, o.w, o.draft), o.later);
  }
}
