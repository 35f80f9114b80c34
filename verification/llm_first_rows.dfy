/**
  What the LLM-first pipeline does to the order table and to the checkout state, over one turn and
  over whole runs.
 */
module LlmFirstRows {
  import opened Checkout
  import opened OrderStore
  import opened LlmFirst
  import opened LlmFirstConsent

  function Pin(st: Maybe<State>): OrderId {
    if st.Just? then st.value.pinned else NO_ORDER
  }

  // Only cancellations of these ids differ between the two tables.
  ghost predicate OnlyCancelled(db: Db, db': Db, ids: seq<OrderId>) {
    && |db'| == |db|
    && forall k :: 0 <= k < |db| ==> db'[k] == db[k] || (k + 1 in ids && db'[k] == db[k].(status := Cancelled))
  }

  // ── what one turn writes ───────────────────────────────────────────────────

  lemma {:induction false} SaveFrame(shop: Shop, db: Db, scope: Scope, st: State, a: Answers)
    ensures var r := Save(shop, db, scope, st, a);
            && OneDraftWritten(db, r.db, scope, st.pinned)
            && (r.outcome.NeedPick? ==> r.db == db)
            && (r.outcome.Saved? ==> RightRow(db, scope, st.pinned, st.forceNew, r.outcome.id))
  {
    var placed := AllPlaced(a.stock, DraftLines(shop, st));
    if placed.Just? {
      WriteFrame(db, scope, st.pinned, st.forceNew, ItemsOf(shop, placed.value, FreeText(st)), Just(Addressed(st.ship)),
                 Addressed(st.ship), a);
    }
  }

  lemma {:induction false} SaveEarlyFrame(shop: Shop, db: Db, scope: Scope, st: State, a: Answers)
    ensures var r := SaveEarly(shop, db, scope, st, a);
            && OneDraftWritten(db, r.db, scope, st.pinned)
            && (r.outcome.NeedPick? ==> r.db == db)
            && (r.outcome.Saved? ==> RightRow(db, scope, st.pinned, st.forceNew, r.outcome.id))
  {
    var placed := AllPlaced(a.stock, DraftLines(shop, st));
    if placed.Just? {
      WriteFrame(db, scope, st.pinned, st.forceNew, ItemsOf(shop, placed.value, FreeText(st)), Nothing,
                 NoShipping.(country := "Indonesia"), a);
    }
  }

  // A forced save without a pin writes a new row or none.
  lemma {:induction false} UnpinnedWrite(db: Db, db': Db, scope: Scope, pin: OrderId)
    requires OneDraftWritten(db, db', scope, NO_ORDER)
    ensures OneDraftWritten(db, db', scope, pin)
  {
  }

  // The pin after a write: the one before it, none, or a new row.
  predicate PinKept(before: OrderId, rows: nat, after: OrderId) {
    after == before || after == NO_ORDER || after == rows + 1
  }

  lemma {:induction false} PersistFrame(env: Env, t: Turn, w: World, st: State)
    ensures var (w', st', outcome) := PersistOrder(env, t, w, st);
            && OneDraftWritten(w.db, w'.db, env.scope, st.pinned)
            && (outcome.Saved? ==> outcome.id == st.pinned || outcome.id == |w.db| + 1)
            && w'.state == w.state
  {
    var one := st.(forceNew := st.pinned == NO_ORDER);
    var r := Save(env.shop, w.db, env.scope, one, t.replies.first);
    SaveFrame(env.shop, w.db, env.scope, one, t.replies.first);
    if r.outcome.NeedPick? && st.pinned != NO_ORDER {
      var two := PlacedAs(st, r).(pinned := NO_ORDER, forceNew := true);
      SaveFrame(env.shop, w.db, env.scope, two, t.replies.second);
      UnpinnedWrite(w.db, Save(env.shop, w.db, env.scope, two, t.replies.second).db, env.scope, st.pinned);
    }
  }

  lemma {:induction false} DraftFrame(env: Env, t: Turn, w: World, st: State)
    ensures var w' := SaveDraftNow(env, t, w, st);
            && OneDraftWritten(w.db, w'.db, env.scope, st.pinned)
            && (w'.state == w.state || (w'.state.Just?
                                       && w'.state.value == st.(pinned := w'.state.value.pinned, forceNew := false)
                                       && PinKept(st.pinned, |w.db|, w'.state.value.pinned)))
  {
    var one := st.(forceNew := st.pinned == NO_ORDER);
    var r := SaveEarly(env.shop, w.db, env.scope, one, t.replies.first);
    SaveEarlyFrame(env.shop, w.db, env.scope, one, t.replies.first);
    if r.outcome.NeedPick? && st.pinned != NO_ORDER {
      var two := st.(pinned := NO_ORDER, forceNew := true);
      SaveEarlyFrame(env.shop, w.db, env.scope, two, t.replies.second);
      UnpinnedWrite(w.db, SaveEarly(env.shop, w.db, env.scope, two, t.replies.second).db, env.scope, st.pinned);
    }
  }

  lemma {:induction false} CancelCallFrame(env: Env, t: Turn, w: World, id: OrderId, db0: Db)
    requires OnlyCancelled(db0, w.db, Cancels(w.calls))
    ensures var w' := CancelCall(env, t, w, id).0; OnlyCancelled(db0, w'.db, Cancels(w'.calls)) && w'.state == w.state
  {
    CancelsSnoc(w.calls, CancelOrder(id));
  }

  lemma {:induction false} CancelEachFrame(env: Env, t: Turn, seen: Db, ids: seq<OrderId>, w: World, db0: Db)
    requires OnlyCancelled(db0, w.db, Cancels(w.calls))
    ensures var y := CancelEach(env, t, seen, ids, w);
            OnlyCancelled(db0, y.w.db, Cancels(y.w.calls)) && y.w.state == w.state
  {
    if ids != [] {
      CancelEachFrame(env, t, seen, ids[..|ids| - 1], w, db0);
      CancelCallFrame(env, t, CancelEach(env, t, seen, ids[..|ids| - 1], w).w, ids[|ids| - 1], db0);
    }
  }

  // At most one draft row written (the pinned draft, or a new one), or only cancellations.
  ghost predicate TableStep(env: Env, w: World, w': World) {
    || OneDraftWritten(w.db, w'.db, env.scope, Pin(w.state))
    || OnlyCancelled(w.db, w'.db, Cancels(w'.calls))
  }

  predicate Resumes(env: Env, t: Turn, w: World, pin: OrderId) {
    t.plan.intent == ContinueOrder && CartIn(env, w.state) == [] && pin == ContinueTarget(env, t, w)
  }

  ghost predicate PinStep(env: Env, t: Turn, w: World, w': World) {
    PinKept(Pin(w.state), |w.db|, Pin(w'.state)) || Resumes(env, t, w, Pin(w'.state))
  }

  // A draft to save after the send is the cart just stored.
  ghost predicate DraftOk(w: World, o: Out) {
    o.draft.Just? ==> o.w.db == w.db && o.w.state == o.draft && o.draft.value.pinned == Pin(w.state)
  }

  ghost predicate EffectsFramed(env: Env, t: Turn, w: World, o: Out) {
    TableStep(env, w, o.w) && PinStep(env, t, w, o.w) && DraftOk(w, o)
  }

  lemma {:induction false} ConfirmedFramed(env: Env, t: Turn, w: World, st: State, found: Finding)
    requires w.state == Just(st) || (found != Approval && found != VariantOpen)
    ensures EffectsFramed(env, t, w, AfterFinding(env, t, w, st, found))
  {
    if found == Approval {
      PersistFrame(env, t, w, st);
    }
  }

  lemma {:induction false} ConfirmFramed(env: Env, t: Turn, w: World)
    ensures EffectsFramed(env, t, w, ApplyConfirm(env, t, w))
  {
    ConfirmedFramed(env, t, w, if w.state.Just? then w.state.value else NoState, FindingOf(env, t, w));
  }

  lemma {:induction false} CancelSingleFramed(env: Env, t: Turn, w: World, target: OrderId)
    requires w.calls == [] && Active(w.db, env.scope, target)
    ensures EffectsFramed(env, t, w, CancelSingle(env, t, w, target))
  {
    CancelCallFrame(env, t, w, target, w.db);
  }

  lemma {:induction false} CancelFramed(env: Env, t: Turn, w: World)
    requires w.calls == []
    ensures EffectsFramed(env, t, w, ApplyCancel(env, t, w))
  {
    TargetIsActive(env, t, w);
    var target := CancelTarget(env, t, w);
    if target != NO_ORDER {
      CancelSingleFramed(env, t, w, target);
    }
  }

  lemma {:induction false} ContinueFramed(env: Env, t: Turn, w: World)
    requires t.plan.intent == ContinueOrder
    ensures EffectsFramed(env, t, w, ApplyContinue(env, t, w))
  {
    ContinuedIsActive(env, t, w);
  }

  lemma {:induction false} CartFramed(env: Env, t: Turn, w: World)
    ensures EffectsFramed(env, t, w, ApplyCart(env, t, w))
  {
  }

  lemma {:induction false} FieldsKeepThePin(env: Env, t: Turn, st: State)
    ensures var st' := FieldsWritten(env, t, st); st' == st.(ship := st'.ship, step := st'.step)
  {
  }

  lemma {:induction false} FieldsFramed(env: Env, t: Turn, w: World)
    ensures EffectsFramed(env, t, w, ApplyFields(env, t, w))
  {
    if w.state.Just? {
      var o, st := ApplyFields(env, t, w), FieldsWritten(env, t, w.state.value);
      FieldsKeepThePin(env, t, w.state.value);
      assert o.w == w.(state := Just(st)) && o.draft.Nothing?;
    }
  }

  lemma {:induction false} DispatchFramed(env: Env, t: Turn, w: World)
    requires w.calls == []
    ensures EffectsFramed(env, t, w, Dispatch(env, t, w))
  {
    match t.plan.intent
    case OrderIntent => CartFramed(env, t, w);
    case AmendIntent => CartFramed(env, t, w);
    case FieldAnswer => FieldsFramed(env, t, w);
    case ConfirmIntent => ConfirmFramed(env, t, w);
    case CancelIntent => CancelFramed(env, t, w);
    case ContinueOrder => ContinueFramed(env, t, w);
    case _ =>
  }

  lemma {:induction false} CancelAllFramed(env: Env, t: Turn, w: World)
    requires w.calls == []
    ensures EffectsFramed(env, t, w, CancelAllConfirmed(env, t, w, w.pending))
  {
    CancelEachFrame(env, t, w.db, w.pending, w, w.db);
    var y := CancelEach(env, t, w.db, w.pending, w);
    CancelsSnoc(y.w.calls, TellOwner);
  }

  // Involving the shop team changes neither the writes nor the reply, only what runs after the send.
  lemma {:induction false} HandoffAddsSteps(t: Turn, o: Out)
    ensures ApplyHandoff(t, o) == o.(later := ApplyHandoff(t, o).later)
  {
  }

  // Unless it answers a "cancel all?" question, a turn's effects are those of its intent.
  lemma {:induction false} EffectsOfIntent(env: Env, t: Turn, w: World)
    requires !ConfirmsAll(t, w)
    ensures var o, d := ApplyIntent(env, t, w), Dispatch(env, t, QuestionDropped(t, w));
            o.w == d.w && o.reply == d.reply && o.draft == d.draft && o.failed == d.failed
  {
    var d := Dispatch(env, t, QuestionDropped(t, w));
    HandoffAddsSteps(t, d.(ran := d.ran || ChangesCart(t)));
  }

  lemma {:induction false} HandoffFramed(env: Env, t: Turn, w: World, o: Out, ran: bool)
    requires EffectsFramed(env, t, w, o)
    ensures EffectsFramed(env, t, w, ApplyHandoff(t, o.(ran := ran)))
  {
    HandoffAddsSteps(t, o.(ran := ran));
  }

  lemma {:induction false} IntentFramed(env: Env, t: Turn, w: World)
    requires w.calls == []
    ensures EffectsFramed(env, t, w, ApplyIntent(env, t, w))
  {
    if ConfirmsAll(t, w) {
      CancelAllFramed(env, t, w);
      var o := CancelAllConfirmed(env, t, w, w.pending);
      HandoffFramed(env, t, w, o, o.ran);
    } else {
      var w' := QuestionDropped(t, w);
      DispatchFramed(env, t, w');
      var o := Dispatch(env, t, w');
      SameTable(env, t, w, w', o);
      HandoffFramed(env, t, w, o, o.ran || ChangesCart(t));
    }
  }

  lemma {:induction false} SameTable(env: Env, t: Turn, w: World, w': World, o: Out)
    requires w'.db == w.db && w'.state == w.state && EffectsFramed(env, t, w', o)
    ensures EffectsFramed(env, t, w, o)
  {
  }

  // What runs after the send changes the table only through a cart saved as a draft.
  ghost predicate DraftFramed(env: Env, w: World, w': World, draft: Maybe<State>) {
    if draft.Just? then
      && OneDraftWritten(w.db, w'.db, env.scope, draft.value.pinned)
      && (w'.state == w.state || (w'.state == Just(draft.value.(pinned := Pin(w'.state), forceNew := false))
                                 && PinKept(draft.value.pinned, |w.db|, Pin(w'.state))))
    else w' == w
  }

  lemma {:induction false} DraftAfterSendFramed(env: Env, t: Turn, w: World, draft: Maybe<State>)
    ensures DraftFramed(env, w, DraftAfterSend(env, t, w, draft), draft)
    ensures Cancels(DraftAfterSend(env, t, w, draft).calls) == Cancels(w.calls)
  {
    if draft.Just? {
      DraftFrame(env, t, w, draft.value);
      DraftCancels(env, t, w, draft.value);
    }
  }

  // The table and the cancellations stay; the checkout stays or is cleared.
  ghost predicate OnlyClears(w: World, w': World) {
    w'.db == w.db && (w'.state == w.state || w'.state == Nothing) && Cancels(w'.calls) == Cancels(w.calls)
  }

  lemma {:induction false} OneLaterFramed(t: Turn, w: World, step: Later)
    ensures OnlyClears(w, RunLater(t, w, step))
  {
    CancelsSnoc(w.calls, TellOwner);
  }

  lemma {:induction false} LaterFramed(t: Turn, w: World, steps: seq<Later>)
    ensures OnlyClears(w, RunAll(t, w, steps))
  {
    if steps != [] {
      var n := |steps| - 1;
      LaterFramed(t, w, steps[..n]);
      OneLaterFramed(t, RunAll(t, w, steps[..n]), steps[n]);
    }
  }

  lemma {:induction false} DraftSavedCancels(w: World, st: State, outcome: Outcome)
    ensures Cancels(DraftSaved(w, st, outcome).calls) == Cancels(w.calls)
  {
    CancelsSnoc(w.calls, TellOwner);
  }

  lemma {:induction false} DraftAgainCancels(env: Env, t: Turn, w: World, st: State)
    ensures Cancels(SaveDraftAgain(env, t, w, st).calls) == Cancels(w.calls)
  {
    var two := st.(pinned := NO_ORDER, forceNew := true);
    var r := SaveEarly(env.shop, w.db, env.scope, two, t.replies.second);
    CancelsSnoc(w.calls, SaveDraft(two));
    DraftSavedCancels(w.(db := r.db, calls := w.calls + [SaveDraft(two)]), two, r.outcome);
  }

  lemma {:induction false} DraftCancels(env: Env, t: Turn, w: World, st: State)
    ensures Cancels(SaveDraftNow(env, t, w, st).calls) == Cancels(w.calls)
  {
    var one := st.(forceNew := st.pinned == NO_ORDER);
    var r := SaveEarly(env.shop, w.db, env.scope, one, t.replies.first);
    var next := w.(db := r.db, calls := w.calls + [SaveDraft(one)]);
    CancelsSnoc(w.calls, SaveDraft(one));
    DraftSavedCancels(next, one, r.outcome);
    DraftAgainCancels(env, t, next, st);
  }

  // The frame of one turn: it writes at most one draft row, the one pinned to the checkout if that
  // is still a draft of this buyer, else a new row; or it only cancels orders it called a
  // cancellation for. All other rows stay as they are.
  lemma {:induction false} TurnFrame(env: Env, t: Turn, w: World)
    ensures TableStep(env, w, RunTurn(env, t, w)) && PinStep(env, t, w, RunTurn(env, t, w))
  {
    var start := w.(calls := []);
    var o := ApplyIntent(env, t, start);
    IntentFramed(env, t, start);
    SameTable(env, t, w, start, o);
    DraftAfterSendFramed(env, t, o.w, o.draft);
    LaterFramed(t, DraftAfterSend(env, t, o.w, o.draft), o.later);
  }
}
