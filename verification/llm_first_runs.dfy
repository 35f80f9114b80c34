/**
  What whole runs of the LLM-first pipeline keep: parked drafts, the totals of every row, and the
  confirm step.
 */
module LlmFirstRuns {
  import opened Checkout
  import opened OrderStore
  import opened LlmFirst
  import opened LlmFirstRows

  // ── parked drafts ──────────────────────────────────────────────────────────

  // Row p is parked: the live checkout, if there is one, is of another order.
  predicate Parked(w: World, p: OrderId) {
    1 <= p <= |w.db| && Pin(w.state) != p
  }

  // Same row, but that a turn may have cancelled it.
  predicate SameOrCancelled(o: Order, o': Order) {
    o' == o || o' == o.(status := Cancelled)
  }

  // The turn does not bring p back; nothing outside this pipeline touches the row or pins it.
  ghost predicate LeavesParked(env: Env, w: World, e: Event, p: OrderId) {
    match e
    case Applied(t) => !Resumes(env, t, w, p)
    case FellBack(_) => true
    case AnsweredElsewhere => true
    case Outside(db, state, _) => 1 <= p <= |w.db| <= |db| && db[p - 1] == w.db[p - 1] && Pin(state) != p
  }

  ghost predicate ParkedStep(w: World, w': World, p: OrderId) {
    Parked(w, p) ==> Parked(w', p) && SameOrCancelled(w.db[p - 1], w'.db[p - 1])
  }

  lemma {:induction false} ParkedOneEvent(env: Env, w: World, e: Event, p: OrderId)
    requires LeavesParked(env, w, e, p)
    ensures ParkedStep(w, Next(env, w, e), p)
  {
    if e.Applied? && Parked(w, p) {
      TurnFrame(env, e.turn, w);
    }
  }

  lemma {:induction false} ParkedInARun(ws: seq<World>, p: OrderId)
    requires ws != [] && Parked(ws[0], p)
    requires forall k :: 0 <= k < |ws| - 1 ==> ParkedStep(ws[k], ws[k + 1], p)
    ensures Parked(ws[|ws| - 1], p) && SameOrCancelled(ws[0].db[p - 1], ws[|ws| - 1].db[p - 1])
  {
    if |ws| > 1 {
      var n := |ws| - 1;
      ParkedInARun(ws[..n], p);
      assert ParkedStep(ws[n - 1], ws[n], p);
    }
  }

  // A parked draft is left alone until it is continued: over any run that does not continue it, its
  // row stays as it was, but for a cancellation, and rebuilding the checkout from it gives the same
  // cart.
  lemma {:induction false} ParkedDraftWaits(env: Env, ws: seq<World>, es: seq<Event>, p: OrderId)
    requires ValidRun(env, ws, es) && Parked(ws[0], p)
    requires forall k :: 0 <= k < |es| ==> LeavesParked(env, ws[k], es[k], p)
    ensures var last := ws[|es|];
            && Parked(last, p) && SameOrCancelled(ws[0].db[p - 1], last.db[p - 1])
            && StateFromDraft(last.db[p - 1], p) == StateFromDraft(ws[0].db[p - 1], p)
  {
    forall k | 0 <= k < |es| ensures ParkedStep(ws[k], ws[k + 1], p) {
      ParkedOneEvent(env, ws[k], es[k], p);
    }
    ParkedInARun(ws, p);
  }

  // "New order" parks every draft.
  lemma {:induction false} NewOrderParks(env: Env, t: Turn, w: World, p: OrderId)
    requires t.plan.intent == NewOrder && 1 <= p <= |w.db|
    ensures Parked(RunTurn(env, t, w), p) && RunTurn(env, t, w).db == w.db
  {
    var start := w.(calls := []);
    var o := Plain(QuestionDropped(t, start).(state := Nothing), ModelText).(ran := ChangesCart(t));
    HandoffAddsSteps(t, o);
    assert ApplyIntent(env, t, start) == ApplyHandoff(t, o);
    LaterFramed(t, o.w, ApplyHandoff(t, o).later);
  }

  lemma {:induction false} ResumeBringsItBack(env: Env, w: World, p: OrderId)
    requires Active(w.db, env.scope, p) && Resume(env, w, p).reply == Resumed(p)
    ensures var st := Resume(env, w, p).w.state;
            && Resume(env, w, p).w == w.(state := st) && st.Just? && st.value.pinned == p
            && Cart(env.shop, st.value) == Cart(env.shop, StateFromDraft(w.db[p - 1], p)) != []
  {
    ContinuedCheckout(env.shop, w.db[p - 1], p);
  }

  // Continuing a draft gives back the cart saved in it, pinned to its row.
  lemma {:induction false} ContinueBringsItBack(env: Env, t: Turn, w: World, p: OrderId)
    ensures var o := ApplyContinue(env, t, w);
            o.reply == Resumed(p) ==>
              && Active(w.db, env.scope, p) && o.w == w.(state := o.w.state)
              && o.w.state.Just? && o.w.state.value.pinned == p
              && Cart(env.shop, o.w.state.value) == Cart(env.shop, StateFromDraft(w.db[p - 1], p)) != []
  {
    ContinuedIsActive(env, t, w);
    var target := ContinueTarget(env, t, w);
    if ApplyContinue(env, t, w).reply == Resumed(p) {
      assert p == target;
      ResumeBringsItBack(env, w, p);
    }
  }

  // ── the confirm step ───────────────────────────────────────────────────────

  predicate ConfirmKept(st: Maybe<State>) {
    st.Just? && st.value.step == Confirm ==> ShippingComplete(st.value.ship)
  }

  ghost predicate ReliableTurn(t: Turn) {
    t.fields.Just? ==> Reliable(t.buyer) && Digits(t.buyer.digits(t.fields.value.postal))
  }

  lemma {:induction false} CartConfirm(env: Env, t: Turn, w: World)
    requires ConfirmKept(w.state)
    ensures ConfirmKept(ApplyCart(env, t, w).w.state)
  {
    if ChangesCart(t) && t.plan.cart != [] {
      CartKeepsConfirm(env.shop, if w.state.Just? then w.state.value else NoState, t.plan.cart, t.catalog);
    }
  }

  lemma {:induction false} FieldsConfirm(env: Env, t: Turn, w: World)
    requires ConfirmKept(w.state) && ReliableTurn(t)
    ensures ConfirmKept(ApplyFields(env, t, w).w.state)
  {
    if w.state.Just? {
      if t.fields.Just? {
        FieldAnswerKeepsConfirm(env.shop, t.buyer, t.fields.value, t.isPart, w.state.value);
      }
      assert ApplyFields(env, t, w).w.state == Just(FieldsWritten(env, t, w.state.value));
    }
  }

  lemma {:induction false} PersistShip(env: Env, t: Turn, w: World, st: State)
    ensures var (_, st', _) := PersistOrder(env, t, w, st); st'.ship == st.ship && st'.step == st.step
  {
    var one := st.(forceNew := st.pinned == NO_ORDER);
    var r := Save(env.shop, w.db, env.scope, one, t.replies.first);
    assert PlacedAs(st, r).ship == st.ship && PlacedAs(st, r).step == st.step;
  }

  lemma {:induction false} ConfirmedConfirm(env: Env, t: Turn, w: World, st: State, found: Finding)
    requires ConfirmKept(w.state) && ConfirmKept(Just(st))
    ensures ConfirmKept(AfterFinding(env, t, w, st, found).w.state)
  {
    if found == Approval {
      PersistShip(env, t, w, st);
      PersistFrame(env, t, w, st);
    }
  }

  lemma {:induction false} ConfirmConfirm(env: Env, t: Turn, w: World)
    requires ConfirmKept(w.state)
    ensures ConfirmKept(ApplyConfirm(env, t, w).w.state)
  {
    ConfirmedConfirm(env, t, w, if w.state.Just? then w.state.value else NoState, FindingOf(env, t, w));
  }

  lemma {:induction false} ContinueConfirm(env: Env, t: Turn, w: World)
    requires ConfirmKept(w.state)
    ensures ConfirmKept(ApplyContinue(env, t, w).w.state)
  {
    var p := ContinueTarget(env, t, w);
    ContinuedIsActive(env, t, w);
    if p != NO_ORDER && StateFromOpenOrder(env.shop, w.db[p - 1], p).Just? {
      ContinuedCheckout(env.shop, w.db[p - 1], p);
    }
  }

  lemma {:induction false} DispatchConfirm(env: Env, t: Turn, w: World)
    requires ConfirmKept(w.state) && ReliableTurn(t)
    ensures ConfirmKept(Dispatch(env, t, w).w.state)
  {
    match t.plan.intent
    case OrderIntent => CartConfirm(env, t, w);
    case AmendIntent => CartConfirm(env, t, w);
    case FieldAnswer => FieldsConfirm(env, t, w);
    case ConfirmIntent => ConfirmConfirm(env, t, w);
    case CancelIntent => TargetIsActive(env, t, w);
    case ContinueOrder => ContinueConfirm(env, t, w);
    case _ =>
  }

  lemma {:induction false} IntentConfirm(env: Env, t: Turn, w: World)
    requires ConfirmKept(w.state) && ReliableTurn(t)
    ensures ConfirmKept(ApplyIntent(env, t, w).w.state)
  {
    if ConfirmsAll(t, w) {
      CancelEachState(env, t, w.db, w.pending, w);
      HandoffAddsSteps(t, CancelAllConfirmed(env, t, w, w.pending));
    } else {
      var o := Dispatch(env, t, QuestionDropped(t, w));
      DispatchConfirm(env, t, QuestionDropped(t, w));
      HandoffAddsSteps(t, o.(ran := o.ran || ChangesCart(t)));
    }
  }

  lemma {:induction false} CancelEachState(env: Env, t: Turn, seen: Db, ids: seq<OrderId>, w: World)
    ensures CancelEach(env, t, seen, ids, w).w.state == w.state
  {
    if ids != [] {
      CancelEachState(env, t, seen, ids[..|ids| - 1], w);
    }
  }

  lemma {:induction false} TurnConfirm(env: Env, t: Turn, w: World)
    requires ConfirmKept(w.state) && ReliableTurn(t)
    ensures ConfirmKept(RunTurn(env, t, w).state)
  {
    var start := w.(calls := []);
    var o := ApplyIntent(env, t, start);
    IntentConfirm(env, t, start);
    IntentFramed(env, t, start);
    DraftAfterSendFramed(env, t, o.w, o.draft);
    LaterFramed(t, DraftAfterSend(env, t, o.w, o.draft), o.later);
  }

  ghost predicate KeepsConfirm(e: Event) {
    match e
    case Applied(t) => ReliableTurn(t)
    case FellBack(_) => true
    case AnsweredElsewhere => true
    case Outside(_, state, _) => ConfirmKept(state)
  }

  // In every state of every run, the confirm step has complete shipping data.
  lemma {:induction false} ConfirmStepIsComplete(env: Env, ws: seq<World>, es: seq<Event>, i: nat)
    requires ValidRun(env, ws, es) && ConfirmKept(ws[0].state) && i < |ws|
    requires forall k :: 0 <= k < |es| ==> KeepsConfirm(es[k])
    ensures ConfirmKept(ws[i].state)
  {
    if i > 0 {
      ConfirmStepIsComplete(env, ws, es, i - 1);
      var e := es[i - 1];
      if e.Applied? {
        TurnConfirm(env, e.turn, ws[i - 1]);
      }
    }
  }

  // ── totals ─────────────────────────────────────────────────────────────────

  predicate Itemized(o: Order) {
    o.subtotal == Sum(o.items)
  }

  predicate SameMoney(o: Order, o': Order) {
    o'.items == o.items && o'.subtotal == o.subtotal && o'.total == o.total
  }

  // Each row has the items and the sums it had, or sums that are those of its items.
  ghost predicate MoneyStep(db: Db, db': Db) {
    && |db| <= |db'|
    && forall k :: 0 <= k < |db'| ==> Totalled(db'[k]) || (k < |db| && SameMoney(db[k], db'[k]))
  }

  lemma {:induction false} TurnMoney(env: Env, t: Turn, w: World)
    ensures MoneyStep(w.db, RunTurn(env, t, w).db)
  {
    TurnFrame(env, t, w);
  }

  lemma {:induction false} EventMoney(env: Env, w: World, e: Event)
    requires !e.Outside?
    ensures MoneyStep(w.db, Next(env, w, e).db)
  {
    if e.Applied? {
      TurnMoney(env, e.turn, w);
    }
  }

  ghost predicate AllItemized(db: Db) {
    forall k :: 0 <= k < |db| ==> Itemized(db[k])
  }

  // Over every run, the subtotal of every row is the sum of quantity times price of its items.
  lemma {:induction false} SubtotalsOverRuns(env: Env, ws: seq<World>, es: seq<Event>, i: nat)
    requires ValidRun(env, ws, es) && AllItemized(ws[0].db) && i < |ws|
    requires forall k :: 0 <= k < |es| ==> es[k].Outside? ==> AllItemized(es[k].db)
    ensures AllItemized(ws[i].db)
  {
    if i > 0 {
      SubtotalsOverRuns(env, ws, es, i - 1);
      if !es[i - 1].Outside? {
        EventMoney(env, ws[i - 1], es[i - 1]);
      }
    }
  }

  // Row k has at ws[i] the items and sums it had at ws[j], at the start or when it came from outside.
  ghost predicate GivenAt(ws: seq<World>, es: seq<Event>, j: nat, i: nat, k: nat)
    requires j <= i < |ws| == |es| + 1 && k < |ws[i].db|
  {
    (j == 0 || es[j - 1].Outside?) && k < |ws[j].db| && SameMoney(ws[j].db[k], ws[i].db[k])
  }

  lemma {:induction false} StillGiven(ws: seq<World>, es: seq<Event>, j: nat, n: nat, k: nat)
    requires j <= n < |es| == |ws| - 1 && k < |ws[n].db| && k < |ws[n + 1].db|
    requires GivenAt(ws, es, j, n, k) && SameMoney(ws[n].db[k], ws[n + 1].db[k])
    ensures GivenAt(ws, es, j, n + 1, k)
  {
  }

  ghost predicate MoneySteps(ws: seq<World>, es: seq<Event>) {
    |ws| == |es| + 1 && forall k :: 0 <= k < |es| ==> es[k].Outside? || MoneyStep(ws[k].db, ws[k + 1].db)
  }

  lemma {:induction false} TotalsInSteps(ws: seq<World>, es: seq<Event>, i: nat, k: nat)
    requires MoneySteps(ws, es) && i < |ws| && k < |ws[i].db|
    ensures Totalled(ws[i].db[k]) || exists j: nat :: j <= i && GivenAt(ws, es, j, i, k)
  {
    if i == 0 || es[i - 1].Outside? {
      assert GivenAt(ws, es, i, i, k);
    } else if !Totalled(ws[i].db[k]) {
      var n := i - 1;
      assert MoneyStep(ws[n].db, ws[n + 1].db);
      TotalsInSteps(ws, es, n, k);
      var j: nat :| j <= n && GivenAt(ws, es, j, n, k);
      StillGiven(ws, es, j, n, k);
    }
  }

  // Over every run, and whatever staff write, the total of each row is the sum of quantity times price of its
  // items, or it is a total from outside this pipeline, for the items it came with.
  lemma {:induction false} TotalsOverRuns(env: Env, ws: seq<World>, es: seq<Event>, i: nat, k: nat)
    requires ValidRun(env, ws, es) && i < |ws| && k < |ws[i].db|
    ensures Totalled(ws[i].db[k]) || exists j: nat :: j <= i && GivenAt(ws, es, j, i, k)
  {
    forall n | 0 <= n < |es| ensures es[n].Outside? || MoneyStep(ws[n].db, ws[n + 1].db) {
      if !es[n].Outside? {
        EventMoney(env, ws[n], es[n]);
      }
    }
    TotalsInSteps(ws, es, i, k);
  }

  // A shipping cost that staff had added to a draft is gone from its total when the chat next saves its items.
  lemma {:induction false} SaveDropsShippingCost(shop: Shop, db: Db, scope: Scope, st: State, a: Answers)
    requires !st.forceNew && IsDraft(db, scope, st.pinned)
    ensures var r := SaveEarly(shop, db, scope, st, a);
            r.outcome.Saved? ==> r.outcome.id == st.pinned && Totalled(r.db[st.pinned - 1])
  {
    SaveEarlyFrame(shop, db, scope, st, a);
    var placed := AllPlaced(a.stock, DraftLines(shop, st));
    if placed.Just? {
      WriteFrame(db, scope, st.pinned, st.forceNew, ItemsOf(shop, placed.value, FreeText(st)), Nothing,
                 NoShipping.(country := "Indonesia"), a);
    }
  }
}
