/**
  What a repeated turn of the LLM-first pipeline does: a confirmed "cancel all" that stopped half
  way, a confirmation whose reply was not sent. And what a turn tells the buyer is what it did.
 */
module LlmFirstRetry {
  import opened Checkout
  import opened OrderStore
  import opened LlmFirst
  import opened LlmFirstConsent
  import opened LlmFirstRows

  // ── cancel all, retried ────────────────────────────────────────────────────

  // The orders the reply names as cancelled, and those it names as paid.
  function NamedCancelled(env: Env, seen: Db, ids: seq<OrderId>): seq<OrderId> {
    if ids == [] then []
    else
      var rest, fate := NamedCancelled(env, seen, ids[..|ids| - 1]), FateOf(env, seen, ids[|ids| - 1]);
      if fate == Reported || fate == ToCancel then rest + [ids[|ids| - 1]] else rest
  }

  function NamedPaid(env: Env, seen: Db, ids: seq<OrderId>): seq<OrderId> {
    if ids == [] then []
    else
      var rest := NamedPaid(env, seen, ids[..|ids| - 1]);
      if FateOf(env, seen, ids[|ids| - 1]) == ToTeam then rest + [ids[|ids| - 1]] else rest
  }

  // Row k may be cancelled: its order, k + 1, is one of the ids and is to be cancelled.
  predicate MayChange(env: Env, seen: Db, ids: seq<OrderId>, k: nat) {
    k + 1 in ids && FateOf(env, seen, k + 1) == ToCancel
  }

  // Some of the orders to cancel are cancelled; nothing else has changed.
  ghost predicate PartlyDone(env: Env, seen: Db, db: Db, ids: seq<OrderId>) {
    && |db| == |seen|
    && forall k :: 0 <= k < |seen| ==>
         db[k] == seen[k] || (MayChange(env, seen, ids, k) && db[k] == seen[k].(status := Cancelled))
  }

  ghost predicate AllDone(env: Env, seen: Db, db: Db, ids: seq<OrderId>) {
    && PartlyDone(env, seen, db, ids)
    && forall k :: 0 <= k < |seen| ==> MayChange(env, seen, ids, k) ==> db[k].status == Cancelled
  }

  lemma {:induction false} DoneIsUnique(env: Env, seen: Db, db: Db, db': Db, ids: seq<OrderId>)
    requires AllDone(env, seen, db, ids) && AllDone(env, seen, db', ids)
    ensures db == db'
  {
    forall k | 0 <= k < |seen| ensures db[k] == db'[k] {
    }
  }

  lemma {:induction false} MoreIds(env: Env, seen: Db, db: Db, ids: seq<OrderId>, id: OrderId)
    requires PartlyDone(env, seen, db, ids)
    ensures PartlyDone(env, seen, db, ids + [id])
  {
    forall k | 0 <= k < |seen| && db[k] != seen[k] ensures MayChange(env, seen, ids + [id], k) {
      assert MayChange(env, seen, ids, k);
    }
  }

  lemma {:induction false} OneMoreDone(env: Env, seen: Db, db: Db, ids: seq<OrderId>, id: OrderId)
    requires AllDone(env, seen, db, ids)
    ensures FateOf(env, seen, id) != ToCancel ==> AllDone(env, seen, db, ids + [id])
    ensures FateOf(env, seen, id) == ToCancel ==> AllDone(env, seen, CancelRow(db, env.scope, id).0, ids + [id])
  {
    MoreIds(env, seen, db, ids, id);
    forall k | 0 <= k < |seen| && MayChange(env, seen, ids + [id], k)
      ensures k + 1 == id || MayChange(env, seen, ids, k)
    {
    }
  }

  // The loop over the ids, so far: unless it has failed, every order to cancel is cancelled and the lists name
  // them; if it has, some are. The checkout and the question are as they were.
  ghost predicate Did(env: Env, w: World, ids: seq<OrderId>, y: Tally) {
    && PartlyDone(env, w.db, y.w.db, ids) && y.w.state == w.state && y.w.pending == w.pending
    && (!y.failed ==>
          && AllDone(env, w.db, y.w.db, ids)
          && y.cancelled == NamedCancelled(env, w.db, ids) && y.paid == NamedPaid(env, w.db, ids))
  }

  lemma {:induction false} OneMoreNamed(env: Env, seen: Db, ids: seq<OrderId>, id: OrderId)
    ensures NamedCancelled(env, seen, ids + [id]) ==
            var fate := FateOf(env, seen, id);
            if fate == Reported || fate == ToCancel then NamedCancelled(env, seen, ids) + [id]
            else NamedCancelled(env, seen, ids)
    ensures NamedPaid(env, seen, ids + [id]) ==
            if FateOf(env, seen, id) == ToTeam then NamedPaid(env, seen, ids) + [id] else NamedPaid(env, seen, ids)
  {
    assert (ids + [id])[..|ids|] == ids;
  }

  lemma {:induction false} DidOneMore(env: Env, t: Turn, w: World, ids: seq<OrderId>, y: Tally, id: OrderId)
    requires Did(env, w, ids, y)
    ensures Did(env, w, ids + [id], if y.failed then y else CancelOne(env, t, w.db, y, id))
  {
    MoreIds(env, w.db, y.w.db, ids, id);
    OneMoreNamed(env, w.db, ids, id);
    if !y.failed {
      OneMoreDone(env, w.db, y.w.db, ids, id);
    }
  }

  // What the loop of the confirmed cancel-all does, from the orders loaded for it.
  lemma {:induction false} CancelEachDoes(env: Env, t: Turn, ids: seq<OrderId>, w: World)
    ensures Did(env, w, ids, CancelEach(env, t, w.db, ids, w))
  {
    if ids != [] {
      var n := |ids| - 1;
      assert ids[..n] + [ids[n]] == ids;
      CancelEachDoes(env, t, ids[..n], w);
      DidOneMore(env, t, w, ids[..n], CancelEach(env, t, w.db, ids[..n], w), ids[n]);
    }
  }

  lemma {:induction false} FateLater(env: Env, seen: Db, db: Db, ids: seq<OrderId>, id: OrderId)
    requires PartlyDone(env, seen, db, ids)
    ensures FateOf(env, seen, id) != ToCancel ==> FateOf(env, db, id) == FateOf(env, seen, id)
    ensures FateOf(env, seen, id) == ToCancel ==>
              FateOf(env, db, id) == if db[id - 1].status == Cancelled then Reported else ToCancel
  {
    if 1 <= id <= |seen| {
      assert db[id - 1] == seen[id - 1] || MayChange(env, seen, ids, id - 1);
    }
  }

  lemma {:induction false} SameNames(env: Env, seen: Db, db: Db, all: seq<OrderId>, ids: seq<OrderId>)
    requires PartlyDone(env, seen, db, all)
    ensures NamedCancelled(env, db, ids) == NamedCancelled(env, seen, ids)
    ensures NamedPaid(env, db, ids) == NamedPaid(env, seen, ids)
  {
    if ids != [] {
      SameNames(env, seen, db, all, ids[..|ids| - 1]);
      FateLater(env, seen, db, all, ids[|ids| - 1]);
    }
  }

  lemma {:induction false} PartlyThenPartly(env: Env, seen: Db, mid: Db, db: Db, ids: seq<OrderId>)
    requires PartlyDone(env, seen, mid, ids) && PartlyDone(env, mid, db, ids)
    ensures PartlyDone(env, seen, db, ids)
    ensures AllDone(env, mid, db, ids) ==> AllDone(env, seen, db, ids)
  {
    forall k | 0 <= k < |seen|
      ensures db[k] == seen[k] || (MayChange(env, seen, ids, k) && db[k] == seen[k].(status := Cancelled))
      ensures AllDone(env, mid, db, ids) && MayChange(env, seen, ids, k) ==> db[k].status == Cancelled
    {
      FateLater(env, seen, mid, ids, k + 1);
      assert db[k] == mid[k] || MayChange(env, mid, ids, k);
      assert mid[k] == seen[k] || MayChange(env, seen, ids, k);
    }
  }

  // A confirmed cancel-all that did not get as far as its reply.
  ghost predicate Stopped(env: Env, t: Turn, w: World) {
    ConfirmsAll(t, w) && (ApplyIntent(env, t, w.(calls := [])).failed || !t.replies.sent)
  }

  lemma {:induction false} StoppedTurn(env: Env, t: Turn, w: World)
    requires Stopped(env, t, w)
    ensures PartlyDone(env, w.db, RunTurn(env, t, w).db, w.pending) && RunTurn(env, t, w).pending == w.pending
  {
    var start := w.(calls := []);
    CancelEachDoes(env, t, w.pending, start);
    HandoffAddsSteps(t, CancelAllConfirmed(env, t, start, w.pending));
  }

  lemma {:induction false} CompleteTurn(env: Env, t: Turn, w: World)
    requires ConfirmsAll(t, w) && !ApplyIntent(env, t, w.(calls := [])).failed
    ensures AllDone(env, w.db, ApplyIntent(env, t, w.(calls := [])).w.db, w.pending)
    ensures ApplyIntent(env, t, w.(calls := [])).reply ==
            var cancelled, paid := NamedCancelled(env, w.db, w.pending), NamedPaid(env, w.db, w.pending);
            if cancelled != [] || paid != [] then CancelAllDone(cancelled, paid) else ModelText
  {
    var start := w.(calls := []);
    CancelEachDoes(env, t, w.pending, start);
    HandoffAddsSteps(t, CancelAllConfirmed(env, t, start, w.pending));
  }

  lemma {:induction false} StoppedTurns(env: Env, ws: seq<World>, ts: seq<Turn>)
    requires |ws| == |ts| + 1
    requires forall k :: 0 <= k < |ts| ==> Stopped(env, ts[k], ws[k]) && ws[k + 1] == RunTurn(env, ts[k], ws[k])
    ensures PartlyDone(env, ws[0].db, ws[|ts|].db, ws[0].pending) && ws[|ts|].pending == ws[0].pending
  {
    if ts != [] {
      var n := |ts| - 1;
      StoppedTurns(env, ws[..n + 1], ts[..n]);
      StoppedTurn(env, ts[n], ws[n]);
      PartlyThenPartly(env, ws[0].db, ws[n].db, ws[n + 1].db, ws[0].pending);
    }
  }

  // However often the confirmed cancel-all stops, at whatever order and with whatever the database
  // did by then, the attempt that gets through leaves the table an uninterrupted one leaves, and its
  // reply names the same orders as cancelled and as paid.
  lemma {:induction false} CancelAllRetry(env: Env, ws: seq<World>, ts: seq<Turn>, last: Turn, once: Turn)
    requires |ws| == |ts| + 1
    requires forall k :: 0 <= k < |ts| ==> Stopped(env, ts[k], ws[k]) && ws[k + 1] == RunTurn(env, ts[k], ws[k])
    requires ConfirmsAll(last, ws[|ts|]) && !ApplyIntent(env, last, ws[|ts|].(calls := [])).failed
    requires ConfirmsAll(once, ws[0]) && !ApplyIntent(env, once, ws[0].(calls := [])).failed
    ensures var a := ApplyIntent(env, last, ws[|ts|].(calls := []));
            var b := ApplyIntent(env, once, ws[0].(calls := []));
            a.w.db == b.w.db && a.reply == b.reply
  {
    var mid := ws[|ts|];
    StoppedTurns(env, ws, ts);
    CompleteTurn(env, last, mid);
    CompleteTurn(env, once, ws[0]);
    var a, b := ApplyIntent(env, last, mid.(calls := [])), ApplyIntent(env, once, ws[0].(calls := []));
    SameNames(env, ws[0].db, mid.db, ws[0].pending, ws[0].pending);
    PartlyThenPartly(env, ws[0].db, mid.db, a.w.db, ws[0].pending);
    DoneIsUnique(env, ws[0].db, a.w.db, b.w.db, ws[0].pending);
  }

  // ── a confirmation, retried ────────────────────────────────────────────────

  // Row id is the only one that may differ.
  ghost predicate OnlyRow(db: Db, db': Db, id: OrderId) {
    1 <= id <= |db| == |db'| && forall k :: 0 <= k < |db| && k != id - 1 ==> db'[k] == db[k]
  }

  lemma {:induction false} PinnedWrite(db: Db, scope: Scope, pin: OrderId, items: seq<Item>, ship: Shipping, a: Answers)
    requires IsDraft(db, scope, pin)
    ensures var (db', outcome) := Write(db, scope, pin, false, items, Just(ship), ship, a);
            OnlyRow(db, db', pin) && (outcome == Saved(pin) || outcome == Failed)
  {
  }

  // A save that finds its pinned draft writes that row or none.
  lemma {:induction false} PinnedSave(shop: Shop, db: Db, scope: Scope, st: State, a: Answers)
    requires IsDraft(db, scope, st.pinned) && !st.forceNew
    ensures var r := Save(shop, db, scope, st, a);
            OnlyRow(db, r.db, st.pinned) && (r.outcome == Saved(st.pinned) || r.outcome == Failed)
  {
    var placed := AllPlaced(a.stock, DraftLines(shop, st));
    if placed.Just? {
      PinnedWrite(db, scope, st.pinned, ItemsOf(shop, placed.value, FreeText(st)), Addressed(st.ship), a);
    }
  }

  lemma {:induction false} PinnedPersist(env: Env, t: Turn, w: World, st: State)
    requires IsDraft(w.db, env.scope, st.pinned)
    ensures var (w', _, outcome) := PersistOrder(env, t, w, st);
            OnlyRow(w.db, w'.db, st.pinned) && (outcome.Saved? ==> outcome.id == st.pinned)
  {
    PinnedSave(env.shop, w.db, env.scope, st.(forceNew := false), t.replies.first);
  }

  lemma {:induction false} PinnedConfirm(env: Env, t: Turn, w: World, st: State, found: Finding)
    requires IsDraft(w.db, env.scope, st.pinned)
    ensures var o := AfterFinding(env, t, w, st, found);
            OnlyRow(w.db, o.w.db, st.pinned) && (o.reply.OrderSaved? ==> o.reply.id == st.pinned)
  {
    if found == Approval {
      PinnedPersist(env, t, w, st);
    }
  }

  // A confirmation that saves an order leaves it pinned in the stored state.
  lemma {:induction false} SavedIsPinned(env: Env, t: Turn, w: World, st: State, found: Finding)
    ensures var o := AfterFinding(env, t, w, st, found);
            o.reply.OrderSaved? ==> o.w.state.Just? && o.w.state.value.pinned == o.reply.id
  {
  }

  // The saved order's id is pinned before the reply goes out. So when the reply of a confirmation is
  // not sent, a later confirmation, while the order is still a draft (whatever else has become of the
  // table and of the stored question), saves into the same row: it never writes another one.
  lemma {:induction false} ConfirmationRetried(env: Env, t: Turn, w: World, again: Turn, db: Db, pending: seq<OrderId>)
    requires t.plan.intent == ConfirmIntent && !t.replies.sent && !ConfirmsAll(t, w)
    ensures var first := ApplyIntent(env, t, w.(calls := []));
            var between := RunTurn(env, t, w).(db := db, pending := pending);
            var o := ApplyIntent(env, again, between.(calls := []));
            first.reply.OrderSaved? && IsDraft(db, env.scope, first.reply.id)
            && again.plan.intent == ConfirmIntent && !ConfirmsAll(again, between)
            ==> OnlyRow(db, o.w.db, first.reply.id) && (o.reply.OrderSaved? ==> o.reply.id == first.reply.id)
  {
    var start := QuestionDropped(t, w.(calls := []));
    OrdinaryConfirm(env, t, w.(calls := []));
    SavedIsPinned(env, t, start, if start.state.Just? then start.state.value else NoState, FindingOf(env, t, start));
    var first := ApplyIntent(env, t, w.(calls := []));
    var between := RunTurn(env, t, w).(db := db, pending := pending);
    assert between.state == first.w.state;
    if first.reply.OrderSaved? && IsDraft(db, env.scope, first.reply.id) {
      SecondConfirm(env, again, between.(calls := []), first.reply.id);
    }
  }

  lemma {:induction false} SecondConfirm(env: Env, t: Turn, w: World, id: OrderId)
    requires w.state.Just? && w.state.value.pinned == id && IsDraft(w.db, env.scope, id)
    ensures var o := ApplyIntent(env, t, w);
            t.plan.intent == ConfirmIntent && !ConfirmsAll(t, w)
            ==> OnlyRow(w.db, o.w.db, id) && (o.reply.OrderSaved? ==> o.reply.id == id)
  {
    if t.plan.intent == ConfirmIntent && !ConfirmsAll(t, w) {
      OrdinaryConfirm(env, t, w);
      var w' := QuestionDropped(t, w);
      PinnedConfirm(env, t, w', w'.state.value, FindingOf(env, t, w'));
    }
  }

  lemma {:induction false} OrdinaryConfirm(env: Env, t: Turn, w: World)
    requires t.plan.intent == ConfirmIntent && !ConfirmsAll(t, w)
    ensures var o, c := ApplyIntent(env, t, w), ApplyConfirm(env, t, QuestionDropped(t, w));
            o.w == c.w && o.reply == c.reply && !o.failed
  {
    var c := ApplyConfirm(env, t, QuestionDropped(t, w));
    HandoffAddsSteps(t, c.(ran := c.ran || ChangesCart(t)));
  }

  // ── what the buyer is told ─────────────────────────────────────────────────

  // The saved row holds the cart and its totals.
  ghost predicate HoldsOrder(env: Env, db: Db, id: OrderId, cart: seq<CartLine>) {
    && IsDraft(db, env.scope, id) && Totalled(db[id - 1])
    && Cart(env.shop, StateFromDraft(db[id - 1], id)) == cart
  }

  ghost predicate SavedIfSaid(env: Env, db: Db, outcome: Outcome, cart: seq<CartLine>) {
    outcome.Saved? ==> HoldsOrder(env, db, outcome.id, cart)
  }

  lemma {:induction false} SaveHonest(env: Env, db: Db, st: State, a: Answers)
    ensures var r := Save(env.shop, db, env.scope, st, a); SavedIfSaid(env, r.db, r.outcome, Cart(env.shop, st))
  {
    if Save(env.shop, db, env.scope, st, a).outcome.Saved? {
      SaveAndContinue(env.shop, db, env.scope, st, a);
    }
  }

  lemma {:induction false} SecondSaveHonest(env: Env, t: Turn, w: World, st: State)
    ensures var (w', _, outcome) := SaveAgain(env, t, w, st); SavedIfSaid(env, w'.db, outcome, Cart(env.shop, st))
  {
    CartIsOfTheLines(env.shop, st, st.(pinned := NO_ORDER, forceNew := true));
    SaveHonest(env, w.db, st.(pinned := NO_ORDER, forceNew := true), t.replies.second);
  }

  lemma {:induction false} PersistHonest(env: Env, t: Turn, w: World, st: State)
    ensures var (w', _, outcome) := PersistOrder(env, t, w, st); SavedIfSaid(env, w'.db, outcome, Cart(env.shop, st))
  {
    var one := st.(forceNew := st.pinned == NO_ORDER);
    var r := Save(env.shop, w.db, env.scope, one, t.replies.first);
    CartIsOfTheLines(env.shop, st, st.(pinned := st.pinned, forceNew := one.forceNew));
    SaveHonest(env, w.db, one, t.replies.first);
    SavedLinesAreTheCart(env, st, one, w.db, t.replies.first);
    SecondSaveHonest(env, t, w.(db := r.db, calls := w.calls + [SaveOrder(one)]), PlacedAs(st, r));
  }

  // The reply never claims what was not done: an order said to be saved is saved as the buyer
  // confirmed it, one said to be cancelled is cancelled, one passed to the team is untouched, and the
  // lists of a cancel-all are of orders that are gone, and of paid orders.
  ghost predicate ReplyIsTrue(env: Env, w: World, o: Out) {
    match o.reply
    case OrderSaved(id) => HoldsOrder(env, o.w.db, id, CartIn(env, w.state)) && w.state.Just?
    case OrderCancelled(id) => Active(w.db, env.scope, id) && |o.w.db| == |w.db| && o.w.db[id - 1].status == Cancelled
    case PassedToTeam(id) => Active(w.db, env.scope, id) && IsPaid(w.db[id - 1]) && o.w.db == w.db
    case CancelAllDone(cancelled, paid) =>
      && (forall id :: id in cancelled ==> !Active(o.w.db, env.scope, id))
      && (forall id :: id in paid ==> Active(o.w.db, env.scope, id) && IsPaid(o.w.db[id - 1]))
    case CancelAllAsked(ids) => o.w.pending == ids && |ids| >= 2 && o.w.db == w.db
    case Resumed(id) => o.w.db == w.db && o.w.state.Just? && o.w.state.value.pinned == id
    case _ => true
  }

  lemma {:induction false} NamedPaidIn(env: Env, db: Db, ids: seq<OrderId>, id: OrderId)
    ensures id in NamedPaid(env, db, ids) ==> FateOf(env, db, id) == ToTeam
  {
    if ids != [] {
      NamedPaidIn(env, db, ids[..|ids| - 1], id);
    }
  }

  lemma {:induction false} NamedCancelledIn(env: Env, db: Db, ids: seq<OrderId>, id: OrderId)
    ensures id in NamedCancelled(env, db, ids) ==>
              id in ids && (FateOf(env, db, id) == Reported || FateOf(env, db, id) == ToCancel)
  {
    if ids != [] {
      NamedCancelledIn(env, db, ids[..|ids| - 1], id);
    }
  }

  lemma {:induction false} CancelAllIsTrue(env: Env, t: Turn, w: World)
    ensures ReplyIsTrue(env, w, CancelAllConfirmed(env, t, w, w.pending))
  {
    var y := CancelEach(env, t, w.db, w.pending, w);
    CancelEachDoes(env, t, w.pending, w);
    if !y.failed {
      forall id | id in y.cancelled ensures !Active(y.w.db, env.scope, id) {
        NamedCancelledIn(env, w.db, w.pending, id);
        FateLater(env, w.db, y.w.db, w.pending, id);
        assert FateOf(env, w.db, id) == ToCancel ==> MayChange(env, w.db, w.pending, id - 1);
      }
      forall id | id in y.paid ensures Active(y.w.db, env.scope, id) && IsPaid(y.w.db[id - 1]) {
        NamedPaidIn(env, w.db, w.pending, id);
        FateLater(env, w.db, y.w.db, w.pending, id);
      }
    }
  }

  lemma {:induction false} ApprovalIsTrue(env: Env, t: Turn, w: World)
    requires w.state.Just?
    ensures ReplyIsTrue(env, w, SaveApproved(env, t, w, w.state.value))
  {
    PersistHonest(env, t, w, w.state.value);
  }

  lemma {:induction false} ConfirmIsTrue(env: Env, t: Turn, w: World)
    ensures ReplyIsTrue(env, w, ApplyConfirm(env, t, w))
  {
    var found := FindingOf(env, t, w);
    if found == Approval {
      ApprovalIsTrue(env, t, w);
    } else {
      OtherFindingIsTrue(env, t, w, if w.state.Just? then w.state.value else NoState, found);
    }
  }

  lemma {:induction false} OtherFindingIsTrue(env: Env, t: Turn, w: World, st: State, found: Finding)
    requires found != Approval
    ensures ReplyIsTrue(env, w, AfterFinding(env, t, w, st, found))
  {
  }

  lemma {:induction false} CancelIsTrue(env: Env, t: Turn, w: World)
    ensures ReplyIsTrue(env, w, ApplyCancel(env, t, w))
  {
    TargetIsActive(env, t, w);
  }

  lemma {:induction false} DispatchIsTrue(env: Env, t: Turn, w: World)
    ensures ReplyIsTrue(env, w, Dispatch(env, t, w))
  {
    match t.plan.intent
    case ConfirmIntent => ConfirmIsTrue(env, t, w);
    case CancelIntent => CancelIsTrue(env, t, w);
    case ContinueOrder => ContinueIsTrue(env, t, w);
    case _ =>
  }

  lemma {:induction false} ContinueIsTrue(env: Env, t: Turn, w: World)
    ensures ReplyIsTrue(env, w, ApplyContinue(env, t, w))
  {
    var p := ContinueTarget(env, t, w);
    ContinuedIsActive(env, t, w);
    if p != NO_ORDER && StateFromOpenOrder(env.shop, w.db[p - 1], p).Just? {
      ContinuedCheckout(env.shop, w.db[p - 1], p);
    }
  }

  lemma {:induction false} SameTruth(env: Env, w: World, w': World, o: Out, o': Out)
    requires ReplyIsTrue(env, w', o) && o'.w == o.w && o'.reply == o.reply && w'.db == w.db && w'.state == w.state
    ensures ReplyIsTrue(env, w, o')
  {
  }

  lemma {:induction false} RepliesAreTrue(env: Env, t: Turn, w: World)
    ensures ReplyIsTrue(env, w, ApplyIntent(env, t, w))
  {
    if ConfirmsAll(t, w) {
      var o := CancelAllConfirmed(env, t, w, w.pending);
      CancelAllIsTrue(env, t, w);
      HandoffAddsSteps(t, o);
      SameTruth(env, w, w, o, ApplyHandoff(t, o));
    } else {
      var w' := QuestionDropped(t, w);
      var o := Dispatch(env, t, w');
      DispatchIsTrue(env, t, w');
      HandoffAddsSteps(t, o.(ran := o.ran || ChangesCart(t)));
      SameTruth(env, w, w', o, o);
      SameTruth(env, w, w', o, ApplyHandoff(t, o.(ran := o.ran || ChangesCart(t))));
    }
  }
}
