/**
  The handlers of ai/llm_first_effects.go as they run: each writes through the effects of the turn
  (the order table, the checkout state, the pending question), step by step. Every method is proved to
  do what the function of LlmFirst with the same name says.
 */
module LlmFirstSteps {
  import opened Writes
  import opened Checkout
  import opened OrderStore
  import opened LlmFirst
  import OrderTable
  import CheckoutSteps

  class Conversation {
    const env: Env
    const table: OrderTable.OrderTable
    var state: Maybe<State>
    var pending: seq<OrderId>
    var paused: bool
    var calls: seq<Call>

    constructor (env: Env, table: OrderTable.OrderTable, state: Maybe<State>, pending: seq<OrderId>, paused: bool)
      ensures this.env == env && this.table == table
      ensures World() == LlmFirst.World(table.rows, state, pending, paused, [])
    {
      this.env, this.table := env, table;
      this.state, this.pending, this.paused, calls := state, pending, paused, [];
    }

    ghost function World(): World
      reads this, table
    {
      LlmFirst.World(table.rows, state, pending, paused, calls)
    }

    predicate Valid() {
      table.scope == env.scope
    }

    // The state to store for a non-empty cart. Without a pinned draft it is marked for a new row.
    method NewState(t: Turn) returns (st: State)
      requires t.plan.cart != []
      ensures st == CartWritten(env, t, World())
    {
      var next := CheckoutSteps.StateWithCart(env.shop, state, t.plan.cart, t.catalog);
      st := next.value;
      if t.plan.offers {
        st := st.(upsell := true);
      }
      if st.pinned == NO_ORDER {
        st := st.(forceNew := true);
      }
    }

    method ApplyCart(t: Turn) returns (reply: Reply, draft: Maybe<State>)
      modifies this
      ensures Out(World(), reply, false, draft, [], false) == LlmFirst.ApplyCart(env, t, old(World()))
    {
      reply, draft := ModelText, Nothing;
      if ChangesCart(t) {
        if t.plan.cart == [] {
          state := Nothing;
          return;
        }
        var st := NewState(t);
        if st.step == Confirm && t.plan.refused == 0 && (state.Nothing? || state.value.step != Confirm) {
          reply := SummaryShown;
        }
        state := Just(st);
        if ReachedRecipient(st.step) && LinesReady(env.shop, DraftLines(env.shop, st)) {
          draft := Just(st);
        }
      } else if t.plan.offers && state.Just? && !state.value.upsell {
        state := Just(state.value.(upsell := true));
      }
    }

    method SaveDraftNow(t: Turn, draft: State)
      requires Valid()
      modifies this, table
      ensures World() == LlmFirst.SaveDraftNow(env, t, old(World()), draft)
    {
      var st := draft.(forceNew := draft.pinned == NO_ORDER);
      calls := calls + [SaveDraft(st)];
      var outcome, lines := table.PersistDraftEarly(env.shop, st, t.replies.first);
      if outcome.NeedPick? && draft.pinned != NO_ORDER {
        st := st.(pinned := NO_ORDER, forceNew := true);
        calls := calls + [SaveDraft(st)];
        outcome, lines := table.PersistDraftEarly(env.shop, st, t.replies.second);
      }
      if outcome.Failed? {
        calls := calls + [TellOwner];
        return;
      }
      if !outcome.Saved? || (outcome.id == st.pinned && !st.forceNew) {
        return;
      }
      state := Just(st.(pinned := outcome.id, forceNew := false));
    }

    method AnswerFields(t: Turn, st: State) returns (filled: State)
      ensures filled == FieldsWritten(env, t, st)
    {
      filled := st;
      if t.fields.Just? {
        var cart := CartFromState(env.shop, st);
        var form := new CheckoutSteps.Form(st);
        form.ApplyFieldAnswer(env.shop, t.buyer, t.fields.value, t.isPart, st, cart);
        filled := st.(ship := form.ship, step := form.step);
      }
    }

    method ApplyFields(t: Turn) returns (reply: Reply)
      modifies this
      ensures Plain(World(), reply) == LlmFirst.ApplyFields(env, t, old(World()))
    {
      reply := ModelText;
      if state.Nothing? {
        return;
      }
      var st := AnswerFields(t, state.value);
      state := Just(st);
      var field := PendingField(env.shop, st);
      if field == ConfirmField {
        reply := SummaryShown;
      } else if field != NoField {
        reply := FieldProgress(field);
      }
    }

    method PersistOrder(t: Turn, st: State) returns (saved: State, outcome: Outcome)
      requires Valid()
      modifies this`calls, table
      ensures (World(), saved, outcome) == LlmFirst.PersistOrder(env, t, old(World()), st)
    {
      var lines;
      var one := st.(forceNew := st.pinned == NO_ORDER);
      calls := calls + [SaveOrder(one)];
      outcome, lines := table.PersistDraft(env.shop, one, t.replies.first);
      saved := if st.items != [] && lines != [] then st.(items := lines) else st;
      if outcome.NeedPick? && st.pinned != NO_ORDER {
        var two := saved.(pinned := NO_ORDER, forceNew := true);
        calls := calls + [SaveOrder(two)];
        outcome, lines := table.PersistDraft(env.shop, two, t.replies.second);
        saved := if saved.items != [] && lines != [] then saved.(items := lines) else saved;
      }
    }

    method ApplyConfirm(t: Turn) returns (reply: Reply, ran: bool, later: seq<Later>)
      requires Valid()
      modifies this, table
      ensures Out(World(), reply, ran, Nothing, later, false) == LlmFirst.ApplyConfirm(env, t, old(World()))
    {
      reply, ran, later := ModelText, false, [];
      if !AtConfirm(env, state) {
        var field := PendingForUnconfirmed(env, state);
        if field != NoField {
          reply := NotReady(field);
        }
        return;
      }
      var next := state.value;
      if MissingVariant(Cart(env.shop, next)) {
        state := Just(next.(step := AskVariant));
        return VariantAsked, false, [];
      }
      if !t.explicitOk {
        return SummaryShown, false, [];
      }
      var saved, outcome := PersistOrder(t, next);
      if !outcome.Saved? {
        return SystemBusy, false, [TellLater];
      }
      state := Just(saved.(pinned := outcome.id, forceNew := false));
      return OrderSaved(outcome.id), true, [DropState];
    }

    method CancelCall(t: Turn, id: OrderId) returns (ok: bool)
      requires Valid()
      modifies this`calls, table
      ensures (World(), ok) == LlmFirst.CancelCall(env, t, old(World()), id)
    {
      calls := calls + [CancelOrder(id)];
      var answer := t.replies.cancel(id);
      if answer != Refused {
        var _ := table.Cancel(id);
      }
      ok := answer == Ok;
    }

    method AskCancelAll(t: Turn, ids: seq<OrderId>) returns (reply: Reply)
      requires ids == UnfinishedIds(table.rows, env.scope)
      modifies this`pending
      ensures Ran(World(), reply, []) == LlmFirst.AskCancelAll(env, t, old(World()))
    {
      if t.replies.ask != Refused {
        pending := ids;
      }
      reply := if t.replies.ask == Ok then CancelAllAsked(ids) else SystemBusy;
    }

    method ApplyCancel(t: Turn) returns (reply: Reply, ran: bool, failed: bool)
      requires Valid()
      modifies this, table
      ensures Out(World(), reply, ran, Nothing, [], failed) == LlmFirst.ApplyCancel(env, t, old(World()))
    {
      reply, ran, failed := ModelText, false, false;
      var unfinished := UnfinishedOf(table.rows, env.scope);
      if t.plan.cancelAll && t.ref == "" && |unfinished| >= 2 {
        reply := AskCancelAll(t, unfinished);
        return reply, true, false;
      }
      ghost var before := World();
      var target := CancelTarget(env, t, LlmFirst.World(table.rows, state, pending, paused, calls));
      TargetIsActive(env, t, before);
      if target == NO_ORDER {
        if t.ref == "" && CartIn(env, state) == [] && |OpenIds(table.rows, env.scope)| >= 2 {
          return PickList, false, false;
        }
        if t.ref == "" {
          state := Nothing;
        }
        return;
      }
      if IsPaid(table.rows[target - 1]) {
        calls := calls + [TellOwner];
        return PassedToTeam(target), true, false;
      }
      var ok := CancelCall(t, target);
      if !ok {
        return ModelText, false, true;
      }
      if CartIn(env, state) == [] || state.value.pinned == target {
        state := Nothing;
      }
      return OrderCancelled(target), true, false;
    }

    // `seen` are the orders loaded for the turn.
    method CancelAllConfirmed(t: Turn, ids: seq<OrderId>)
      returns (reply: Reply, ran: bool, later: seq<Later>, failed: bool)
      requires Valid()
      modifies this, table
      ensures Out(World(), reply, ran, Nothing, later, failed) == LlmFirst.CancelAllConfirmed(env, t, old(World()), ids)
    {
      var seen := table.rows;
      ghost var before := World();
      var cancelled: seq<OrderId>, paid: seq<OrderId>, dropCart := [], [], false;
      for i := 0 to |ids|
        invariant Tally(World(), cancelled, paid, dropCart, false) == CancelEach(env, t, seen, ids[..i], before)
      {
        var id := ids[i];
        assert ids[..i + 1][..i] == ids[..i];
        match FateOf(env, seen, id) {
          case Reported => cancelled := cancelled + [id];
          case Skipped =>
          case ToTeam => paid := paid + [id];
          case ToCancel =>
            var ok := CancelCall(t, id);
            if !ok {
              FailedOnTheWay(env, t, seen, ids, before, i + 1);
              return ModelText, false, [], true;
            }
            cancelled := cancelled + [id];
            if state.Just? && state.value.pinned == id {
              dropCart := true;
            }
        }
      }
      assert ids[..|ids|] == ids;
      if paid != [] {
        calls := calls + [TellOwner];
      }
      if dropCart {
        state := Nothing;
      }
      ran := cancelled != [] || paid != [];
      reply := if ran then CancelAllDone(cancelled, paid) else ModelText;
      later, failed := [DropPending], false;
    }

    // The draft to continue, as the checkout it becomes; nothing if there is none or a cart is live.
    method DraftToContinue(t: Turn) returns (target: OrderId, st: Maybe<State>)
      ensures target == ContinueTarget(env, t, World()) && st == ContinuedState(env, t, World())
    {
      var w := LlmFirst.World(table.rows, state, pending, paused, calls);
      assert w == World();
      ContinuedIsActive(env, t, w);
      target := ContinueTarget(env, t, w);
      if CartIn(env, w.state) != [] || target == NO_ORDER {
        return target, Nothing;
      }
      st := StateFromOpenOrder(env.shop, w.db[target - 1], target);
    }

    method ApplyContinue(t: Turn) returns (reply: Reply)
      modifies this`state
      ensures Plain(World(), reply) == LlmFirst.ApplyContinue(env, t, old(World()))
    {
      Continues(env, t, World());
      reply := ModelText;
      var target, st := DraftToContinue(t);
      if st.Nothing? {
        return;
      }
      state := st;
      reply := Resumed(target);
    }

    method Dispatch(t: Turn) returns (reply: Reply, ran: bool, draft: Maybe<State>, later: seq<Later>, failed: bool)
      requires Valid()
      modifies this, table
      ensures Out(World(), reply, ran, draft, later, failed) == LlmFirst.Dispatch(env, t, old(World()))
    {
      reply, ran, draft, later, failed := ModelText, false, Nothing, [], false;
      match t.plan.intent {
        case OrderIntent => reply, draft := ApplyCart(t);
        case AmendIntent => reply, draft := ApplyCart(t);
        case FieldAnswer => reply := ApplyFields(t);
        case ConfirmIntent => reply, ran, later := ApplyConfirm(t);
        case CancelIntent => reply, ran, failed := ApplyCancel(t);
        case ContinueOrder => reply := ApplyContinue(t);
        case NewOrder => state := Nothing;
        case StatusQuestion =>
        case HumanRequest =>
        case OtherIntent =>
      }
    }

    // lfApplyHandoff: the steps to run after the send
    method ApplyHandoff(t: Turn, ran: bool, later: seq<Later>, ghost o: Out) returns (after: seq<Later>)
      requires o.ran == ran && o.later == later
      ensures o.(later := after) == LlmFirst.ApplyHandoff(t, o)
    {
      var level := HandoffLevel(t);
      if level == NoHandoff {
        return later;
      }
      if level == Takeover && (t.plan.intent == HumanRequest || !ran) {
        return later + [PauseLater, TellLater];
      }
      after := later + [TellLater];
    }

    method ApplyIntent(t: Turn) returns (reply: Reply, ran: bool, draft: Maybe<State>, later: seq<Later>, failed: bool)
      requires Valid()
      modifies this, table
      ensures Out(World(), reply, ran, draft, later, failed) == LlmFirst.ApplyIntent(env, t, old(World()))
    {
      draft := Nothing;
      var loaded := if t.replies.pendingRead then pending else [];
      if loaded != [] {
        if (t.plan.intent == ConfirmIntent || AsksAll(t)) && t.explicitOk {
          reply, ran, later, failed := CancelAllConfirmed(t, loaded);
          if !failed {
            later := ApplyHandoff(t, ran, later, Out(World(), reply, ran, draft, later, failed));
          }
          return;
        }
        if !AsksAll(t) && t.replies.cleared {
          pending := [];
        }
      }
      reply, ran, draft, later, failed := Dispatch(t);
      if failed {
        return;
      }
      if ChangesCart(t) {
        ran := true;
      }
      later := ApplyHandoff(t, ran, later, Out(World(), reply, ran, draft, later, failed));
    }

    method RunAfter(t: Turn, later: seq<Later>)
      modifies this
      ensures World() == RunAll(t, old(World()), later)
    {
      ghost var before := World();
      for i := 0 to |later|
        invariant World() == RunAll(t, before, later[..i])
      {
        assert later[..i + 1][..i] == later[..i];
        match later[i] {
          case DropState => state := Nothing;
          case DropPending =>
            if t.replies.clearedAfter {
              pending := [];
            }
          case TellLater => calls := calls + [TellOwner];
          case PauseLater =>
            if t.replies.paused {
              paused := true;
            }
        }
      }
      assert later[..|later|] == later;
    }

    // `sent` is whether the buyer got the reply.
    method RunTurn(t: Turn) returns (sent: bool)
      requires Valid()
      modifies this, table
      ensures World() == LlmFirst.RunTurn(env, t, old(World()))
      ensures sent == (!LlmFirst.ApplyIntent(env, t, old(World()).(calls := [])).failed && t.replies.sent)
    {
      calls := [];
      var reply, ran, draft, later, failed := ApplyIntent(t);
      if failed || !t.replies.sent {
        return false;
      }
      if draft.Just? {
        SaveDraftNow(t, draft.value);
      }
      RunAfter(t, later);
      return true;
    }
  }

  function ContinuedState(env: Env, t: Turn, w: World): Maybe<State> {
    var target := ContinueTarget(env, t, w);
    ContinuedIsActive(env, t, w);
    if CartIn(env, w.state) != [] || target == NO_ORDER then Nothing
    else StateFromOpenOrder(env.shop, w.db[target - 1], target)
  }

  // What a continue comes to.
  lemma {:induction false} Continues(env: Env, t: Turn, w: World)
    ensures var st := ContinuedState(env, t, w);
            ApplyContinue(env, t, w) ==
            if st.Nothing? then Plain(w, ModelText)
            else Plain(w.(state := st), Resumed(ContinueTarget(env, t, w)))
  {
    ContinuedIsActive(env, t, w);
  }

  method UnfinishedOf(rows: Db, scope: Scope) returns (ids: seq<OrderId>)
    ensures ids == UnfinishedIds(rows, scope)
  {
    ids := [];
    var i := |rows|;
    while i > 0
      invariant 0 <= i <= |rows|
      invariant ids + UnfinishedBelow(rows, scope, i) == UnfinishedIds(rows, scope)
    {
      if Waiting(rows, scope, i) {
        ids := ids + [i];
      }
      i := i - 1;
    }
  }

  lemma {:induction false} FailedOnTheWay(env: Env, t: Turn, seen: Db, ids: seq<OrderId>, w: World, n: nat)
    requires n <= |ids| && CancelEach(env, t, seen, ids[..n], w).failed
    ensures CancelEach(env, t, seen, ids, w) == CancelEach(env, t, seen, ids[..n], w)
  {
    if n < |ids| {
      assert ids[..|ids| - 1][..n] == ids[..n];
      FailedOnTheWay(env, t, seen, ids[..|ids| - 1], w, n);
    } else {
      assert ids[..n] == ids;
    }
  }
}
