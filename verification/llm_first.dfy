/**
  One turn of the LLM-first pipeline (ai/llm_first.go, ai/llm_first_effects.go, ai/llm_first_turn.go,
  ai/llm_first_plan.go): what the code does with the model's decision. The decision itself, the
  keyword checks on the buyer's words and the answers of Redis and the database are inputs.
 */
module LlmFirst {
  import opened Writes
  import opened Checkout
  import opened OrderStore

  const MAX_LISTED: nat := 10

  // The shop's keyword lists, whose conversation this is, and the order number of an id.
  datatype Env = Env(shop: Shop, scope: Scope, number: OrderId -> string)

  datatype Intent = OrderIntent | AmendIntent | FieldAnswer | ConfirmIntent | CancelIntent | ContinueOrder
                  | NewOrder | StatusQuestion | HumanRequest | OtherIntent

  datatype Handoff = NoHandoff | Note | Takeover

  // An accepted decision, with the cart its operations lead to and the number of those that were refused.
  datatype Plan = Plan(intent: Intent, cancelAll: bool, cart: seq<CartLine>, changed: bool, refused: nat,
                       offers: bool, handoff: Handoff)

  // How Redis, the database and the channel answer in this turn. `cancel` is the answer to the
  // cancellation of an order; `first` and `second` are those of the first and the second save.
  datatype Replies = Replies(pendingRead: bool, ask: Sql, cleared: bool, clearedAfter: bool, cancel: OrderId -> Sql,
                             first: Answers, second: Answers, paused: bool, sent: bool)

  // `explicitOk` and `ref` are what the keyword checks find in the buyer's words: an explicit OK,
  // and the order number named ("" for none).
  datatype Turn = Turn(plan: Plan, explicitOk: bool, ref: string, buyer: Buyer, fields: Maybe<Fields>,
                       isPart: (string, string) -> bool, catalog: seq<Row>, replies: Replies)

  datatype Call = CancelOrder(id: OrderId) | SaveOrder(st: State) | SaveDraft(st: State) | TellOwner

  // `pending` holds the orders a "cancel all?" question waits on; `calls` what this turn asked for.
  datatype World = World(db: Db, state: Maybe<State>, pending: seq<OrderId>, paused: bool, calls: seq<Call>)

  datatype Reply = ModelText | FieldProgress(field: Field) | SummaryShown | NotReady(field: Field) | VariantAsked
                 | SystemBusy | OrderSaved(id: OrderId) | OrderCancelled(id: OrderId) | PassedToTeam(id: OrderId)
                 | PickList | CancelAllAsked(ids: seq<OrderId>)
                 | CancelAllDone(cancelled: seq<OrderId>, paid: seq<OrderId>) | Resumed(id: OrderId)

  // What runs after the reply has been sent, once a cart to save as a draft has been saved.
  datatype Later = DropState | DropPending | TellLater | PauseLater

  datatype Out = Out(w: World, reply: Reply, ran: bool, draft: Maybe<State>, later: seq<Later>, failed: bool)

  function Plain(w: World, reply: Reply): Out {
    Out(w, reply, false, Nothing, [], false)
  }

  // The outcome of a step of its own that worked.
  function Ran(w: World, reply: Reply, later: seq<Later>): Out {
    Out(w, reply, true, Nothing, later, false)
  }

  // The error a job retries.
  function Fails(w: World): Out {
    Out(w, ModelText, false, Nothing, [], true)
  }

  // ── orders as the turn sees them ───────────────────────────────────────────

  // lfOrderIsPaid
  predicate IsPaid(o: Order) {
    o.status != Draft || o.pay == ProofSubmitted || o.pay == Verified
  }

  // lfUnfinishedSnapshot
  predicate Unfinished(o: Order) {
    o.status != Cancelled && o.status != Shipped && o.status != Completed
  }

  predicate Waiting(db: Db, scope: Scope, id: OrderId) {
    Active(db, scope, id) && Unfinished(db[id - 1])
  }

  function UnfinishedBelow(db: Db, scope: Scope, n: nat): seq<OrderId>
    requires n <= |db|
  {
    if n == 0 then []
    else if Waiting(db, scope, n) then [n] + UnfinishedBelow(db, scope, n - 1)
    else UnfinishedBelow(db, scope, n - 1)
  }

  // lfUnfinishedOrders: newest first
  function UnfinishedIds(db: Db, scope: Scope): seq<OrderId> {
    UnfinishedBelow(db, scope, |db|)
  }

  // mapUnfinishedOrders
  function OpenIds(db: Db, scope: Scope): seq<OrderId> {
    var ids := UnfinishedIds(db, scope);
    if |ids| > MAX_LISTED then ids[..MAX_LISTED] else ids
  }

  // lfFindOrderByRef: the first whose number starts with ref.
  function FindByRef(env: Env, ids: seq<OrderId>, ref: string): OrderId {
    if ids == [] then NO_ORDER
    else if ref <= env.number(ids[0]) then ids[0]
    else FindByRef(env, ids[1..], ref)
  }

  // lfFirstUnpaid
  function FirstUnpaid(db: Db, ids: seq<OrderId>): OrderId
    requires forall k :: 0 <= k < |ids| ==> 1 <= ids[k] <= |db|
  {
    if ids == [] then NO_ORDER
    else if !IsPaid(db[ids[0] - 1]) then ids[0]
    else FirstUnpaid(db, ids[1..])
  }

  function CartIn(env: Env, st: Maybe<State>): seq<CartLine> {
    if st.Nothing? then [] else Cart(env.shop, st.value)
  }

  // ── the cart ───────────────────────────────────────────────────────────────

  // lfStepReachedRecipient
  predicate ReachedRecipient(step: Step) {
    step != NoStep && step != AskProduct && step != AskVariant && step != AskQty
  }

  predicate ChangesCart(t: Turn) {
    (t.plan.intent == OrderIntent || t.plan.intent == AmendIntent) && t.plan.changed
  }

  function CartWritten(env: Env, t: Turn, w: World): State
    requires t.plan.cart != []
  {
    var st := if w.state.Just? then w.state.value else NoState;
    var next := WithCart(env.shop, st, t.plan.cart, t.catalog);
    next.(upsell := next.upsell || t.plan.offers, forceNew := next.forceNew || next.pinned == NO_ORDER)
  }

  // lfApplyCart and lfScheduleEarlyDraft
  function ApplyCart(env: Env, t: Turn, w: World): Out {
    if ChangesCart(t) then
      if t.plan.cart == [] then Plain(w.(state := Nothing), ModelText)
      else
        var next := CartWritten(env, t, w);
        var wasAsked := w.state.Just? && w.state.value.step == Confirm;
        var asksOk := next.step == Confirm && t.plan.refused == 0 && !wasAsked;
        var early := ReachedRecipient(next.step) && LinesReady(env.shop, DraftLines(env.shop, next));
        Out(w.(state := Just(next)), if asksOk then SummaryShown else ModelText, false,
            if early then Just(next) else Nothing, [], false)
    else if t.plan.offers && w.state.Just? && !w.state.value.upsell then
      Plain(w.(state := Just(w.state.value.(upsell := true))), ModelText)
    else Plain(w, ModelText)
  }

  function SaveDraftAgain(env: Env, t: Turn, w: World, st: State): World {
    var two := st.(pinned := NO_ORDER, forceNew := true);
    var r := SaveEarly(env.shop, w.db, env.scope, two, t.replies.second);
    DraftSaved(w.(db := r.db, calls := w.calls + [SaveDraft(two)]), two, r.outcome)
  }

  // lfSaveEarlyDraft
  function SaveDraftNow(env: Env, t: Turn, w: World, st: State): World {
    var pinned := st.pinned != NO_ORDER;
    var one := st.(forceNew := !pinned);
    var r := SaveEarly(env.shop, w.db, env.scope, one, t.replies.first);
    var w' := w.(db := r.db, calls := w.calls + [SaveDraft(one)]);
    if r.outcome.NeedPick? && pinned then SaveDraftAgain(env, t, w', st) else DraftSaved(w', one, r.outcome)
  }

  function DraftSaved(w: World, st: State, outcome: Outcome): World {
    match outcome
    case Failed => w.(calls := w.calls + [TellOwner])
    case Saved(id) =>
      if id == st.pinned && !st.forceNew then w else w.(state := Just(st.(pinned := id, forceNew := false)))
    case NeedPick => w
    case NothingToSave => w
  }

  // ── fields and confirmation ────────────────────────────────────────────────

  function FieldsWritten(env: Env, t: Turn, st: State): State {
    if t.fields.Nothing? then st else FieldsApplied(env.shop, t.buyer, t.fields.value, t.isPart, st)
  }

  // lfApplyFields
  function ApplyFields(env: Env, t: Turn, w: World): Out {
    if w.state.Nothing? then Plain(w, ModelText)
    else
      var st := FieldsWritten(env, t, w.state.value);
      var pending := PendingField(env.shop, st);
      Plain(w.(state := Just(st)),
            if pending == NoField then ModelText else if pending == ConfirmField then SummaryShown
            else FieldProgress(pending))
  }

  // The lines with the warehouses a save chose for them.
  function PlacedAs(st: State, r: SaveResult): State {
    if st.items != [] && r.lines != [] then st.(items := r.lines) else st
  }

  function SaveAgain(env: Env, t: Turn, w: World, st: State): (World, State, Outcome) {
    var two := st.(pinned := NO_ORDER, forceNew := true);
    var r := Save(env.shop, w.db, env.scope, two, t.replies.second);
    (w.(db := r.db, calls := w.calls + [SaveOrder(two)]), PlacedAs(st, r), r.outcome)
  }

  // lfPersistOrder: the world after the save, and the state as saved.
  function PersistOrder(env: Env, t: Turn, w: World, st: State): (World, State, Outcome) {
    var pinned := st.pinned != NO_ORDER;
    var one := st.(forceNew := !pinned);
    var r := Save(env.shop, w.db, env.scope, one, t.replies.first);
    var w' := w.(db := r.db, calls := w.calls + [SaveOrder(one)]);
    if r.outcome.NeedPick? && pinned then SaveAgain(env, t, w', PlacedAs(st, r))
    else (w', PlacedAs(st, r), r.outcome)
  }

  // lfPendingForUnconfirmed
  function PendingForUnconfirmed(env: Env, st: Maybe<State>): Field {
    if CartIn(env, st) == [] then NoField
    else
      var pending := PendingField(env.shop, st.value);
      if pending != ConfirmField && pending != NoField then pending
      else if StepAfterItems(st.value) == Confirm then NoField
      else FieldOf(StepAfterItems(st.value))
  }

  // lfAtConfirmWithShipping
  predicate AtConfirm(env: Env, st: Maybe<State>) {
    st.Just? && st.value.step == Confirm && ShippingComplete(st.value.ship) && CartIn(env, st) != []
  }

  // The approved order is saved, and its id pinned before the reply goes out.
  function SaveApproved(env: Env, t: Turn, w: World, st: State): Out {
    var (w', st', outcome) := PersistOrder(env, t, w, st);
    if outcome.Saved? then
      Ran(w'.(state := Just(st'.(pinned := outcome.id, forceNew := false))), OrderSaved(outcome.id), [DropState])
    else Plain(w', SystemBusy).(later := [TellLater])
  }

  // What a confirmation finds: nothing to confirm yet, a line that still lacks its variant, no explicit
  // OK in the buyer's words, or an approval.
  datatype Finding = NotYet(field: Field) | VariantOpen | NoExplicitOk | Approval

  function FindingOf(env: Env, t: Turn, w: World): Finding {
    if !AtConfirm(env, w.state) then NotYet(PendingForUnconfirmed(env, w.state))
    else if MissingVariant(CartIn(env, w.state)) then VariantOpen
    else if !t.explicitOk then NoExplicitOk
    else Approval
  }

  function AfterFinding(env: Env, t: Turn, w: World, st: State, found: Finding): Out {
    match found
    case NotYet(field) => Plain(w, if field == NoField then ModelText else NotReady(field))
    case VariantOpen => Plain(w.(state := Just(st.(step := AskVariant))), VariantAsked)
    case NoExplicitOk => Plain(w, SummaryShown)
    case Approval => SaveApproved(env, t, w, st)
  }

  // lfApplyConfirm
  function ApplyConfirm(env: Env, t: Turn, w: World): Out {
    AfterFinding(env, t, w, if w.state.Just? then w.state.value else NoState, FindingOf(env, t, w))
  }

  // ── cancelling ─────────────────────────────────────────────────────────────

  // One cancellation; false when the caller gets an error.
  function CancelCall(env: Env, t: Turn, w: World, id: OrderId): (World, bool) {
    var a := t.replies.cancel(id);
    (w.(db := if a == Refused then w.db else CancelRow(w.db, env.scope, id).0, calls := w.calls + [CancelOrder(id)]),
     a == Ok)
  }

  // lfPickCancelTarget
  function CancelTarget(env: Env, t: Turn, w: World): OrderId {
    var active, open := ActiveIds(w.db, env.scope), OpenIds(w.db, env.scope);
    if t.ref != "" then FindByRef(env, active, t.ref)
    else if w.state.Just? && Active(w.db, env.scope, w.state.value.pinned) then w.state.value.pinned
    else if CartIn(env, w.state) == [] && |open| == 1 then FindByRef(env, active, env.number(open[0]))
    else NO_ORDER
  }

  lemma {:induction false} FoundByRef(env: Env, ids: seq<OrderId>, ref: string)
    ensures FindByRef(env, ids, ref) != NO_ORDER ==> FindByRef(env, ids, ref) in ids
  {
    if ids != [] {
      FoundByRef(env, ids[1..], ref);
    }
  }

  lemma {:induction false} TargetIsActive(env: Env, t: Turn, w: World)
    ensures CancelTarget(env, t, w) != NO_ORDER ==> Active(w.db, env.scope, CancelTarget(env, t, w))
  {
    var active, open := ActiveIds(w.db, env.scope), OpenIds(w.db, env.scope);
    var target := CancelTarget(env, t, w);
    FoundByRef(env, active, t.ref);
    if |open| == 1 {
      FoundByRef(env, active, env.number(open[0]));
    }
    ActiveIdsAreTheActive(w.db, env.scope, target);
  }

  // lfAskCancelAll, with two or more unfinished orders
  function AskCancelAll(env: Env, t: Turn, w: World): Out {
    var ids := UnfinishedIds(w.db, env.scope);
    var w' := if t.replies.ask == Refused then w else w.(pending := ids);
    Ran(w', if t.replies.ask == Ok then CancelAllAsked(ids) else SystemBusy, [])
  }

  // A paid order goes to the team; an unpaid draft is cancelled, and a live cart of another order stays.
  function CancelSingle(env: Env, t: Turn, w: World, target: OrderId): Out
    requires Active(w.db, env.scope, target)
  {
    if IsPaid(w.db[target - 1]) then Ran(w.(calls := w.calls + [TellOwner]), PassedToTeam(target), [])
    else
      var (w', ok) := CancelCall(env, t, w, target);
      if !ok then Fails(w')
      else
        var otherCart := CartIn(env, w.state) != [] && w.state.value.pinned != target;
        Ran(if otherCart then w' else w'.(state := Nothing), OrderCancelled(target), [])
  }

  // lfApplyCancel
  function ApplyCancel(env: Env, t: Turn, w: World): Out {
    var target := CancelTarget(env, t, w);
    if t.plan.cancelAll && t.ref == "" && |UnfinishedIds(w.db, env.scope)| >= 2 then AskCancelAll(env, t, w)
    else if target == NO_ORDER then
      if t.ref == "" && CartIn(env, w.state) == [] && |OpenIds(w.db, env.scope)| >= 2 then Plain(w, PickList)
      else Plain(if t.ref == "" then w.(state := Nothing) else w, ModelText)
    else
      TargetIsActive(env, t, w);
      CancelSingle(env, t, w, target)
  }

  // What the confirmed cancel-all does with one id, from the orders loaded for the turn.
  datatype Fate = Reported | Skipped | ToTeam | ToCancel

  function FateOf(env: Env, seen: Db, id: OrderId): Fate {
    if !Active(seen, env.scope, id) then Reported
    else if !Unfinished(seen[id - 1]) then Skipped
    else if IsPaid(seen[id - 1]) then ToTeam
    else ToCancel
  }

  datatype Tally = Tally(w: World, cancelled: seq<OrderId>, paid: seq<OrderId>, dropCart: bool, failed: bool)

  function CancelOne(env: Env, t: Turn, seen: Db, y: Tally, id: OrderId): Tally {
    match FateOf(env, seen, id)
    case Reported => y.(cancelled := y.cancelled + [id])
    case Skipped => y
    case ToTeam => y.(paid := y.paid + [id])
    case ToCancel =>
      var (w', ok) := CancelCall(env, t, y.w, id);
      if !ok then y.(w := w', failed := true)
      else y.(w := w', cancelled := y.cancelled + [id],
              dropCart := y.dropCart || (y.w.state.Just? && y.w.state.value.pinned == id))
  }

  // The loop of lfApplyCancelAllConfirmed; it stops at the first failed cancellation.
  function CancelEach(env: Env, t: Turn, seen: Db, ids: seq<OrderId>, w: World): Tally {
    if ids == [] then Tally(w, [], [], false, false)
    else
      var y := CancelEach(env, t, seen, ids[..|ids| - 1], w);
      if y.failed then y else CancelOne(env, t, seen, y, ids[|ids| - 1])
  }

  // lfApplyCancelAllConfirmed
  function CancelAllConfirmed(env: Env, t: Turn, w: World, ids: seq<OrderId>): Out {
    var y := CancelEach(env, t, w.db, ids, w);
    if y.failed then Fails(y.w)
    else
      var told := if y.paid != [] then y.w.(calls := y.w.calls + [TellOwner]) else y.w;
      var some := y.cancelled != [] || y.paid != [];
      Out(if y.dropCart then told.(state := Nothing) else told,
          if some then CancelAllDone(y.cancelled, y.paid) else ModelText, some, Nothing, [DropPending], false)
  }

  // ── continue and new order ─────────────────────────────────────────────────

  lemma {:induction false} UnfinishedBelowAreWaiting(db: Db, scope: Scope, n: nat, id: OrderId)
    requires n <= |db|
    ensures id in UnfinishedBelow(db, scope, n) <==> id <= n && Waiting(db, scope, id)
  {
    if n > 0 {
      UnfinishedBelowAreWaiting(db, scope, n - 1, id);
    }
  }

  lemma {:induction false} OpenIdsAreWaiting(db: Db, scope: Scope)
    ensures var open := OpenIds(db, scope); forall k :: 0 <= k < |open| ==> Waiting(db, scope, open[k])
  {
    var open := OpenIds(db, scope);
    forall k | 0 <= k < |open| ensures Waiting(db, scope, open[k]) {
      UnfinishedBelowAreWaiting(db, scope, |db|, open[k]);
    }
  }

  // lfPickOpenOrder, then lfFindOrderByRef with its number
  function ContinueTarget(env: Env, t: Turn, w: World): OrderId {
    OpenIdsAreWaiting(w.db, env.scope);
    var open := OpenIds(w.db, env.scope);
    var picked := if t.ref != "" then FindByRef(env, open, t.ref) else FirstUnpaid(w.db, open);
    if picked == NO_ORDER then NO_ORDER else FindByRef(env, ActiveIds(w.db, env.scope), env.number(picked))
  }

  lemma {:induction false} ContinuedIsActive(env: Env, t: Turn, w: World)
    ensures ContinueTarget(env, t, w) != NO_ORDER ==> Active(w.db, env.scope, ContinueTarget(env, t, w))
  {
    var open := OpenIds(w.db, env.scope);
    OpenIdsAreWaiting(w.db, env.scope);
    var picked := if t.ref != "" then FindByRef(env, open, t.ref) else FirstUnpaid(w.db, open);
    FoundByRef(env, ActiveIds(w.db, env.scope), env.number(picked));
    ActiveIdsAreTheActive(w.db, env.scope, ContinueTarget(env, t, w));
  }

  // A draft with something left to collect becomes the live checkout.
  function Resume(env: Env, w: World, id: OrderId): Out
    requires Active(w.db, env.scope, id)
  {
    var st := StateFromOpenOrder(env.shop, w.db[id - 1], id);
    if st.Nothing? then Plain(w, ModelText) else Plain(w.(state := st), Resumed(id))
  }

  // lfApplyContinue
  function ApplyContinue(env: Env, t: Turn, w: World): Out {
    var target := ContinueTarget(env, t, w);
    if CartIn(env, w.state) != [] || target == NO_ORDER then Plain(w, ModelText)
    else
      ContinuedIsActive(env, t, w);
      Resume(env, w, target)
  }

  // ── the turn ───────────────────────────────────────────────────────────────

  function Dispatch(env: Env, t: Turn, w: World): Out {
    match t.plan.intent
    case OrderIntent => ApplyCart(env, t, w)
    case AmendIntent => ApplyCart(env, t, w)
    case FieldAnswer => ApplyFields(env, t, w)
    case ConfirmIntent => ApplyConfirm(env, t, w)
    case CancelIntent => ApplyCancel(env, t, w)
    case ContinueOrder => ApplyContinue(env, t, w)
    case NewOrder => Plain(w.(state := Nothing), ModelText)
    case StatusQuestion => Plain(w, ModelText)
    case HumanRequest => Plain(w, ModelText)
    case OtherIntent => Plain(w, ModelText)
  }

  function HandoffLevel(t: Turn): Handoff {
    if t.plan.intent == HumanRequest then Takeover else t.plan.handoff
  }

  // lfApplyHandoff
  function ApplyHandoff(t: Turn, o: Out): Out {
    match HandoffLevel(t)
    case NoHandoff => o
    case Note => o.(later := o.later + [TellLater])
    case Takeover =>
      if t.plan.intent != HumanRequest && o.ran then o.(later := o.later + [TellLater])
      else o.(later := o.later + [PauseLater, TellLater])
  }

  predicate AsksAll(t: Turn) {
    t.plan.intent == CancelIntent && t.plan.cancelAll
  }

  function PendingSeen(t: Turn, w: World): seq<OrderId> {
    if t.replies.pendingRead then w.pending else []
  }

  // A stored "cancel all?" question is there, and the turn is the buyer's yes to it.
  predicate ConfirmsAll(t: Turn, w: World) {
    PendingSeen(t, w) != [] && (t.plan.intent == ConfirmIntent || AsksAll(t)) && t.explicitOk
  }

  // The world in which an ordinary intent is applied: a pending question is dropped unless it is
  // asked again.
  function QuestionDropped(t: Turn, w: World): World {
    if PendingSeen(t, w) != [] && !AsksAll(t) && t.replies.cleared then w.(pending := []) else w
  }

  // lfApplyIntent
  function ApplyIntent(env: Env, t: Turn, w: World): Out {
    if ConfirmsAll(t, w) then
      var o := CancelAllConfirmed(env, t, w, w.pending);
      if o.failed then o else ApplyHandoff(t, o)
    else
      var o := Dispatch(env, t, QuestionDropped(t, w));
      if o.failed then o else ApplyHandoff(t, o.(ran := o.ran || ChangesCart(t)))
  }

  function RunLater(t: Turn, w: World, step: Later): World {
    match step
    case DropState => w.(state := Nothing)
    case DropPending => if t.replies.clearedAfter then w.(pending := []) else w
    case TellLater => w.(calls := w.calls + [TellOwner])
    case PauseLater => if t.replies.paused then w.(paused := true) else w
  }

  function RunAll(t: Turn, w: World, steps: seq<Later>): World {
    if steps == [] then w
    else RunLater(t, RunAll(t, w, steps[..|steps| - 1]), steps[|steps| - 1])
  }

  function DraftAfterSend(env: Env, t: Turn, w: World, draft: Maybe<State>): World {
    if draft.Just? then SaveDraftNow(env, t, w, draft.value) else w
  }

  // runLLMFirst from the first write on: the effects, the send, and what runs after it.
  function RunTurn(env: Env, t: Turn, w: World): World {
    var o := ApplyIntent(env, t, w.(calls := []));
    if o.failed || !t.replies.sent then o.w else RunAll(t, DraftAfterSend(env, t, o.w, o.draft), o.later)
  }

  // ── runs ───────────────────────────────────────────────────────────────────

  // A turn whose decision is applied; one without a usable decision, with whether its reply could be
  // sent; one that something else answers (the order-status handler, the quota or the language
  // question); or anything outside this pipeline between two turns: the shop's staff, payments, the
  // older chat flow, and the expiry of the pending question.
  datatype Event = Applied(turn: Turn) | FellBack(sent: bool) | AnsweredElsewhere
                 | Outside(db: Db, state: Maybe<State>, expired: bool)

  // lfHoldConfirm: at the confirm step the summary is shown again and the owner told. At any other step
  // the older flow takes the turn.
  function Held(env: Env, w: World, sent: bool): World {
    if AtConfirm(env, w.state) && sent then w.(calls := [TellOwner]) else w.(calls := [])
  }

  function Next(env: Env, w: World, e: Event): World {
    match e
    case Applied(t) => RunTurn(env, t, w)
    case FellBack(sent) => Held(env, w, sent)
    case AnsweredElsewhere => w.(calls := [])
    case Outside(db, state, expired) =>
      w.(db := db, state := state, pending := if expired then [] else w.pending, calls := [])
  }

  ghost predicate ValidRun(env: Env, ws: seq<World>, es: seq<Event>) {
    && |ws| == |es| + 1
    && forall k :: 0 <= k < |es| ==> ws[k + 1] == Next(env, ws[k], es[k])
  }
}
