/**
  Which cancellations and saves a turn of the LLM-first pipeline can ask for, and what the buyer has
  agreed to by then: over one turn, and over whole runs.
 */
module LlmFirstConsent {
  import opened Writes
  import opened Checkout
  import opened OrderStore
  import opened LlmFirst
  import opened LlmFirstQuestion

  // The buyer stands at the confirm step with everything complete and says OK, and the OK does not
  // answer a "cancel all?" question.
  ghost predicate SaveIsApproved(env: Env, t: Turn, w: World) {
    && t.plan.intent == ConfirmIntent && t.explicitOk && !ConfirmsAll(t, w)
    && AtConfirm(env, w.state) && !MissingVariant(Cart(env.shop, w.state.value))
  }

  // A call made in turn t that started in world w.
  ghost predicate Permitted(env: Env, t: Turn, w: World, c: Call) {
    match c
    case CancelOrder(id) => FateOf(env, w.db, id) == ToCancel
    case SaveOrder(st) =>
      SaveIsApproved(env, t, w) && st.ship == w.state.value.ship && Cart(env.shop, st) == Cart(env.shop, w.state.value)
    case SaveDraft(st) => ChangesCart(t) && !ConfirmsAll(t, w)
    case TellOwner => true
  }

  ghost predicate AllPermitted(env: Env, t: Turn, w: World, calls: seq<Call>) {
    forall k :: 0 <= k < |calls| ==> Permitted(env, t, w, calls[k])
  }

  function Cancels(calls: seq<Call>): seq<OrderId> {
    if calls == [] then []
    else
      var rest := Cancels(calls[..|calls| - 1]);
      var c := calls[|calls| - 1];
      if c.CancelOrder? then rest + [c.id] else rest
  }

  // ── one turn ───────────────────────────────────────────────────────────────

  lemma {:induction false} CancelsSnoc(calls: seq<Call>, c: Call)
    ensures Cancels(calls + [c]) == if c.CancelOrder? then Cancels(calls) + [c.id] else Cancels(calls)
  {
    assert (calls + [c])[..|calls|] == calls;
  }

  lemma {:induction false} ToCancelIsAnUnpaidDraft(env: Env, db: Db, id: OrderId)
    ensures FateOf(env, db, id) == ToCancel <==>
            IsDraft(db, env.scope, id) && db[id - 1].pay != ProofSubmitted && db[id - 1].pay != Verified
  {
  }

  ghost predicate FromPending(w: World, calls: seq<Call>) {
    forall k :: 0 <= k < |calls| ==> calls[k].CancelOrder? ==> calls[k].id in w.pending
  }

  lemma {:induction false} CancelEachCalls(env: Env, t: Turn, w: World, ids: seq<OrderId>, start: World)
    requires start.calls == [] && forall k :: 0 <= k < |ids| ==> ids[k] in w.pending
    ensures AllPermitted(env, t, w, CancelEach(env, t, w.db, ids, start).w.calls)
    ensures FromPending(w, CancelEach(env, t, w.db, ids, start).w.calls)
  {
    if ids != [] {
      CancelEachCalls(env, t, w, ids[..|ids| - 1], start);
    }
  }

  lemma {:induction false} CancelAllCalls(env: Env, t: Turn, w: World)
    ensures var o := CancelAllConfirmed(env, t, w.(calls := []), w.pending);
            AllPermitted(env, t, w, o.w.calls) && FromPending(w, o.w.calls) && o.draft.Nothing?
  {
    CancelEachCalls(env, t, w, w.pending, w.(calls := []));
  }

  lemma {:induction false} CancelSingleCalls(env: Env, t: Turn, w: World, target: OrderId)
    requires w.calls == [] && Active(w.db, env.scope, target)
    ensures var o := CancelSingle(env, t, w, target);
            AllPermitted(env, t, w, o.w.calls) && |o.w.calls| == 1 && o.draft.Nothing?
  {
    var c := if IsPaid(w.db[target - 1]) then TellOwner else CancelOrder(target);
    assert CancelSingle(env, t, w, target).w.calls == [c];
    assert Permitted(env, t, w, c);
  }

  lemma {:induction false} CancelTurnCalls(env: Env, t: Turn, w: World)
    requires w.calls == []
    ensures var o := ApplyCancel(env, t, w);
            AllPermitted(env, t, w, o.w.calls) && |o.w.calls| <= 1 && o.draft.Nothing?
  {
    TargetIsActive(env, t, w);
    var target := CancelTarget(env, t, w);
    if target != NO_ORDER {
      CancelSingleCalls(env, t, w, target);
    }
  }

  lemma {:induction false} PlacedCart(shop: Shop, lines: seq<Line>, placed: seq<Line>)
    requires SameButWarehouse(lines, placed)
    ensures CartOfLines(shop, placed) == CartOfLines(shop, lines)
  {
    if lines != [] {
      PlacedCart(shop, lines[..|lines| - 1], placed[..|placed| - 1]);
      LineBack(shop, lines[|lines| - 1], placed[|placed| - 1], "");
    }
  }

  // What a save writes is what the buyer saw: the same cart and the same address.
  lemma {:induction false} SavedLinesAreTheCart(env: Env, st: State, one: State, db: Db, a: Answers)
    requires one == st.(pinned := one.pinned, forceNew := one.forceNew)
    ensures Cart(env.shop, PlacedAs(st, Save(env.shop, db, env.scope, one, a))) == Cart(env.shop, st)
  {
    var r := Save(env.shop, db, env.scope, one, a);
    if st.items != [] && r.lines != [] {
      PlacingKeepsTheLines(env.shop, a.stock, st.items);
      PlacedCart(env.shop, st.items, AllPlaced(a.stock, st.items).value);
    }
  }

  // Every save call in `calls` is of the cart and the address of st.
  ghost predicate SavesOf(shop: Shop, st: State, calls: seq<Call>) {
    forall k :: 0 <= k < |calls| ==>
      calls[k].SaveOrder? && calls[k].st.ship == st.ship && Cart(shop, calls[k].st) == Cart(shop, st)
  }

  lemma {:induction false} SaveAgainCalls(env: Env, t: Turn, w: World, st: State, asked: State)
    requires SavesOf(env.shop, asked, w.calls) && st.ship == asked.ship && Cart(env.shop, st) == Cart(env.shop, asked)
    ensures var (w', st', outcome) := SaveAgain(env, t, w, st);
            SavesOf(env.shop, asked, w'.calls) && st'.ship == st.ship && st'.step == st.step
  {
    CartIsOfTheLines(env.shop, st, st.(pinned := NO_ORDER, forceNew := true));
  }

  lemma {:induction false} PersistCalls(env: Env, t: Turn, w: World, st: State)
    requires w.calls == []
    ensures var (w', st', outcome) := PersistOrder(env, t, w, st);
            SavesOf(env.shop, st, w'.calls) && st'.ship == st.ship && st'.step == st.step
  {
    var one := st.(forceNew := st.pinned == NO_ORDER);
    var r := Save(env.shop, w.db, env.scope, one, t.replies.first);
    CartIsOfTheLines(env.shop, st, st.(pinned := st.pinned, forceNew := one.forceNew));
    SavedLinesAreTheCart(env, st, one, w.db, t.replies.first);
    PersistCallsFrom(env, t, w, st, one, r);
  }

  lemma {:induction false} PersistCallsFrom(env: Env, t: Turn, w: World, st: State, one: State, r: SaveResult)
    requires w.calls == [] && one.ship == st.ship && Cart(env.shop, one) == Cart(env.shop, st)
    requires Cart(env.shop, PlacedAs(st, r)) == Cart(env.shop, st)
    ensures var w' := w.(db := r.db, calls := w.calls + [SaveOrder(one)]);
            var (again, st', outcome) := SaveAgain(env, t, w', PlacedAs(st, r));
            && SavesOf(env.shop, st, w'.calls) && SavesOf(env.shop, st, again.calls)
            && st'.ship == st.ship && st'.step == st.step
  {
    SaveAgainCalls(env, t, w.(db := r.db, calls := w.calls + [SaveOrder(one)]), PlacedAs(st, r), st);
  }

  lemma {:induction false} SavesArePermitted(env: Env, t: Turn, w: World, calls: seq<Call>)
    requires SaveIsApproved(env, t, w) && SavesOf(env.shop, w.state.value, calls)
    ensures AllPermitted(env, t, w, calls) && Cancels(calls) == []
  {
    NoCancels(calls);
  }

  lemma {:induction false} ApprovedCallsAreTheSaves(env: Env, t: Turn, w: World, st: State)
    ensures var o := SaveApproved(env, t, w, st);
            o.w.calls == PersistOrder(env, t, w, st).0.calls && o.draft.Nothing?
  {
  }

  lemma {:induction false} ApprovedCalls(env: Env, t: Turn, w: World)
    requires w.calls == [] && SaveIsApproved(env, t, w)
    ensures var o := SaveApproved(env, t, w, w.state.value);
            AllPermitted(env, t, w, o.w.calls) && Cancels(o.w.calls) == [] && o.draft.Nothing?
  {
    PersistCalls(env, t, w, w.state.value);
    ApprovedCallsAreTheSaves(env, t, w, w.state.value);
    SavesArePermitted(env, t, w, PersistOrder(env, t, w, w.state.value).0.calls);
  }

  lemma {:induction false} ConfirmTurnCalls(env: Env, t: Turn, w: World)
    requires w.calls == [] && t.plan.intent == ConfirmIntent && !ConfirmsAll(t, w)
    ensures var o := ApplyConfirm(env, t, w);
            AllPermitted(env, t, w, o.w.calls) && Cancels(o.w.calls) == [] && o.draft.Nothing?
  {
    if FindingOf(env, t, w) == Approval {
      ApprovedCalls(env, t, w);
    } else {
      OtherFindingCalls(env, t, w, if w.state.Just? then w.state.value else NoState, FindingOf(env, t, w));
    }
  }

  lemma {:induction false} OtherFindingCalls(env: Env, t: Turn, w: World, st: State, found: Finding)
    requires found != Approval
    ensures AfterFinding(env, t, w, st, found).w.calls == w.calls && AfterFinding(env, t, w, st, found).draft.Nothing?
  {
  }

  lemma {:induction false} NoCancels(calls: seq<Call>)
    ensures (forall k :: 0 <= k < |calls| ==> !calls[k].CancelOrder?) ==> Cancels(calls) == []
  {
    if calls != [] {
      NoCancels(calls[..|calls| - 1]);
    }
  }

  lemma {:induction false} OneMoreCall(env: Env, t: Turn, w: World, calls: seq<Call>, c: Call)
    requires AllPermitted(env, t, w, calls) && Permitted(env, t, w, c) && !c.CancelOrder?
    ensures AllPermitted(env, t, w, calls + [c]) && Cancels(calls + [c]) == Cancels(calls)
  {
    CancelsSnoc(calls, c);
  }

  // The calls of a save in mid-checkout are permitted and hold no cancellation.
  ghost predicate KeepsCalls(env: Env, t: Turn, w: World, before: seq<Call>, after: seq<Call>) {
    AllPermitted(env, t, w, after) && Cancels(after) == Cancels(before)
  }

  lemma {:induction false} DraftSavedCalls(env: Env, t: Turn, w: World, now: World, st: State, outcome: Outcome)
    requires AllPermitted(env, t, w, now.calls)
    ensures KeepsCalls(env, t, w, now.calls, DraftSaved(now, st, outcome).calls)
  {
    OneMoreCall(env, t, w, now.calls, TellOwner);
  }

  lemma {:induction false} DraftAgainCalls(env: Env, t: Turn, w: World, now: World, st: State)
    requires AllPermitted(env, t, w, now.calls) && ChangesCart(t) && !ConfirmsAll(t, w)
    ensures KeepsCalls(env, t, w, now.calls, SaveDraftAgain(env, t, now, st).calls)
  {
    var two := st.(pinned := NO_ORDER, forceNew := true);
    var r := SaveEarly(env.shop, now.db, env.scope, two, t.replies.second);
    OneMoreCall(env, t, w, now.calls, SaveDraft(two));
    DraftSavedCalls(env, t, w, now.(db := r.db, calls := now.calls + [SaveDraft(two)]), two, r.outcome);
  }

  lemma {:induction false} DraftCalls(env: Env, t: Turn, w: World, now: World, st: State)
    requires AllPermitted(env, t, w, now.calls) && ChangesCart(t) && !ConfirmsAll(t, w)
    ensures KeepsCalls(env, t, w, now.calls, SaveDraftNow(env, t, now, st).calls)
  {
    var one := st.(forceNew := st.pinned == NO_ORDER);
    var r := SaveEarly(env.shop, now.db, env.scope, one, t.replies.first);
    var next := now.(db := r.db, calls := now.calls + [SaveDraft(one)]);
    OneMoreCall(env, t, w, now.calls, SaveDraft(one));
    DraftSavedCalls(env, t, w, next, one, r.outcome);
    DraftAgainCalls(env, t, w, next, st);
  }

  lemma {:induction false} LaterCalls(env: Env, t: Turn, w: World, now: World, steps: seq<Later>)
    requires AllPermitted(env, t, w, now.calls)
    ensures KeepsCalls(env, t, w, now.calls, RunAll(t, now, steps).calls)
  {
    if steps != [] {
      var before := RunAll(t, now, steps[..|steps| - 1]);
      LaterCalls(env, t, w, now, steps[..|steps| - 1]);
      OneMoreCall(env, t, w, before.calls, TellOwner);
    }
  }

  // What holds after the effects of a turn, before anything deferred runs.
  ghost predicate EffectsOk(env: Env, t: Turn, w: World, o: Out) {
    && AllPermitted(env, t, w, o.w.calls)
    && (if ConfirmsAll(t, w) then FromPending(w, o.w.calls) else |Cancels(o.w.calls)| <= 1)
    && (o.draft.Just? ==> ChangesCart(t) && !ConfirmsAll(t, w))
  }

  lemma {:induction false} FewCancels(calls: seq<Call>)
    ensures |Cancels(calls)| <= |calls|
  {
    if calls != [] {
      FewCancels(calls[..|calls| - 1]);
    }
  }

  lemma {:induction false} DispatchCalls(env: Env, t: Turn, w: World)
    requires w.calls == [] && !ConfirmsAll(t, w)
    ensures EffectsOk(env, t, w, Dispatch(env, t, w))
  {
    match t.plan.intent
    case ConfirmIntent => ConfirmTurnCalls(env, t, w);
    case CancelIntent =>
      CancelTurnCalls(env, t, w);
      FewCancels(ApplyCancel(env, t, w).w.calls);
    case _ =>
  }

  lemma {:induction false} DroppedQuestionCalls(env: Env, t: Turn, w: World, o: Out)
    requires !ConfirmsAll(t, w) && EffectsOk(env, t, QuestionDropped(t, w), o)
    ensures EffectsOk(env, t, w, o)
  {
    forall k | 0 <= k < |o.w.calls| ensures Permitted(env, t, w, o.w.calls[k]) {
      assert Permitted(env, t, QuestionDropped(t, w), o.w.calls[k]);
    }
  }

  lemma {:induction false} HandoffKeepsEffects(env: Env, t: Turn, w: World, o: Out, ran: bool)
    requires EffectsOk(env, t, w, o)
    ensures EffectsOk(env, t, w, ApplyHandoff(t, o.(ran := ran)))
  {
  }

  lemma {:induction false} ConfirmedCalls(env: Env, t: Turn, w: World)
    requires w.calls == [] && ConfirmsAll(t, w)
    ensures EffectsOk(env, t, w, CancelAllConfirmed(env, t, w, w.pending))
  {
    assert w.(calls := []) == w;
    CancelAllCalls(env, t, w);
  }

  lemma {:induction false} IntentCalls(env: Env, t: Turn, w: World)
    requires w.calls == []
    ensures EffectsOk(env, t, w, ApplyIntent(env, t, w))
  {
    if ConfirmsAll(t, w) {
      var o := CancelAllConfirmed(env, t, w, w.pending);
      ConfirmedCalls(env, t, w);
      HandoffKeepsEffects(env, t, w, o, o.ran);
    } else {
      var o := Dispatch(env, t, QuestionDropped(t, w));
      DispatchCalls(env, t, QuestionDropped(t, w));
      DroppedQuestionCalls(env, t, w, o);
      HandoffKeepsEffects(env, t, w, o, o.ran || ChangesCart(t));
    }
  }

  lemma {:induction false} SameStart(env: Env, t: Turn, w: World, o: Out)
    requires EffectsOk(env, t, w.(calls := []), o)
    ensures EffectsOk(env, t, w, o)
  {
    forall k | 0 <= k < |o.w.calls| ensures Permitted(env, t, w, o.w.calls[k]) {
      assert Permitted(env, t, w.(calls := []), o.w.calls[k]);
    }
  }

  lemma {:induction false} PendingCancels(w: World, calls: seq<Call>, id: OrderId)
    requires FromPending(w, calls) && id in Cancels(calls)
    ensures id in w.pending
  {
    if id !in Cancels(calls[..|calls| - 1]) {
    } else {
      PendingCancels(w, calls[..|calls| - 1], id);
    }
  }

  // One turn, whatever the model decided and whatever fails: every cancellation is of one of the
  // buyer's loaded orders that is a draft without a submitted or verified proof; an order is saved
  // only with the buyer's approval, and is what the buyer saw; and two or more orders are cancelled
  // only by a turn that answers a "cancel all?" question with an explicit OK, and only from the
  // orders stored with the question.
  lemma {:induction false} TurnConsent(env: Env, t: Turn, w: World)
    ensures var calls := RunTurn(env, t, w).calls;
            && AllPermitted(env, t, w, calls)
            && (!ConfirmsAll(t, w) ==> |Cancels(calls)| <= 1)
            && (ConfirmsAll(t, w) ==> t.explicitOk && forall id :: id in Cancels(calls) ==> id in w.pending)
  {
    var o := ApplyIntent(env, t, w.(calls := []));
    IntentCalls(env, t, w.(calls := []));
    SameStart(env, t, w, o);
    if ConfirmsAll(t, w) {
      forall id | id in Cancels(o.w.calls) ensures id in w.pending {
        PendingCancels(w, o.w.calls, id);
      }
    }
    var drafted := DraftAfterSend(env, t, o.w, o.draft);
    if o.draft.Just? {
      DraftCalls(env, t, w, o.w, o.draft.value);
    }
    LaterCalls(env, t, w, drafted, o.later);
  }

  // ── whole runs ─────────────────────────────────────────────────────────────

  // The event leaves the stored question waiting: a turn that neither settled it nor stored another one, or
  // an event that is no turn of this pipeline.
  ghost predicate LeavesQuestion(env: Env, w: World, e: Event) {
    match e
    case Applied(t) => !Stores(env, t, w) && Leaves(env, t, w)
    case FellBack(_) => true
    case AnsweredElsewhere => true
    case Outside(_, _, expired) => !expired
  }

  // A cancel-all turn stores the ids of the buyer's unfinished orders, two or more.
  ghost predicate Asks(env: Env, w: World, e: Event, pending: seq<OrderId>) {
    e.Applied? && Stores(env, e.turn, w) && pending == UnfinishedIds(w.db, env.scope)
  }

  // The orders asked about in event j are those that still wait at ws[i].
  ghost predicate AskedAt(env: Env, ws: seq<World>, es: seq<Event>, j: nat, i: nat)
    requires |ws| == |es| + 1 && j < i < |ws|
  {
    && Asks(env, ws[j], es[j], ws[i].pending)
    && forall k :: j < k < i ==> LeavesQuestion(env, ws[k], es[k])
  }

  // The question waiting after an event: none, the one from before it, or a new one.
  ghost predicate QuestionStep(env: Env, w: World, e: Event, pending: seq<OrderId>) {
    pending == [] || (pending == w.pending && LeavesQuestion(env, w, e)) || Asks(env, w, e, pending)
  }

  lemma {:induction false} PendingAfterEvent(env: Env, w: World, e: Event)
    ensures QuestionStep(env, w, e, Next(env, w, e).pending)
  {
    if e.Applied? {
      TurnQuestion(env, e.turn, w);
    }
  }

  lemma {:induction false} PendingInARun(env: Env, ws: seq<World>, es: seq<Event>)
    requires ValidRun(env, ws, es)
    ensures forall k :: 0 <= k < |es| ==> QuestionStep(env, ws[k], es[k], ws[k + 1].pending)
  {
    forall k | 0 <= k < |es| ensures QuestionStep(env, ws[k], es[k], ws[k + 1].pending) {
      PendingAfterEvent(env, ws[k], es[k]);
    }
  }

  lemma {:induction false} PendingComesFromAQuestion(env: Env, ws: seq<World>, es: seq<Event>, i: nat)
    requires |ws| == |es| + 1 && ws[0].pending == [] && i < |ws| && ws[i].pending != []
    requires forall k :: 0 <= k < |es| ==> QuestionStep(env, ws[k], es[k], ws[k + 1].pending)
    ensures exists j: nat :: j < i && AskedAt(env, ws, es, j, i)
  {
    var p := i - 1;
    assert QuestionStep(env, ws[p], es[p], ws[p + 1].pending);
    if Asks(env, ws[p], es[p], ws[i].pending) {
      assert AskedAt(env, ws, es, p, i);
    } else {
      PendingComesFromAQuestion(env, ws, es, p);
      var j: nat :| j < p && AskedAt(env, ws, es, j, p);
      assert AskedAt(env, ws, es, j, i);
    }
  }

  // Over every run that starts without a pending question: a turn that cancels two or more orders
  // does so on an explicit OK, and every order it cancels was among the unfinished orders of an
  // earlier turn that stored the "cancel all?" question, with nothing in between but events that leave
  // the question waiting.
  lemma {:induction false} ConsentOverRuns(env: Env, ws: seq<World>, es: seq<Event>, i: nat)
    requires ValidRun(env, ws, es) && ws[0].pending == [] && i < |es|
    requires |Cancels(ws[i + 1].calls)| >= 2
    ensures es[i].Applied? && es[i].turn.explicitOk
    ensures exists j: nat :: j < i && AskedAt(env, ws, es, j, i)
              && forall id :: id in Cancels(ws[i + 1].calls) ==> id in UnfinishedIds(ws[j].db, env.scope)
  {
    assert ws[i + 1] == Next(env, ws[i], es[i]);
    TurnConsent(env, es[i].turn, ws[i]);
    PendingInARun(env, ws, es);
    PendingComesFromAQuestion(env, ws, es, i);
  }

  // Redis, the database and the channel answer every call of the turn that concerns the question.
  ghost predicate AnswersWell(t: Turn) {
    && t.replies.pendingRead && t.replies.cleared && t.replies.clearedAfter && t.replies.sent
    && forall id :: t.replies.cancel(id) == Ok
  }

  lemma {:induction false} CancelEachGoesThrough(env: Env, t: Turn, seen: Db, ids: seq<OrderId>, w: World)
    requires AnswersWell(t)
    ensures !CancelEach(env, t, seen, ids, w).failed
  {
    if ids != [] {
      CancelEachGoesThrough(env, t, seen, ids[..|ids| - 1], w);
    }
  }

  // Another cancel-all request, which names one order or finds fewer than two to ask about.
  predicate AsksForLess(env: Env, t: Turn, w: World) {
    && AsksAll(t) && !ConfirmsAll(t, w)
    && (t.ref != "" || |UnfinishedIds(w.db, env.scope)| < 2 || t.replies.ask == Refused)
  }

  lemma {:induction false} OnlyAskingLeaves(env: Env, w: World, e: Event)
    requires LeavesQuestion(env, w, e) && e.Applied? && AnswersWell(e.turn)
    ensures AsksForLess(env, e.turn, w)
  {
    CancelEachGoesThrough(env, e.turn, w.db, w.pending, w.(calls := []));
  }

  // When Redis, the database and the channel answer, nothing but a further cancel-all request stands between
  // the question and the explicit OK that cancels: no other turn of the pipeline, and no expiry.
  lemma {:induction false} ConsentWhenRedisAnswers(env: Env, ws: seq<World>, es: seq<Event>, i: nat)
    requires ValidRun(env, ws, es) && ws[0].pending == [] && i < |es|
    requires forall k :: 0 <= k < |es| && es[k].Applied? ==> AnswersWell(es[k].turn)
    requires |Cancels(ws[i + 1].calls)| >= 2
    ensures es[i].Applied? && es[i].turn.explicitOk
    ensures exists j: nat :: j < i && Asks(env, ws[j], es[j], ws[i].pending)
              && (forall k :: j < k < i ==> es[k].Applied? ==> AsksForLess(env, es[k].turn, ws[k]))
              && (forall k :: j < k < i ==> es[k].Outside? ==> !es[k].expired)
              && forall id :: id in Cancels(ws[i + 1].calls) ==> id in UnfinishedIds(ws[j].db, env.scope)
  {
    ConsentOverRuns(env, ws, es, i);
    var j: nat :| j < i && AskedAt(env, ws, es, j, i)
                  && forall id :: id in Cancels(ws[i + 1].calls) ==> id in UnfinishedIds(ws[j].db, env.scope);
    forall k | j < k < i && es[k].Applied? ensures AsksForLess(env, es[k].turn, ws[k]) {
      OnlyAskingLeaves(env, ws[k], es[k]);
    }
  }

  // Over every run, every cancellation and every save is permitted by the applied turn that makes it, and
  // the owner is told of a turn without a decision only when it was answered at the confirm step.
  lemma {:induction false} CallsOverRuns(env: Env, ws: seq<World>, es: seq<Event>, i: nat)
    requires ValidRun(env, ws, es) && i < |es|
    ensures if es[i].Applied? then AllPermitted(env, es[i].turn, ws[i], ws[i + 1].calls)
            else ws[i + 1].calls == if es[i] == FellBack(true) && AtConfirm(env, ws[i].state) then [TellOwner] else []
  {
    assert ws[i + 1] == Next(env, ws[i], es[i]);
    if es[i].Applied? {
      TurnConsent(env, es[i].turn, ws[i]);
    }
  }
}
