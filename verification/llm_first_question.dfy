/**
  The stored "cancel all?" question of a conversation (ai/llm_first_effects.go, ai/llm_first.go): which
  question waits after a turn, for every decision and every failed call.
 */
module LlmFirstQuestion {
  import opened Writes
  import opened Checkout
  import opened OrderStore
  import opened LlmFirst

  // The answer to the question did not get as far as dropping it.
  predicate Unsettled(env: Env, t: Turn, w: World) {
    CancelAllConfirmed(env, t, w.(calls := []), w.pending).failed || !t.replies.sent || !t.replies.clearedAfter
  }

  // A cancel-all turn that stores a question of its own.
  predicate Stores(env: Env, t: Turn, w: World) {
    AsksAll(t) && !ConfirmsAll(t, w) && t.ref == "" && |UnfinishedIds(w.db, env.scope)| >= 2 && t.replies.ask != Refused
  }

  // The turn leaves the stored question waiting: its answer did not get through, it is another cancel-all
  // request, or Redis could not read or could not drop the question.
  predicate Leaves(env: Env, t: Turn, w: World) {
    if ConfirmsAll(t, w) then Unsettled(env, t, w)
    else AsksAll(t) || !t.replies.pendingRead || !t.replies.cleared
  }

  // The question after a turn: a new one, the one from before, or none.
  function QuestionAfter(env: Env, t: Turn, w: World): seq<OrderId> {
    if Stores(env, t, w) then UnfinishedIds(w.db, env.scope)
    else if Leaves(env, t, w) then w.pending
    else []
  }

  lemma {:induction false} CancelEachKeepsPending(env: Env, t: Turn, seen: Db, ids: seq<OrderId>, w: World)
    ensures CancelEach(env, t, seen, ids, w).w.pending == w.pending
  {
    if ids != [] {
      CancelEachKeepsPending(env, t, seen, ids[..|ids| - 1], w);
    }
  }

  // The steps after the send do not drop the question.
  ghost predicate KeepsQuestion(w: World, pending: seq<OrderId>, o: Out) {
    o.w.pending == pending && DropPending !in o.later
  }

  lemma {:induction false} FindingKeepsQuestion(env: Env, t: Turn, w: World, st: State, found: Finding)
    ensures KeepsQuestion(w, w.pending, AfterFinding(env, t, w, st, found))
  {
  }

  // The question after a cancel request that does not answer one.
  function AskedBy(env: Env, t: Turn, w: World): seq<OrderId> {
    if AsksAll(t) && t.ref == "" && |UnfinishedIds(w.db, env.scope)| >= 2 && t.replies.ask != Refused
    then UnfinishedIds(w.db, env.scope)
    else w.pending
  }

  lemma {:induction false} DispatchQuestion(env: Env, t: Turn, w: World)
    ensures KeepsQuestion(w, AskedBy(env, t, w), Dispatch(env, t, w))
  {
    match t.plan.intent
    case ConfirmIntent =>
      FindingKeepsQuestion(env, t, w, if w.state.Just? then w.state.value else NoState, FindingOf(env, t, w));
    case CancelIntent =>
      TargetIsActive(env, t, w);
      var target := CancelTarget(env, t, w);
      if target != NO_ORDER {
        assert KeepsQuestion(w, w.pending, CancelSingle(env, t, w, target));
      }
    case _ =>
  }

  // Saving a cart as a draft leaves the question and the pause alone.
  ghost predicate SameQuestion(w: World, w': World) {
    w'.pending == w.pending && w'.paused == w.paused
  }

  lemma {:induction false} DraftAgainKeepsQuestion(env: Env, t: Turn, w: World, st: State)
    ensures SameQuestion(w, SaveDraftAgain(env, t, w, st))
  {
    var two := st.(pinned := NO_ORDER, forceNew := true);
    var r := SaveEarly(env.shop, w.db, env.scope, two, t.replies.second);
    assert SameQuestion(w, DraftSaved(w.(db := r.db, calls := w.calls + [SaveDraft(two)]), two, r.outcome));
  }

  lemma {:induction false} DraftKeepsQuestion(env: Env, t: Turn, w: World, draft: Maybe<State>)
    ensures SameQuestion(w, DraftAfterSend(env, t, w, draft))
  {
    if draft.Just? {
      var one := draft.value.(forceNew := draft.value.pinned == NO_ORDER);
      var r := SaveEarly(env.shop, w.db, env.scope, one, t.replies.first);
      var next := w.(db := r.db, calls := w.calls + [SaveDraft(one)]);
      assert SameQuestion(w, DraftSaved(next, one, r.outcome));
      DraftAgainKeepsQuestion(env, t, next, draft.value);
    }
  }

  lemma {:induction false} LaterQuestion(t: Turn, w: World, steps: seq<Later>)
    ensures RunAll(t, w, steps).pending == if DropPending in steps && t.replies.clearedAfter then [] else w.pending
  {
    if steps != [] {
      LaterQuestion(t, w, steps[..|steps| - 1]);
      assert steps == steps[..|steps| - 1] + [steps[|steps| - 1]];
    }
  }

  lemma {:induction false} HandoffKeepsLater(t: Turn, o: Out)
    ensures DropPending in ApplyHandoff(t, o).later <==> DropPending in o.later
    ensures ApplyHandoff(t, o).w == o.w && ApplyHandoff(t, o).failed == o.failed && ApplyHandoff(t, o).draft == o.draft
  {
  }

  // Its effects leave the question to the steps after the send, which drop it exactly when it is answered.
  lemma {:induction false} IntentQuestion(env: Env, t: Turn, w: World)
    ensures var o := ApplyIntent(env, t, w);
            if ConfirmsAll(t, w) then
              && o.w.pending == w.pending && o.failed == CancelAllConfirmed(env, t, w, w.pending).failed
              && (!o.failed ==> DropPending in o.later)
            else KeepsQuestion(w, AskedBy(env, t, QuestionDropped(t, w)), o)
  {
    if ConfirmsAll(t, w) {
      CancelEachKeepsPending(env, t, w.db, w.pending, w);
      HandoffKeepsLater(t, CancelAllConfirmed(env, t, w, w.pending));
    } else {
      var o := Dispatch(env, t, QuestionDropped(t, w));
      DispatchQuestion(env, t, QuestionDropped(t, w));
      HandoffKeepsLater(t, o.(ran := o.ran || ChangesCart(t)));
    }
  }

  // Which question waits after a turn, for any decision and any failure.
  lemma {:induction false} TurnQuestion(env: Env, t: Turn, w: World)
    ensures RunTurn(env, t, w).pending == QuestionAfter(env, t, w)
  {
    var start := w.(calls := []);
    var o := ApplyIntent(env, t, start);
    IntentQuestion(env, t, start);
    DraftKeepsQuestion(env, t, o.w, o.draft);
    LaterQuestion(t, DraftAfterSend(env, t, o.w, o.draft), o.later);
  }

  // A declined question survives exactly when Redis could not read it or could not drop it.
  lemma {:induction false} DeclinedQuestionSurvivesIff(env: Env, t: Turn, w: World)
    requires w.pending != [] && !AsksAll(t) && !ConfirmsAll(t, w)
    ensures RunTurn(env, t, w).pending == if !t.replies.pendingRead || !t.replies.cleared then w.pending else []
    ensures RunTurn(env, t, w).pending == w.pending <==> !t.replies.pendingRead || !t.replies.cleared
  {
    TurnQuestion(env, t, w);
  }

  // An answered question survives exactly when a cancellation failed, the reply was not sent, or Redis could
  // not drop it.
  lemma {:induction false} AnsweredQuestionSurvivesIff(env: Env, t: Turn, w: World)
    requires ConfirmsAll(t, w)
    ensures RunTurn(env, t, w).pending == if Unsettled(env, t, w) then w.pending else []
    ensures RunTurn(env, t, w).pending == w.pending <==>
              || CancelEach(env, t, w.db, w.pending, w.(calls := [])).failed
              || !t.replies.sent || !t.replies.clearedAfter
  {
    TurnQuestion(env, t, w);
  }
}
