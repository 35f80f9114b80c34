/**
  Runs of the LLM-first pipeline in which it does other than its own comments say: a declined "cancel all?"
  question that is answered after all, and an approved order that is refused.
 */
module LlmFirstLimits {
  import opened Text
  import opened Writes
  import opened Checkout
  import opened OrderStore
  import opened LlmFirst
  import opened LlmFirstConsent
  import opened LlmFirstServed

  const GoodSave := Answers((l: Line) => Keep, true, Ok, Ok, true, Ok)
  const GoodReplies := Replies(true, Ok, true, true, (id: OrderId) => Ok, GoodSave, GoodSave, true, true)

  // A turn of the given decision that changes no cart, and in which the buyer's words name no order.
  function Decided(b: Buyer, intent: Intent, cancelAll: bool, explicitOk: bool, replies: Replies): Turn {
    var plan := Plan(intent, cancelAll, [], false, 0, false, NoHandoff);
    Turn(plan, explicitOk, "", b, Nothing, (a, b) => false, [], replies)
  }

  // ── a declined question, answered after all ────────────────────────────────

  function EmptyDraft(scope: Scope): Order {
    NewDraft(scope, [], NoShipping)
  }

  function TwoDrafts(scope: Scope): Db {
    [EmptyDraft(scope), EmptyDraft(scope)]
  }

  // "Cancel all", a question on something else, and the OK.
  function DeclineRun(b: Buyer, replies: Replies): seq<Event> {
    [Applied(Decided(b, CancelIntent, true, false, GoodReplies)),
     Applied(Decided(b, OtherIntent, false, false, replies)),
     Applied(Decided(b, ConfirmIntent, false, true, GoodReplies))]
  }

  lemma {:induction false} TwoToAskAbout(scope: Scope)
    ensures UnfinishedIds(TwoDrafts(scope), scope) == [2, 1]
  {
    var db := TwoDrafts(scope);
    assert Waiting(db, scope, 2) && Waiting(db, scope, 1);
    assert UnfinishedBelow(db, scope, 0) == [];
    assert UnfinishedBelow(db, scope, 1) == [1];
  }

  // The world after each turn: the question is asked, and waits although the buyer moved on.
  lemma {:induction false} QuestionAsked(env: Env, b: Buyer, w: World)
    requires w.db == TwoDrafts(env.scope) && w.pending == []
    ensures RunTurn(env, Decided(b, CancelIntent, true, false, GoodReplies), w) == w.(pending := [2, 1], calls := [])
  {
    TwoToAskAbout(env.scope);
  }

  lemma {:induction false} QuestionLeft(env: Env, b: Buyer, w: World, replies: Replies)
    ensures RunTurn(env, Decided(b, OtherIntent, false, false, replies), w) ==
            w.(pending := if replies.pendingRead && replies.cleared then [] else w.pending, calls := [])
  {
  }

  // The loop over the two drafts.
  lemma {:induction false} BothCancelled(env: Env, t: Turn, w: World)
    requires w.db == TwoDrafts(env.scope) && w.calls == [] && t.replies.cancel(1) == Ok && t.replies.cancel(2) == Ok
    ensures var y := CancelEach(env, t, w.db, [2, 1], w);
            !y.failed && y.paid == [] && y.cancelled == [2, 1] && y.w.calls == [CancelOrder(2), CancelOrder(1)]
  {
    var seen := w.db;
    assert FateOf(env, seen, 2) == ToCancel && FateOf(env, seen, 1) == ToCancel;
    assert [2, 1][..1] == [2] && [2][..0] == [];
    assert CancelEach(env, t, seen, [], w) == Tally(w, [], [], false, false);
    var one := CancelEach(env, t, seen, [2], w);
    assert one == CancelOne(env, t, seen, CancelEach(env, t, seen, [], w), 2);
    assert CancelEach(env, t, seen, [2, 1], w) == CancelOne(env, t, seen, one, 1);
  }

  lemma {:induction false} OkCancelsBoth(env: Env, b: Buyer, w: World)
    requires w.db == TwoDrafts(env.scope) && w.pending == [2, 1]
    ensures RunTurn(env, Decided(b, ConfirmIntent, false, true, GoodReplies), w).calls ==
            [CancelOrder(2), CancelOrder(1)]
  {
    var t := Decided(b, ConfirmIntent, false, true, GoodReplies);
    BothCancelled(env, t, w.(calls := []));
    var o := CancelAllConfirmed(env, t, w.(calls := []), w.pending);
    assert ApplyIntent(env, t, w.(calls := [])) == o;
    assert o.later == [DropPending] && [DropPending][..0] == [];
    assert RunAll(t, o.w, []) == o.w;
    assert RunAll(t, o.w, o.later) == RunLater(t, o.w, DropPending);
  }

  // Without a question the OK is about the checkout, and cancels nothing.
  lemma {:induction false} OkCancelsNothing(env: Env, b: Buyer, w: World)
    requires w.pending == []
    ensures Cancels(RunTurn(env, Decided(b, ConfirmIntent, false, true, GoodReplies), w).calls) == []
  {
    var t, start := Decided(b, ConfirmIntent, false, true, GoodReplies), w.(calls := []);
    ConfirmTurnCalls(env, t, start);
    var o := ApplyIntent(env, t, start);
    assert AllPermitted(env, t, start, o.w.calls) && o.draft.Nothing?;
    LaterCalls(env, t, start, o.w, o.later);
  }

  lemma {:induction false} ThreeEvents(env: Env, w0: World, w1: World, w2: World, w3: World, es: seq<Event>)
    requires |es| == 3 && w1 == Next(env, w0, es[0]) && w2 == Next(env, w1, es[1]) && w3 == Next(env, w2, es[2])
    ensures ValidRun(env, [w0, w1, w2, w3], es)
  {
    var ws := [w0, w1, w2, w3];
    forall k | 0 <= k < 3 ensures ws[k + 1] == Next(env, ws[k], es[k]) {
      assert k == 0 || k == 1 || k == 2;
    }
  }

  // A buyer with two unpaid drafts asks to cancel all and moves on. When Redis cannot read the question in
  // that turn, or cannot drop it, and only then, the buyer's later OK, also one that approves the summary of
  // a checkout at the confirm step, cancels both drafts and saves nothing.
  lemma {:induction false} DeclinedQuestionIsAnswered(env: Env, b: Buyer, st: Maybe<State>, replies: Replies)
    ensures var es := DeclineRun(b, replies); var w0 := World(TwoDrafts(env.scope), st, [], false, []);
            var w1 := Next(env, w0, es[0]); var w2 := Next(env, w1, es[1]); var w3 := Next(env, w2, es[2]);
            && ValidRun(env, [w0, w1, w2, w3], es) && w2.state == st
            && (if replies.pendingRead && replies.cleared then Cancels(w3.calls) == []
                else w3.calls == [CancelOrder(2), CancelOrder(1)])
  {
    var es := DeclineRun(b, replies);
    var w0 := World(TwoDrafts(env.scope), st, [], false, []);
    QuestionAsked(env, b, w0);
    QuestionLeft(env, b, w0.(pending := [2, 1]), replies);
    var w1 := Next(env, w0, es[0]);
    var w2 := Next(env, w1, es[1]);
    var w3 := Next(env, w2, es[2]);
    if replies.pendingRead && replies.cleared {
      OkCancelsNothing(env, b, w2);
    } else {
      OkCancelsBoth(env, b, w2);
    }
    ThreeEvents(env, w0, w1, w2, w3, es);
  }

  // ── an approved order that is refused ──────────────────────────────────────

  const Address := Shipping("B", "0", "J", "", "", "", "", "C", "P", "12345", "")
  const Bag := Line("p", "", "T", "M", "", 1, 10.0, "", "")

  // A line the summary leaves out, and one it shows although no product of the catalog is known.
  const NoPieces := Bag.(qty := 0)
  const NoProduct := Bag.(item := "")

  function AtTheSummary(extra: Line): State {
    NoState.(step := Confirm, items := [Bag, extra], single := Bag, ship := Address)
  }

  function Yes(b: Buyer): Turn {
    Decided(b, ConfirmIntent, false, true, GoodReplies)
  }

  lemma {:induction false} SummaryOf(env: Env, extra: Line)
    requires extra == NoPieces || extra == NoProduct
    ensures var cart := Cart(env.shop, AtTheSummary(extra));
            cart != [] && !MissingVariant(cart) && (extra == NoPieces ==> cart == [CartLineOf(env.shop, Bag)])
  {
    var lines := [Bag, extra];
    assert lines[..1] == [Bag] && [Bag][..0] == [];
    assert CartOfLines(env.shop, []) == [];
    assert CartOfLines(env.shop, [Bag]) == [] + [CartLineOf(env.shop, Bag)];
    var cart := CartOfLines(env.shop, lines);
    var one := CartLineOf(env.shop, Bag);
    assert !one.missing && !MissingVariant([]);
    assert [one][..0] == [];
    assert !MissingVariant([one]);
    if extra == NoProduct {
      var two := CartLineOf(env.shop, extra);
      assert cart == [one] + [two] && ([one] + [two])[..1] == [one];
      assert !two.missing;
    }
  }

  lemma {:induction false} ExtraLineIsNotReady(shop: Shop, extra: Line)
    requires extra == NoPieces || extra == NoProduct
    ensures !LinesReady(shop, DraftLines(shop, AtTheSummary(extra)))
  {
    var lines := DraftLines(shop, AtTheSummary(extra));
    assert lines[1] == extra && !LineReady(shop, lines[1]);
  }

  lemma {:induction false} AddressIsComplete()
    ensures ShippingComplete(Address)
  {
    assert |Address.postal| == 5;
  }

  // A checkout whose summary the buyer approves and whose save is refused although nothing fails, in every
  // shop and over every table: one stored line has no pieces, or no product. The checkout stays as it is, so
  // the same is true of every further OK.
  lemma {:induction false} ApprovedOrderIsRefused(env: Env, b: Buyer, w: World, extra: Line)
    requires extra == NoPieces || extra == NoProduct
    requires w.state == Just(AtTheSummary(extra)) && w.pending == []
    ensures Works(Yes(b).replies.first) && Works(Yes(b).replies.second)
    ensures FindingOf(env, Yes(b), w) == Approval && !Savable(env.shop, w.state.value)
    ensures ApplyConfirm(env, Yes(b), w).reply == SystemBusy
    ensures var w' := RunTurn(env, Yes(b), w); w'.db == w.db && w'.state == w.state && w'.pending == []
  {
    AddressIsComplete();
    SummaryOf(env, extra);
    ExtraLineIsNotReady(env.shop, extra);
    ApprovedOrderIsSaved(env, Yes(b), w);
    RefusedTurn(env, Yes(b), w);
  }

  lemma {:induction false} RefusedSave(env: Env, t: Turn, w: World, st: State)
    requires !LinesReady(env.shop, DraftLines(env.shop, st)) && st.pinned == NO_ORDER
    ensures var (w', st', outcome) := PersistOrder(env, t, w, st);
            outcome == Failed && w'.db == w.db && w'.state == w.state && w'.pending == w.pending
  {
    var one := st.(forceNew := true);
    assert DraftLines(env.shop, one) == DraftLines(env.shop, st);
  }

  lemma {:induction false} RefusedTurn(env: Env, t: Turn, w: World)
    requires t.plan == Plan(ConfirmIntent, false, [], false, 0, false, NoHandoff) && w.pending == []
    requires FindingOf(env, t, w) == Approval && w.state.value.pinned == NO_ORDER
    requires !LinesReady(env.shop, DraftLines(env.shop, w.state.value))
    ensures var w' := RunTurn(env, t, w); w'.db == w.db && w'.state == w.state && w'.pending == []
  {
    var start := w.(calls := []);
    RefusedSave(env, t, start, w.state.value);
    assert FindingOf(env, t, start) == Approval;
    var o := SaveApproved(env, t, start, w.state.value);
    assert ApplyConfirm(env, t, start) == o;
    OnlyTells(env, t, start, o);
  }

  lemma {:induction false} ConfirmOnly(env: Env, t: Turn, w: World, o: Out)
    requires t.plan == Plan(ConfirmIntent, false, [], false, 0, false, NoHandoff) && w.pending == []
    requires ApplyConfirm(env, t, w) == o && !o.failed
    ensures ApplyIntent(env, t, w) == o
  {
    assert QuestionDropped(t, w) == w;
    assert Dispatch(env, t, w) == o;
  }

  lemma {:induction false} OnlyTells(env: Env, t: Turn, w: World, o: Out)
    requires t.plan == Plan(ConfirmIntent, false, [], false, 0, false, NoHandoff) && w.pending == [] && w.calls == []
    requires ApplyConfirm(env, t, w) == o && !o.failed && o.later == [TellLater] && o.draft.Nothing?
    ensures var w' := RunTurn(env, t, w); w'.db == o.w.db && w'.state == o.w.state && w'.pending == o.w.pending
  {
    ConfirmOnly(env, t, w, o);
    assert w.(calls := []) == w;
    assert [TellLater][..0] == [];
    assert RunAll(t, o.w, []) == o.w;
    assert RunAll(t, o.w, [TellLater]) == RunLater(t, o.w, TellLater);
  }

  // ── an order saved with its old address ────────────────────────────────────

  // The buyer's OK on a bag, pinned to row 1, when the update of the row's address fails.
  const AddressFails := GoodReplies.(first := GoodSave.(shipping := Refused))

  function OneBag(): State {
    NoState.(step := Confirm, items := [Bag], single := Bag, ship := Address, pinned := 1)
  }

  lemma {:induction false} OneBagIsReady(env: Env, st: State)
    requires st == OneBag().(forceNew := st.forceNew)
    ensures var cart := Cart(env.shop, st); cart != [] && !MissingVariant(cart)
    ensures LinesReady(env.shop, DraftLines(env.shop, st)) && Trim(st.ship.name) != "" && Trim(st.ship.phone) != ""
  {
    assert [Bag][..0] == [];
    assert CartOfLines(env.shop, []) == [];
    assert CartOfLines(env.shop, [Bag]) == [] + [CartLineOf(env.shop, Bag)];
    var one := CartLineOf(env.shop, Bag);
    assert !one.missing && [one][..0] == [];
  }

  lemma {:induction false} OneBagIsPlaced(shop: Shop, st: State)
    requires st == OneBag().(forceNew := st.forceNew)
    ensures AllPlaced(GoodSave.stock, DraftLines(shop, st)) == Just([Bag])
  {
    assert DraftLines(shop, st) == [Bag] && [Bag][..0] == [];
    assert AllPlaced(GoodSave.stock, []) == Just([]);
    assert Placed(GoodSave.stock, Bag) == Just(Bag) && [] + [Bag] == [Bag];
  }

  lemma {:induction false} SavedWithOldAddress(env: Env, db: Db, st: State)
    requires st == OneBag() && |db| == 1 && IsDraft(db, env.scope, 1)
    ensures var r := Save(env.shop, db, env.scope, st, AddressFails.first);
            r.outcome == Saved(1) && |r.db| == 1 && r.db[0].ship == db[0].ship
  {
    AddressIsComplete();
    OneBagIsReady(env, st);
    OneBagIsPlaced(env.shop, st);
  }

  lemma {:induction false} SavedAtOnce(env: Env, t: Turn, w: World, st: State, r: SaveResult)
    requires st.pinned != NO_ORDER && r.outcome.Saved?
    requires r == Save(env.shop, w.db, env.scope, st.(forceNew := false), t.replies.first)
    ensures var o := SaveApproved(env, t, w, st); o.reply == OrderSaved(r.outcome.id) && o.w.db == r.db
  {
  }

  lemma {:induction false} OneBagIsApproved(env: Env, t: Turn, w: World)
    requires w.state == Just(OneBag()) && t.explicitOk
    ensures FindingOf(env, t, w) == Approval
  {
    AddressIsComplete();
    OneBagIsReady(env, OneBag());
  }

  lemma {:induction false} ApprovedIsSaved(env: Env, t: Turn, w: World, st: State)
    requires w.state == Just(st) && FindingOf(env, t, w) == Approval
    ensures ApplyConfirm(env, t, w) == SaveApproved(env, t, w, st)
  {
  }

  // The order is reported as saved, and its row has the address it had: an address other than the one the
  // buyer has just confirmed.
  lemma {:induction false} OldAddressIsSaved(env: Env, b: Buyer, was: Shipping, w: World)
    requires w.db == [NewDraft(env.scope, [], was)] && w.state == Just(OneBag()) && !CarriesAddress(Address, was)
    ensures var o := ApplyConfirm(env, Decided(b, ConfirmIntent, false, true, AddressFails), w);
            && o.reply == OrderSaved(1)
            && |o.w.db| == 1 && o.w.db[0].ship == was && !CarriesAddress(w.state.value.ship, was)
  {
    var t, st := Decided(b, ConfirmIntent, false, true, AddressFails), OneBag();
    var r := Save(env.shop, w.db, env.scope, st, t.replies.first);
    SavedWithOldAddress(env, w.db, st);
    OneBagIsApproved(env, t, w);
    ApprovedIsSaved(env, t, w, st);
    assert st.(forceNew := false) == st;
    SavedAtOnce(env, t, w, st, r);
  }
}
