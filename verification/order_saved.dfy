/**
  What the rows of the order table hold after a save, and a checkout after it is rebuilt from one, field by
  field; and how a save ends for each answer of the database (ai/order_flow.go, ai/order_amend.go).
 */
module OrderSaved {
  import opened Writes
  import opened Text
  import opened Checkout
  import opened OrderStore

  // ── the saved items ────────────────────────────────────────────────────────

  // The warehouse a line is saved with: the stock guard's choice, if it made one.
  function ChosenWarehouse(answer: Stock, l: Line): string {
    if answer.From? && answer.warehouse != "" then answer.warehouse else l.warehouse
  }

  // The item holds everything the line says.
  predicate HoldsLine(shop: Shop, stock: Line -> Stock, freeText: string, l: Line, i: Item) {
    && i.item == l.item && i.code == l.code && i.name == l.name && i.size == l.size && i.color == l.color
    && i.qty == l.qty as real && i.price == l.price && i.unit == l.unit
    && i.warehouse == Trim(ChosenWarehouse(stock(l), l))
    && i.variant == (var named := shop.variantLabel(l.size, l.color); if named != "" then named else Trim(freeText))
  }

  ghost predicate HoldsLines(shop: Shop, stock: Line -> Stock, freeText: string, lines: seq<Line>, items: seq<Item>) {
    |items| == |lines| && forall k :: 0 <= k < |lines| ==> HoldsLine(shop, stock, freeText, lines[k], items[k])
  }

  lemma {:induction false} OneMoreHeld(shop: Shop, stock: Line -> Stock, freeText: string, lines: seq<Line>,
                                       items: seq<Item>, l: Line, i: Item)
    requires HoldsLines(shop, stock, freeText, lines, items) && HoldsLine(shop, stock, freeText, l, i)
    ensures HoldsLines(shop, stock, freeText, lines + [l], items + [i])
  {
  }

  lemma {:induction false} PlacedHoldsLine(shop: Shop, stock: Line -> Stock, freeText: string, l: Line)
    requires Placed(stock, l).Just? && l.qty >= 1
    ensures HoldsLine(shop, stock, freeText, l, ItemOf(shop, Placed(stock, l).value, freeText))
  {
  }

  lemma {:induction false} ItemsHoldTheLines(shop: Shop, stock: Line -> Stock, freeText: string, lines: seq<Line>)
    requires LinesReady(shop, lines) && AllPlaced(stock, lines).Just?
    ensures HoldsLines(shop, stock, freeText, lines, ItemsOf(shop, AllPlaced(stock, lines).value, freeText))
  {
    if lines != [] {
      var n := |lines| - 1;
      var placed := AllPlaced(stock, lines[..n]).value;
      assert LineReady(shop, lines[n]);
      ItemsHoldTheLines(shop, stock, freeText, lines[..n]);
      PlacedHoldsLine(shop, stock, freeText, lines[n]);
      OneMoreHeld(shop, stock, freeText, lines[..n], ItemsOf(shop, placed, freeText), lines[n],
                  ItemOf(shop, Placed(stock, lines[n]).value, freeText));
      assert lines[..n] + [lines[n]] == lines;
      LastItem(shop, placed, Placed(stock, lines[n]).value, freeText);
    }
  }

  lemma {:induction false} LastItem(shop: Shop, lines: seq<Line>, l: Line, freeText: string)
    ensures ItemsOf(shop, lines + [l], freeText) == ItemsOf(shop, lines, freeText) + [ItemOf(shop, l, freeText)]
  {
    assert (lines + [l])[..|lines|] == lines;
  }

  // The lines as a save leaves them: the same ones, at the warehouses the stock guard chose.
  ghost predicate AtTheirWarehouses(stock: Line -> Stock, lines: seq<Line>, placed: seq<Line>) {
    && |placed| == |lines|
    && forall k :: 0 <= k < |lines| ==>
         placed[k] == lines[k].(warehouse := ChosenWarehouse(stock(lines[k]), lines[k]))
  }

  lemma {:induction false} PlacedAtTheirWarehouses(stock: Line -> Stock, lines: seq<Line>)
    requires AllPlaced(stock, lines).Just?
    ensures AtTheirWarehouses(stock, lines, AllPlaced(stock, lines).value)
  {
    if lines != [] {
      PlacedAtTheirWarehouses(stock, lines[..|lines| - 1]);
    }
  }

  // ── how a write ends ───────────────────────────────────────────────────────

  // The draft the save is pinned to, if it is still one and the save may use it.
  predicate UsesPin(db: Db, scope: Scope, pin: OrderId, force: bool) {
    !force && IsDraft(db, scope, pin)
  }

  ghost predicate SomeDraft(db: Db, scope: Scope) {
    exists id: OrderId :: IsDraft(db, scope, id)
  }

  lemma {:induction false} DraftsAreCounted(db: Db, scope: Scope)
    ensures Drafts(db, scope) > 0 <==> SomeDraft(db, scope)
  {
    if db != [] {
      var front := db[..|db| - 1];
      DraftsAreCounted(front, scope);
      forall id: OrderId | id < |db| ensures IsDraft(front, scope, id) == IsDraft(db, scope, id) {
      }
      if SomeDraft(front, scope) {
        var id: OrderId :| IsDraft(front, scope, id);
        assert IsDraft(db, scope, id);
      }
      if SomeDraft(db, scope) && !SomeDraft(front, scope) {
        var id: OrderId :| IsDraft(db, scope, id);
        assert id < |db| ==> IsDraft(front, scope, id);
      }
    }
  }

  // Whether the questions to the database that come before the write are answered.
  predicate LookedUp(db: Db, scope: Scope, pin: OrderId, force: bool, a: Answers) {
    force || ((pin == NO_ORDER || a.lookup) && (IsDraft(db, scope, pin) || a.list))
  }

  // Without a usable pin a leftover draft of the buyer stands in the way, unless the save is forced.
  ghost predicate MustPick(db: Db, scope: Scope, pin: OrderId, force: bool) {
    !force && !IsDraft(db, scope, pin) && SomeDraft(db, scope)
  }

  function WriteAnswer(db: Db, scope: Scope, pin: OrderId, force: bool, a: Answers): Sql {
    if UsesPin(db, scope, pin, force) then a.update else a.insert
  }

  // The outcome says what happened: asked to pick exactly when a leftover draft is in the way, saved exactly
  // when the write was answered, failed otherwise; and the table has changed exactly when the write took place.
  ghost predicate EndsRight(db: Db, scope: Scope, pin: OrderId, force: bool, a: Answers, db': Db, outcome: Outcome) {
    var looked, pick, answer := LookedUp(db, scope, pin, force, a), MustPick(db, scope, pin, force),
                                WriteAnswer(db, scope, pin, force, a);
    && (outcome.NeedPick? <==> looked && pick)
    && (outcome.Saved? <==> looked && !pick && answer == Ok)
    && (outcome == Failed <==> !looked || (!pick && answer != Ok))
    && (!looked || pick || answer == Refused ==> db' == db)
  }

  lemma {:induction false} WriteEnds(db: Db, scope: Scope, pin: OrderId, force: bool, items: seq<Item>,
                                     update: Maybe<Shipping>, insert: Shipping, a: Answers)
    ensures var (db', outcome) := Write(db, scope, pin, force, items, update, insert, a);
            EndsRight(db, scope, pin, force, a, db', outcome)
  {
    DraftsAreCounted(db, scope);
  }

  // The row a write reaches, also one whose answer is lost: it has the items, with their sum.
  ghost predicate Written(db: Db, scope: Scope, pin: OrderId, force: bool, db': Db, items: seq<Item>) {
    var id := if UsesPin(db, scope, pin, force) then pin else |db| + 1;
    1 <= id <= |db'| && db'[id - 1].items == items && Totalled(db'[id - 1])
  }

  lemma {:induction false} WriteReachesTheRow(db: Db, scope: Scope, pin: OrderId, force: bool, items: seq<Item>,
                                              update: Maybe<Shipping>, insert: Shipping, a: Answers)
    requires LookedUp(db, scope, pin, force, a) && !MustPick(db, scope, pin, force)
    requires WriteAnswer(db, scope, pin, force, a) != Refused
    ensures Written(db, scope, pin, force, Write(db, scope, pin, force, items, update, insert, a).0, items)
  {
    DraftsAreCounted(db, scope);
  }

  // ── the two saves ──────────────────────────────────────────────────────────

  predicate Refusing(stock: Line -> Stock, l: Line) {
    stock(l).Reject?
  }

  lemma {:induction false} PlacedUnlessRefused(stock: Line -> Stock, lines: seq<Line>)
    ensures AllPlaced(stock, lines).Nothing? <==> exists k :: 0 <= k < |lines| && Refusing(stock, lines[k])
  {
    if lines != [] {
      var n := |lines| - 1;
      PlacedUnlessRefused(stock, lines[..n]);
      if k :| 0 <= k < |lines[..n]| && Refusing(stock, lines[..n][k]) {
        assert Refusing(stock, lines[k]);
      }
      if k :| 0 <= k < |lines| && Refusing(stock, lines[k]) {
        assert k < n ==> Refusing(stock, lines[..n][k]);
      }
    }
  }

  // The save of an approved order: without a ready line, a recipient or an address, or when the stock guard
  // refuses a line, nothing is written; otherwise it ends as its write does, and the row it reaches holds every
  // line of the checkout.
  lemma {:induction false} SaveEnds(shop: Shop, db: Db, scope: Scope, st: State, a: Answers)
    ensures var r := Save(shop, db, scope, st, a); var lines := DraftLines(shop, st);
            if || !LinesReady(shop, lines) || Trim(st.ship.name) == "" || Trim(st.ship.phone) == ""
               || !ShippingComplete(st.ship) || exists k :: 0 <= k < |lines| && Refusing(a.stock, lines[k])
            then r.outcome == Failed && r.db == db
            else EndsRight(db, scope, st.pinned, st.forceNew, a, r.db, r.outcome)
    ensures var r := Save(shop, db, scope, st, a);
            r.outcome.Saved? ==>
              && 1 <= r.outcome.id <= |r.db|
              && HoldsLines(shop, a.stock, FreeText(st), DraftLines(shop, st), r.db[r.outcome.id - 1].items)
  {
    var lines := DraftLines(shop, st);
    PlacedUnlessRefused(a.stock, lines);
    if LinesReady(shop, lines) && AllPlaced(a.stock, lines).Just? {
      var items := ItemsOf(shop, AllPlaced(a.stock, lines).value, FreeText(st));
      var ship := Addressed(st.ship);
      ItemsHoldTheLines(shop, a.stock, FreeText(st), lines);
      WriteEnds(db, scope, st.pinned, st.forceNew, items, Just(ship), ship, a);
      WriteFrame(db, scope, st.pinned, st.forceNew, items, Just(ship), ship, a);
    }
  }

  // The save in mid-checkout: the same, but for the recipient and the address, which it does not ask for and
  // does not touch. A new draft has only a country.
  lemma {:induction false} SaveEarlyEnds(shop: Shop, db: Db, scope: Scope, st: State, a: Answers)
    ensures var r := SaveEarly(shop, db, scope, st, a); var lines := DraftLines(shop, st);
            if !LinesReady(shop, lines) then r.outcome == NothingToSave && r.db == db
            else if exists k :: 0 <= k < |lines| && Refusing(a.stock, lines[k]) then r.outcome == Failed && r.db == db
            else EndsRight(db, scope, st.pinned, st.forceNew, a, r.db, r.outcome)
    ensures var r := SaveEarly(shop, db, scope, st, a);
            r.outcome.Saved? ==>
              && 1 <= r.outcome.id <= |r.db|
              && HoldsLines(shop, a.stock, FreeText(st), DraftLines(shop, st), r.db[r.outcome.id - 1].items)
  {
    var lines := DraftLines(shop, st);
    PlacedUnlessRefused(a.stock, lines);
    if LinesReady(shop, lines) && AllPlaced(a.stock, lines).Just? {
      var items := ItemsOf(shop, AllPlaced(a.stock, lines).value, FreeText(st));
      var ship := NoShipping.(country := "Indonesia");
      ItemsHoldTheLines(shop, a.stock, FreeText(st), lines);
      WriteEnds(db, scope, st.pinned, st.forceNew, items, Nothing, ship, a);
      WriteFrame(db, scope, st.pinned, st.forceNew, items, Nothing, ship, a);
    }
  }

  lemma {:induction false} ItemsOnlyWrite(db: Db, scope: Scope, pin: OrderId, force: bool, items: seq<Item>,
                                          insert: Shipping, a: Answers)
    ensures var (db', outcome) := Write(db, scope, pin, force, items, Nothing, insert, a);
            outcome.Saved? ==>
              && 1 <= outcome.id <= |db'|
              && db'[outcome.id - 1].ship == if UsesPin(db, scope, pin, force) then db[pin - 1].ship else insert
  {
  }

  // The save in mid-checkout leaves the address of its row alone, and gives a new row only a country.
  lemma {:induction false} EarlyAddress(shop: Shop, db: Db, scope: Scope, st: State, a: Answers)
    ensures var r := SaveEarly(shop, db, scope, st, a);
            r.outcome.Saved? ==>
              && 1 <= r.outcome.id <= |r.db|
              && r.db[r.outcome.id - 1].ship ==
                 if UsesPin(db, scope, st.pinned, st.forceNew) then db[st.pinned - 1].ship
                 else NoShipping.(country := "Indonesia")
  {
    var placed := AllPlaced(a.stock, DraftLines(shop, st));
    if placed.Just? {
      ItemsOnlyWrite(db, scope, st.pinned, st.forceNew, ItemsOf(shop, placed.value, FreeText(st)),
                     NoShipping.(country := "Indonesia"), a);
    }
  }

  // A new row is the buyer's, in this conversation: an unpaid draft.
  predicate NewRow(o: Order, scope: Scope) {
    && o.conversation == scope.conversation && o.contact == scope.contact && !o.deleted
    && o.status == Draft && o.pay == Unpaid
  }

  // Every other row stays.
  ghost predicate RowAdded(db: Db, db': Db, scope: Scope) {
    |db'| == |db| + 1 && db'[..|db|] == db && NewRow(db'[|db|], scope)
  }

  lemma {:induction false} WriteAddsARow(db: Db, scope: Scope, pin: OrderId, force: bool, items: seq<Item>,
                                         update: Maybe<Shipping>, insert: Shipping, a: Answers)
    ensures var (db', outcome) := Write(db, scope, pin, force, items, update, insert, a);
            outcome.Saved? && !UsesPin(db, scope, pin, force) ==> RowAdded(db, db', scope)
  {
  }

  lemma {:induction false} SaveAddsARow(shop: Shop, db: Db, scope: Scope, st: State, a: Answers)
    ensures var r := Save(shop, db, scope, st, a);
            r.outcome.Saved? && !UsesPin(db, scope, st.pinned, st.forceNew) ==> RowAdded(db, r.db, scope)
  {
    var placed := AllPlaced(a.stock, DraftLines(shop, st));
    if placed.Just? {
      WriteAddsARow(db, scope, st.pinned, st.forceNew, ItemsOf(shop, placed.value, FreeText(st)),
                    Just(Addressed(st.ship)), Addressed(st.ship), a);
    }
  }

  lemma {:induction false} SaveEarlyAddsARow(shop: Shop, db: Db, scope: Scope, st: State, a: Answers)
    ensures var r := SaveEarly(shop, db, scope, st, a);
            r.outcome.Saved? && !UsesPin(db, scope, st.pinned, st.forceNew) ==> RowAdded(db, r.db, scope)
  {
    var placed := AllPlaced(a.stock, DraftLines(shop, st));
    if placed.Just? {
      WriteAddsARow(db, scope, st.pinned, st.forceNew, ItemsOf(shop, placed.value, FreeText(st)), Nothing,
                    NoShipping.(country := "Indonesia"), a);
    }
  }

  // ── whose orders, and cancelling one ───────────────────────────────────────

  // The row is the buyer's: of this conversation, of this contact or of none, and not deleted.
  predicate IsTheBuyers(o: Order, scope: Scope) {
    o.conversation == scope.conversation && !o.deleted && (o.contact == scope.contact || o.contact == 0)
  }

  // The loaded orders are the buyer's that are not cancelled, and no others.
  lemma {:induction false} LoadedAreTheBuyers(db: Db, scope: Scope, id: OrderId)
    ensures id in ActiveIds(db, scope) <==>
            1 <= id <= |db| && IsTheBuyers(db[id - 1], scope) && db[id - 1].status != Cancelled
  {
    ActiveIdsAreTheActive(db, scope, id);
  }

  // Cancelling changes the status of that one row, exactly if it is the buyer's and neither shipped, completed
  // nor cancelled, and reports whether it did.
  lemma {:induction false} CancelEnds(db: Db, scope: Scope, id: OrderId)
    ensures var (db', found) := CancelRow(db, scope, id);
            && (found <==> && 1 <= id <= |db| && IsTheBuyers(db[id - 1], scope)
                           && db[id - 1].status in {Draft, Processing, Confirmed, Paid})
            && db' == if found then db[id - 1 := db[id - 1].(status := Cancelled)] else db
  {
  }

  // ── a checkout rebuilt from a row ──────────────────────────────────────────

  // The line says everything the item holds; its quantity is whole and at least one.
  predicate FromItem(i: Item, l: Line) {
    && l.item == i.item && l.code == i.code && l.name == i.name && l.size == i.size && l.color == i.color
    && l.price == i.price && l.unit == i.unit && l.warehouse == i.warehouse
    && l.qty >= 1 && (i.qty >= 1.0 ==> l.qty as real <= i.qty < l.qty as real + 1.0) && (i.qty < 1.0 ==> l.qty == 1)
  }

  lemma {:induction false} LinesAreTheItems(items: seq<Item>)
    ensures |LinesOf(items)| == |items| && forall k :: 0 <= k < |items| ==> FromItem(items[k], LinesOf(items)[k])
  {
    if items != [] {
      LinesAreTheItems(items[..|items| - 1]);
    }
  }

  // A saved field is the checkout's again, unless it is blank.
  predicate Brings(saved: string, now: string) {
    now == if Trim(saved) != "" then saved else ""
  }

  predicate BringsAddress(saved: Shipping, now: Shipping) {
    && Brings(saved.name, now.name) && Brings(saved.phone, now.phone) && Brings(saved.street, now.street)
    && Brings(saved.rt, now.rt) && Brings(saved.rw, now.rw) && Brings(saved.kelurahan, now.kelurahan)
    && Brings(saved.kecamatan, now.kecamatan) && Brings(saved.city, now.city)
    && Brings(saved.province, now.province) && Brings(saved.postal, now.postal) && Brings(saved.country, now.country)
  }

  // Every item and the whole address of a row are the checkout's that is rebuilt from it, which is pinned to the
  // row.
  lemma {:induction false} RebuiltFromTheRow(o: Order, id: OrderId)
    ensures var st := StateFromDraft(o, id);
            && st.pinned == id && !st.forceNew && BringsAddress(o.ship, st.ship)
            && |st.items| == |o.items| && forall k :: 0 <= k < |o.items| ==> FromItem(o.items[k], st.items[k])
  {
    LinesAreTheItems(o.items);
  }

  // ── newest first ───────────────────────────────────────────────────────────

  ghost predicate NewestFirst(ids: seq<OrderId>) {
    forall i, j :: 0 <= i < j < |ids| ==> ids[i] > ids[j]
  }

  lemma {:induction false} ActiveBelowNewestFirst(db: Db, scope: Scope, n: nat)
    requires n <= |db|
    ensures NewestFirst(ActiveBelow(db, scope, n))
  {
    if n > 0 {
      ActiveBelowNewestFirst(db, scope, n - 1);
      var rest := ActiveBelow(db, scope, n - 1);
      forall k | 0 <= k < |rest| ensures rest[k] < n {
        ActiveBelowAreActive(db, scope, n - 1, rest[k]);
      }
    }
  }

  // The loader lists the newest order first.
  lemma {:induction false} ActiveIdsNewestFirst(db: Db, scope: Scope)
    ensures NewestFirst(ActiveIds(db, scope))
  {
    ActiveBelowNewestFirst(db, scope, |db|);
  }
}
