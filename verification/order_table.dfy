/**
  The order table as an object: the loaders, the cancellation and the draft writers of
  ai/order_customer.go, ai/order_amend.go and ai/order_flow.go, step by step. Every method is proved
  to do what the functions of OrderStore say.
 */
module OrderTable {
  import opened Writes
  import opened Text
  import opened Checkout
  import opened OrderStore

  method LinesToItems(shop: Shop, lines: seq<Line>) returns (items: seq<Item>)
    ensures items == ItemsOf(shop, lines, "")
  {
    items := [];
    for i := 0 to |lines|
      invariant items == ItemsOf(shop, lines[..i], "")
    {
      ItemsSnoc(shop, lines[..i], lines[i], "");
      assert lines[..i + 1] == lines[..i] + [lines[i]];
      var item := LineToItem(shop, lines[i]);
      items := items + [item];
    }
    assert lines[..|lines|] == lines;
  }

  method LineToItem(shop: Shop, ln: Line) returns (item: Item)
    ensures item == ItemOf(shop, ln, "")
  {
    var qty := ln.qty;
    if qty < 1 {
      qty := 1;
    }
    item := Item(ln.item, ln.code, ln.name, shop.variantLabel(ln.size, ln.color), ln.size, ln.color, qty as real,
                 ln.price, ln.unit, Trim(ln.warehouse));
  }

  method ItemsToLines(items: seq<Item>) returns (lines: seq<Line>)
    ensures lines == LinesOf(items)
  {
    lines := [];
    for i := 0 to |items|
      invariant lines == LinesOf(items[..i])
    {
      assert items[..i + 1][..i] == items[..i];
      lines := lines + [LineOf(items[i])];
    }
    assert items[..|items|] == items;
  }

  lemma {:induction false} NoPlaceForAPrefix(stock: Line -> Stock, lines: seq<Line>, n: nat)
    requires n <= |lines| && AllPlaced(stock, lines[..n]).Nothing?
    ensures AllPlaced(stock, lines).Nothing?
  {
    if n < |lines| {
      assert lines[..|lines| - 1][..n] == lines[..n];
      NoPlaceForAPrefix(stock, lines[..|lines| - 1], n);
    } else {
      assert lines[..n] == lines;
    }
  }

  // The loop of persistDraftOrderMulti and orderItemsFromCartState: the stock guard picks a
  // warehouse for each line, or the save is refused.
  method PlaceLines(shop: Shop, lines: seq<Line>, stock: Line -> Stock)
    returns (ok: bool, placed: seq<Line>, items: seq<Item>, subtotal: real)
    ensures ok <==> AllPlaced(stock, lines).Just?
    ensures ok ==> placed == AllPlaced(stock, lines).value
    ensures ok ==> items == ItemsOf(shop, placed, "") && subtotal == Sum(items)
  {
    ok, placed, items, subtotal := true, [], [], 0.0;
    for i := 0 to |lines|
      invariant ok && AllPlaced(stock, lines[..i]) == Just(placed)
      invariant items == ItemsOf(shop, placed, "") && subtotal == Sum(items)
    {
      assert lines[..i + 1] == lines[..i] + [lines[i]];
      PlacedSnoc(stock, lines[..i], lines[i]);
      var line := PlaceLine(lines[i], stock);
      if line.Nothing? {
        NoPlaceForAPrefix(stock, lines, i + 1);
        return false, [], [], 0.0;
      }
      var item := ItemOf(shop, line.value, "");
      ItemsSnoc(shop, placed, line.value, "");
      SumSnoc(items, item);
      placed, items := placed + [line.value], items + [item];
      subtotal := subtotal + item.qty * item.price;
    }
    assert lines[..|lines|] == lines;
  }

  // ensureDraftOrderStock's answer, taken over into the line
  method PlaceLine(l: Line, stock: Line -> Stock) returns (placed: Maybe<Line>)
    ensures placed == Placed(stock, l)
  {
    match stock(l) {
      case Reject => placed := Nothing;
      case Keep => placed := Just(l);
      case From(warehouse) => placed := Just(if warehouse == "" then l else l.(warehouse := warehouse));
    }
  }

  lemma {:induction false} PlacedSnoc(stock: Line -> Stock, lines: seq<Line>, l: Line)
    requires AllPlaced(stock, lines).Just?
    ensures AllPlaced(stock, lines + [l]) ==
            if Placed(stock, l).Nothing? then Nothing
            else Just(AllPlaced(stock, lines).value + [Placed(stock, l).value])
  {
    assert (lines + [l])[..|lines|] == lines;
  }

  lemma {:induction false} ItemsSnoc(shop: Shop, lines: seq<Line>, l: Line, freeText: string)
    ensures ItemsOf(shop, lines + [l], freeText) == ItemsOf(shop, lines, freeText) + [ItemOf(shop, l, freeText)]
  {
    assert (lines + [l])[..|lines|] == lines;
  }

  lemma {:induction false} SumSnoc(items: seq<Item>, i: Item)
    ensures Sum(items + [i]) == Sum(items) + i.qty * i.price
  {
    assert (items + [i])[..|items|] == items;
  }

  lemma {:induction false} OnePlaced(stock: Line -> Stock, l: Line)
    ensures AllPlaced(stock, [l]) == if Placed(stock, l).Nothing? then Nothing else Just([Placed(stock, l).value])
  {
    assert AllPlaced(stock, []) == Just([]);
    PlacedSnoc(stock, [], l);
    assert [] + [l] == [l];
    if Placed(stock, l).Just? {
      assert [] + [Placed(stock, l).value] == [Placed(stock, l).value];
    }
  }

  lemma {:induction false} OneItem(shop: Shop, l: Line, freeText: string)
    ensures ItemsOf(shop, [l], freeText) == [ItemOf(shop, l, freeText)]
    ensures Sum([ItemOf(shop, l, freeText)]) == ItemOf(shop, l, freeText).qty * ItemOf(shop, l, freeText).price
  {
    var item := ItemOf(shop, l, freeText);
    assert ItemsOf(shop, [], freeText) == [] && Sum([]) == 0.0;
    ItemsSnoc(shop, [], l, freeText);
    SumSnoc([], item);
    assert [] + [l] == [l] && [] + [item] == [item];
  }

  class OrderTable {
    var rows: Db
    const scope: Scope

    constructor (rows: Db, scope: Scope)
      ensures this.rows == rows && this.scope == scope
    {
      this.rows := rows;
      this.scope := scope;
    }

    method LoadActive() returns (ids: seq<OrderId>)
      ensures ids == ActiveIds(rows, scope)
    {
      ids := [];
      var i := |rows|;
      while i > 0
        invariant 0 <= i <= |rows|
        invariant ids + ActiveBelow(rows, scope, i) == ActiveIds(rows, scope)
      {
        var o := rows[i - 1];
        if InScope(o, scope) && o.status != Cancelled {
          ids := ids + [i];
        }
        i := i - 1;
      }
    }

    method Cancel(id: OrderId) returns (found: bool)
      modifies this
      ensures (rows, found) == CancelRow(old(rows), scope, id)
    {
      found := false;
      if Exists(rows, scope, id) && Cancellable(rows[id - 1].status) {
        rows := rows[id - 1 := rows[id - 1].(status := Cancelled)];
        found := true;
      }
    }

    method UpdateDraftItems(id: OrderId, items: seq<Item>, answer: Sql) returns (ok: bool)
      requires IsDraft(rows, scope, id)
      modifies this
      ensures ok == (answer == Ok)
      ensures rows == if answer == Refused then old(rows) else old(rows)[id - 1 := WithItems(old(rows)[id - 1], items)]
    {
      var subtotal := 0.0;
      for i := 0 to |items|
        invariant subtotal == Sum(items[..i])
        invariant rows == old(rows)
      {
        assert items[..i + 1][..i] == items[..i];
        subtotal := subtotal + items[i].qty * items[i].price;
      }
      assert items[..|items|] == items;
      if answer != Refused {
        rows := rows[id - 1 := rows[id - 1].(items := items, subtotal := subtotal, total := subtotal)];
      }
      ok := answer == Ok;
    }

    method UpsertDraft(pin: OrderId, items: seq<Item>, ship: Maybe<Shipping>, force: bool, a: Answers)
      returns (u: Upserted)
      modifies this
      ensures (rows, u) == Upsert(old(rows), scope, pin, items, ship, force, a)
    {
      if force {
        return InsertNew;
      }
      if pin != NO_ORDER {
        if !a.lookup {
          return UpsertFailed;
        }
        if IsDraft(rows, scope, pin) {
          var ok := UpdateDraftItems(pin, items, a.update);
          if !ok {
            return UpsertFailed;
          }
          if ship.Just? && AddressKnown(ship.value) && a.shipping != Refused {
            rows := rows[pin - 1 := rows[pin - 1].(ship := ship.value)];
          }
          assert rows == UpdateRow(old(rows), pin, items, ship, a).0;
          return Updated(pin);
        }
      }
      if !a.list {
        return UpsertFailed;
      }
      u := if DecideDraftWrite(false, false, Drafts(rows, scope)) == Pick then PickOne else InsertNew;
    }

    method InsertDraft(items: seq<Item>, ship: Shipping, subtotal: real, a: Answers) returns (outcome: Outcome)
      requires subtotal == Sum(items)
      modifies this
      ensures (rows, outcome) == InsertRow(old(rows), scope, items, ship, a)
    {
      if a.insert != Refused {
        var row := Order(scope.conversation, scope.contact, false, Draft, Unpaid, items, ship, subtotal, subtotal);
        rows := rows + [row];
      }
      outcome := if a.insert == Ok then Saved(|rows|) else Failed;
    }

    // The one line of a single-item state.
    method ItemFromSingle(shop: Shop, line: Line, freeText: string, stock: Line -> Stock)
      returns (ok: bool, placed: seq<Line>, items: seq<Item>, subtotal: real)
      ensures ok <==> AllPlaced(stock, [line]).Just?
      ensures ok ==> && placed == AllPlaced(stock, [line]).value
                     && items == ItemsOf(shop, placed, freeText) && subtotal == Sum(items)
    {
      OnePlaced(stock, line);
      var one := PlaceLine(line, stock);
      if one.Nothing? {
        return false, [], [], 0.0;
      }
      var item := ItemOf(shop, one.value, freeText);
      OneItem(shop, one.value, freeText);
      return true, [one.value], [item], item.qty * item.price;
    }

    // Items and subtotal of a state: the loop above, or its one line.
    method ItemsFromState(shop: Shop, st: State, stock: Line -> Stock)
      returns (ok: bool, placed: seq<Line>, items: seq<Item>, subtotal: real)
      ensures ok <==> AllPlaced(stock, DraftLines(shop, st)).Just?
      ensures ok ==> && placed == AllPlaced(stock, DraftLines(shop, st)).value
                     && items == ItemsOf(shop, placed, FreeText(st)) && subtotal == Sum(items)
    {
      if st.items != [] {
        ok, placed, items, subtotal := PlaceLines(shop, st.items, stock);
      } else {
        ok, placed, items, subtotal := ItemFromSingle(shop, Normalize(shop, st).single, st.variant, stock);
      }
    }

    // persistDraftOrder: saves the approved order, with its address.
    method PersistDraft(shop: Shop, st: State, a: Answers) returns (outcome: Outcome, lines: seq<Line>)
      modifies this
      ensures SaveResult(rows, outcome, lines) == Save(shop, old(rows), scope, st, a)
    {
      if !LinesReady(shop, DraftLines(shop, st)) || Trim(st.ship.name) == "" || Trim(st.ship.phone) == ""
         || !ShippingComplete(st.ship) {
        return Failed, [];
      }
      var ok, placed, items, subtotal := ItemsFromState(shop, st, a.stock);
      if !ok {
        return Failed, [];
      }
      var u := UpsertDraft(st.pinned, items, Just(Addressed(st.ship)), st.forceNew, a);
      lines := placed;
      match u {
        case Updated(id) => outcome := Saved(id);
        case PickOne => outcome := NeedPick;
        case UpsertFailed => outcome := Failed;
        case InsertNew => outcome := InsertDraft(items, Addressed(st.ship), subtotal, a);
      }
    }

    // persistDraftOrderEarly: saves the cart in mid-checkout, without shipping data.
    method PersistDraftEarly(shop: Shop, st: State, a: Answers) returns (outcome: Outcome, lines: seq<Line>)
      modifies this
      ensures SaveResult(rows, outcome, lines) == SaveEarly(shop, old(rows), scope, st, a)
    {
      if !LinesReady(shop, DraftLines(shop, st)) {
        return NothingToSave, [];
      }
      var ok, placed, items, subtotal := ItemsFromState(shop, st, a.stock);
      if !ok {
        return Failed, [];
      }
      var u := UpsertDraft(st.pinned, items, Nothing, st.forceNew, a);
      lines := placed;
      match u {
        case Updated(id) => outcome := Saved(id);
        case PickOne => outcome := NeedPick;
        case UpsertFailed => outcome := Failed;
        case InsertNew => outcome := InsertDraft(items, NoShipping.(country := "Indonesia"), subtotal, a);
      }
    }
  }
}
