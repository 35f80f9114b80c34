/**
  The order table as the chat reads and writes it: loading a buyer's orders and cancelling one
  (ai/order_customer.go), rebuilding a checkout from a saved draft and choosing the row a save goes
  to (ai/order_amend.go), and the draft writers (ai/order_flow.go).
 */
module OrderStore {
  import opened Writes
  import opened Text
  import opened Checkout

  datatype Status = Draft | Processing | Confirmed | Paid | Shipped | Completed | Cancelled | OtherStatus
  datatype Payment = Unpaid | ProofSubmitted | Verified | Rejected | OtherPayment

  datatype Item = Item(item: string, code: string, name: string, variant: string, size: string, color: string,
                       qty: real, price: real, unit: string, warehouse: string)

  // `contact` is 0 when the column is NULL.
  datatype Order = Order(conversation: nat, contact: nat, deleted: bool, status: Status, pay: Payment,
                         items: seq<Item>, ship: Shipping, subtotal: real, total: real)

  // The table in creation order; rows are never removed, only marked deleted.
  type Db = seq<Order>

  datatype Scope = Scope(conversation: nat, contact: nat)

  // ── reading ────────────────────────────────────────────────────────────────

  predicate InScope(o: Order, scope: Scope) {
    && o.conversation == scope.conversation && !o.deleted
    && (o.contact == scope.contact || o.contact == 0)
  }

  predicate Exists(db: Db, scope: Scope, id: OrderId) {
    1 <= id <= |db| && InScope(db[id - 1], scope)
  }

  predicate Active(db: Db, scope: Scope, id: OrderId) {
    Exists(db, scope, id) && db[id - 1].status != Cancelled
  }

  predicate IsDraft(db: Db, scope: Scope, id: OrderId) {
    Exists(db, scope, id) && db[id - 1].status == Draft
  }

  predicate Cancellable(s: Status) {
    s == Draft || s == Processing || s == Confirmed || s == Paid
  }

  // The ids up to n of the buyer's non-cancelled orders, newest first.
  function ActiveBelow(db: Db, scope: Scope, n: nat): seq<OrderId>
    requires n <= |db|
  {
    if n == 0 then []
    else if Active(db, scope, n) then [n] + ActiveBelow(db, scope, n - 1)
    else ActiveBelow(db, scope, n - 1)
  }

  // loadActiveOrdersForContact
  function ActiveIds(db: Db, scope: Scope): seq<OrderId> {
    ActiveBelow(db, scope, |db|)
  }

  lemma {:induction false} ActiveBelowAreActive(db: Db, scope: Scope, n: nat, id: OrderId)
    requires n <= |db|
    ensures id in ActiveBelow(db, scope, n) <==> id <= n && Active(db, scope, id)
  {
    if n > 0 {
      ActiveBelowAreActive(db, scope, n - 1, id);
    }
  }

  lemma {:induction false} ActiveIdsAreTheActive(db: Db, scope: Scope, id: OrderId)
    ensures id in ActiveIds(db, scope) <==> Active(db, scope, id)
  {
    ActiveBelowAreActive(db, scope, |db|, id);
  }

  function Drafts(db: Db, scope: Scope): nat {
    if db == [] then 0
    else Drafts(db[..|db| - 1], scope) + if IsDraft(db, scope, |db|) then 1 else 0
  }

  // cancelPersistedOrder: false when no row matched.
  function CancelRow(db: Db, scope: Scope, id: OrderId): (Db, bool) {
    if Exists(db, scope, id) && Cancellable(db[id - 1].status) then
      (db[id - 1 := db[id - 1].(status := Cancelled)], true)
    else (db, false)
  }

  // ── lines and items ────────────────────────────────────────────────────────

  function AtLeastOne(qty: int): int {
    if qty < 1 then 1 else qty
  }

  // A line without a variant label falls back to the free-text variant of a single-item state.
  function ItemOf(shop: Shop, l: Line, freeText: string): Item {
    var named := shop.variantLabel(l.size, l.color);
    Item(l.item, l.code, l.name, if named == "" then Trim(freeText) else named, l.size, l.color,
         AtLeastOne(l.qty) as real, l.price, l.unit, Trim(l.warehouse))
  }

  function ItemsOf(shop: Shop, lines: seq<Line>, freeText: string): seq<Item> {
    if lines == [] then []
    else ItemsOf(shop, lines[..|lines| - 1], freeText) + [ItemOf(shop, lines[|lines| - 1], freeText)]
  }

  // int(qty), at least one.
  function LineOf(i: Item): Line {
    Line(i.item, i.code, i.name, i.size, i.color, if i.qty < 1.0 then 1 else i.qty.Floor, i.price, i.unit, i.warehouse)
  }

  function LinesOf(items: seq<Item>): seq<Line> {
    if items == [] then []
    else LinesOf(items[..|items| - 1]) + [LineOf(items[|items| - 1])]
  }

  function Sum(items: seq<Item>): real {
    if items == [] then 0.0
    else Sum(items[..|items| - 1]) + items[|items| - 1].qty * items[|items| - 1].price
  }

  // ── the saved draft as a checkout ──────────────────────────────────────────

  // The shipping data as the next checkout reads it: blank fields count as not given.
  function Given(a: Shipping): Shipping {
    Shipping(Kept(a.name), Kept(a.phone), Kept(a.street), Kept(a.rt), Kept(a.rw), Kept(a.kelurahan),
             Kept(a.kecamatan), Kept(a.city), Kept(a.province), Kept(a.postal), Kept(a.country))
  }

  function Kept(s: string): string {
    if Trim(s) != "" then s else ""
  }

  // orderStateFromPersistedDraft
  function StateFromDraft(o: Order, id: OrderId): State {
    var lines := LinesOf(o.items);
    var st := NoState.(step := AskRecipient, pinned := id, ship := Given(o.ship));
    if lines == [] then st
    else st.(items := lines, single := lines[0], product := lines[0].name)
  }

  // lfStateFromOpenOrder: nothing when the draft has no lines or nothing is left to collect.
  function StateFromOpenOrder(shop: Shop, o: Order, id: OrderId): Maybe<State> {
    var st := StateFromDraft(o, id);
    if Cart(shop, st) == [] || StepAfterItems(st) == Confirm then Nothing
    else Just(st.(step := StepAfterItems(st)))
  }

  // ── writing a draft ────────────────────────────────────────────────────────

  // The stock guard's answer for one line.
  datatype Stock = Reject | Keep | From(warehouse: string)

  // What the database and the stock guard answer during one save.
  datatype Answers = Answers(stock: Line -> Stock, lookup: bool, update: Sql, shipping: Sql, list: bool, insert: Sql)

  datatype Outcome = Saved(id: OrderId) | NeedPick | Failed | NothingToSave

  // `lines` are the lines as saved, with the warehouses the stock guard chose.
  datatype SaveResult = SaveResult(db: Db, outcome: Outcome, lines: seq<Line>)

  predicate LineReady(shop: Shop, l: Line) {
    Trim(l.item) != "" && l.qty >= 1 && VariantComplete(shop, l.name, l.size, l.color)
  }

  predicate LinesReady(shop: Shop, lines: seq<Line>) {
    forall k :: 0 <= k < |lines| ==> LineReady(shop, lines[k])
  }

  function DraftLines(shop: Shop, st: State): seq<Line> {
    if st.items != [] then st.items else [Normalize(shop, st).single]
  }

  function FreeText(st: State): string {
    if st.items != [] then "" else st.variant
  }

  function Placed(stock: Line -> Stock, l: Line): Maybe<Line> {
    match stock(l)
    case Reject => Nothing
    case Keep => Just(l)
    case From(w) => Just(if w != "" then l.(warehouse := w) else l)
  }

  function AllPlaced(stock: Line -> Stock, lines: seq<Line>): Maybe<seq<Line>> {
    if lines == [] then Just([])
    else
      var rest := AllPlaced(stock, lines[..|lines| - 1]);
      if rest.Nothing? then Nothing
      else
        var last := Placed(stock, lines[|lines| - 1]);
        if last.Nothing? then Nothing else Just(rest.value + [last.value])
  }

  // shippingAddressIsComplete
  predicate AddressKnown(a: Shipping) {
    || (Trim(a.name) != "" && Trim(a.phone) != "")
    || (Trim(a.street) != "" && (Trim(a.city) != "" || Trim(a.postal) != ""))
  }

  function WithItems(o: Order, items: seq<Item>): Order {
    o.(items := items, subtotal := Sum(items), total := Sum(items))
  }

  function NewDraft(scope: Scope, items: seq<Item>, ship: Shipping): Order {
    Order(scope.conversation, scope.contact, false, Draft, Unpaid, items, ship, Sum(items), Sum(items))
  }

  // updateDraftOrderItems, then updateDraftShippingAddress, whose failure is only logged
  function UpdateRow(db: Db, id: OrderId, items: seq<Item>, ship: Maybe<Shipping>, a: Answers): (Db, Upserted)
    requires 1 <= id <= |db|
  {
    var o := WithItems(db[id - 1], items);
    var o' := if ship.Just? && AddressKnown(ship.value) && a.shipping != Refused then o.(ship := ship.value) else o;
    match a.update
    case Ok => (db[id - 1 := o'], Updated(id))
    case Lost => (db[id - 1 := o], UpsertFailed)
    case Refused => (db, UpsertFailed)
  }

  function InsertRow(db: Db, scope: Scope, items: seq<Item>, ship: Shipping, a: Answers): (Db, Outcome) {
    match a.insert
    case Ok => (db + [NewDraft(scope, items, ship)], Saved(|db| + 1))
    case Lost => (db + [NewDraft(scope, items, ship)], Failed)
    case Refused => (db, Failed)
  }

  datatype WriteKind = Insert | UpdatePinned | Pick

  function DecideDraftWrite(forceInsert: bool, pinFound: bool, leftover: nat): WriteKind {
    if forceInsert then Insert
    else if pinFound then UpdatePinned
    else if leftover > 0 then Pick
    else Insert
  }

  datatype Upserted = Updated(id: OrderId) | InsertNew | PickOne | UpsertFailed

  // upsertDraftOrderItems
  function Upsert(db: Db, scope: Scope, pin: OrderId, items: seq<Item>, ship: Maybe<Shipping>, force: bool,
                  a: Answers): (Db, Upserted)
  {
    if force then (db, InsertNew)
    else if pin != NO_ORDER && !a.lookup then (db, UpsertFailed)
    else if IsDraft(db, scope, pin) then UpdateRow(db, pin, items, ship, a)
    else if !a.list then (db, UpsertFailed)
    else (db, if DecideDraftWrite(false, false, Drafts(db, scope)) == Pick then PickOne else InsertNew)
  }

  // Every writer inserts a new draft when the upsert found none to update.
  function Write(db: Db, scope: Scope, pin: OrderId, force: bool, items: seq<Item>, update: Maybe<Shipping>,
                 insert: Shipping, a: Answers): (Db, Outcome)
  {
    var (db', u) := Upsert(db, scope, pin, items, update, force, a);
    match u
    case Updated(id) => (db', Saved(id))
    case PickOne => (db', NeedPick)
    case UpsertFailed => (db', Failed)
    case InsertNew => InsertRow(db', scope, items, insert, a)
  }

  function Addressed(a: Shipping): Shipping {
    if a.country == "" then a.(country := "Indonesia") else a
  }

  // persistDraftOrder and persistDraftOrderMulti
  function Save(shop: Shop, db: Db, scope: Scope, st: State, a: Answers): SaveResult {
    var lines := DraftLines(shop, st);
    if !LinesReady(shop, lines) || Trim(st.ship.name) == "" || Trim(st.ship.phone) == "" || !ShippingComplete(st.ship)
    then SaveResult(db, Failed, [])
    else
      var placed := AllPlaced(a.stock, lines);
      if placed.Nothing? then SaveResult(db, Failed, [])
      else
        var (db', outcome) := Write(db, scope, st.pinned, st.forceNew, ItemsOf(shop, placed.value, FreeText(st)),
                                    Just(Addressed(st.ship)), Addressed(st.ship), a);
        SaveResult(db', outcome, placed.value)
  }

  // persistDraftOrderEarly
  function SaveEarly(shop: Shop, db: Db, scope: Scope, st: State, a: Answers): SaveResult {
    var lines := DraftLines(shop, st);
    if !LinesReady(shop, lines) then SaveResult(db, NothingToSave, [])
    else
      var placed := AllPlaced(a.stock, lines);
      if placed.Nothing? then SaveResult(db, Failed, [])
      else
        var (db', outcome) := Write(db, scope, st.pinned, st.forceNew, ItemsOf(shop, placed.value, FreeText(st)),
                                    Nothing, NoShipping.(country := "Indonesia"), a);
        SaveResult(db', outcome, placed.value)
  }

  // ── what a save changes ────────────────────────────────────────────────────

  // The row is as saved: the totals are the sum of quantity times price.
  predicate Totalled(o: Order) {
    o.subtotal == Sum(o.items) && o.total == o.subtotal
  }

  // Only what a draft writer may write differs between the two rows.
  predicate Rewritten(o: Order, o': Order) {
    o' == o.(items := o'.items, ship := o'.ship, subtotal := o'.subtotal, total := o'.total) && Totalled(o')
  }

  // At most one row written: the pinned draft rewritten, or a new draft of the buyer.
  ghost predicate OneDraftWritten(db: Db, db': Db, scope: Scope, pin: OrderId) {
    || db' == db
    || (IsDraft(db, scope, pin) && |db'| == |db|
        && db' == db[pin - 1 := db'[pin - 1]] && Rewritten(db[pin - 1], db'[pin - 1]))
    || (|db'| == |db| + 1 && db' == db + [db'[|db|]]
        && db'[|db|] == NewDraft(scope, db'[|db|].items, db'[|db|].ship))
  }

  // The pinned draft is written unless it is gone; then, and for a forced save, a new row.
  ghost predicate RightRow(db: Db, scope: Scope, pin: OrderId, force: bool, id: OrderId) {
    if IsDraft(db, scope, pin) && !force then id == pin else id == |db| + 1
  }

  lemma {:induction false} WriteFrame(db: Db, scope: Scope, pin: OrderId, force: bool, items: seq<Item>,
                                      update: Maybe<Shipping>, insert: Shipping, a: Answers)
    ensures var (db', outcome) := Write(db, scope, pin, force, items, update, insert, a);
            && OneDraftWritten(db, db', scope, pin)
            && (outcome.NeedPick? ==> db' == db && !force && !IsDraft(db, scope, pin) && Drafts(db, scope) > 0)
            && (outcome.Saved? ==>
                  && RightRow(db, scope, pin, force, outcome.id)
                  && IsDraft(db', scope, outcome.id)
                  && db'[outcome.id - 1].items == items && Totalled(db'[outcome.id - 1]))
            && !outcome.NothingToSave?
  {
  }

  // ── park and continue ──────────────────────────────────────────────────────

  lemma {:induction false} LineBack(shop: Shop, l: Line, l': Line, freeText: string)
    requires l.qty >= 1 && l' == l.(warehouse := l'.warehouse)
    ensures LineOf(ItemOf(shop, l', freeText)) == l'.(warehouse := Trim(l'.warehouse))
    ensures IsLine(LineOf(ItemOf(shop, l', freeText))) <==> IsLine(l)
    ensures CartLineOf(shop, LineOf(ItemOf(shop, l', freeText))) == CartLineOf(shop, l)
  {
  }

  // The same lines, each at least one piece, but for the warehouses.
  ghost predicate SameButWarehouse(lines: seq<Line>, placed: seq<Line>) {
    if lines == [] then placed == []
    else
      && placed != []
      && SameButWarehouse(lines[..|lines| - 1], placed[..|placed| - 1])
      && MovedLine(lines[|lines| - 1], placed[|placed| - 1])
  }

  ghost predicate MovedLine(l: Line, l': Line) {
    l.qty >= 1 && l' == l.(warehouse := l'.warehouse)
  }

  lemma {:induction false} PlacingKeepsTheLines(shop: Shop, stock: Line -> Stock, lines: seq<Line>)
    requires AllPlaced(stock, lines).Just? && LinesReady(shop, lines)
    ensures SameButWarehouse(lines, AllPlaced(stock, lines).value)
  {
    if lines != [] {
      var n := |lines| - 1;
      assert LineReady(shop, lines[n]);
      PlacingKeepsTheLines(shop, stock, lines[..n]);
      var rest := AllPlaced(stock, lines[..n]).value;
      assert AllPlaced(stock, lines).value[..|rest|] == rest;
    }
  }

  lemma {:induction false} OneMoreBack(shop: Shop, lines: seq<Line>, placed: seq<Line>, freeText: string)
    requires lines != [] && placed != [] && MovedLine(lines[|lines| - 1], placed[|placed| - 1])
    requires var n, m := |lines| - 1, |placed| - 1;
             CartOfLines(shop, LinesOf(ItemsOf(shop, placed[..m], freeText))) == CartOfLines(shop, lines[..n])
    ensures CartOfLines(shop, LinesOf(ItemsOf(shop, placed, freeText))) == CartOfLines(shop, lines)
  {
    var m := placed[|placed| - 1];
    var before := ItemsOf(shop, placed[..|placed| - 1], freeText);
    LineBack(shop, lines[|lines| - 1], m, freeText);
    LinesOfSnoc(before, ItemOf(shop, m, freeText));
    SameLast(shop, LinesOf(before) + [LineOf(ItemOf(shop, m, freeText))], lines, LinesOf(before));
  }

  lemma {:induction false} LinesBack(shop: Shop, lines: seq<Line>, placed: seq<Line>, freeText: string)
    requires SameButWarehouse(lines, placed)
    ensures CartOfLines(shop, LinesOf(ItemsOf(shop, placed, freeText))) == CartOfLines(shop, lines)
  {
    if lines != [] {
      LinesBack(shop, lines[..|lines| - 1], placed[..|placed| - 1], freeText);
      OneMoreBack(shop, lines, placed, freeText);
    }
  }

  lemma {:induction false} LinesOfSnoc(items: seq<Item>, i: Item)
    ensures LinesOf(items + [i]) == LinesOf(items) + [LineOf(i)]
  {
    assert (items + [i])[..|items|] == items;
  }

  lemma {:induction false} SameLast(shop: Shop, a: seq<Line>, b: seq<Line>, init: seq<Line>)
    requires a != [] && b != [] && a[..|a| - 1] == init
    requires CartOfLines(shop, init) == CartOfLines(shop, b[..|b| - 1])
    requires IsLine(a[|a| - 1]) == IsLine(b[|b| - 1])
    requires CartLineOf(shop, a[|a| - 1]) == CartLineOf(shop, b[|b| - 1])
    ensures CartOfLines(shop, a) == CartOfLines(shop, b)
  {
  }

  // The cart of a state, through the lines a save takes from it.
  lemma {:induction false} CartOfDraftLines(shop: Shop, st: State)
    ensures Cart(shop, st) == CartOfLines(shop, DraftLines(shop, st))
  {
    if st.items == [] {
      var l := Normalize(shop, st).single;
      assert [l][..0] == [];
      assert CartOfLines(shop, []) == [];
    }
  }

  lemma {:induction false} ReadyLinesAreTheCart(shop: Shop, lines: seq<Line>)
    requires LinesReady(shop, lines)
    ensures |CartOfLines(shop, lines)| == |lines|
  {
    if lines != [] {
      ReadyLinesAreTheCart(shop, lines[..|lines| - 1]);
      assert LineReady(shop, lines[|lines| - 1]);
      BlankIsEmpty(lines[|lines| - 1].item);
    }
  }

  lemma {:induction false} BlankIsEmpty(s: string)
    ensures Trim(s) != "" ==> s != ""
  {
  }

  lemma {:induction false} SavedRowReadsBack(shop: Shop, stock: Line -> Stock, st: State, o: Order, id: OrderId)
    requires LinesReady(shop, DraftLines(shop, st)) && AllPlaced(stock, DraftLines(shop, st)).Just?
    requires o.items == ItemsOf(shop, AllPlaced(stock, DraftLines(shop, st)).value, FreeText(st))
    ensures Cart(shop, StateFromDraft(o, id)) == Cart(shop, st) != []
  {
    var lines := DraftLines(shop, st);
    PlacingKeepsTheLines(shop, stock, lines);
    LinesBack(shop, lines, AllPlaced(stock, lines).value, FreeText(st));
    CartOfDraftLines(shop, st);
    ReadyLinesAreTheCart(shop, lines);
  }

  // The row a save reports: the right one, still a draft of this buyer, with its totals, and the cart
  // of the state that was saved in it.
  ghost predicate SavedAs(shop: Shop, db: Db, scope: Scope, st: State, db': Db, id: OrderId) {
    && RightRow(db, scope, st.pinned, st.forceNew, id)
    && IsDraft(db', scope, id) && Totalled(db'[id - 1])
    && StateFromDraft(db'[id - 1], id).pinned == id
    && Cart(shop, StateFromDraft(db'[id - 1], id)) == Cart(shop, st) != []
  }

  lemma {:induction false} SavedByWrite(shop: Shop, db: Db, scope: Scope, st: State, update: Maybe<Shipping>,
                                        insert: Shipping, a: Answers)
    requires LinesReady(shop, DraftLines(shop, st)) && AllPlaced(a.stock, DraftLines(shop, st)).Just?
    ensures var items := ItemsOf(shop, AllPlaced(a.stock, DraftLines(shop, st)).value, FreeText(st));
            var (db', outcome) := Write(db, scope, st.pinned, st.forceNew, items, update, insert, a);
            outcome.Saved? ==> SavedAs(shop, db, scope, st, db', outcome.id)
  {
    var items := ItemsOf(shop, AllPlaced(a.stock, DraftLines(shop, st)).value, FreeText(st));
    var (db', outcome) := Write(db, scope, st.pinned, st.forceNew, items, update, insert, a);
    WriteFrame(db, scope, st.pinned, st.forceNew, items, update, insert, a);
    if outcome.Saved? {
      RowReadsBack(shop, db, scope, st, a.stock, items, db', outcome.id);
    }
  }

  lemma {:induction false} RowReadsBack(shop: Shop, db: Db, scope: Scope, st: State,
                                        stock: Line -> Stock, items: seq<Item>, db': Db, id: OrderId)
    requires LinesReady(shop, DraftLines(shop, st)) && AllPlaced(stock, DraftLines(shop, st)).Just?
    requires items == ItemsOf(shop, AllPlaced(stock, DraftLines(shop, st)).value, FreeText(st))
    requires RightRow(db, scope, st.pinned, st.forceNew, id)
    requires IsDraft(db', scope, id) && db'[id - 1].items == items && Totalled(db'[id - 1])
    ensures SavedAs(shop, db, scope, st, db', id)
  {
    SavedRowReadsBack(shop, stock, st, db'[id - 1], id);
  }

  // Saving a cart as a draft and rebuilding the checkout from the saved row gives the same cart
  // lines in the same order, pinned to that row.
  lemma {:induction false} ParkAndContinue(shop: Shop, db: Db, scope: Scope, st: State, a: Answers)
    ensures var r := SaveEarly(shop, db, scope, st, a);
            r.outcome.Saved? ==> SavedAs(shop, db, scope, st, r.db, r.outcome.id)
  {
    if SaveEarly(shop, db, scope, st, a).outcome.Saved? {
      SavedByWrite(shop, db, scope, st, Nothing, NoShipping.(country := "Indonesia"), a);
    }
  }

  // The same for the save of an approved order.
  lemma {:induction false} SaveAndContinue(shop: Shop, db: Db, scope: Scope, st: State, a: Answers)
    ensures var r := Save(shop, db, scope, st, a); r.outcome.Saved? ==> SavedAs(shop, db, scope, st, r.db, r.outcome.id)
  {
    if Save(shop, db, scope, st, a).outcome.Saved? {
      SavedByWrite(shop, db, scope, st, Just(Addressed(st.ship)), Addressed(st.ship), a);
    }
  }

  // The address as confirmed, field by field; a country that was not given is Indonesia.
  predicate CarriesAddress(confirmed: Shipping, saved: Shipping) {
    && saved.name == confirmed.name && saved.phone == confirmed.phone
    && saved.street == confirmed.street && saved.rt == confirmed.rt && saved.rw == confirmed.rw
    && saved.kelurahan == confirmed.kelurahan && saved.kecamatan == confirmed.kecamatan
    && saved.city == confirmed.city && saved.province == confirmed.province && saved.postal == confirmed.postal
    && saved.country == if confirmed.country == "" then "Indonesia" else confirmed.country
  }

  // The row carries the confirmed address, except when the pinned draft was updated and the address update
  // failed: that failure is only logged, and the old address stays.
  ghost predicate AddressSaved(db: Db, scope: Scope, pin: OrderId, force: bool, confirmed: Shipping, a: Answers,
                               db': Db, id: OrderId) {
    && 1 <= id <= |db'|
    && if IsDraft(db, scope, pin) && !force && a.shipping == Refused then db'[id - 1].ship == db[pin - 1].ship
       else CarriesAddress(confirmed, db'[id - 1].ship)
  }

  lemma {:induction false} SavedAddress(shop: Shop, db: Db, scope: Scope, st: State, a: Answers)
    ensures var r := Save(shop, db, scope, st, a);
            r.outcome.Saved? ==>
              AddressSaved(db, scope, st.pinned, st.forceNew, st.ship, a, r.db, r.outcome.id)
  {
    if Save(shop, db, scope, st, a).outcome.Saved? {
      AddressedCarriesIt(st.ship);
      var items := ItemsOf(shop, AllPlaced(a.stock, DraftLines(shop, st)).value, FreeText(st));
      WrittenAddress(db, scope, st.pinned, st.forceNew, items, st.ship, Addressed(st.ship), a);
    }
  }

  lemma {:induction false} AddressedCarriesIt(a: Shipping)
    ensures CarriesAddress(a, Addressed(a))
    ensures Trim(a.name) != "" && Trim(a.phone) != "" ==> AddressKnown(Addressed(a))
  {
  }

  lemma {:induction false} WrittenAddress(db: Db, scope: Scope, pin: OrderId, force: bool, items: seq<Item>,
                                          confirmed: Shipping, ship: Shipping, a: Answers)
    requires AddressKnown(ship) && CarriesAddress(confirmed, ship)
    ensures var (db', outcome) := Write(db, scope, pin, force, items, Just(ship), ship, a);
            outcome.Saved? ==> AddressSaved(db, scope, pin, force, confirmed, a, db', outcome.id)
  {
  }

  // A continued draft asks only for what it lacks: never for the final OK, which a complete draft is
  // past.
  lemma {:induction false} ContinuedCheckout(shop: Shop, o: Order, id: OrderId)
    requires StateFromOpenOrder(shop, o, id).Just?
    ensures var st := StateFromOpenOrder(shop, o, id).value;
            && st == StateFromDraft(o, id).(step := st.step) && st.pinned == id
            && (st.step == AskRecipient || (st.step == AskAddressFull && !ShippingComplete(st.ship)))
            && Cart(shop, st) == Cart(shop, StateFromDraft(o, id)) != []
  {
    var st := StateFromDraft(o, id);
    CartIsOfTheLines(shop, st, st.(step := StepAfterItems(st)));
  }
}
