/**
  The checkout state of one conversation (the OrderState stored in Redis) and the order adapter of
  the LLM-first pipeline (ai/llm_first_orders.go): reading a cart from the state, writing a cart
  into it, and filling in the checkout fields.
 */
module Checkout {
  import opened Text

  // An order's id is its place in the order table, counted from 1; NO_ORDER is no order.
  type OrderId = nat

  const NO_ORDER: OrderId := 0

  datatype Line = Line(item: string, code: string, name: string, size: string, color: string,
                       qty: int, price: real, unit: string, warehouse: string)

  datatype Step = NoStep | AskProduct | AskVariant | AskQty | AskRecipient | AskAddress | AskAddressFull
                | Confirm | OtherStep(step: string)

  datatype Shipping = Shipping(name: string, phone: string, street: string, rt: string, rw: string,
                               kelurahan: string, kecamatan: string, city: string, province: string,
                               postal: string, country: string)

  // `single` mirrors the first line; a state of the legacy flow has no `items` and only `single`.
  datatype State = State(step: Step, product: string, variant: string, single: Line, items: seq<Line>,
                         ship: Shipping, pinned: OrderId, forceNew: bool, upsell: bool)

  const NoLine := Line("", "", "", "", "", 0, 0.0, "", "")
  const NoShipping := Shipping("", "", "", "", "", "", "", "", "", "", "")
  const NoState := State(NoStep, "", "", NoLine, [], NoShipping, NO_ORDER, false, false)

  // The keyword lists of the buyerflow package: whether a product name needs a size or colour, the
  // size a product name carries, the size and colour a free-text variant names, the label of a size
  // and a colour, and letter case.
  datatype Shop = Shop(needsVariant: string -> bool, sizeOf: string -> string,
                       variantSize: string -> string, variantColor: string -> string,
                       variantLabel: (string, string) -> string, lower: string -> string)

  datatype CartLine = CartLine(id: string, name: string, qty: int, price: int, size: string, color: string,
                               missing: bool)

  predicate Digits(s: string) {
    forall i :: 0 <= i < |s| ==> '0' <= s[i] <= '9'
  }

  predicate ShippingComplete(a: Shipping) {
    && a.name != "" && a.phone != "" && a.street != "" && a.city != "" && a.province != ""
    && |a.postal| == 5 && Digits(a.postal)
  }

  predicate VariantComplete(shop: Shop, name: string, size: string, color: string) {
    !shop.needsVariant(name) || size != "" || color != ""
  }

  // math.Round: halves away from zero.
  function RoundPrice(p: real): int {
    if p >= 0.0 then (p + 0.5).Floor else -((-p + 0.5).Floor)
  }

  // ── reading the cart ───────────────────────────────────────────────────────

  // normalizeOrderState
  function Normalize(shop: Shop, st: State): State {
    var line := NamedLine(shop, st.single, st.product, st.variant);
    st.(step := if st.step == AskAddress then AskAddressFull else st.step,
        single := if st.items != [] && Trim(line.name) == "" then st.items[0] else line)
  }

  // The line of a single-item state, with the product and the variant the state names beside it.
  function NamedLine(shop: Shop, single: Line, product: string, variant: string): Line {
    var name := if single.name == "" && Trim(product) != "" then Trim(product) else single.name;
    var useVariant := variant != "" && single.size == "" && single.color == "";
    var size := if useVariant then shop.variantSize(variant) else single.size;
    var color := if useVariant then shop.variantColor(variant) else single.color;
    var size' := if Trim(size) == "" && shop.sizeOf(name) != "" then shop.sizeOf(name) else size;
    single.(name := name, size := size', color := color)
  }

  // lfOrderLine
  function CartLineOf(shop: Shop, l: Line): CartLine {
    var name := Trim(l.name);
    var size := if Trim(l.size) == "" then shop.sizeOf(name) else l.size;
    CartLine(l.item, name, l.qty, RoundPrice(l.price), Trim(size), Trim(l.color),
             !VariantComplete(shop, name, size, l.color))
  }

  predicate IsLine(l: Line) {
    l.qty >= 1 && (l.item != "" || Trim(l.name) != "")
  }

  function CartOfLines(shop: Shop, lines: seq<Line>): seq<CartLine> {
    if lines == [] then []
    else
      var rest := CartOfLines(shop, lines[..|lines| - 1]);
      var l := lines[|lines| - 1];
      if IsLine(l) then rest + [CartLineOf(shop, l)] else rest
  }

  // cartFromState
  function Cart(shop: Shop, st: State): seq<CartLine> {
    if st.items != [] then CartOfLines(shop, st.items)
    else
      var l := Normalize(shop, st).single;
      if IsLine(l) then [CartLineOf(shop, l)] else []
  }

  method CartFromState(shop: Shop, st: State) returns (cart: seq<CartLine>)
    ensures cart == Cart(shop, st)
  {
    cart := [];
    if |st.items| > 0 {
      for i := 0 to |st.items|
        invariant cart == CartOfLines(shop, st.items[..i])
      {
        assert st.items[..i + 1][..i] == st.items[..i];
        var l := st.items[i];
        if l.qty < 1 || (l.item == "" && Trim(l.name) == "") {
          continue;
        }
        cart := cart + [CartLineOf(shop, l)];
      }
      assert st.items[..|st.items|] == st.items;
      return;
    }
    var norm := Normalize(shop, st);
    if IsLine(norm.single) {
      cart := [CartLineOf(shop, norm.single)];
    }
  }

  // lfCartMissingVariant: some line lacks the size or colour its product needs.
  predicate MissingVariant(cart: seq<CartLine>) {
    cart != [] && (cart[|cart| - 1].missing || MissingVariant(cart[..|cart| - 1]))
  }

  // ── writing a cart ─────────────────────────────────────────────────────────

  // A catalog row, as far as a cart line takes its data from it.
  datatype Row = Row(id: string, code: string, unit: string)

  datatype Maybe<T> = Nothing | Just(value: T)

  // The lines the state already had, an anonymous product left out.
  function KnownLines(st: State): seq<Line> {
    if st.items == [] then (if st.single.item != "" then [st.single] else [])
    else Named(st.items)
  }

  function Named(lines: seq<Line>): seq<Line> {
    if lines == [] then []
    else
      var rest := Named(lines[..|lines| - 1]);
      var l := lines[|lines| - 1];
      if l.item != "" then rest + [l] else rest
  }

  // What tells two lines apart; a product can be on more than one line, in different variants.
  datatype Key = Key(id: string, size: string, color: string)

  function KeyOf(shop: Shop, id: string, size: string, color: string): Key {
    Key(id, shop.lower(Trim(size)), shop.lower(Trim(color)))
  }

  // The newest known line with this product, size and colour.
  function SameVariant(shop: Shop, known: seq<Line>, key: Key): Maybe<Line> {
    if known == [] then Nothing
    else
      var l := known[|known| - 1];
      if KeyOf(shop, l.item, l.size, l.color) == key then Just(l) else SameVariant(shop, known[..|known| - 1], key)
  }

  // The known lines with this product.
  function SameProduct(known: seq<Line>, id: string): seq<Line> {
    if known == [] then []
    else
      var rest := SameProduct(known[..|known| - 1], id);
      if known[|known| - 1].item == id then rest + [known[|known| - 1]] else rest
  }

  function RowOf(catalog: seq<Row>, id: string): Maybe<Row> {
    if catalog == [] then Nothing
    else if catalog[|catalog| - 1].id == id then Just(catalog[|catalog| - 1])
    else RowOf(catalog[..|catalog| - 1], id)
  }

  // The variant of a product comes back from its stored line if there is just that one and the cart names none.
  predicate KeepsStoredVariant(shop: Shop, known: seq<Line>, c: CartLine) {
    && SameVariant(shop, known, KeyOf(shop, c.id, c.size, c.color)).Nothing?
    && |SameProduct(known, c.id)| == 1
    && c.size == "" && c.color == "" && !c.missing
  }

  function LineFor(shop: Shop, known: seq<Line>, catalog: seq<Row>, c: CartLine): Line {
    var plain := Line(c.id, "", c.name, c.size, c.color, c.qty, c.price as real, "", "");
    var same, product := SameVariant(shop, known, KeyOf(shop, c.id, c.size, c.color)), SameProduct(known, c.id);
    var l :=
      if same.Just? then
        plain.(code := same.value.code, unit := same.value.unit, warehouse := same.value.warehouse)
      else if product != [] then
        var prev := product[0];
        var l := plain.(code := prev.code, unit := prev.unit);
        if KeepsStoredVariant(shop, known, c) then
          l.(size := prev.size, color := prev.color, warehouse := prev.warehouse)
        else l
      else plain;
    var row := RowOf(catalog, c.id);
    if row.Just? && c.id != "" then l.(code := row.value.code, unit := row.value.unit) else l
  }

  function LinesFor(shop: Shop, known: seq<Line>, catalog: seq<Row>, cart: seq<CartLine>): (lines: seq<Line>)
    ensures |lines| == |cart|
  {
    if cart == [] then []
    else
      var n := |cart| - 1;
      LinesFor(shop, known, catalog, cart[..n]) + [LineFor(shop, known, catalog, cart[n])]
  }

  // lfStepAfterItems
  function StepAfterItems(st: State): Step {
    if Trim(st.ship.name) == "" || Trim(st.ship.phone) == "" then AskRecipient
    else if !ShippingComplete(st.ship) then AskAddressFull
    else Confirm
  }

  function StepWithCart(st: State, missing: bool): Step {
    if missing then AskVariant
    else if st.step == AskVariant then StepAfterItems(st)
    else if st.step == NoStep || st.step == AskProduct || st.step == AskQty then AskRecipient
    else st.step
  }

  // stateWithCart, for a non-empty cart
  function WithCart(shop: Shop, st: State, cart: seq<CartLine>, catalog: seq<Row>): State
    requires cart != []
  {
    var lines := LinesFor(shop, KnownLines(st), catalog, cart);
    st.(items := lines, single := lines[0], step := StepWithCart(st, MissingVariant(cart)))
  }

  // A line as reading a state produces them.
  ghost predicate IsCartLine(shop: Shop, c: CartLine) {
    && c.qty >= 1 && (c.id != "" || c.name != "")
    && Trimmed(c.name) && Trimmed(c.size) && Trimmed(c.color)
    && (c.size == "" ==> shop.sizeOf(c.name) == "")
    && c.missing == !VariantComplete(shop, c.name, c.size, c.color)
  }

  lemma {:induction false} RoundOfWhole(n: int)
    ensures RoundPrice(n as real) == n
  {
  }

  // A cart line as read back from the state it was written to: the same line, but the size and
  // colour of a product's single stored line can come back where the cart named none.
  ghost predicate ReadBack(shop: Shop, known: seq<Line>, c: CartLine, read: CartLine) {
    && read.(size := c.size, color := c.color) == c
    && (!KeepsStoredVariant(shop, known, c) ==> read == c)
  }

  ghost predicate AllReadBack(shop: Shop, known: seq<Line>, cart: seq<CartLine>, read: seq<CartLine>) {
    |read| == |cart| && forall k :: 0 <= k < |cart| ==> ReadBack(shop, known, cart[k], read[k])
  }

  lemma {:induction false} LineReadsBack(shop: Shop, known: seq<Line>, catalog: seq<Row>, c: CartLine)
    requires IsCartLine(shop, c)
    ensures var l := LineFor(shop, known, catalog, c); IsLine(l) && ReadBack(shop, known, c, CartLineOf(shop, l))
  {
    RoundOfWhole(c.price);
  }

  lemma {:induction false} OneMoreRead(shop: Shop, known: seq<Line>, cart: seq<CartLine>, lines: seq<Line>,
                                       c: CartLine, l: Line)
    requires AllReadBack(shop, known, cart, CartOfLines(shop, lines))
    requires IsLine(l) && ReadBack(shop, known, c, CartLineOf(shop, l))
    ensures AllReadBack(shop, known, cart + [c], CartOfLines(shop, lines + [l]))
  {
    assert (lines + [l])[..|lines|] == lines;
  }

  lemma {:induction false} OneMoreReadsBack(shop: Shop, known: seq<Line>, catalog: seq<Row>, cart: seq<CartLine>,
                                            c: CartLine)
    requires IsCartLine(shop, c)
    requires AllReadBack(shop, known, cart, CartOfLines(shop, LinesFor(shop, known, catalog, cart)))
    ensures AllReadBack(shop, known, cart + [c], CartOfLines(shop, LinesFor(shop, known, catalog, cart + [c])))
  {
    var lines, l := LinesFor(shop, known, catalog, cart), LineFor(shop, known, catalog, c);
    LineReadsBack(shop, known, catalog, c);
    OneMoreRead(shop, known, cart, lines, c, l);
    assert (cart + [c])[..|cart|] == cart;
    assert LinesFor(shop, known, catalog, cart + [c]) == lines + [l];
  }

  lemma {:induction false} LinesReadBack(shop: Shop, known: seq<Line>, catalog: seq<Row>, cart: seq<CartLine>)
    requires forall k :: 0 <= k < |cart| ==> IsCartLine(shop, cart[k])
    ensures AllReadBack(shop, known, cart, CartOfLines(shop, LinesFor(shop, known, catalog, cart)))
  {
    if cart != [] {
      var n := |cart| - 1;
      assert cart[..n] + [cart[n]] == cart;
      LinesReadBack(shop, known, catalog, cart[..n]);
      OneMoreReadsBack(shop, known, catalog, cart[..n], cart[n]);
    }
  }

  // Writing a cart and reading it again gives the same lines in the same order, and changes nothing
  // else of the checkout.
  lemma {:induction false} CartRoundTrip(shop: Shop, st: State, cart: seq<CartLine>, catalog: seq<Row>)
    requires cart != [] && forall k :: 0 <= k < |cart| ==> IsCartLine(shop, cart[k])
    ensures var st' := WithCart(shop, st, cart, catalog);
            && AllReadBack(shop, KnownLines(st), cart, Cart(shop, st'))
            && st' == st.(items := st'.items, single := st'.items[0], step := st'.step)
  {
    LinesReadBack(shop, KnownLines(st), catalog, cart);
  }

  // ── filling in the fields ──────────────────────────────────────────────────

  // The fields the model extracted.
  datatype Fields = Fields(name: string, phone: string, postal: string, street: string, district: string,
                           city: string, province: string)

  // What the regular expressions and keyword lists say about the buyer's message.
  datatype Buyer = Buyer(
    text: string,
    contains: string -> bool,             // the words appear in the text
    hasNumber: string -> bool,            // the digits appear in the text as one number
    hasPhone: string -> bool,             // so do the digits of a phone, in local or international form
    plausibleName: string -> bool,
    blocksName: bool,                     // a question without a name label
    parse: Shipping -> Shipping,          // the deterministic address parser
    addressHint: string -> bool,
    digits: string -> string,
    validPhone: string -> Maybe<string>,
    canonicalProvince: string -> Maybe<string>,
    knownCity: string -> Maybe<string>)

  // What is relied on: names and phones are never blank, and the parser takes a postal code from
  // the text only as five digits.
  ghost predicate Reliable(b: Buyer) {
    && !b.plausibleName("")
    && (forall d :: b.validPhone(d).Just? ==> b.validPhone(d).value != "")
    && (forall a :: b.parse(a).postal != a.postal ==> Digits(b.parse(a).postal))
  }

  datatype Parsed = Parsed(ship: Shipping, street: bool, city: bool, province: bool)

  function Take(was: string, v: string): string {
    if Trim(v) != "" then Trim(v) else was
  }

  function ParsedStreet(b: Buyer, f: Fields, a: Shipping, merged: Shipping): string {
    var dumped := Trim(merged.street) == Trim(b.text) && (Trim(f.street) == "" || !b.contains(Trim(f.street)));
    var street := if dumped then a.street else merged.street;
    if street != a.street && !b.addressHint(street) then a.street else street
  }

  function ParsedPerson(b: Buyer, a: Shipping, merged: Shipping): Shipping {
    var d := b.digits(merged.phone);
    a.(name := if merged.name != a.name && !b.blocksName && b.plausibleName(merged.name) then merged.name else a.name,
       phone := if merged.phone != a.phone && b.validPhone(d).Just? && b.hasPhone(d) then b.validPhone(d).value
                else a.phone,
       postal := if merged.postal != a.postal && |merged.postal| == 5 then merged.postal else a.postal)
  }

  // lfParseShipping
  function ParseShipping(b: Buyer, f: Fields, a: Shipping): Parsed {
    var merged := b.parse(a);
    var street := Take(a.street, ParsedStreet(b, f, a, merged));
    var city, province := Take(a.city, merged.city), Take(a.province, merged.province);
    Parsed(ParsedPerson(b, a, merged).(street := street, city := city, province := province),
           street != a.street, city != a.city, province != a.province)
  }

  function Grounded(b: Buyer, v: string): string {
    if Trim(v) != "" && b.contains(Trim(v)) then Trim(v) else ""
  }

  datatype Places = Places(district: string, city: string, province: string)

  // A province given as the city counts as the province, and the district given with it as the city if none is
  // stored. A district that repeats the stored city is left out.
  function PlacesOf(shop: Shop, b: Buyer, f: Fields, a: Shipping): Places {
    var district, city, province := Grounded(b, f.district), Grounded(b, f.city), Grounded(b, f.province);
    var canon := b.canonicalProvince(city);
    var movesUp := canon.Just? && district != "" && Trim(a.city) == "";
    var district' := if movesUp then "" else district;
    var known := b.knownCity(district');
    var repeats := district' != "" && known.Just? && shop.lower(known.value) == shop.lower(Trim(a.city));
    Places(if repeats then "" else district',
           if movesUp then district else if canon.Just? then "" else city,
           if canon.Just? && province == "" && Trim(a.province) == "" then canon.value else province)
  }

  // The model's street is kept out when the parser found one, unless it is a cleaner cut of it.
  predicate StreetIsParsed(a: Shipping, street: string, parsed: bool, isPart: (string, string) -> bool) {
    parsed && !(Trim(a.street) != "" && street != "" && |street| < |a.street| && isPart(a.street, street))
  }

  function Unless(parsed: bool, was: string, v: string): string {
    if v != "" && !parsed then v else was
  }

  // lfApplyModelAddress
  function ModelAddress(shop: Shop, b: Buyer, f: Fields, p: Parsed, isPart: (string, string) -> bool): Shipping {
    var a := p.ship;
    var street, places := Grounded(b, f.street), PlacesOf(shop, b, f, a);
    a.(street := Unless(StreetIsParsed(a, street, p.street, isPart), a.street, street),
       kecamatan := Unless(false, a.kecamatan, places.district),
       city := Unless(p.city, a.city, places.city),
       province := Unless(p.province, a.province, places.province))
  }

  function NameAndPhone(b: Buyer, f: Fields, a: Shipping): Shipping {
    var name, d := Trim(f.name), b.digits(f.phone);
    a.(name := if name != "" && b.contains(name) && b.plausibleName(name) && !b.blocksName then name else a.name,
       phone := if d != "" && b.hasPhone(d) && b.validPhone(d).Just? then b.validPhone(d).value else a.phone)
  }

  function PostalCode(b: Buyer, f: Fields, a: Shipping): Shipping {
    var d := b.digits(f.postal);
    if d != "" && b.hasNumber(d) && |d| == 5 then a.(postal := d) else a
  }

  function ShippingFrom(shop: Shop, b: Buyer, f: Fields, isPart: (string, string) -> bool, a: Shipping): Shipping {
    var p := ParseShipping(b, f, a);
    ModelAddress(shop, b, f, p.(ship := PostalCode(b, f, NameAndPhone(b, f, p.ship))), isPart)
  }

  // ask_recipient moves on once name and phone are known, and any step moves to confirm when nothing
  // is missing.
  function StepWithFields(shop: Shop, st: State): Step {
    if ShippingComplete(st.ship) && !MissingVariant(Cart(shop, st)) then Confirm
    else if st.step == AskRecipient && st.ship.name != "" && st.ship.phone != "" then AskAddressFull
    else st.step
  }

  // applyFieldAnswer
  function FieldsApplied(shop: Shop, b: Buyer, f: Fields, isPart: (string, string) -> bool, st: State): State {
    var ship := ShippingFrom(shop, b, f, isPart, st.ship);
    st.(ship := ship, step := StepWithFields(shop, st.(ship := ship)))
  }

  // No stored field is blanked, and a stored postal code stays five digits.
  ghost predicate NothingErased(a: Shipping, a': Shipping) {
    && (a.name != "" ==> a'.name != "") && (a.phone != "" ==> a'.phone != "")
    && (a.street != "" ==> a'.street != "") && (a.city != "" ==> a'.city != "")
    && (a.province != "" ==> a'.province != "") && (a.kecamatan != "" ==> a'.kecamatan != "")
    && (|a.postal| == 5 && Digits(a.postal) ==> |a'.postal| == 5 && Digits(a'.postal))
    && a'.rt == a.rt && a'.rw == a.rw && a'.kelurahan == a.kelurahan && a'.country == a.country
  }

  lemma {:induction false} ParseErasesNothing(b: Buyer, f: Fields, a: Shipping)
    requires Reliable(b)
    ensures NothingErased(a, ParseShipping(b, f, a).ship)
  {
  }

  lemma {:induction false} ModelErasesNothing(shop: Shop, b: Buyer, f: Fields, p: Parsed,
                                              isPart: (string, string) -> bool)
    ensures NothingErased(p.ship, ModelAddress(shop, b, f, p, isPart))
  {
  }

  lemma {:induction false} NumbersEraseNothing(b: Buyer, f: Fields, a: Shipping)
    requires Reliable(b) && Digits(b.digits(f.postal))
    ensures NothingErased(a, PostalCode(b, f, NameAndPhone(b, f, a)))
  {
  }

  // A field answer never erases or blanks stored data. (FieldsApplied changes nothing else of the
  // state but the step.)
  lemma {:induction false} FieldAnswerErasesNothing(shop: Shop, b: Buyer, f: Fields,
                                                    isPart: (string, string) -> bool, a: Shipping)
    requires Reliable(b) && Digits(b.digits(f.postal))
    ensures NothingErased(a, ShippingFrom(shop, b, f, isPart, a))
  {
    var p := ParseShipping(b, f, a);
    var a' := PostalCode(b, f, NameAndPhone(b, f, p.ship));
    ParseErasesNothing(b, f, a);
    NumbersEraseNothing(b, f, p.ship);
    ModelErasesNothing(shop, b, f, p.(ship := a'), isPart);
    ErasingComposes(a, p.ship, a');
    ErasingComposes(a, a', ModelAddress(shop, b, f, p.(ship := a'), isPart));
  }

  lemma {:induction false} ErasingComposes(a: Shipping, b: Shipping, c: Shipping)
    requires NothingErased(a, b) && NothingErased(b, c)
    ensures NothingErased(a, c)
  {
  }

  // Step, address, pin and save mode play no part in the cart of a state.
  lemma {:induction false} CartIsOfTheLines(shop: Shop, st: State, st': State)
    requires st'.items == st.items && st'.single == st.single && st'.product == st.product && st'.variant == st.variant
    ensures Cart(shop, st') == Cart(shop, st)
  {
    if st.items == [] {
      assert Normalize(shop, st).single == NamedLine(shop, st.single, st.product, st.variant);
      assert Normalize(shop, st').single == Normalize(shop, st).single;
    }
  }

  // A field answer moves to the confirm step exactly when the shipping data is complete and every
  // variant is known.
  lemma {:induction false} FieldAnswerConfirmsWhenComplete(shop: Shop, b: Buyer, f: Fields,
                                                           isPart: (string, string) -> bool, st: State)
    ensures var st' := FieldsApplied(shop, b, f, isPart, st);
            st'.step == Confirm <==>
              st.step == Confirm || (ShippingComplete(st'.ship) && !MissingVariant(Cart(shop, st')))
  {
    var ship := ShippingFrom(shop, b, f, isPart, st.ship);
    var filled := st.(ship := ship);
    CartIsOfTheLines(shop, filled, filled.(step := StepWithFields(shop, filled)));
  }

  // ── the confirm step ───────────────────────────────────────────────────────

  // The invariant of every stored state: at the confirm step nothing is missing from the address.
  ghost predicate ConfirmOk(st: State) {
    st.step == Confirm ==> ShippingComplete(st.ship)
  }

  lemma {:induction false} CompleteStaysComplete(a: Shipping, a': Shipping)
    requires ShippingComplete(a) && NothingErased(a, a')
    ensures ShippingComplete(a')
  {
  }

  lemma {:induction false} FieldAnswerKeepsConfirm(shop: Shop, b: Buyer, f: Fields,
                                                   isPart: (string, string) -> bool, st: State)
    requires Reliable(b) && Digits(b.digits(f.postal)) && ConfirmOk(st)
    ensures ConfirmOk(FieldsApplied(shop, b, f, isPart, st))
  {
    FieldAnswerErasesNothing(shop, b, f, isPart, st.ship);
    FieldAnswerConfirmsWhenComplete(shop, b, f, isPart, st);
    if st.step == Confirm {
      CompleteStaysComplete(st.ship, ShippingFrom(shop, b, f, isPart, st.ship));
    }
  }

  // What the buyer is asked for next (pendingFieldFromState).
  datatype Field = NoField | VariantField | RecipientField | AddressField | ConfirmField

  function FieldOf(step: Step): Field {
    match step
    case AskRecipient => RecipientField
    case AskAddress | AskAddressFull => AddressField
    case Confirm => ConfirmField
    case _ => NoField
  }

  function PendingField(shop: Shop, st: State): Field {
    if MissingVariant(Cart(shop, st)) then VariantField
    else if st.step == AskVariant then
      if Cart(shop, st) != [] then FieldOf(StepAfterItems(st)) else NoField
    else FieldOf(st.step)
  }

  // The final OK is asked for only when nothing is missing any more.
  lemma {:induction false} AskedToConfirmOnlyWhenComplete(shop: Shop, st: State)
    requires ConfirmOk(st) && PendingField(shop, st) == ConfirmField
    ensures ShippingComplete(st.ship) && !MissingVariant(Cart(shop, st))
  {
  }

  lemma {:induction false} CartKeepsConfirm(shop: Shop, st: State, cart: seq<CartLine>, catalog: seq<Row>)
    requires cart != [] && ConfirmOk(st)
    ensures ConfirmOk(WithCart(shop, st, cart, catalog))
    ensures MissingVariant(cart) ==> WithCart(shop, st, cart, catalog).step == AskVariant
  {
  }
}
