/**
  The lines of a cart that is written to the checkout it was read from (stateWithCart and cartFromState in
  ai/llm_first_orders.go): nothing a line knows beyond the cart is lost on the way.
 */
module CheckoutLines {
  import opened Text
  import opened Checkout

  // A stored line as this pipeline writes them: a product, at least one piece, trimmed, with the size its name
  // carries, at a whole price.
  ghost predicate IsStored(shop: Shop, l: Line) {
    && l.item != "" && l.qty >= 1 && Trimmed(l.name) && Trimmed(l.size) && Trimmed(l.color)
    && (l.size == "" ==> shop.sizeOf(l.name) == "")
    && l.price == l.price.Floor as real
  }

  function KeyOfLine(shop: Shop, l: Line): Key {
    KeyOf(shop, l.item, l.size, l.color)
  }

  ghost predicate AllStored(shop: Shop, lines: seq<Line>) {
    && (forall k :: 0 <= k < |lines| ==> IsStored(shop, lines[k]))
    && (forall i, j :: 0 <= i < j < |lines| ==> KeyOfLine(shop, lines[i]) != KeyOfLine(shop, lines[j]))
  }

  lemma {:induction false} NamedLines(lines: seq<Line>)
    requires forall k :: 0 <= k < |lines| ==> lines[k].item != ""
    ensures Named(lines) == lines
  {
    if lines != [] {
      NamedLines(lines[..|lines| - 1]);
    }
  }

  // The line found again by product, size and colour is the one that was read.
  lemma {:induction false} FindsItself(shop: Shop, known: seq<Line>, k: nat)
    requires k < |known|
    requires forall i, j :: 0 <= i < j < |known| ==> KeyOfLine(shop, known[i]) != KeyOfLine(shop, known[j])
    ensures SameVariant(shop, known, KeyOfLine(shop, known[k])) == Just(known[k])
  {
    var n := |known| - 1;
    if k < n {
      assert KeyOfLine(shop, known[k]) != KeyOfLine(shop, known[n]);
      FindsItself(shop, known[..n], k);
    }
  }

  lemma {:induction false} ReadsAsItself(shop: Shop, l: Line)
    requires IsStored(shop, l)
    ensures IsLine(l)
    ensures var c := CartLineOf(shop, l);
            && c.id == l.item && c.name == l.name && c.qty == l.qty && c.size == l.size && c.color == l.color
            && c.price as real == l.price && KeyOf(shop, c.id, c.size, c.color) == KeyOfLine(shop, l)
  {
    RoundOfWhole(l.price.Floor);
  }

  // Nothing of the line is lost but what the catalog says anew.
  predicate Refreshed(catalog: seq<Row>, l: Line, l': Line) {
    var row := RowOf(catalog, l.item);
    l' == if row.Just? then l.(code := row.value.code, unit := row.value.unit) else l
  }

  lemma {:induction false} WrittenAsItself(shop: Shop, known: seq<Line>, catalog: seq<Row>, l: Line)
    requires IsStored(shop, l) && SameVariant(shop, known, KeyOfLine(shop, l)) == Just(l)
    ensures Refreshed(catalog, l, LineFor(shop, known, catalog, CartLineOf(shop, l)))
  {
    ReadsAsItself(shop, l);
  }

  ghost predicate AllRefreshed(catalog: seq<Row>, lines: seq<Line>, lines': seq<Line>) {
    |lines'| == |lines| && forall k :: 0 <= k < |lines| ==> Refreshed(catalog, lines[k], lines'[k])
  }

  // The line is stored, and is the known one of its product, size and colour.
  ghost predicate IsKnown(shop: Shop, known: seq<Line>, l: Line) {
    IsStored(shop, l) && SameVariant(shop, known, KeyOfLine(shop, l)) == Just(l)
  }

  lemma {:induction false} LinesAreKept(shop: Shop, known: seq<Line>, catalog: seq<Row>, lines: seq<Line>)
    requires forall k :: 0 <= k < |lines| ==> IsKnown(shop, known, lines[k])
    ensures |CartOfLines(shop, lines)| == |lines|
    ensures AllRefreshed(catalog, lines, LinesFor(shop, known, catalog, CartOfLines(shop, lines)))
  {
    if lines != [] {
      var n := |lines| - 1;
      assert IsKnown(shop, known, lines[n]);
      LinesAreKept(shop, known, catalog, lines[..n]);
      LastIsKept(shop, known, catalog, lines[..n], lines[n]);
      assert lines[..n] + [lines[n]] == lines;
    }
  }

  lemma {:induction false} LastIsKept(shop: Shop, known: seq<Line>, catalog: seq<Row>, lines: seq<Line>, l: Line)
    requires IsKnown(shop, known, l) && |CartOfLines(shop, lines)| == |lines|
    requires AllRefreshed(catalog, lines, LinesFor(shop, known, catalog, CartOfLines(shop, lines)))
    ensures |CartOfLines(shop, lines + [l])| == |lines| + 1
    ensures AllRefreshed(catalog, lines + [l], LinesFor(shop, known, catalog, CartOfLines(shop, lines + [l])))
  {
    ReadsAsItself(shop, l);
    WrittenAsItself(shop, known, catalog, l);
    OneMoreKept(shop, known, catalog, lines, CartOfLines(shop, lines), l);
    OneMoreLine(shop, lines, l);
  }

  lemma {:induction false} OneMoreLine(shop: Shop, lines: seq<Line>, l: Line)
    requires IsLine(l)
    ensures CartOfLines(shop, lines + [l]) == CartOfLines(shop, lines) + [CartLineOf(shop, l)]
  {
    assert (lines + [l])[..|lines|] == lines;
  }

  lemma {:induction false} OneMoreKept(shop: Shop, known: seq<Line>, catalog: seq<Row>, lines: seq<Line>,
                                       cart: seq<CartLine>, l: Line)
    requires AllRefreshed(catalog, lines, LinesFor(shop, known, catalog, cart))
    requires Refreshed(catalog, l, LineFor(shop, known, catalog, CartLineOf(shop, l)))
    ensures AllRefreshed(catalog, lines + [l], LinesFor(shop, known, catalog, cart + [CartLineOf(shop, l)]))
  {
    assert (cart + [CartLineOf(shop, l)])[..|cart|] == cart;
  }

  // Writing the cart back that was read from a checkout keeps every line as it is, in its order: product, code,
  // name, size, colour, quantity, price, unit and warehouse. Only what the catalog now says of code and unit
  // is taken over.
  lemma {:induction false} ReadThenWrite(shop: Shop, st: State, catalog: seq<Row>)
    requires st.items != [] && AllStored(shop, st.items)
    ensures var cart := Cart(shop, st);
            cart != [] && AllRefreshed(catalog, st.items, WithCart(shop, st, cart, catalog).items)
  {
    NamedLines(st.items);
    forall k | 0 <= k < |st.items|
      ensures IsKnown(shop, st.items, st.items[k])
    {
      FindsItself(shop, st.items, k);
    }
    LinesAreKept(shop, st.items, catalog, st.items);
  }

  // ── a line as it is read ───────────────────────────────────────────────────

  // The whole number next to a price; a half goes away from zero.
  predicate Nearest(p: real, n: int) {
    && n as real - 0.5 <= p <= n as real + 0.5
    && (p == n as real - 0.5 ==> p > 0.0) && (p == n as real + 0.5 ==> p < 0.0)
  }

  lemma {:induction false} PriceIsNearest(p: real)
    ensures Nearest(p, RoundPrice(p))
  {
  }

  // A cart line shows the stored line: its product and quantity, name, size and colour trimmed, the size its name
  // carries when it has none, the nearest whole price, and whether it still lacks its variant.
  lemma {:induction false} LineIsReadWhole(shop: Shop, l: Line)
    ensures var c := CartLineOf(shop, l); var size := if Trim(l.size) == "" then shop.sizeOf(Trim(l.name)) else l.size;
            && c.id == l.item && c.name == Trim(l.name) && c.qty == l.qty && Nearest(l.price, c.price)
            && c.size == Trim(size) && c.color == Trim(l.color)
            && (c.missing <==> shop.needsVariant(Trim(l.name)) && size == "" && l.color == "")
  {
    PriceIsNearest(l.price);
  }

  // A state without lines has one, made of its product, its free-text variant and the line it mirrors: the
  // product's name where the line has none, and the variant's size and colour where the line has neither.
  lemma {:induction false} SingleLineIsRead(shop: Shop, st: State)
    requires st.items == []
    ensures var read := Cart(shop, st); var l := st.single;
            var name := if l.name == "" && Trim(st.product) != "" then Trim(st.product) else l.name;
            var plain := l.size == "" && l.color == "" && st.variant != "";
            var color := if plain then shop.variantColor(st.variant) else l.color;
            var given := if plain then shop.variantSize(st.variant) else l.size;
            var size := if Trim(given) == "" && shop.sizeOf(name) != "" then shop.sizeOf(name) else given;
            read == if l.qty >= 1 && (l.item != "" || Trim(name) != "")
                    then [CartLineOf(shop, l.(name := name, size := size, color := color))] else []
  {
  }

  // ── a line as it is written ────────────────────────────────────────────────

  // The only known line of a product, when the cart names a product but no variant of it: the variant comes back,
  // with the warehouse it is in.
  lemma {:induction false} OnlyVariantComesBack(shop: Shop, known: seq<Line>, catalog: seq<Row>, c: CartLine, l: Line)
    requires SameProduct(known, c.id) == [l] && c.size == "" && c.color == "" && !c.missing
    requires KeyOfLine(shop, l) != KeyOf(shop, c.id, "", "")
    ensures var l' := LineFor(shop, known, catalog, c);
            && l'.size == l.size && l'.color == l.color && l'.warehouse == l.warehouse
            && l'.item == c.id && l'.qty == c.qty
  {
    NoSuchVariant(shop, known, KeyOf(shop, c.id, "", ""), l);
  }

  lemma {:induction false} NoSuchVariant(shop: Shop, known: seq<Line>, key: Key, l: Line)
    requires SameProduct(known, key.id) == [l] || SameProduct(known, key.id) == []
    requires SameProduct(known, key.id) == [l] ==> KeyOfLine(shop, l) != key
    ensures SameVariant(shop, known, key).Nothing?
  {
    if known != [] {
      var n := |known| - 1;
      if known[n].item == key.id {
        assert known[n] == SameProduct(known, key.id)[|SameProduct(known, key.id)| - 1];
      }
      NoSuchVariant(shop, known[..n], key, l);
    }
  }

  // Another variant of a known product has the product's code and unit, but no warehouse yet.
  lemma {:induction false} OtherVariantIsOfTheProduct(shop: Shop, known: seq<Line>, c: CartLine)
    requires SameProduct(known, c.id) != [] && (c.size != "" || c.color != "" || c.missing)
    requires SameVariant(shop, known, KeyOf(shop, c.id, c.size, c.color)).Nothing?
    ensures var l := LineFor(shop, known, [], c);
            && l.code == SameProduct(known, c.id)[0].code && l.unit == SameProduct(known, c.id)[0].unit
            && l.warehouse == "" && l.size == c.size && l.color == c.color
  {
  }

  // ── where a cart leads ─────────────────────────────────────────────────────

  // A checkout that has not reached the recipient goes there with its cart; one that asked for a variant goes on
  // to what is missing, and any other stays where it is; but an open variant comes first.
  lemma {:induction false} CartLeadsOn(shop: Shop, st: State, cart: seq<CartLine>, catalog: seq<Row>)
    requires cart != []
    ensures var step := WithCart(shop, st, cart, catalog).step;
            if exists k :: 0 <= k < |cart| && cart[k].missing then step == AskVariant
            else if st.step in {NoStep, AskProduct, AskQty} then step == AskRecipient
            else if st.step != AskVariant then step == st.step
            else if Trim(st.ship.name) == "" || Trim(st.ship.phone) == "" then step == AskRecipient
            else step == if ShippingComplete(st.ship) then Confirm else AskAddressFull
  {
    MissingIff(cart);
  }

  lemma {:induction false} MissingIff(cart: seq<CartLine>)
    ensures MissingVariant(cart) <==> exists k :: 0 <= k < |cart| && cart[k].missing
  {
    if cart != [] {
      MissingIff(cart[..|cart| - 1]);
    }
  }
}
