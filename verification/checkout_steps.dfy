/**
  The checkout updates of ai/llm_first_orders.go as the program runs them: lookup tables filled in
  loops, and a state changed field by field. Each is proved to do what the functions of Checkout say.
 */
module CheckoutSteps {
  import opened Text
  import opened Checkout

  // `earlier`, `byId` and `idLines` of stateWithCart, for the known lines.
  ghost predicate Remembers(shop: Shop, known: seq<Line>, earlier: map<Key, Line>, byId: map<string, Line>,
                            idLines: map<string, nat>)
  {
    && (forall k: Key :: SameVariant(shop, known, k) == if k in earlier then Just(earlier[k]) else Nothing)
    && (forall id: string :: id in byId <==> SameProduct(known, id) != [])
    && (forall id: string :: id in idLines <==> id in byId)
    && (forall id: string :: id in byId ==>
          byId[id] == SameProduct(known, id)[0] && idLines[id] == |SameProduct(known, id)|)
  }

  lemma {:induction false} VariantsOneMore(shop: Shop, known: seq<Line>, l: Line, earlier: map<Key, Line>)
    requires forall k: Key :: SameVariant(shop, known, k) == if k in earlier then Just(earlier[k]) else Nothing
    ensures var earlier' := earlier[KeyOf(shop, l.item, l.size, l.color) := l];
            forall k: Key :: SameVariant(shop, known + [l], k) == if k in earlier' then Just(earlier'[k]) else Nothing
  {
    assert (known + [l])[..|known|] == known;
  }

  lemma {:induction false} ProductOneMore(known: seq<Line>, l: Line, id: string)
    ensures SameProduct(known + [l], id) == SameProduct(known, id) + if l.item == id then [l] else []
  {
    assert (known + [l])[..|known|] == known;
  }

  method RememberLines(shop: Shop, lines: seq<Line>)
    returns (earlier: map<Key, Line>, byId: map<string, Line>, idLines: map<string, nat>)
    ensures Remembers(shop, Named(lines), earlier, byId, idLines)
  {
    earlier, byId, idLines := map[], map[], map[];
    for i := 0 to |lines|
      invariant Remembers(shop, Named(lines[..i]), earlier, byId, idLines)
    {
      assert lines[..i + 1][..i] == lines[..i];
      if lines[i].item == "" {
        continue;
      }
      earlier, byId, idLines := Remember(shop, Named(lines[..i]), earlier, byId, idLines, lines[i]);
    }
    assert lines[..|lines|] == lines;
  }

  method Remember(shop: Shop, ghost known: seq<Line>, earlier: map<Key, Line>, byId: map<string, Line>,
                  idLines: map<string, nat>, l: Line)
    returns (earlier': map<Key, Line>, byId': map<string, Line>, idLines': map<string, nat>)
    requires Remembers(shop, known, earlier, byId, idLines)
    ensures Remembers(shop, known + [l], earlier', byId', idLines')
  {
    earlier' := earlier[KeyOf(shop, l.item, l.size, l.color) := l];
    idLines' := idLines[l.item := if l.item in idLines then idLines[l.item] + 1 else 1];
    byId' := if l.item in byId then byId else byId[l.item := l];
    VariantsOneMore(shop, known, l, earlier);
    forall id: string
      ensures SameProduct(known + [l], id) == SameProduct(known, id) + if l.item == id then [l] else []
    {
      ProductOneMore(known, l, id);
    }
  }

  method RowsById(catalog: seq<Row>) returns (rows: map<string, Row>)
    ensures forall id: string :: RowOf(catalog, id) == if id in rows then Just(rows[id]) else Nothing
  {
    rows := map[];
    for i := 0 to |catalog|
      invariant forall id: string :: RowOf(catalog[..i], id) == if id in rows then Just(rows[id]) else Nothing
    {
      assert catalog[..i + 1][..i] == catalog[..i];
      rows := rows[catalog[i].id := catalog[i]];
    }
    assert catalog[..|catalog|] == catalog;
  }

  method LineOfCart(shop: Shop, ghost known: seq<Line>, ghost catalog: seq<Row>, earlier: map<Key, Line>,
                    byId: map<string, Line>, idLines: map<string, nat>, rows: map<string, Row>, c: CartLine)
    returns (line: Line)
    requires Remembers(shop, known, earlier, byId, idLines)
    requires forall id: string :: RowOf(catalog, id) == if id in rows then Just(rows[id]) else Nothing
    ensures line == LineFor(shop, known, catalog, c)
  {
    line := Line(c.id, "", c.name, c.size, c.color, c.qty, c.price as real, "", "");
    var key := KeyOf(shop, c.id, c.size, c.color);
    assert SameVariant(shop, known, key) == if key in earlier then Just(earlier[key]) else Nothing;
    if key in earlier {
      var prev := earlier[key];
      line := line.(code := prev.code, unit := prev.unit, warehouse := prev.warehouse);
    } else if c.id in byId {
      var prev := byId[c.id];
      line := line.(code := prev.code, unit := prev.unit);
      if c.size == "" && c.color == "" && !c.missing && idLines[c.id] == 1 {
        line := line.(size := prev.size, color := prev.color, warehouse := prev.warehouse);
      }
    }
    assert RowOf(catalog, c.id) == if c.id in rows then Just(rows[c.id]) else Nothing;
    if c.id in rows && c.id != "" {
      line := line.(code := rows[c.id].code, unit := rows[c.id].unit);
    }
  }

  method LinesOfCart(shop: Shop, known: seq<Line>, cart: seq<CartLine>, catalog: seq<Row>)
    returns (lines: seq<Line>, missing: bool)
    ensures lines == LinesFor(shop, Named(known), catalog, cart)
    ensures missing == MissingVariant(cart)
  {
    var earlier, byId, idLines := RememberLines(shop, known);
    var rows := RowsById(catalog);
    lines, missing := FillLines(shop, Named(known), catalog, earlier, byId, idLines, rows, cart);
  }

  method FillLines(shop: Shop, ghost known: seq<Line>, ghost catalog: seq<Row>, earlier: map<Key, Line>,
                   byId: map<string, Line>, idLines: map<string, nat>, rows: map<string, Row>, cart: seq<CartLine>)
    returns (lines: seq<Line>, missing: bool)
    requires Remembers(shop, known, earlier, byId, idLines)
    requires forall id: string :: RowOf(catalog, id) == if id in rows then Just(rows[id]) else Nothing
    ensures lines == LinesFor(shop, known, catalog, cart)
    ensures missing == MissingVariant(cart)
  {
    missing, lines := false, [];
    for i := 0 to |cart|
      invariant lines == LinesFor(shop, known, catalog, cart[..i])
      invariant missing == MissingVariant(cart[..i])
    {
      var c := cart[i];
      assert cart[..i + 1] == cart[..i] + [c];
      MissingSnoc(cart[..i], c);
      LinesSnoc(shop, known, catalog, cart[..i], c);
      var line := LineOfCart(shop, known, catalog, earlier, byId, idLines, rows, c);
      missing, lines := missing || c.missing, lines + [line];
    }
    assert cart[..|cart|] == cart;
  }

  lemma {:induction false} LinesSnoc(shop: Shop, known: seq<Line>, catalog: seq<Row>, cart: seq<CartLine>, c: CartLine)
    ensures LinesFor(shop, known, catalog, cart + [c]) ==
            LinesFor(shop, known, catalog, cart) + [LineFor(shop, known, catalog, c)]
  {
    assert (cart + [c])[..|cart|] == cart;
  }

  method StateWithCart(shop: Shop, st: Maybe<State>, cart: seq<CartLine>, catalog: seq<Row>)
    returns (out: Maybe<State>)
    ensures out.Nothing? <==> cart == []
    ensures cart != [] ==> out.value == WithCart(shop, if st.Just? then st.value else NoState, cart, catalog)
  {
    if cart == [] {
      return Nothing;
    }
    var next := if st.Just? then st.value else NoState;
    KnownAreNamed(next);
    var lines, missing := LinesOfCart(shop, if next.items != [] then next.items else [next.single], cart, catalog);
    next := next.(items := lines, single := lines[0]);
    if missing {
      next := next.(step := AskVariant);
    } else if next.step == AskVariant {
      next := next.(step := StepAfterItems(next));
    } else if next.step == NoStep || next.step == AskProduct || next.step == AskQty {
      next := next.(step := AskRecipient);
    }
    out := Just(next);
  }

  lemma {:induction false} KnownAreNamed(st: State)
    ensures KnownLines(st) == Named(if st.items != [] then st.items else [st.single])
  {
    assert [st.single][..0] == [];
    assert Named([]) == [];
  }

  lemma {:induction false} MissingSnoc(cart: seq<CartLine>, c: CartLine)
    ensures MissingVariant(cart + [c]) == (MissingVariant(cart) || c.missing)
  {
    assert (cart + [c])[..|cart|] == cart;
  }

  // `take` of lfParseShipping
  method TakeText(was: string, v: string) returns (now: string, changed: bool)
    ensures now == Take(was, v) && changed == (now != was)
  {
    now, changed := was, false;
    var trimmed := Trim(v);
    if trimmed != "" && trimmed != was {
      now, changed := trimmed, true;
    }
  }

  method PersonFound(b: Buyer, before: Shipping, merged: Shipping) returns (a: Shipping)
    ensures a == ParsedPerson(b, before, merged)
  {
    a := before;
    if merged.name != before.name && !b.blocksName && b.plausibleName(merged.name) {
      a := a.(name := merged.name);
    }
    if merged.phone != before.phone {
      var digits := b.digits(merged.phone);
      if b.validPhone(digits).Just? && b.hasPhone(digits) {
        a := a.(phone := b.validPhone(digits).value);
      }
    }
    if merged.postal != before.postal && |merged.postal| == 5 {
      a := a.(postal := merged.postal);
    }
  }

  method StreetFound(b: Buyer, f: Fields, before: string, merged: Shipping, a: Shipping) returns (street: string)
    requires before == a.street
    ensures street == ParsedStreet(b, f, a, merged)
  {
    street := merged.street;
    if Trim(street) == Trim(b.text) {
      var named := Trim(f.street);
      if named == "" || !b.contains(named) {
        street := before;
      }
    }
    if street != before && !b.addressHint(street) {
      street := before;
    }
  }

  method ModelPlaces(shop: Shop, b: Buyer, f: Fields, a: Shipping)
    returns (district: string, city: string, province: string)
    ensures Places(district, city, province) == PlacesOf(shop, b, f, a)
  {
    district, city, province := Grounded(b, f.district), Grounded(b, f.city), Grounded(b, f.province);
    var canon := b.canonicalProvince(city);
    if canon.Just? {
      if province == "" && Trim(a.province) == "" {
        province := canon.value;
      }
      city := "";
      if district != "" && Trim(a.city) == "" {
        city, district := district, "";
      }
    }
    if district != "" {
      var known := b.knownCity(district);
      if known.Just? && shop.lower(known.value) == shop.lower(Trim(a.city)) {
        district := "";
      }
    }
  }

  // A checkout state being filled in, with the address fields the parser changed in this turn.
  class Form {
    var ship: Shipping
    var step: Step
    var street: bool
    var city: bool
    var province: bool

    constructor (st: State)
      ensures ship == st.ship && step == st.step && !street && !city && !province
    {
      ship, step, street, city, province := st.ship, st.step, false, false, false;
    }

    method ParseText(b: Buyer, f: Fields)
      modifies this
      ensures Parsed(ship, street, city, province) == ParseShipping(b, f, old(ship)) && step == old(step)
    {
      var merged := b.parse(ship);
      var found := StreetFound(b, f, ship.street, merged, ship);
      var person := PersonFound(b, ship, merged);
      var s, c, p;
      s, street := TakeText(ship.street, found);
      c, city := TakeText(ship.city, merged.city);
      p, province := TakeText(ship.province, merged.province);
      ship := person.(street := s, city := c, province := p);
    }

    method ApplyModelAddress(shop: Shop, b: Buyer, f: Fields, isPart: (string, string) -> bool)
      modifies this`ship, this`street
      ensures ship == ModelAddress(shop, b, f, Parsed(old(ship), old(street), city, province), isPart)
    {
      var s := Grounded(b, f.street);
      var d, c, p := ModelPlaces(shop, b, f, ship);
      if Trim(ship.street) != "" && s != "" && street && |s| < |ship.street| && isPart(ship.street, s) {
        street := false;
      }
      if s != "" && !street {
        ship := ship.(street := s);
      }
      if d != "" {
        ship := ship.(kecamatan := d);
      }
      if c != "" && !city {
        ship := ship.(city := c);
      }
      if p != "" && !province {
        ship := ship.(province := p);
      }
    }

    method ApplyNumbers(b: Buyer, f: Fields)
      modifies this`ship
      ensures ship == PostalCode(b, f, NameAndPhone(b, f, old(ship)))
    {
      var name := Trim(f.name);
      if name != "" && b.contains(name) && b.plausibleName(name) && !b.blocksName {
        ship := ship.(name := name);
      }
      var digits := b.digits(f.phone);
      if digits != "" && b.hasPhone(digits) && b.validPhone(digits).Just? {
        ship := ship.(phone := b.validPhone(digits).value);
      }
      digits := b.digits(f.postal);
      if digits != "" && b.hasNumber(digits) && |digits| == 5 {
        ship := ship.(postal := digits);
      }
    }

    method ApplyFieldAnswer(shop: Shop, b: Buyer, f: Fields, isPart: (string, string) -> bool, ghost st: State,
                            cart: seq<CartLine>)
      requires ship == st.ship && step == st.step && cart == Cart(shop, st)
      modifies this
      ensures st.(ship := ship, step := step) == FieldsApplied(shop, b, f, isPart, st)
    {
      ParseText(b, f);
      ApplyNumbers(b, f);
      ApplyModelAddress(shop, b, f, isPart);
      assert ship == ShippingFrom(shop, b, f, isPart, st.ship);
      SameMissing(shop, st, ship);
      if step == AskRecipient && ship.name != "" && ship.phone != "" {
        step := AskAddressFull;
      }
      if ShippingComplete(ship) && !MissingVariant(cart) {
        step := Confirm;
      }
    }
  }

  lemma {:induction false} SameMissing(shop: Shop, st: State, ship: Shipping)
    ensures MissingVariant(Cart(shop, st.(ship := ship))) == MissingVariant(Cart(shop, st))
  {
    CartIsOfTheLines(shop, st, st.(ship := ship));
  }
}
