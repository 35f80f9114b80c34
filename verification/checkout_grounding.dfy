/**
  No invented data (applyFieldAnswer in ai/llm_first_orders.go): what a field answer stores is the
  buyer's own words, and what the buyer validly gives is stored.
 */
module CheckoutGrounding {
  import opened Text
  import opened Checkout

  // A stored value: the one from before, trimmed or not, one the deterministic parser read out of the buyer's text,
  // or words that appear in it.
  ghost predicate Grounds(b: Buyer, was: string, now: string, parsed: string) {
    now == was || now == Trim(was) || now == parsed || now == Trim(parsed) || b.contains(now)
  }

  // The province may also be the canonical name of a province the buyer wrote.
  ghost predicate GroundsProvince(b: Buyer, was: string, now: string, parsed: string) {
    Grounds(b, was, now, parsed) || exists city: string :: b.contains(city) && b.canonicalProvince(city) == Just(now)
  }

  // A phone is stored in its normal form; all its digits are in the buyer's text, in local or international form.
  ghost predicate GroundsPhone(b: Buyer, was: string, now: string) {
    now == was || exists d: string :: b.hasPhone(d) && b.validPhone(d) == Just(now)
  }

  ghost predicate GroundsPerson(b: Buyer, was: Shipping, now: Shipping, parsed: Shipping) {
    && Grounds(b, was.name, now.name, parsed.name)
    && GroundsPhone(b, was.phone, now.phone)
    && (now.postal == was.postal || now.postal == parsed.postal || b.hasNumber(now.postal))
  }

  ghost predicate GroundsAddress(b: Buyer, was: Shipping, now: Shipping, parsed: Shipping) {
    && Grounds(b, was.street, now.street, parsed.street) && Grounds(b, was.kecamatan, now.kecamatan, parsed.kecamatan)
    && Grounds(b, was.city, now.city, parsed.city) && GroundsProvince(b, was.province, now.province, parsed.province)
  }

  // The parts of an address the answer's name, phone and postal code leave alone.
  ghost predicate SameAddress(a: Shipping, a': Shipping) {
    a' == a.(name := a'.name, phone := a'.phone, postal := a'.postal)
  }

  ghost predicate SamePerson(a: Shipping, a': Shipping) {
    a'.name == a.name && a'.phone == a.phone && a'.postal == a.postal
  }

  lemma {:induction false} ParsedPersonIsGrounded(b: Buyer, a: Shipping, merged: Shipping)
    ensures GroundsPerson(b, a, ParsedPerson(b, a, merged), merged)
  {
    var d := b.digits(merged.phone);
    assert b.validPhone(d).Just? && b.hasPhone(d) ==> GroundsPhone(b, a.phone, b.validPhone(d).value);
  }

  lemma {:induction false} ParsedAddressIsGrounded(b: Buyer, f: Fields, a: Shipping)
    ensures GroundsAddress(b, a, ParseShipping(b, f, a).ship, b.parse(a))
    ensures SamePerson(ParsedPerson(b, a, b.parse(a)), ParseShipping(b, f, a).ship)
  {
  }

  lemma {:induction false} NumbersAreGrounded(b: Buyer, f: Fields, was: Shipping, a: Shipping, parsed: Shipping)
    requires GroundsPerson(b, was, a, parsed)
    ensures var a' := PostalCode(b, f, NameAndPhone(b, f, a));
            GroundsPerson(b, was, a', parsed) && SameAddress(a, a')
  {
    var d := b.digits(f.phone);
    assert b.validPhone(d).Just? && b.hasPhone(d) ==> GroundsPhone(b, was.phone, b.validPhone(d).value);
  }

  lemma {:induction false} ModelAddressIsGrounded(shop: Shop, b: Buyer, f: Fields, was: Shipping, p: Parsed,
                                                  parsed: Shipping, isPart: (string, string) -> bool)
    requires b.canonicalProvince("").Nothing? && GroundsAddress(b, was, p.ship, parsed)
    ensures var a' := ModelAddress(shop, b, f, p, isPart); GroundsAddress(b, was, a', parsed) && SamePerson(p.ship, a')
  {
    PlacesAreGrounded(shop, b, f, p.ship);
  }

  lemma {:induction false} PlacesAreGrounded(shop: Shop, b: Buyer, f: Fields, a: Shipping)
    requires b.canonicalProvince("").Nothing?
    ensures var p := PlacesOf(shop, b, f, a);
            && (p.district != "" ==> b.contains(p.district)) && (p.city != "" ==> b.contains(p.city))
            && (p.province != "" ==>
                  || b.contains(p.province)
                  || exists city: string :: b.contains(city) && b.canonicalProvince(city) == Just(p.province))
  {
    var city := Grounded(b, f.city);
    assert city != "" ==> b.contains(city);
  }

  // Everything a field answer stores comes from the buyer: from what was stored before, from the
  // parser's reading of the text, or from words and numbers that appear in the text.
  lemma {:induction false} NothingIsInvented(shop: Shop, b: Buyer, f: Fields,
                                             isPart: (string, string) -> bool, a: Shipping)
    requires b.canonicalProvince("").Nothing?
    ensures GroundsPerson(b, a, ShippingFrom(shop, b, f, isPart, a), b.parse(a))
    ensures GroundsAddress(b, a, ShippingFrom(shop, b, f, isPart, a), b.parse(a))
  {
    var p := ParseShipping(b, f, a);
    var a' := PostalCode(b, f, NameAndPhone(b, f, p.ship));
    ParsedPersonIsGrounded(b, a, b.parse(a));
    ParsedAddressIsGrounded(b, f, a);
    NumbersAreGrounded(b, f, a, p.ship, b.parse(a));
    ModelAddressIsGrounded(shop, b, f, a, p.(ship := a'), b.parse(a), isPart);
  }

  // What the buyer validly gives is stored, over what was stored before: a plausible name and a valid
  // phone number found in the text, and a five-digit postal code typed as such.
  lemma {:induction false} ValidAnswersAreTaken(shop: Shop, b: Buyer, f: Fields,
                                                isPart: (string, string) -> bool, a: Shipping)
    ensures var a' := ShippingFrom(shop, b, f, isPart, a);
            && (Trim(f.name) != "" && b.contains(Trim(f.name)) && b.plausibleName(Trim(f.name)) && !b.blocksName ==>
                  a'.name == Trim(f.name))
            && (b.digits(f.phone) != "" && b.hasPhone(b.digits(f.phone)) && b.validPhone(b.digits(f.phone)).Just? ==>
                  a'.phone == b.validPhone(b.digits(f.phone)).value)
            && (b.hasNumber(b.digits(f.postal)) && |b.digits(f.postal)| == 5 ==> a'.postal == b.digits(f.postal))
  {
    var p := ParseShipping(b, f, a);
    var a' := PostalCode(b, f, NameAndPhone(b, f, p.ship));
    assert SamePerson(a', ModelAddress(shop, b, f, p.(ship := a'), isPart));
  }

  // ── the person that is stored ──────────────────────────────────────────────

  predicate NameGiven(b: Buyer, f: Fields) {
    Trim(f.name) != "" && b.contains(Trim(f.name)) && b.plausibleName(Trim(f.name)) && !b.blocksName
  }

  predicate NameRead(b: Buyer, a: Shipping) {
    b.parse(a).name != a.name && b.plausibleName(b.parse(a).name) && !b.blocksName
  }

  predicate PhoneGiven(b: Buyer, f: Fields) {
    b.digits(f.phone) != "" && b.hasPhone(b.digits(f.phone)) && b.validPhone(b.digits(f.phone)).Just?
  }

  predicate PhoneRead(b: Buyer, a: Shipping) {
    var d := b.digits(b.parse(a).phone);
    b.parse(a).phone != a.phone && b.validPhone(d).Just? && b.hasPhone(d)
  }

  predicate PostalGiven(b: Buyer, f: Fields) {
    b.hasNumber(b.digits(f.postal)) && |b.digits(f.postal)| == 5
  }

  predicate PostalRead(b: Buyer, a: Shipping) {
    b.parse(a).postal != a.postal && |b.parse(a).postal| == 5
  }

  // Name, phone and postal code: what the model found and the buyer's words bear out, else what the parser read
  // and the same checks let through, else what was stored.
  lemma {:induction false} PersonAnswersAreTaken(shop: Shop, b: Buyer, f: Fields,
                                                 isPart: (string, string) -> bool, a: Shipping)
    ensures var a', read := ShippingFrom(shop, b, f, isPart, a), b.parse(a);
            && a'.name == (if NameGiven(b, f) then Trim(f.name) else if NameRead(b, a) then read.name else a.name)
            && a'.phone == (if PhoneGiven(b, f) then b.validPhone(b.digits(f.phone)).value
                            else if PhoneRead(b, a) then b.validPhone(b.digits(read.phone)).value else a.phone)
            && a'.postal == (if PostalGiven(b, f) then b.digits(f.postal)
                             else if PostalRead(b, a) then read.postal else a.postal)
  {
    var p := ParseShipping(b, f, a);
    var a' := PostalCode(b, f, NameAndPhone(b, f, p.ship));
    assert SamePerson(a', ModelAddress(shop, b, f, p.(ship := a'), isPart));
    assert SamePerson(ParsedPerson(b, a, b.parse(a)), p.ship);
  }

  // ── the step after an answer ───────────────────────────────────────────────

  // After an answer in a checkout that waits for the recipient or the address, the buyer is asked for a missing
  // variant first, for the recipient only while name or phone is missing, for the address only while the
  // shipping data is incomplete, and for the OK exactly when nothing is missing; never for nothing.
  lemma {:induction false} AsksForWhatIsMissing(shop: Shop, b: Buyer, f: Fields,
                                                isPart: (string, string) -> bool, st: State)
    requires st.step == AskRecipient || st.step == AskAddressFull
    ensures var st' := FieldsApplied(shop, b, f, isPart, st); var field := PendingField(shop, st');
            && st' == st.(ship := st'.ship, step := st'.step)
            && (field == VariantField <==> MissingVariant(Cart(shop, st)))
            && (field == ConfirmField <==> !MissingVariant(Cart(shop, st)) && ShippingComplete(st'.ship))
            && (field == RecipientField ==> st.step == AskRecipient && (st'.ship.name == "" || st'.ship.phone == ""))
            && (field == AddressField ==>
                  !ShippingComplete(st'.ship)
                  && (st.step == AskRecipient ==> st'.ship.name != "" && st'.ship.phone != ""))
            && field != NoField
  {
    var filled, st' := st.(ship := ShippingFrom(shop, b, f, isPart, st.ship)), FieldsApplied(shop, b, f, isPart, st);
    CartIsOfTheLines(shop, st, filled);
    CartIsOfTheLines(shop, st, st');
    FieldAfterAnswer(shop, st, st', MissingVariant(Cart(shop, st)));
  }

  lemma {:induction false} FieldAfterAnswer(shop: Shop, st: State, st': State, missing: bool)
    requires st.step == AskRecipient || st.step == AskAddressFull
    requires missing == MissingVariant(Cart(shop, st'))
    requires var person := st'.ship.name != "" && st'.ship.phone != "";
             st'.step == if ShippingComplete(st'.ship) && !missing then Confirm
                         else if st.step == AskRecipient && person then AskAddressFull else st.step
    ensures PendingField(shop, st') ==
            if missing then VariantField else if ShippingComplete(st'.ship) then ConfirmField
            else if st.step == AskRecipient && (st'.ship.name == "" || st'.ship.phone == "") then RecipientField
            else AddressField
  {
  }

  // ── the address that is stored ─────────────────────────────────────────────

  // The model's value stands in the buyer's text.
  predicate Says(b: Buyer, v: string) {
    Trim(v) != "" && b.contains(Trim(v))
  }

  // The street the parser read, unless it is the whole message without a street the model found in it, or a new
  // one that does not look like a street.
  function StreetRead(b: Buyer, f: Fields, a: Shipping): string {
    var read := b.parse(a).street;
    if (Trim(read) == Trim(b.text) && !Says(b, f.street)) || (read != a.street && !b.addressHint(read)) then a.street
    else read
  }

  // The parser changed the field in this turn.
  predicate Changed(was: string, read: string) {
    Trim(read) != "" && Trim(read) != was
  }

  function AfterParsing(was: string, read: string): string {
    if Changed(was, read) then Trim(read) else was
  }

  // A street stands out against the one the parser stored when it is a shorter part of it.
  predicate IsCleanerCut(parsed: string, street: string, isPart: (string, string) -> bool) {
    Trim(parsed) != "" && |street| < |parsed| && isPart(parsed, street)
  }

  // The model's street is stored where the parser changed none, or where it is a cleaner cut of the parser's;
  // otherwise the parser's stays.
  predicate StreetTaken(b: Buyer, f: Fields, isPart: (string, string) -> bool, a: Shipping, now: string) {
    var read := StreetRead(b, f, a);
    var parsed := AfterParsing(a.street, read);
    now == if Says(b, f.street) && (!Changed(a.street, read) || IsCleanerCut(parsed, Trim(f.street), isPart))
           then Trim(f.street) else parsed
  }

  // The buyer's city is really a province.
  predicate ProvinceAsCity(b: Buyer, f: Fields) {
    Says(b, f.city) && b.canonicalProvince(Trim(f.city)).Just?
  }

  function CanonicalOf(b: Buyer, f: Fields): string
    requires ProvinceAsCity(b, f)
  {
    b.canonicalProvince(Trim(f.city)).value
  }

  // The district then stands in for a city nobody knows.
  predicate DistrictAsCity(b: Buyer, f: Fields, city: string) {
    ProvinceAsCity(b, f) && Says(b, f.district) && Trim(city) == ""
  }

  // A model city that stands in the text and is no province, or the district standing in for it, is stored
  // unless the parser changed the city.
  predicate CityTaken(b: Buyer, f: Fields, a: Shipping, now: string) {
    var read := b.parse(a).city;
    var parsed := AfterParsing(a.city, read);
    now == if Changed(a.city, read) then parsed
           else if DistrictAsCity(b, f, parsed) then Trim(f.district)
           else if Says(b, f.city) && !ProvinceAsCity(b, f) then Trim(f.city)
           else parsed
  }

  // So is a model province, or the canonical name of the province given as the city if none is known.
  predicate ProvinceTaken(b: Buyer, f: Fields, a: Shipping, now: string) {
    var read := b.parse(a).province;
    var parsed := AfterParsing(a.province, read);
    now == if Changed(a.province, read) then parsed
           else if Says(b, f.province) then Trim(f.province)
           else if ProvinceAsCity(b, f) && Trim(parsed) == "" && CanonicalOf(b, f) != "" then CanonicalOf(b, f)
           else parsed
  }

  // The district names the city that is already known.
  predicate RepeatsTheCity(shop: Shop, b: Buyer, district: string, city: string) {
    b.knownCity(district).Just? && shop.lower(b.knownCity(district).value) == shop.lower(Trim(city))
  }

  // A model district is stored unless it stands in for the city or repeats it.
  predicate DistrictTaken(shop: Shop, b: Buyer, f: Fields, a: Shipping, now: string) {
    var city := AfterParsing(a.city, b.parse(a).city);
    now == if Says(b, f.district) && !DistrictAsCity(b, f, city) && !RepeatsTheCity(shop, b, Trim(f.district), city)
           then Trim(f.district) else a.kecamatan
  }

  lemma {:induction false} ParserIsRead(b: Buyer, f: Fields, a: Shipping)
    ensures var p := ParseShipping(b, f, a);
            && p.ship.street == AfterParsing(a.street, StreetRead(b, f, a))
            && p.street == Changed(a.street, StreetRead(b, f, a))
            && p.ship.city == AfterParsing(a.city, b.parse(a).city) && p.city == Changed(a.city, b.parse(a).city)
            && p.ship.province == AfterParsing(a.province, b.parse(a).province)
            && p.province == Changed(a.province, b.parse(a).province)
            && p.ship.kecamatan == a.kecamatan
  {
  }

  // What the model finds in the buyer's words is stored, field by field, wherever the parser has not changed the
  // field in this turn: street, district, city and province, with the rules for a province given as the city and
  // for a district that repeats the city. What the parser read is stored, and nothing else of the address changes.
  lemma {:induction false} AddressAnswersAreTaken(shop: Shop, b: Buyer, f: Fields,
                                                  isPart: (string, string) -> bool, a: Shipping)
    requires b.canonicalProvince("").Nothing?
    ensures var a' := ShippingFrom(shop, b, f, isPart, a);
            && StreetTaken(b, f, isPart, a, a'.street) && DistrictTaken(shop, b, f, a, a'.kecamatan)
            && CityTaken(b, f, a, a'.city) && ProvinceTaken(b, f, a, a'.province)
            && a'.rt == a.rt && a'.rw == a.rw && a'.kelurahan == a.kelurahan && a'.country == a.country
  {
    var p := ParseShipping(b, f, a);
    var a' := PostalCode(b, f, NameAndPhone(b, f, p.ship));
    ParserIsRead(b, f, a);
    assert SameAddress(p.ship, a');
    ModelStreetIsTaken(shop, b, f, p.(ship := a'), isPart);
    ModelPlacesAreTaken(shop, b, f, p.(ship := a'), isPart);
  }

  lemma {:induction false} ModelStreetIsTaken(shop: Shop, b: Buyer, f: Fields, p: Parsed,
                                              isPart: (string, string) -> bool)
    ensures var a, a' := p.ship, ModelAddress(shop, b, f, p, isPart);
            && a'.street == (if Says(b, f.street) && (!p.street || IsCleanerCut(a.street, Trim(f.street), isPart))
                             then Trim(f.street) else a.street)
            && a' == a.(street := a'.street, kecamatan := a'.kecamatan, city := a'.city, province := a'.province)
  {
  }

  lemma {:induction false} ModelPlacesAreTaken(shop: Shop, b: Buyer, f: Fields, p: Parsed,
                                               isPart: (string, string) -> bool)
    requires b.canonicalProvince("").Nothing? && (p.city ==> Trim(p.ship.city) != "")
    ensures var a, a' := p.ship, ModelAddress(shop, b, f, p, isPart);
            && a'.kecamatan == (if Says(b, f.district) && !DistrictAsCity(b, f, a.city)
                                   && !RepeatsTheCity(shop, b, Trim(f.district), a.city)
                                then Trim(f.district) else a.kecamatan)
            && a'.city == (if p.city then a.city
                           else if DistrictAsCity(b, f, a.city) then Trim(f.district)
                           else if Says(b, f.city) && !ProvinceAsCity(b, f) then Trim(f.city)
                           else a.city)
            && a'.province == (if p.province then a.province
                               else if Says(b, f.province) then Trim(f.province)
                               else if ProvinceAsCity(b, f) && Trim(a.province) == "" && CanonicalOf(b, f) != "" then
                                 CanonicalOf(b, f)
                               else a.province)
  {
  }
}
