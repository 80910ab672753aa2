/**
 * One press of "Estimate Price" (app.py lines 7-13 and 44-72): the city
 * gate, parsing of the five numeric text fields, the ordered checks, the
 * call to the estimator and the final clamp. The city list, the
 * normaliser, the number parsers, the tier lookup and the pricing formula
 * belong to collaborators whose code is not part of this model; they are
 * passed in as functions.
 */
module EstimateGate {
  import opened Options
  import opened Selection
  import opened PriceClamp
  import opened Validation

  /** The form as typed: five free-text numeric fields, the two select
      boxes and the free-text facilities list. */
  datatype RawForm = RawForm(
    size: string, bedrooms: string, bathrooms: string, floors: string, year: string,
    parking: Choice, garden: Choice, facilities: string)

  /** Library behaviour the gate relies on: `str.strip().lower()`,
      `float(...)` and `int(...)`, each parse either giving a number or failing. */
  datatype Collaborators = Collaborators(
    validCities: set<string>,
    normalize: string -> string,
    parseFloat: string -> Option<real>,
    parseInt: string -> Option<int>)

  /** The tier lookup (`detect_city_tier`, giving a base price and a tier
      label) and the pricing formula (`estimate_price`). */
  datatype Pricing = Pricing(
    detectCityTier: string -> (real, string),
    estimatePrice: (real, Attributes) -> real)

  /** What the user sees after pressing the button. */
  datatype Outcome =
    | NoCity                   // city box empty: nothing beyond it is shown
    | InvalidCity              // "Invalid city. Please enter a valid Indian city."
    | Malformed                // "Please fill all fields correctly to continue."
    | Rejected(why: Rejection) // the warning of the first failing check
    | Estimated(tier: string, price: real)

  /** Parsing of the numeric fields (app.py lines 46-50): every one must parse,
      and a parsed form carries exactly the parsed numbers and the form's
      selections and facilities text. */
  function ParseForm(raw: RawForm, c: Collaborators): (r: Option<ParsedForm>)
    ensures r.Some? <==>
      && c.parseFloat(raw.size).Some? && c.parseInt(raw.bedrooms).Some?
      && c.parseInt(raw.bathrooms).Some? && c.parseInt(raw.floors).Some?
      && c.parseInt(raw.year).Some?
    ensures r.Some? ==>
      && c.parseFloat(raw.size) == Some(r.value.size)
      && c.parseInt(raw.bedrooms) == Some(r.value.bedrooms)
      && c.parseInt(raw.bathrooms) == Some(r.value.bathrooms)
      && c.parseInt(raw.floors) == Some(r.value.floors)
      && c.parseInt(raw.year) == Some(r.value.year)
      && r.value.parking == raw.parking && r.value.garden == raw.garden
      && r.value.facilities == raw.facilities
  {
    match (c.parseFloat(raw.size), c.parseInt(raw.bedrooms), c.parseInt(raw.bathrooms),
           c.parseInt(raw.floors), c.parseInt(raw.year))
    case (Some(size), Some(bedrooms), Some(bathrooms), Some(floors), Some(year)) =>
      Some(ParsedForm(size, bedrooms, bathrooms, floors, year,
                      raw.parking, raw.garden, raw.facilities))
    case _ => None
  }

  /** The city gate (app.py lines 9-13): the normalised city must be
      non-empty and one of the known cities. */
  predicate CityAccepted(c: Collaborators, rawCity: string) {
    var city := c.normalize(rawCity);
    city != "" && city in c.validCities
  }

  /** The whole request. An estimate is produced only for an accepted city
      and a form that parses and passes every check, and it always lies in
      the displayable band; each rejection has its own precise condition. */
  function HandleEstimate(c: Collaborators, p: Pricing, rawCity: string, raw: RawForm): (o: Outcome)
    ensures o == NoCity <==> c.normalize(rawCity) == ""
    ensures o == InvalidCity <==> c.normalize(rawCity) != "" && c.normalize(rawCity) !in c.validCities
    ensures o == Malformed <==> CityAccepted(c, rawCity) && ParseForm(raw, c).None?
    ensures o.Rejected? <==>
      && CityAccepted(c, rawCity) && ParseForm(raw, c).Some?
      && !(AllInRange(ParseForm(raw, c).value) && SelectionsMade(ParseForm(raw, c).value))
    ensures o.Estimated? <==>
      && CityAccepted(c, rawCity) && ParseForm(raw, c).Some?
      && AllInRange(ParseForm(raw, c).value) && SelectionsMade(ParseForm(raw, c).value)
    ensures o.Rejected? ==> o.why == Validate(ParseForm(raw, c).value).why
    ensures o.Estimated? ==> InPriceRange(o.price)
    ensures o.Estimated? ==> o.tier == p.detectCityTier(c.normalize(rawCity)).1
  {
    var city := c.normalize(rawCity);
    if city == "" then NoCity
    else if city !in c.validCities then InvalidCity
    else
      var (basePrice, tier) := p.detectCityTier(city);
      match ParseForm(raw, c)
      case None => Malformed
      case Some(parsed) =>
        match Validate(parsed)
        case Fail(why) => Rejected(why)
        case Pass(attrs) => Estimated(tier, Clamp(p.estimatePrice(basePrice, attrs)))
  }

  /** When a numeric field is out of range, the request is rejected naming
      the first violated field in check order, whatever the later fields and
      the selections hold. */
  lemma GateReportsFirstViolation(c: Collaborators, p: Pricing, rawCity: string, raw: RawForm)
    requires CityAccepted(c, rawCity) && ParseForm(raw, c).Some?
    requires FirstViolation(CheckOrder, ParseForm(raw, c).value).Some?
    ensures
      var parsed := ParseForm(raw, c).value;
      HandleEstimate(c, p, rawCity, raw)
        == Rejected(OutOfRange(CheckOrder[FirstViolation(CheckOrder, parsed).value]))
  {
    ValidateReportsFirstViolation(ParseForm(raw, c).value);
  }

  /** No rejection depends on the tier lookup or the estimator: whenever a
      request is turned away, any other pricing collaborators would turn it
      away in the same words, so neither one's result is used. */
  lemma RejectionsIgnorePricing(c: Collaborators, p: Pricing, q: Pricing, rawCity: string, raw: RawForm)
    requires !HandleEstimate(c, p, rawCity, raw).Estimated?
    ensures HandleEstimate(c, q, rawCity, raw) == HandleEstimate(c, p, rawCity, raw)
  {
  }

  /** A single unparsable numeric field rejects the request with the generic
      message, however far out of range the other fields are. */
  lemma AnyParseFailureIsMalformed(c: Collaborators, p: Pricing, rawCity: string, raw: RawForm)
    requires CityAccepted(c, rawCity)
    requires || c.parseFloat(raw.size).None? || c.parseInt(raw.bedrooms).None?
             || c.parseInt(raw.bathrooms).None? || c.parseInt(raw.floors).None?
             || c.parseInt(raw.year).None?
    ensures HandleEstimate(c, p, rawCity, raw) == Malformed
  {
  }

  /** The estimate shown is the estimator's figure clamped into the band,
      computed from the tier's base price and the checked attributes, with
      the flags true exactly for "Yes". */
  lemma EstimateUsesCheckedAttributes(c: Collaborators, p: Pricing, rawCity: string, raw: RawForm)
    requires HandleEstimate(c, p, rawCity, raw).Estimated?
    ensures
      var parsed := ParseForm(raw, c).value;
      var attrs := Attributes(parsed.size, parsed.bedrooms, parsed.bathrooms, parsed.floors,
                              parsed.year, raw.parking == Yes, raw.garden == Yes, raw.facilities);
      var raw_price := p.estimatePrice(p.detectCityTier(c.normalize(rawCity)).0, attrs);
      && HandleEstimate(c, p, rawCity, raw).price == Clamp(raw_price)
      && (InPriceRange(raw_price) ==> HandleEstimate(c, p, rawCity, raw).price == raw_price)
  {
  }

  /** An unset parking or garden selection rejects a request whose numbers
      are all in range. */
  lemma UnsetSelectionRejects(c: Collaborators, p: Pricing, rawCity: string, raw: RawForm)
    requires CityAccepted(c, rawCity) && ParseForm(raw, c).Some?
    requires AllInRange(ParseForm(raw, c).value)
    requires raw.parking == Unset || raw.garden == Unset
    ensures HandleEstimate(c, p, rawCity, raw) == Rejected(MissingSelection)
  {
  }

}
