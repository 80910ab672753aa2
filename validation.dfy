/**
 * The field checks run when "Estimate Price" is pressed (app.py lines 45-61):
 * the five numeric fields must lie in their inclusive ranges, checked in a
 * fixed order with the first failing check reported, then both amenity
 * selections must have been made, and the selections become booleans.
 */
module Validation {
  import opened Options
  import opened Selection

  /** The five numeric fields of the form. */
  datatype Field = Size | Bedrooms | Bathrooms | Floors | YearBuilt

  /** The order in which the range checks run (app.py lines 52-56). */
  const CheckOrder: seq<Field> := [Size, Bedrooms, Bathrooms, Floors, YearBuilt]

  /** The form after its five text fields have been parsed: size as a
      float, the counts and the year as integers. */
  datatype ParsedForm = ParsedForm(
    size: real, bedrooms: int, bathrooms: int, floors: int, year: int,
    parking: Choice, garden: Choice, facilities: string)

  /** What the estimator receives once a request has passed every check. */
  datatype Attributes = Attributes(
    size: real, bedrooms: int, bathrooms: int, floors: int, year: int,
    parking: bool, garden: bool, facilities: string)

  /** Why a parsed request was turned away; each reason has its own warning. */
  datatype Rejection = OutOfRange(field: Field) | MissingSelection

  datatype Verdict = Pass(attrs: Attributes) | Fail(why: Rejection)

  /** The domain of each numeric field: size in [99, 99999] square feet,
      each room or floor count in [1, 9], the year built in [1900, 2025]. */
  predicate InRange(g: Field, f: ParsedForm) {
    match g
    case Size => 99.0 <= f.size <= 99999.0
    case Bedrooms => 1 <= f.bedrooms <= 9
    case Bathrooms => 1 <= f.bathrooms <= 9
    case Floors => 1 <= f.floors <= 9
    case YearBuilt => 1900 <= f.year <= 2025
  }

  predicate AllInRange(f: ParsedForm) {
    forall g :: InRange(g, f)
  }

  predicate SelectionsMade(f: ParsedForm) {
    IsMade(f.parking) && IsMade(f.garden)
  }

  /** Every field is checked: each one occurs in the check order. */
  lemma CheckOrderCoversAllFields(g: Field)
    ensures exists k :: 0 <= k < |CheckOrder| && CheckOrder[k] == g
  {
    match g
    case Size => assert CheckOrder[0] == g;
    case Bedrooms => assert CheckOrder[1] == g;
    case Bathrooms => assert CheckOrder[2] == g;
    case Floors => assert CheckOrder[3] == g;
    case YearBuilt => assert CheckOrder[4] == g;
  }

  /** Reference definition of "the first violated field": the position in
      `order` of the first field out of range, if any. */
  function FirstViolation(order: seq<Field>, f: ParsedForm): (i: Option<nat>)
    ensures i.Some? ==> i.value < |order| && !InRange(order[i.value], f)
    ensures i.Some? ==> forall j :: 0 <= j < i.value ==> InRange(order[j], f)
    ensures i.None? <==> forall j :: 0 <= j < |order| ==> InRange(order[j], f)
  {
    if order == [] then None
    else if !InRange(order[0], f) then Some(0)
    else match FirstViolation(order[1..], f)
      case None => None
      case Some(k) => Some(k + 1)
  }

  /** No field in check order is violated exactly when every field is in
      range: the checks leave no field out. */
  lemma NoViolationIffAllInRange(f: ParsedForm)
    ensures FirstViolation(CheckOrder, f).None? <==> AllInRange(f)
  {
    if FirstViolation(CheckOrder, f).None? {
      forall g ensures InRange(g, f) {
        CheckOrderCoversAllFields(g);
      }
    }
  }

  /** Being in range everywhere is being in range field by field. */
  lemma AllInRangeByField(f: ParsedForm)
    ensures AllInRange(f) <==>
      && InRange(Size, f) && InRange(Bedrooms, f) && InRange(Bathrooms, f)
      && InRange(Floors, f) && InRange(YearBuilt, f)
  {
  }

  /** The chain of checks as app.py lines 52-61 write them. A request passes
      exactly when every field is in range and both selections are made; a
      missing selection is reported only once every number is in range; the
      flags handed on are "the selection is Yes". */
  function Validate(f: ParsedForm): (v: Verdict)
    ensures v.Pass? <==> AllInRange(f) && SelectionsMade(f)
    ensures v == Fail(MissingSelection) <==> AllInRange(f) && !SelectionsMade(f)
    ensures v.Fail? && v.why.OutOfRange? <==> !AllInRange(f)
    ensures v.Fail? && v.why.OutOfRange? ==> !InRange(v.why.field, f)
    ensures v.Pass? ==> v.attrs.parking == (f.parking == Yes) && v.attrs.garden == (f.garden == Yes)
    ensures v.Pass? ==>
      && v.attrs.size == f.size && v.attrs.bedrooms == f.bedrooms
      && v.attrs.bathrooms == f.bathrooms && v.attrs.floors == f.floors
      && v.attrs.year == f.year && v.attrs.facilities == f.facilities
  {
    AllInRangeByField(f);
    if !(99.0 <= f.size <= 99999.0) then Fail(OutOfRange(Size))
    else if !(1 <= f.bedrooms <= 9) then Fail(OutOfRange(Bedrooms))
    else if !(1 <= f.bathrooms <= 9) then Fail(OutOfRange(Bathrooms))
    else if !(1 <= f.floors <= 9) then Fail(OutOfRange(Floors))
    else if !(1900 <= f.year <= 2025) then Fail(OutOfRange(YearBuilt))
    else if f.parking == Unset || f.garden == Unset then Fail(MissingSelection)
    else Pass(Attributes(f.size, f.bedrooms, f.bathrooms, f.floors, f.year,
                         Decode(f.parking), Decode(f.garden), f.facilities))
  }

  /** The first violated field in check order, spelled out for the five fields. */
  lemma {:induction false} FirstViolationOfCheckOrder(f: ParsedForm)
    ensures FirstViolation(CheckOrder, f) ==
      if !InRange(Size, f) then Some(0)
      else if !InRange(Bedrooms, f) then Some(1)
      else if !InRange(Bathrooms, f) then Some(2)
      else if !InRange(Floors, f) then Some(3)
      else if !InRange(YearBuilt, f) then Some(4)
      else None
  {
    var tail4 := [YearBuilt];
    var tail3 := [Floors, YearBuilt];
    var tail2 := [Bathrooms, Floors, YearBuilt];
    var tail1 := [Bedrooms, Bathrooms, Floors, YearBuilt];
    assert tail4[1..] == [] && tail3[1..] == tail4 && tail2[1..] == tail3;
    assert tail1[1..] == tail2 && CheckOrder[1..] == tail1;
    assert FirstViolation(tail4, f) ==
      if !InRange(YearBuilt, f) then Some(0) else None;
    assert FirstViolation(tail3, f) ==
      if !InRange(Floors, f) then Some(0)
      else if !InRange(YearBuilt, f) then Some(1) else None;
    assert FirstViolation(tail2, f) ==
      if !InRange(Bathrooms, f) then Some(0)
      else if !InRange(Floors, f) then Some(1)
      else if !InRange(YearBuilt, f) then Some(2) else None;
    assert FirstViolation(tail1, f) ==
      if !InRange(Bedrooms, f) then Some(0)
      else if !InRange(Bathrooms, f) then Some(1)
      else if !InRange(Floors, f) then Some(2)
      else if !InRange(YearBuilt, f) then Some(3) else None;
  }

  /** An out-of-range rejection names exactly the first violated field in
      check order, and it is reported whenever some field is out of range. */
  lemma ValidateReportsFirstViolation(f: ParsedForm)
    ensures Validate(f).Fail? && Validate(f).why.OutOfRange? <==> FirstViolation(CheckOrder, f).Some?
    ensures FirstViolation(CheckOrder, f).Some? ==>
      Validate(f) == Fail(OutOfRange(CheckOrder[FirstViolation(CheckOrder, f).value]))
  {
    FirstViolationOfCheckOrder(f);
  }

  /** Conversely, once field k is the first one out of range, that field is
      the reported reason, whatever the later fields and selections hold. */
  lemma LaterViolationsIgnored(f: ParsedForm, k: nat)
    requires k < |CheckOrder| && !InRange(CheckOrder[k], f)
    requires forall j :: 0 <= j < k ==> InRange(CheckOrder[j], f)
    ensures Validate(f) == Fail(OutOfRange(CheckOrder[k]))
  {
    FirstViolationOfCheckOrder(f);
  }

  /** The size bounds are inclusive: 99 and 99999 square feet pass, while
      98.9 and 100000 are rejected for their size. */
  lemma SizeBoundsInclusive(f: ParsedForm)
    requires InRange(Bedrooms, f) && InRange(Bathrooms, f) && InRange(Floors, f)
    requires InRange(YearBuilt, f) && SelectionsMade(f)
    ensures f.size == 99.0 || f.size == 99999.0 ==> Validate(f).Pass?
    ensures f.size == 98.9 || f.size == 100000.0 ==> Validate(f) == Fail(OutOfRange(Size))
  {
  }

}
