/**
 * The final clamp applied to the estimator's raw figure (app.py line 65):
 * `min(max(price, 5e6), 5e8)`, i.e. no estimate is shown below fifty lakh
 * or above fifty crore rupees.
 */
module PriceClamp {

  const MinPrice: real := 5000000.0
  const MaxPrice: real := 500000000.0

  predicate InPriceRange(p: real) {
    MinPrice <= p <= MaxPrice
  }

  function Max(a: real, b: real): real {
    if a >= b then a else b
  }

  function Min(a: real, b: real): real {
    if a <= b then a else b
  }

  /** The clamped price always lies in the displayable band, and a price
      already inside the band is left untouched. */
  function Clamp(p: real): (r: real)
    ensures InPriceRange(r)
    ensures InPriceRange(p) ==> r == p
    ensures p < MinPrice ==> r == MinPrice
    ensures p > MaxPrice ==> r == MaxPrice
  {
    Min(Max(p, MinPrice), MaxPrice)
  }

  /** Clamping twice is the same as clamping once. */
  lemma ClampIdempotent(p: real)
    ensures Clamp(Clamp(p)) == Clamp(p)
  {
  }

  /** Clamping preserves order: a higher raw estimate never shows a lower price. */
  lemma ClampMonotone(p: real, q: real)
    requires p <= q
    ensures Clamp(p) <= Clamp(q)
  {
  }

  /** The clamp is the identity exactly on the displayable band. */
  lemma ClampFixedPoints(p: real)
    ensures Clamp(p) == p <==> InPriceRange(p)
  {
  }

}
