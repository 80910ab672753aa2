/**
 * The three-valued Yes/No choice offered for parking and garden
 * (app.py lines 20-23). The first entry of the select box, "-- Select --",
 * stands for "not chosen yet" and is modelled as Unset.
 */
module Selection {

  datatype Choice = Unset | Yes | No

  /** A choice the user has actually made. */
  predicate IsMade(c: Choice) {
    c != Unset
  }

  /** The amenity flag handed to the estimator: `selection == "Yes"`. */
  function Decode(c: Choice): (has: bool)
    ensures has <==> c == Yes
    ensures has ==> IsMade(c)
  {
    match c
    case Yes => true
    case No => false
    case Unset => false
  }

  /** Among made choices, "Yes" is the only one giving true and "No" the
      only one giving false. */
  lemma DecodeMadeChoice(c: Choice)
    requires IsMade(c)
    ensures Decode(c) <==> c == Yes
    ensures !Decode(c) <==> c == No
  {
  }

}
