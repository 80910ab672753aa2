# Indian house price estimator: the estimation request gate

This project models, in Dafny, the rules that decide whether a press of
"Estimate Price" in the Streamlit page `app.py` reaches the pricing formula,
and what number comes out of it:

- **City gate** (`EstimateGate.CityAccepted`, `EstimateGate.HandleEstimate`):
  the normalised city must be non-empty and one of the known cities. An empty
  city shows nothing further (`NoCity`). An unknown one gives the invalid-city
  error (`InvalidCity`).
- **Parsing** (`EstimateGate.ParseForm`): size is parsed as a float and the
  counts and the year as integers. Any failure gives the one generic warning
  (`Malformed`).
- **Ordered checks** (`Validation.Validate`): size in [99, 99999], then
  bedrooms, bathrooms and floors each in [1, 9], then year in [1900, 2025],
  then both amenity selections made. The first failing check is the one
  reported (`Rejected(OutOfRange(field))` or `Rejected(MissingSelection)`).
  `Validation.FirstViolation` is an independent reference definition of
  "the first violated field in check order", and lemmas tie the two together.
- **Selection decoding** (`Selection.Decode`): the three-valued
  `-- Select --`/Yes/No box becomes `true` exactly for Yes.
- **Clamp** (`PriceClamp.Clamp`): the estimator's raw figure is clamped
  into [5e6, 5e8] rupees.

Modules: `Options` (an optional value), `Selection`, `PriceClamp`,
`Validation` and `EstimateGate` (the whole request).

The collaborators whose code is not part of this model are parameters:
- the valid-city set;
- the normaliser (`str.strip().lower()`);
- the float and integer parsers;
- `detect_city_tier`, which gives a base price and a tier label;
- `estimate_price`, the pricing formula.

The checks run in a fixed order and only the first failure is reported.
An empty city shows nothing below the city box (app.py:9).

## Model

| member | source | states |
|---|---|---|
| `Selection.Decode` | app.py:60-61 | the flag is true exactly when the selection is Yes, so No and the unset sentinel give false |
| `Selection.DecodeMadeChoice` | app.py:60-61 | for a made choice, the flag is true iff the choice is Yes and false iff it is No |
| `PriceClamp.Clamp` | app.py:65 | the result always lies in [5e6, 5e8]; it equals the input when the input is in range; below the band it is 5e6, above it 5e8 |
| `PriceClamp.ClampIdempotent` | app.py:65 | clamping twice equals clamping once |
| `PriceClamp.ClampMonotone` | app.py:65 | p <= q implies clamp(p) <= clamp(q) |
| `PriceClamp.ClampFixedPoints` | app.py:65 | clamp(p) == p iff p is in [5e6, 5e8] |
| `Validation.CheckOrderCoversAllFields` | app.py:52-56 | every numeric field occurs in the check order |
| `Validation.FirstViolation` | app.py:52-56 | reference definition: the index it returns is out of range and every earlier field is in range; none is returned iff all fields in the order are in range |
| `Validation.NoViolationIffAllInRange` | app.py:52-56 | no field in check order is violated iff every field is in range |
| `Validation.AllInRangeByField` | app.py:52-56 | the request is in range everywhere iff each of the five field checks passes |
| `Validation.Validate` | app.py:52-61 | accepted iff all five fields are in their inclusive ranges and both selections are made; a missing selection is reported iff all numbers are in range and a selection is unset; an out-of-range rejection happens iff some field is out of range, and the field it names is out of range; accepted attributes carry the parsed numbers, the facilities text and flags that are true exactly for Yes |
| `Validation.FirstViolationOfCheckOrder` | app.py:52-56 | the first violation in the order size, bedrooms, bathrooms, floors, year, written out field by field |
| `Validation.ValidateReportsFirstViolation` | app.py:52-56 | an out-of-range rejection happens iff some field is out of range, and it names exactly the first violated field in check order |
| `Validation.LaterViolationsIgnored` | app.py:52-58 | when field k is the first out of range, it is the reported reason, whatever later fields and the selections hold |
| `Validation.SizeBoundsInclusive` | app.py:52 | sizes 99 and 99999 pass; 98.9 and 100000 are rejected for their size |
| `EstimateGate.ParseForm` | app.py:46-50 | parsing succeeds iff all five numeric fields parse, and the parsed form holds exactly the parsed numbers, the selections and the facilities text |
| `EstimateGate.HandleEstimate` | app.py:9-72 | nothing is shown iff the normalised city is empty; invalid city iff it is non-empty and unknown; the generic warning iff the city is accepted and some field does not parse; a rejection iff the parsed form fails a check, carrying the reason the checks report; an estimate iff everything passes, and then it lies in [5e6, 5e8] and carries the tier label of the city |
| `EstimateGate.GateReportsFirstViolation` | app.py:52-56 | for an accepted city and a parsed form, an out-of-range field rejects the request naming the first violated field in check order |
| `EstimateGate.RejectionsIgnorePricing` | app.py:10-65 | a rejected request gets the same outcome whatever the tier lookup and the estimator return: neither result is used |
| `EstimateGate.AnyParseFailureIsMalformed` | app.py:45-72 | for an accepted city, one unparsable numeric field gives the generic warning, whatever the other fields hold |
| `EstimateGate.EstimateUsesCheckedAttributes` | app.py:60-65 | the shown price is the clamp of the estimator's figure, computed from the tier's base price and the parsed attributes with flags true exactly for Yes; an in-band figure is shown unchanged |
| `EstimateGate.UnsetSelectionRejects` | app.py:57-58 | with every number in range, an unset parking or garden selection rejects the request |

## Left out

- The Streamlit page itself is not modelled: widgets, buttons, columns, the success, warning and caption messages, and the `st.session_state` persistence (app.py:2-32). The model starts from the values the widgets hold when "Estimate Price" is pressed.
- The reset flow (app.py:35-41) is a confirmation radio that copies defaults back into the session. It is presentation state only.
- `detect_city_tier` and `estimate_price` are not part of this model. They are function parameters with arbitrary results.
- The contents and loading of the valid-city list are not modelled. The list is a set parameter.
- `str.strip().lower()` and Python's `float()`/`int()` parsing are function parameters. Their whitespace, sign, NaN and infinity rules are not modelled.
- Floating point is not modelled: size and prices are exact reals. A NaN or infinite size, which `float()` accepts, is therefore not represented.
- EstimateGate.HandleEstimate: the promise that an estimate lies in [5e6, 5e8] assumes `estimate_price` never returns NaN. In Python, `min(max(nan, 5e6), 5e8)` is NaN, so app.py:65 would show it unclamped.
- Exceptions and `st.stop()` are not modelled. Each `st.stop()` is read as "reject with this reason". The bare `except:` at app.py:71 may also catch the exception that `st.stop()` raises, or one raised by the collaborators, and those interactions are not represented.
- The display formatting of the price in crore (app.py:68) is float-to-string rendering and is not modelled.
