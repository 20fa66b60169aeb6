# Real-estate price form: feature derivation and session ledger

This project models the deterministic logic of `app.py`, a single-page
Streamlit form. The user picks a property's attributes. The form turns them
into the thirteen-column row a pre-trained regressor expects and asks the
regressor for a price. Each successful prediction is kept in a per-session
list. A sidebar then picks the lowest- or highest-priced prediction made so
far.

The model has three modules, one per piece of that logic:

- `CityTable` (`city_table.dfy`) holds the fixed table of 44 city names and
  their codes 1..44, in declaration order. The dictionary is built from its
  entries by inserting them in order. `CityCode` is the exact-match lookup
  of the selected city. The lemmas prove that the names are distinct and
  that each code is its name's one-based position. They also prove that the
  table is a bijection between its 44 keys and 1..44, and that every option
  of the city selector has a code.
- `Features` (`features.dfy`) holds the form values (`PropertyInput`), the
  row (`FeatureVector`) and `Derive`, which builds the row. Nine fields and
  the price per square foot are copied. The city becomes its code. The
  averaged area is `(sqft_living + sqft_above) / 2`. The ratio is the lot
  area over that average. Arithmetic is exact, on `real`. The ratio is a
  `Quotient`: it is a number when the divisor is non-zero, and otherwise the
  infinity or NaN that IEEE 754 floating point gives for division by zero.
  This is what the form's column-wise division yields when both areas are 0,
  which the sliders allow. The regressor is a parameter (`Regressor`): the
  model is loaded once at start-up and handed to the code that uses it.
  `PredictOnce` is one press of the predict button. The record it builds
  (`Prediction`) keeps the price, the price per square foot, the ratio and
  a snapshot that gives back the form values exactly.
- `Ledger` (`ledger.dfy`) holds `SessionLedger`, a class holding the list of
  records. It has `Append`, `Clear`, and `Predict`, which is
  PredictOnce followed by the append. `Cheapest` and `Priciest` are scans
  proved against Python's `min` / `max` followed by `list.index`. They return
  the first position of the lowest or highest price, and require a
  non-empty ledger, as the sidebar only offers them then.

`ComparisonScenario` in `ledger.dfy` plays the three-price comparison
example on a ledger object. It has no contract of its own, so it has no row
below.

## Model

| member | source | states |
|---|---|---|
| `CityTable.DictOf` | app.py:237-249 | definition; no contract: a dictionary literal's entries inserted in order, a later entry for a name overriding an earlier one |
| `CityTable.CityMapping` | app.py:237-249 | definition; no contract: the name-to-code dictionary built from the 44 declared entries |
| `CityTable.KeysInOrder` | app.py:327 | the list has one name per entry, and the names it holds are exactly the keys of the dictionary built from the entries |
| `CityTable.CityNames` | app.py:327 | definition; no contract: the selector's options, the table's names in declaration order |
| `CityTable.CityCode` | app.py:341 | the lookup succeeds exactly for the selector's options; a found code lies in 1..44 and decodes back to the name through the declared order |
| `CityTable.CodeOfPosition` | app.py:237-249 | the k-th declared city is encoded as k + 1 |
| `CityTable.CityCodeInjective` | app.py:237-249 | two names with the same code are the same name |
| `CityTable.CityCodesOnto` | app.py:237-249 | the codes in use are exactly 1..44 |
| `CityTable.CityTableSize` | app.py:237-249 | the keys are exactly the selector's options and there are 44 of them |
| `CityTable.EntryNamesDistinct` | app.py:237-249 | no city name is declared twice |
| `CityTable.CodesArePositions` | app.py:237-249 | the table has 44 entries and each code is its entry's one-based position |
| `CityTable.DictOfLookup` | app.py:237-249 | in a dictionary literal with distinct keys, every key maps to the value written beside it |
| `CityTable.DictOfKeys` | app.py:237-249 | the keys of a dictionary literal are exactly its entries' names, each mapped to the value of an entry with that name |
| `CityTable.PositionalLookup` | app.py:327 | with distinct names and positional codes, a name is a key iff it is a selector option, and its code points back to it |
| `Features.SqftLivingAbove` | app.py:344 | twice the averaged area is the sum of the two areas, and it lies between the smaller and the larger area |
| `Features.InFormRanges` | app.py:260-327 | definition; no contract: the ranges and options of the form's sliders and selectors, with the Year Renovated slider's initial 0 admitted |
| `Features.LotToLivingRatio` | app.py:363 | the ratio is a number iff the averaged area is non-zero, and then times that area it gives the lot area |
| `Features.Divide` | app.py:363 | the quotient is a number iff the divisor is non-zero, and then times the divisor it gives the dividend; a zero divisor gives NaN for 0 / 0 and +infinity for a positive dividend |
| `Features.Derive` | app.py:338-363 | a row exists iff the city is in the table, else the error names the city; the row copies the raw fields, its code decodes to the city, its area is the mean of the two areas, and its ratio is the IEEE-style quotient of the lot area by that mean (a number iff the mean is non-zero, and then times the mean it gives the lot area; NaN for an empty lot and +infinity otherwise when the mean is zero) |
| `Features.DeriveOnFormValues` | app.py:260-327 | on values the form can produce the derivation never fails, the mean is non-negative, and the ratio is a non-negative number unless both areas are 0, where it is NaN for an empty lot and +infinity otherwise |
| `Features.MakePrediction` | app.py:373-393 | the record's snapshot gives back exactly the form values, its price is the model's, and its price per square foot and ratio are the input's and the row's |
| `Features.PredictOnce` | app.py:336-393 | a prediction succeeds iff the city is known and the regressor answers; an unknown city is reported as such, and a regressor failure for a known city as a regressor failure; the record's price is the regressor's answer for the derived row, it is the record `MakePrediction` builds from the form values, the derived row and that price, so its snapshot gives back the form values, its price per square foot is the input's, and its ratio is the row's |
| `Features.SeattleExample` | app.py:338-367 | a Seattle house of 2000 sq ft living and above-ground area on a 10000 sq ft lot derives area 2000.0, code 5 and ratio 5.0, and a regressor answering 450000 gives a record priced 450000 |
| `Ledger.Prices` | app.py:189 | definition; no contract: the prices of the predictions, position by position |
| `Ledger.MinOf` | app.py:192 | the minimum of a non-empty list is one of its items and no item is below it |
| `Ledger.MaxOf` | app.py:197 | the maximum of a non-empty list is one of its items and no item is above it |
| `Ledger.IndexOf` | app.py:192 | the position lookup returns a position holding the value, and no earlier position holds it |
| `Ledger.IndexOfMinIsFirstMinimum` | app.py:189-193 | position of the minimum is the first position of the lowest price |
| `Ledger.IndexOfMaxIsFirstMaximum` | app.py:196-198 | position of the maximum is the first position of the highest price |
| `Ledger.FirstMinimumUnique` | app.py:192 | the first-occurrence tie-break determines a single position |
| `Ledger.FirstMaximumUnique` | app.py:197 | the first-occurrence tie-break determines a single position |
| `Ledger.SingleEntryIsBoth` | app.py:189-198 | on a one-entry ledger both queries choose entry 0 |
| `Ledger.ComparisonExample` | app.py:189-198 | prices 500000, 300000, 700000 give cheapest position 1 and priciest position 2 |
| `Ledger.SessionLedger.constructor` | app.py:10-11 | a session starts with no predictions |
| `Ledger.SessionLedger.Append` | app.py:395 | the new record is last and the earlier records are unchanged, in order |
| `Ledger.SessionLedger.Clear` | app.py:233 | the ledger is empty afterwards |
| `Ledger.SessionLedger.Cheapest` | app.py:189-195 | on a non-empty ledger, returns the first position of the lowest price, equal to the position of the minimum, and the record there |
| `Ledger.SessionLedger.Priciest` | app.py:196-200 | on a non-empty ledger, returns the first position of the highest price, equal to the position of the maximum, and the record there |
| `Ledger.SessionLedger.Predict` | app.py:336-395 | the outcome is PredictOnce's; the ledger gains that record at its end on success and is unchanged on failure |

## Left out

- All rendering is left out: page set-up, CSS and HTML markup, columns, the sidebar text, the success and info messages, and the currency formatting of prices. It has no logic to prove.
- The widgets are not modelled. Their values are the fields of `PropertyInput`, and their ranges are the predicate `InFormRanges`. The Year Renovated slider declares the initial value 0 outside its own range 1900..2020 (app.py:287). `InFormRanges` admits 0..2020 for that field, so the initial value is covered; how Streamlit itself treats an out-of-range initial value is not modelled.
- The bathroom option labels ("0.5", "2.5", …) and their conversion by `float` are not modelled. The model takes the number, one of `BathroomOptions`.
- Loading the pickled model and running its `predict` are left out, as file I/O and an opaque trained model. The regressor is a parameter that may answer with a price or fail (`None`). Which rows it rejects, such as one with a non-finite ratio, is left to that parameter.
- The pandas DataFrame is modelled as a datatype whose fields are in the DataFrame's column order. Reading the ratio back out of the DataFrame is the ratio itself.
- Floating point is modelled with exact `real` arithmetic, so rounding of the mean and of the ratio is not modelled. For a zero divisor the model follows IEEE 754 division. It takes the divisor as a non-negative zero, which it always is here, because it is the mean of two integer areas.
- `Ledger.MinOf`, `Ledger.MaxOf`: NaN prices are not modelled (prices are `real`), so the comparisons are total.
- `st.rerun()` after a clear and the rest of the session-state lifecycle are not modelled. The ledger's lifetime is the `SessionLedger` object's.
- The sidebar's prediction count `len(...)` is not modelled separately. It is `|predictions|`.
- Calling Cheapest or Priciest on an empty ledger is excluded by their precondition, not modelled as an error. The sidebar shows neither query when the list is empty (app.py:169-171).
