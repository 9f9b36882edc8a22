# forward-curve-builder, modelled in Dafny

The forward-curve engine of forward-curve-builder turns daily settlement-price
records of exchange-traded futures into forward curves and derives a return
series from them:

- a record (`InstrumentDetails`) carries a settlement date and a maturity date
  given as `YYYYMMDD` text, a product, a settlement price and a curve key
  (`CurveKey`: settlement date and product, exchange excluded);
- `group_instruments_by_key` splits a list of records into one group per key;
- `build_curves` builds one `ForwardCurve` per group, always with the ACT/365
  day count and a cubic spline;
- `ForwardCurve.create_from` turns each record into one sample
  (year fraction to maturity, settlement price), and the constructor fits a
  cubic spline or a linear interpolator through the samples;
- `calculate_historical_returns` walks the curves in settlement-date order and
  emits, for every curve after the first, the return of the price at one
  maturity date relative to the previous curve.

The project has one module per source file, plus two of its own:

| file | module | models |
|---|---|---|
| wrappers.dfy | `Wrappers` | `Option`, and `Outcome`: a value returned or a Python exception raised |
| dates.dfy | `Dates` | Python's `datetime.date`: calendar dates of years 1-9999, day numbers (`toordinal`), date comparison, and the `%Y%m%d` text form |
| models.dfy | `Models` | models.py |
| forward_curve.dfy | `ForwardCurves` | forward_curve.py |
| engine.dfy | `Engine` | main.py |

Modelling choices:

- A Python `dict` is `Engine.Dict`: its keys in insertion order and a map.
  The order matters because the sort by settlement date is stable: among
  curves of the same day it keeps the dictionary's order.
- `ForwardCurve` is never changed after construction, so it is a datatype.
  The scipy interpolator is a `Fit` value that records which interpolator was
  fitted and through which samples. An `Evaluator`, supplied by the caller,
  gives the value of a fitted interpolator at a point.
- `datetime.now()` becomes a parameter: `today` in the corrected price query,
  and a day plus seconds in the query as written.
- Prices, year fractions and returns are `real`.
- `hash` of the `(settlement date, product)` tuple is a parameter, since
  Python salts string hashes per process.
- The method loops of the source (grouping, the curve-building loop, sample
  construction, the return loop) are Dafny methods with loop invariants,
  proved against specification functions (`FirstKeys`, `Members`,
  `SampledFrom`, `SortBySettlementDate`, `ReturnAfter`).

The model follows the code, including these behaviours:

- the returns are computed over every curve in date order, whatever its
  product; only the maturity date of the given record is used;
- groups come in order of first occurrence, and samples are kept in record
  order, neither sorted nor checked;
- a maturity before settlement is kept, and gives a negative time to maturity.

## Model

| member | source | states |
|---|---|---|
| Dates.OrdinalOrder | forward_curve.py:33 | Day numbers order dates exactly as Python's date comparison does, and two dates have the same day number only when they are the same date |
| Dates.ParseYyyymmdd | models.py:46 | A parsed date prints back as the exact text it was parsed from; anything that is not an eight-digit real calendar date is rejected |
| Dates.ParseFormat | models.py:52 | Parsing is the exact inverse of the `%Y%m%d` form: every date's text parses back to it, and text parses to a date only when it is that date's text |
| Models.KeyEquals | models.py:15-18 | `__eq__` is never true for an operand that is not a CurveKey |
| Models.KeyEqualsIsStructural | models.py:15-17 | Two keys are equal exactly when their settlement dates and products are equal |
| Models.KeyEqualsIsEquivalence | models.py:15-17 | `__eq__` is reflexive, symmetric and transitive, as dictionary keys need |
| Models.KeyHash | models.py:12-13 | `__hash__` is the tuple hash of (settlement date, product); `EqualKeysHashAlike` proves that it agrees with `__eq__` |
| Models.EqualKeysHashAlike | models.py:12-17 | Equal keys have equal hashes, for any tuple hash |
| Models.DayCountConvention.Value | models.py:21-23 | Every denominator is positive: 365 exactly for ACT/365 and 360 exactly for ACT/360 |
| Models.NewInstrumentDetails | models.py:37-53 | A record is built exactly when both date texts parse, and otherwise a ValueError is raised; the dates print back as the given texts, the other fields are stored unchanged and the key is (settlement date, product) |
| Models.KeyIgnoresOtherFields | models.py:53 | Records with the same settlement date and product get equal keys whatever their exchange, type, currency, price or maturity |
| ForwardCurves.YearFraction | forward_curve.py:33 | Whole days from start to end over the convention's denominator, by true division; `YearFractionSign` and `Act360ScalesAct365` carry its properties |
| ForwardCurves.YearFractionSign | forward_curve.py:33 | A year fraction is non-negative exactly when the end is not before the start, and zero exactly when the two days are the same |
| ForwardCurves.Act360ScalesAct365 | forward_curve.py:33 | For the same dates, the ACT/360 year fraction is 365/360 times the ACT/365 one |
| ForwardCurves.NewForwardCurve | forward_curve.py:10-23 | Key, samples and convention are stored unchanged; the fit is built from the samples; a spline is fitted exactly for CUBIC_SPLINE, a linear fit exactly for LINEAR and BLUE |
| ForwardCurves.CreateFrom | forward_curve.py:25-36 | The curve has one sample per record, position i holding record i's year fraction to maturity under the convention and its settlement price, fitted with the given strategy |
| ForwardCurves.SampledFromIsUnique | forward_curve.py:30-36 | The records, key, convention and strategy determine the built curve completely |
| ForwardCurves.SampleSigns | forward_curve.py:33 | A sample's time to maturity is non-negative exactly when its record does not mature before it settles |
| ForwardCurves.GetPriceForDate | forward_curve.py:38-43 | The price for a date is the fitted curve at the year fraction from today to that date under the curve's own convention |
| ForwardCurves.PriceForDateIsShiftInvariant | forward_curve.py:38-43 | The price for a date depends on today and the maturity only through the days between them; a maturity of today prices at time zero |
| ForwardCurves.SubtractDays | forward_curve.py:39 | In CPython, subtracting a date and a datetime from each other raises exactly when their kinds differ |
| ForwardCurves.GetPriceForDateAsWritten | forward_curve.py:38-40 | The query as written raises exactly when the subtraction of `datetime.now()` from the maturity date raises |
| ForwardCurves.PriceForDateAsWrittenAlwaysRaises | forward_curve.py:39 | As written, every price-by-date query raises TypeError |
| ForwardCurves.PriceForDateUsesTodaysDate | forward_curve.py:39 | The corrected query is the written one with today's date in place of the datetime |
| Engine.Dict.Items | main.py:48 | `items()` lists every key once, in insertion order, each with its stored value |
| Engine.GroupInstrumentsByKey | main.py:35-39 | The groups are keyed by exactly the key values of the records, in order of first occurrence; each group holds exactly the records with its key, in input order, and is never empty; the group sizes add up to the number of records; there are at most as many groups as records, and at least one when there are records |
| Engine.FirstKeysAreTheKeys | main.py:36-39 | The group keys are distinct and are exactly the key values of the records |
| Engine.KeyCountBound | main.py:36-39 | There are at most as many distinct keys as records, and at least one when there are records |
| Engine.MembersEmptyIffNoKey | main.py:36-39 | A group is empty exactly when no record has its key |
| Engine.MembersHaveTheirKey | main.py:37-38 | Every record of a group has that group's key |
| Engine.MembersOfConcat | main.py:37-38 | Grouping keeps input order: the group of a concatenation is the concatenation of the groups |
| Engine.ItemLandsInItsGroup | main.py:37-38 | Each record lands in the group of its own key, between the records before and after it, and in no other group |
| Engine.GroupSizesSum | main.py:37-38 | Nothing is dropped or duplicated: the group sizes add up to the number of records |
| Engine.KeyOf | main.py:28 | The key function build_curves means: it yields exactly what reading the record's `forward_curve_key` attribute yields |
| Engine.CurvesForGroups | main.py:30-32 | One curve per group, keys in the groups' order, each the ACT/365 cubic-spline curve of its group's records |
| Engine.BuildCurves | main.py:27-32 | One curve per distinct key of the records, in order of first occurrence, each with ACT/365 and a cubic spline, sampled from exactly that key's records in input order; at most one curve per record, and at least one when there are records |
| Engine.CurveKeyAttribute | main.py:28 | Of the two names a record's key may be read under, `forward_curve_key` yields the record's key and `curve_key`, which no record has, raises AttributeError |
| Engine.BuildCurvesAsWritten | main.py:27-32 | As written, build_curves raises exactly when it is given records |
| Engine.BuildCurvesAsWrittenYieldsNoCurves | main.py:27-32 | As written, build_curves never hands back curves: AttributeError for any non-empty record list, None for the empty one |
| Engine.DailyReturn | main.py:59-62 | The return is exactly 0 when the previous price is 0, and otherwise the previous price grown by the return is the current price |
| Engine.SortBySettlementDate | main.py:47-49 | `sorted` by settlement date keeps the number of entries; `SortBySettlementDateIsStableSort` proves it sorted, a permutation and stable |
| Engine.SortBySettlementDateIsStableSort | main.py:47-49 | The sort puts entries in non-decreasing settlement-date order, is a permutation of its input, and keeps the entries of each day in input order |
| Engine.SortedItems | main.py:47-49 | Sorting a dictionary's items gives exactly those items, one per key, ordered by settlement date |
| Engine.CalculateHistoricalReturns | main.py:42-67 | For n curves there are max(0, n-1) returns; return k is the return from sorted curve k to sorted curve k+1 at the record's maturity date, tagged with curve k+1's settlement date; the dates are non-decreasing |
| Engine.ReturnsAlong | main.py:51-65 | The loop over sorted curves emits one entry per consecutive pair: entry k is the return from curve k to curve k+1 at the maturity date, tagged with curve k+1's settlement date; the first curve emits nothing |
| Engine.ReturnDatesFollowSort | main.py:64-65 | Returns tagged with the dates of the later curves of a sorted sequence come in non-decreasing date order |
| Engine.TestDatesAreFiveMonthsApart | main.py:91-97 | The test record's dates are 150 days, 150/365 of an ACT/365 year, apart |
| Engine.ParseOfTestSettlement | main.py:91 | "20250201" parses to 1 February 2025 |
| Engine.ParseOfTestMaturity | main.py:97 | "20250701" parses to 1 July 2025 |
| Engine.TestDetailsVector | main.py:89-98 | The test record builds, with the two dates it spells and a time to maturity of 150/365 |

## Left out

- utils.py is not part of this model: it reads CSV files (I/O).
- `main` (main.py:18-24) lists a directory and reads files; `plot_curves` (main.py:70-86) draws with matplotlib. Both are I/O.
- scipy's `CubicSpline` and `interp1d` numerics are not modelled: a fitted curve is a `Fit` tag and its values come from the caller's `Evaluator`, so nothing is claimed about the fitted curve passing through its samples or its behaviour outside them.
- ForwardCurves.GetPrice: has no contract of its own; it is the caller's `Evaluator` applied to the fit.
- ForwardCurves.NewForwardCurve: never fails, whereas scipy raises ValueError for fewer than two samples, repeated or unsorted times to maturity (CubicSpline), and interp1d raises when evaluated outside the sample range.
- Dates.ParseYyyymmdd: accepts only the eight-ASCII-digit form; Python's strptime also accepts one-digit month or day fields, a space-padded day (`"202501 1"` is 1 January 2025) and other Unicode decimal digits, which the model rejects.
- Floating point: prices, year fractions and returns are exact reals, with no rounding, infinities or NaN.
- `datetime.now()` is a parameter; time zones are not modelled.
- Engine.CalculateHistoricalReturns: uses one `today` for the whole call, whereas the source reads the clock again for every price (twice per loop iteration, main.py:56-57 through forward_curve.py:39), so a run that crosses midnight, pricing some curves against one day and some against the next, is not modelled.
- Engine.CurveKeyAttribute: models only the two names build_curves reads (`curve_key` as written, `forward_curve_key` as corrected); the record's other attributes, including those every Python object inherits such as `__class__` and `__dict__`, are not modelled.
- ForwardCurves.SubtractDays: follows CPython's C datetime module; the pure-Python fallback's `date.__sub__` accepts a datetime and returns the difference of the day numbers, which is not modelled.
- Python's hash of a tuple is a parameter (string hashes are salted per process).
- `defaultdict`'s creation of an empty list on lookup is modelled only where the source relies on it, when a new key gets its first record.
- `create_test_details` (main.py:89-98) appears only as a test vector; its integer price 0 is the real 0.0.

## Findings

| source | as written | input that shows it | evidently intended | confidence | as-written member | corrected member |
|---|---|---|---|---|---|---|
| main.py:28 | the key function reads `x.curve_key`, an attribute records do not have (they have `forward_curve_key`) | any non-empty record list: AttributeError on the first record | group by `forward_curve_key` | high; not executed | Engine.BuildCurvesAsWritten | Engine.BuildCurves |
| main.py:29-32 | a `defaultdict(list)` gets a one-element list per key and the function has no return statement, so it yields None | the empty record list: None where a mapping is declared | return a mapping from each key to its one curve | high; not executed | Engine.BuildCurvesAsWrittenYieldsNoCurves | Engine.BuildCurves |
| forward_curve.py:39 | `maturity_date - datetime.now()` subtracts a datetime from a date, which CPython's C datetime module refuses | any maturity date and any time now: TypeError | subtract today's date | high; not executed | ForwardCurves.PriceForDateAsWrittenAlwaysRaises | ForwardCurves.GetPriceForDate |
