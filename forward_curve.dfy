/**
 * One forward curve: the (time-to-maturity, price) samples of one trading day
 * and product, the interpolator fitted through them, and price queries by
 * year fraction or by maturity date.
 *
 * The interpolators are scipy's CubicSpline and interp1d(kind='linear'). Their
 * numerics are not modelled: a Fit records which of the two was built and from
 * which samples, and an Evaluator, supplied by the caller, gives the value the
 * fitted interpolator returns at a point.
 */
module ForwardCurves {
  import opened Wrappers
  import opened Dates
  import opened Models

  /** The interpolator the constructor builds, and the samples it is built from. */
  datatype Fit =
    | CubicSplineFit(xs: seq<real>, ys: seq<real>)
    | LinearFit(xs: seq<real>, ys: seq<real>)

  /** Calling a fitted interpolator at one time to maturity. */
  type Evaluator = (Fit, real) -> real

  datatype ForwardCurve = ForwardCurve(
    curveKey: CurveKey,
    timeToMaturity: seq<real>,
    prices: seq<real>,
    curve: Fit,
    dayCountConvention: DayCountConvention)

  /** The year fraction from start to end: whole days over the convention's denominator (true division). */
  function YearFraction(start: Date, end: Date, convention: DayCountConvention): real {
    DaysBetween(start, end) as real / convention.Value() as real
  }

  /** Dividing a day count by a denominator keeps its sign. */
  lemma DayCountSign(days: int, convention: DayCountConvention)
    ensures days as real / convention.Value() as real >= 0.0 <==> days >= 0
    ensures days as real / convention.Value() as real == 0.0 <==> days == 0
  {
    if convention == Act365 {
      assert days as real / convention.Value() as real == days as real / 365.0;
    } else {
      assert days as real / convention.Value() as real == days as real / 360.0;
    }
  }

  /**
   * Both denominators are positive, so a year fraction is non-negative exactly
   * when the end date is not before the start date, and zero exactly when the
   * two dates are the same day.
   */
  lemma YearFractionSign(start: Date, end: Date, convention: DayCountConvention)
    ensures YearFraction(start, end, convention) >= 0.0 <==> !Before(end, start)
    ensures YearFraction(start, end, convention) == 0.0 <==> start == end
  {
    OrdinalOrder(end, start);
    DayCountSign(DaysBetween(start, end), convention);
  }

  /** A day count over 360 is 365/360 times the same count over 365. */
  lemma Scale360To365(days: int)
    ensures days as real / 360.0 == days as real / 365.0 * (365.0 / 360.0)
  {
  }

  /** For the same dates, the ACT/360 year fraction is 365/360 times the ACT/365 one. */
  lemma Act360ScalesAct365(start: Date, end: Date)
    ensures YearFraction(start, end, Act360) == YearFraction(start, end, Act365) * (365.0 / 360.0)
  {
    Scale360To365(DaysBetween(start, end));
  }

  /**
   * ForwardCurve.__init__: the key, both sample sequences and the convention
   * are stored unchanged; a cubic spline is fitted for CubicSpline and a linear
   * interpolator for every other strategy, Blue included.
   */
  function NewForwardCurve(
    curveKey: CurveKey, timeToMaturities: seq<real>, prices: seq<real>,
    strategy: InterpolationStrategy, convention: DayCountConvention): (c: ForwardCurve)
    ensures c.curveKey == curveKey && c.dayCountConvention == convention
    ensures c.timeToMaturity == timeToMaturities && c.prices == prices
    ensures c.curve.xs == timeToMaturities && c.curve.ys == prices
    ensures c.curve.CubicSplineFit? <==> strategy == CubicSpline
    ensures c.curve.LinearFit? <==> strategy.Linear? || strategy.Blue?
  {
    var fit :=
      if strategy == CubicSpline then CubicSplineFit(timeToMaturities, prices)
      else LinearFit(timeToMaturities, prices);
    ForwardCurve(curveKey, timeToMaturities, prices, fit, convention)
  }

  /**
   * c is the curve built from the given records, one sample per record in
   * record order: position i holds record i's year fraction to maturity and
   * its settlement price; nothing is sorted, merged or dropped.
   */
  predicate SampledFrom(
    c: ForwardCurve, curveKey: CurveKey, convention: DayCountConvention,
    strategy: InterpolationStrategy, details: seq<InstrumentDetails>)
  {
    && c == NewForwardCurve(curveKey, c.timeToMaturity, c.prices, strategy, convention)
    && |c.timeToMaturity| == |details|
    && |c.prices| == |details|
    && forall i :: 0 <= i < |details| ==>
         && c.timeToMaturity[i] == YearFraction(details[i].settlementDate, details[i].maturityDate, convention)
         && c.prices[i] == details[i].settlementPrice
  }

  /** ForwardCurve.create_from: one sample per record, appended in record order. */
  method CreateFrom(
    curveKey: CurveKey, convention: DayCountConvention, strategy: InterpolationStrategy,
    futuresInSameProduct: seq<InstrumentDetails>) returns (c: ForwardCurve)
    ensures SampledFrom(c, curveKey, convention, strategy, futuresInSameProduct)
  {
    var timeToMaturity: seq<real> := [];
    var prices: seq<real> := [];
    for i := 0 to |futuresInSameProduct|
      invariant |timeToMaturity| == i && |prices| == i
      invariant forall j :: 0 <= j < i ==>
        && timeToMaturity[j] == YearFraction(futuresInSameProduct[j].settlementDate, futuresInSameProduct[j].maturityDate, convention)
        && prices[j] == futuresInSameProduct[j].settlementPrice
    {
      var detail := futuresInSameProduct[i];
      timeToMaturity := timeToMaturity + [DaysBetween(detail.settlementDate, detail.maturityDate) as real / convention.Value() as real];
      prices := prices + [detail.settlementPrice];
    }
    c := NewForwardCurve(curveKey, timeToMaturity, prices, strategy, convention);
  }

  /** Building a curve is deterministic: the records and the settings fix the curve completely. */
  lemma SampledFromIsUnique(
    c1: ForwardCurve, c2: ForwardCurve, curveKey: CurveKey, convention: DayCountConvention,
    strategy: InterpolationStrategy, details: seq<InstrumentDetails>)
    requires SampledFrom(c1, curveKey, convention, strategy, details)
    requires SampledFrom(c2, curveKey, convention, strategy, details)
    ensures c1 == c2
  {
  }

  /** A time to maturity is non-negative exactly when its record matures on or after its settlement day. */
  lemma SampleSigns(
    c: ForwardCurve, curveKey: CurveKey, convention: DayCountConvention,
    strategy: InterpolationStrategy, details: seq<InstrumentDetails>, i: int)
    requires SampledFrom(c, curveKey, convention, strategy, details)
    requires 0 <= i < |details|
    ensures c.timeToMaturity[i] >= 0.0 <==> !Before(details[i].maturityDate, details[i].settlementDate)
  {
    YearFractionSign(details[i].settlementDate, details[i].maturityDate, convention);
  }

  /** ForwardCurve.get_price: the fitted interpolator evaluated at a time to maturity. */
  function GetPrice(c: ForwardCurve, timeToMaturity: real, eval: Evaluator): real {
    eval(c.curve, timeToMaturity)
  }

  /**
   * ForwardCurve.get_price_for_date, with today's date passed in: the price at
   * the year fraction from today to the maturity date, under the curve's own
   * convention.
   */
  function GetPriceForDate(c: ForwardCurve, maturityDate: Date, today: Date, eval: Evaluator): (p: real)
    ensures p == GetPrice(c, YearFraction(today, maturityDate, c.dayCountConvention), eval)
  {
    var timeToMaturity := DaysBetween(today, maturityDate) as real / c.dayCountConvention.Value() as real;
    GetPrice(c, timeToMaturity, eval)
  }

  /**
   * A price by date depends on the two dates only through the number of days
   * between them: moving today and the maturity by the same distance leaves
   * it unchanged, and a maturity of today is the curve at time zero.
   */
  lemma PriceForDateIsShiftInvariant(
    c: ForwardCurve, maturity1: Date, today1: Date, maturity2: Date, today2: Date, eval: Evaluator)
    requires DaysBetween(today1, maturity1) == DaysBetween(today2, maturity2)
    ensures GetPriceForDate(c, maturity1, today1, eval) == GetPriceForDate(c, maturity2, today2, eval)
    ensures GetPriceForDate(c, today1, today1, eval) == GetPrice(c, 0.0, eval)
  {
  }

  // ---- get_price_for_date as written ----

  /** An operand of Python's `-` in get_price_for_date: a date, or a datetime (a date and seconds into that day). */
  datatype Temporal = DateValue(date: Date) | DateTimeValue(day: Date, seconds: int)

  /**
   * `.days` of Python's `a - b`: date minus date and datetime minus datetime
   * give a timedelta (whose days are floored); in CPython, whose C datetime
   * module returns NotImplemented for a mixed pair, a date and a datetime
   * cannot be subtracted from each other.
   */
  function SubtractDays(a: Temporal, b: Temporal): (r: Outcome<int>)
    ensures r.Raised? <==> a.DateValue? != b.DateValue?
  {
    match (a, b)
    case (DateValue(x), DateValue(y)) => Returned(DaysBetween(y, x))
    case (DateTimeValue(x, s), DateTimeValue(y, t)) =>
      Returned((Ordinal(x) * 86400 + s - (Ordinal(y) * 86400 + t)) / 86400)
    case _ => Raised(TypeError("unsupported operand type(s) for -"))
  }

  /**
   * get_price_for_date exactly as written: the maturity date minus
   * datetime.now() (here nowDay and nowSeconds).
   */
  function GetPriceForDateAsWritten(
    c: ForwardCurve, maturityDate: Date, nowDay: Date, nowSeconds: int, eval: Evaluator): (r: Outcome<real>)
    ensures r.Raised? <==> SubtractDays(DateValue(maturityDate), DateTimeValue(nowDay, nowSeconds)).Raised?
  {
    match SubtractDays(DateValue(maturityDate), DateTimeValue(nowDay, nowSeconds))
    case Returned(days) => Returned(GetPrice(c, days as real / c.dayCountConvention.Value() as real, eval))
    case Raised(e) => Raised(e)
  }

  /** As written, every price-by-date query raises TypeError, whatever the curve and the dates. */
  lemma PriceForDateAsWrittenAlwaysRaises(
    c: ForwardCurve, maturityDate: Date, nowDay: Date, nowSeconds: int, eval: Evaluator)
    ensures GetPriceForDateAsWritten(c, maturityDate, nowDay, nowSeconds, eval).Raised?
    ensures GetPriceForDateAsWritten(c, maturityDate, nowDay, nowSeconds, eval).error.TypeError?
  {
  }

  /** The corrected query is the written one with the date of "now" in place of the datetime. */
  lemma PriceForDateUsesTodaysDate(c: ForwardCurve, maturityDate: Date, today: Date, eval: Evaluator)
    ensures SubtractDays(DateValue(maturityDate), DateValue(today)) == Returned(DaysBetween(today, maturityDate))
    ensures GetPriceForDate(c, maturityDate, today, eval)
         == GetPrice(c, SubtractDays(DateValue(maturityDate), DateValue(today)).value as real / c.dayCountConvention.Value() as real, eval)
  {
  }
}
