/**
 * The value types of the forward-curve engine: the identity of one curve, the
 * day-count conventions, the interpolation strategies and the instrument record.
 */
module Models {
  import opened Wrappers
  import opened Dates

  /** The identity of one forward curve: a trading day and a product. Exchange is not part of it. */
  datatype CurveKey = CurveKey(settlementDate: Date, product: string)

  /** The right operand of `==` as Python sees it: a CurveKey, or an object of some other class. */
  datatype Operand = KeyOperand(key: CurveKey) | OtherObject

  /** CurveKey.__eq__: an isinstance test, then both fields compared. */
  function KeyEquals(self: CurveKey, other: Operand): (r: bool)
    ensures r ==> other.KeyOperand?
  {
    match other
    case KeyOperand(k) => self.settlementDate == k.settlementDate && self.product == k.product
    case OtherObject => false
  }

  /**
   * CurveKey.__hash__: the hash of the (settlement date, product) tuple. Python
   * salts string hashes per process, so the tuple hash is a parameter.
   */
  function KeyHash(k: CurveKey, tupleHash: (Date, string) -> int): int {
    tupleHash(k.settlementDate, k.product)
  }

  /** __eq__ is structural equality: two keys are equal exactly when both fields are. */
  lemma KeyEqualsIsStructural(a: CurveKey, b: CurveKey)
    ensures KeyEquals(a, KeyOperand(b)) <==> a == b
    ensures KeyEquals(a, KeyOperand(b)) <==> a.settlementDate == b.settlementDate && a.product == b.product
  {
  }

  /** __eq__ is an equivalence relation, as a dictionary key needs. */
  lemma KeyEqualsIsEquivalence(a: CurveKey, b: CurveKey, c: CurveKey)
    ensures KeyEquals(a, KeyOperand(a))
    ensures KeyEquals(a, KeyOperand(b)) ==> KeyEquals(b, KeyOperand(a))
    ensures KeyEquals(a, KeyOperand(b)) && KeyEquals(b, KeyOperand(c)) ==> KeyEquals(a, KeyOperand(c))
  {
  }

  /** Equal keys hash alike, whatever the tuple hash is. */
  lemma EqualKeysHashAlike(a: CurveKey, b: CurveKey, tupleHash: (Date, string) -> int)
    requires KeyEquals(a, KeyOperand(b))
    ensures KeyHash(a, tupleHash) == KeyHash(b, tupleHash)
  {
  }

  /** Day-count conventions; the enum value is the denominator of the year fraction. */
  datatype DayCountConvention = Act365 | Act360 {
    function Value(): (v: int)
      ensures v > 0
      ensures v == 365 <==> this == Act365
      ensures v == 360 <==> this == Act360
    {
      match this
      case Act365 => 365
      case Act360 => 360
    }
  }

  datatype InterpolationStrategy = Linear | CubicSpline | Blue

  datatype ProductType = Future | OptionContract

  /** One settlement-price observation, with the dates already parsed and its curve key derived. */
  datatype InstrumentDetails = InstrumentDetails(
    settlementDate: Date,
    exchange: string,
    product: string,
    productType: ProductType,
    currency: string,
    settlementPrice: real,
    maturityDate: Date,
    forwardCurveKey: CurveKey)

  /**
   * InstrumentDetails.__init__: both dates are parsed from "%Y%m%d" text (a
   * ValueError if either is not a date) and the curve key is derived from the
   * settlement date and the product.
   */
  function NewInstrumentDetails(
    date: string, exchange: string, product: string, productType: ProductType,
    currency: string, settlementPrice: real, maturityDate: string): (r: Outcome<InstrumentDetails>)
    ensures r.Returned? <==> ParseYyyymmdd(date).Some? && ParseYyyymmdd(maturityDate).Some?
    ensures r.Raised? ==> r.error.ValueError?
    ensures r.Returned? ==>
      && FormatYyyymmdd(r.value.settlementDate) == date
      && FormatYyyymmdd(r.value.maturityDate) == maturityDate
      && r.value.forwardCurveKey == CurveKey(r.value.settlementDate, product)
      && r.value.exchange == exchange && r.value.product == product
      && r.value.productType == productType && r.value.currency == currency
      && r.value.settlementPrice == settlementPrice
  {
    match ParseYyyymmdd(date)
    case None => Raised(ValueError("time data does not match format '%Y%m%d'"))
    case Some(settlement) =>
      match ParseYyyymmdd(maturityDate)
      case None => Raised(ValueError("time data does not match format '%Y%m%d'"))
      case Some(maturity) =>
        Returned(InstrumentDetails(settlement, exchange, product, productType, currency,
                                   settlementPrice, maturity, CurveKey(settlement, product)))
  }

  /**
   * Two records with the same settlement date and product get equal keys,
   * whatever their exchange, product type, currency, price or maturity.
   */
  lemma KeyIgnoresOtherFields(
    date: string, product: string,
    exchange1: string, type1: ProductType, currency1: string, price1: real, maturity1: string,
    exchange2: string, type2: ProductType, currency2: string, price2: real, maturity2: string)
    requires NewInstrumentDetails(date, exchange1, product, type1, currency1, price1, maturity1).Returned?
    requires NewInstrumentDetails(date, exchange2, product, type2, currency2, price2, maturity2).Returned?
    ensures NewInstrumentDetails(date, exchange1, product, type1, currency1, price1, maturity1).value.forwardCurveKey
         == NewInstrumentDetails(date, exchange2, product, type2, currency2, price2, maturity2).value.forwardCurveKey
  {
  }
}
