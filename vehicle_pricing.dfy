/**
 * `estimatePrice` and `getQuote` of the booking controller: a flat estimate of
 * 50 times a per-vehicle multiplier, rounded with `Math.round`. Multipliers are
 * kept in tenths so that the arithmetic is exact.
 */
module VehiclePricing {
  import opened Wrappers
  import opened JsValues

  /** `base` of `estimatePrice`. */
  const BaseEstimate: int := 50

  /** The own properties of the `multipliers` object, in tenths: GLS 1.4, S-Class 1.5, V-Class 1.3, Other 1.0. */
  function MultiplierTenths(vehicleType: string): Option<int>
  {
    if vehicleType == "GLS" then Some(14)
    else if vehicleType == "S-Class" then Some(15)
    else if vehicleType == "V-Class" then Some(13)
    else if vehicleType == "Other" then Some(10)
    else None
  }

  /** The names every plain object inherits from `Object.prototype`; looking one up on `multipliers` yields a function or an object. */
  const InheritedMembers: set<string> := {
    "constructor", "__proto__", "__defineGetter__", "__defineSetter__", "__lookupGetter__",
    "__lookupSetter__", "hasOwnProperty", "isPrototypeOf", "propertyIsEnumerable",
    "toLocaleString", "toString", "valueOf"
  }

  /** `Math.round(x / d)` for a positive `d`: the nearest integer, halves rounded up. */
  function RoundDiv(x: int, d: int): (r: int)
    requires d > 0
    ensures r * d * 2 <= 2 * x + d < (r + 1) * d * 2
  {
    (2 * x + d) / (2 * d)
  }

  /**
   * `estimatePrice` as evidently intended: the multiplier of a known vehicle type,
   * and the "Other" multiplier for every other string.
   */
  function EstimatePrice(vehicleType: string): (r: int)
    ensures 50 <= r <= 75
  {
    var tenths := match MultiplierTenths(vehicleType) case Some(m) => m case None => 10;
    RoundDiv(BaseEstimate * tenths, 10)
  }

  /** The rounded estimates: GLS 70, S-Class 75, V-Class 65, and 50 for anything else. */
  lemma EstimatePriceTable(vehicleType: string)
    ensures vehicleType == "GLS" ==> EstimatePrice(vehicleType) == 70
    ensures vehicleType == "S-Class" ==> EstimatePrice(vehicleType) == 75
    ensures vehicleType == "V-Class" ==> EstimatePrice(vehicleType) == 65
    ensures vehicleType !in {"GLS", "S-Class", "V-Class"} ==> EstimatePrice(vehicleType) == 50
  {
  }

  /**
   * `estimatePrice` as written: `multipliers[vehicleType] || multipliers.Other` also finds
   * the members inherited from `Object.prototype`, which are truthy but not numbers,
   * so `Math.round(base * mult)` is NaN (`None` here) for those names.
   */
  function EstimatePriceAsWritten(vehicleType: string): (r: Option<int>)
    ensures r.None? <==> vehicleType in InheritedMembers
    ensures r.Some? ==> r.value == EstimatePrice(vehicleType)
  {
    match MultiplierTenths(vehicleType)
    case Some(m) => Some(RoundDiv(BaseEstimate * m, 10))
    case None => if vehicleType in InheritedMembers then None else Some(RoundDiv(BaseEstimate * 10, 10))
  }

  /** For instance, vehicleType "constructor" is priced NaN, which `res.json` sends as null. */
  lemma InheritedNameGivesNoPrice()
    ensures EstimatePriceAsWritten("constructor") == None
    ensures EstimatePriceAsWritten("toString") == None
  {
  }

  /** The fields `getQuote` reads. */
  datatype QuoteBody = QuoteBody(
    pickupAddress: Option<string>,
    dropoffAddress: Option<string>,
    pickupTime: Option<string>,
    vehicleType: Option<string>)

  /** What `getQuote` answers; an estimated price of NaN is sent by `res.json` as null, `None` here. */
  datatype EstimateResponse = Estimate(estimatedPrice: Option<int>, currency: string) | MissingQuoteFields
  {
    function HttpStatus(): int
    {
      if Estimate? then 200 else 400
    }
  }

  /** The guard of `getQuote`: the four fields are truthy. */
  predicate HasQuoteFields(body: QuoteBody)
  {
    Given(body.pickupAddress) && Given(body.dropoffAddress) && Given(body.pickupTime) && Given(body.vehicleType)
  }

  /**
   * `getQuote` as written: the four fields are required; the estimate is priced by
   * vehicle type alone, in GBP, and is null for the names inherited from `Object.prototype`.
   */
  function GetQuoteAsWritten(body: QuoteBody): (r: EstimateResponse)
    ensures r.MissingQuoteFields? <==>
              !Given(body.pickupAddress) || !Given(body.dropoffAddress) || !Given(body.pickupTime) || !Given(body.vehicleType)
    ensures r.Estimate? ==> r.currency == "GBP"
    ensures r.Estimate? ==> (r.estimatedPrice.None? <==> body.vehicleType.value in InheritedMembers)
    ensures r.Estimate? && r.estimatedPrice.Some? ==> r.estimatedPrice.value == EstimatePrice(body.vehicleType.value)
  {
    if !HasQuoteFields(body) then MissingQuoteFields
    else Estimate(EstimatePriceAsWritten(body.vehicleType.value), "GBP")
  }

  /** `getQuote` priced by the corrected estimate: every accepted body gets a price between 50 and 75. */
  function GetQuote(body: QuoteBody): (r: EstimateResponse)
    ensures r.MissingQuoteFields? <==>
              !Given(body.pickupAddress) || !Given(body.dropoffAddress) || !Given(body.pickupTime) || !Given(body.vehicleType)
    ensures r.Estimate? ==> r.currency == "GBP" && r.estimatedPrice.Some? && 50 <= r.estimatedPrice.value <= 75
    ensures r.Estimate? ==> r.estimatedPrice == Some(EstimatePrice(body.vehicleType.value))
  {
    if !HasQuoteFields(body) then MissingQuoteFields
    else Estimate(Some(EstimatePrice(body.vehicleType.value)), "GBP")
  }

  /** The two handlers answer alike except for an inherited name, which only the written one prices null. */
  lemma GetQuoteDiffersOnlyOnInheritedNames(body: QuoteBody)
    ensures GetQuote(body) == GetQuoteAsWritten(body) <==>
              !HasQuoteFields(body) || body.vehicleType.value !in InheritedMembers
  {
  }

  /** For instance, a quote for vehicleType "constructor" answers 200 with a null price. */
  lemma ConstructorQuotedNull(pickup: string, dropoff: string, time: string)
    requires pickup != "" && dropoff != "" && time != ""
    ensures GetQuoteAsWritten(QuoteBody(Some(pickup), Some(dropoff), Some(time), Some("constructor")))
            == Estimate(None, "GBP")
  {
  }
}
