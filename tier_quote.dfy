/**
 * The fixed tier quote of `POST /quote`, in its three copies: the ternary chain of
 * src/app.js, the if/else chain of server.js, and the looser router of
 * src/routes/quotes.js, which neither clamps nor rejects an unknown tier.
 *
 * A quote is the tier's base fare plus 8 for each passenger after the first (at
 * most four of them) plus 3 for each bag (at most six).
 */
module TierQuote {
  import opened Wrappers
  import opened JsValues

  datatype Tier = Business | First | XL

  /** The `tier` strings the handlers recognise. */
  function TierName(t: Tier): string
  {
    match t
    case Business => "Business"
    case First => "First"
    case XL => "XL"
  }

  /** `tier === "Business"` and so on: only these exact strings name a tier. */
  function ParseTier(v: JsValue): (r: Option<Tier>)
    ensures r.Some? ==> v == Str(TierName(r.value))
  {
    if v == Str("Business") then Some(Business)
    else if v == Str("First") then Some(First)
    else if v == Str("XL") then Some(XL)
    else None
  }

  /** Every tier's name is recognised, as that tier. */
  lemma TierNameRoundTrip(t: Tier)
    ensures ParseTier(Str(TierName(t))) == Some(t)
  {
  }

  /** The base fare table: Business 85, First 140, XL 110. */
  function BaseFare(t: Tier): int
  {
    match t
    case Business => 85
    case First => 140
    case XL => 110
  }

  /** The list an "Invalid tier" answer carries under `allowed`. */
  const AllowedTiers: seq<string> := ["Business", "First", "XL"]

  /** What a `POST /quote` handler answers. */
  datatype QuoteResponse =
    | Quoted(quote: int)
    | MissingFields
    | InvalidTier(allowed: seq<string>)
  {
    function HttpStatus(): int
    {
      if Quoted? then 200 else 400
    }
  }

  /** The three fields a quote request body is destructured into (absent ones are `Undefined`). */
  datatype QuoteRequest = QuoteRequest(tier: JsValue, passengers: JsValue, luggage: JsValue)

  function Min(a: int, b: int): int { if a <= b then a else b }

  function Max(a: int, b: int): int { if a >= b then a else b }

  /** `Math.max(lo, Math.min(hi, x))`: x pulled into [lo, hi], unchanged when already there. */
  function Clamp(lo: int, hi: int, x: int): (r: int)
    requires lo <= hi
    ensures lo <= r <= hi
    ensures lo <= x <= hi ==> r == x
    ensures x < lo ==> r == lo
    ensures hi < x ==> r == hi
  {
    Max(lo, Min(hi, x))
  }

  /** The quote handler of src/app.js, with its ternary chain for the base fare. */
  function AppQuote(req: QuoteRequest): (r: QuoteResponse)
    ensures r.MissingFields? <==> !Truthy(req.tier) || !req.passengers.Num?
    ensures r.InvalidTier? <==> Truthy(req.tier) && req.passengers.Num? && ParseTier(req.tier).None?
    ensures r.InvalidTier? ==> r.allowed == AllowedTiers
    ensures r.Quoted? ==> ParseTier(req.tier).Some?
    ensures r.Quoted? ==> BaseFare(ParseTier(req.tier).value) <= r.quote <= BaseFare(ParseTier(req.tier).value) + 50
  {
    if !Truthy(req.tier) || !req.passengers.Num? then MissingFields
    else
      var pax := Clamp(1, 6, req.passengers.number);
      var bags := Clamp(0, 8, NumberOr(req.luggage, 0));
      var base: Option<int> :=
        if req.tier == Str("Business") then Some(85)
        else if req.tier == Str("First") then Some(140)
        else if req.tier == Str("XL") then Some(110)
        else None;
      if base.None? then InvalidTier(AllowedTiers)
      else Quoted(base.value + Min(4, pax - 1) * 8 + Min(6, bags) * 3)
  }

  /** The quote handler of server.js: the same checks, with an if/else chain that answers early. */
  function ServerQuote(req: QuoteRequest): (r: QuoteResponse)
    ensures r.MissingFields? <==> !Truthy(req.tier) || !req.passengers.Num?
    ensures r.InvalidTier? ==> r.allowed == AllowedTiers
  {
    if !Truthy(req.tier) || !req.passengers.Num? then MissingFields
    else
      var pax := Clamp(1, 6, req.passengers.number);
      var bags := Clamp(0, 8, NumberOr(req.luggage, 0));
      var add := Min(4, pax - 1) * 8 + Min(6, bags) * 3;
      if req.tier == Str("Business") then Quoted(85 + add)
      else if req.tier == Str("First") then Quoted(140 + add)
      else if req.tier == Str("XL") then Quoted(110 + add)
      else InvalidTier(AllowedTiers)
  }

  /** The two copies answer every request alike: same quote, same rejection. */
  lemma ServerQuoteAgreesWithApp(req: QuoteRequest)
    ensures ServerQuote(req) == AppQuote(req)
  {
  }

  /** A well-formed request for tier `t` with numeric passengers and the given luggage field. */
  function TierRequest(t: Tier, passengers: int, luggage: JsValue): QuoteRequest
  {
    QuoteRequest(Str(TierName(t)), Num(passengers), luggage)
  }

  /** With one passenger and no luggage the quote is exactly the tier's base fare. */
  lemma BaseFareAlone(t: Tier)
    ensures AppQuote(TierRequest(t, 1, Num(0))) == Quoted(BaseFare(t))
  {
  }

  /** Each passenger from the second to the fifth adds 8. */
  lemma EachPassengerAddsEight(t: Tier, p: int, l: JsValue)
    requires 1 <= p < 5
    ensures AppQuote(TierRequest(t, p + 1, l)).quote == AppQuote(TierRequest(t, p, l)).quote + 8
  {
  }

  /** Each bag from the first to the sixth adds 3. */
  lemma EachBagAddsThree(t: Tier, p: int, b: int)
    requires 0 <= b < 6
    ensures AppQuote(TierRequest(t, p, Num(b + 1))).quote == AppQuote(TierRequest(t, p, Num(b))).quote + 3
  {
  }

  /** Any passenger count up to one is priced as one passenger. */
  lemma FewPassengersPriceAsOne(t: Tier, p: int, l: JsValue)
    requires p <= 1
    ensures AppQuote(TierRequest(t, p, l)) == AppQuote(TierRequest(t, 1, l))
  {
  }

  /** Every passenger count from five on gives the same quote. */
  lemma ManyPassengersPriceAlike(t: Tier, p: int, q: int, l: JsValue)
    requires 5 <= p && 5 <= q
    ensures AppQuote(TierRequest(t, p, l)) == AppQuote(TierRequest(t, q, l))
  {
  }

  /** Every luggage count from six on gives the same quote. */
  lemma ManyBagsPriceAlike(t: Tier, p: int, b: int, c: int)
    requires 6 <= b && 6 <= c
    ensures AppQuote(TierRequest(t, p, Num(b))) == AppQuote(TierRequest(t, p, Num(c)))
  {
  }

  /** Luggage that is missing, not a number, or negative counts as no luggage. */
  lemma AbsentLuggageCountsAsNone(t: Tier, p: int, l: JsValue)
    requires !l.Num? || l.number <= 0
    ensures AppQuote(TierRequest(t, p, l)) == AppQuote(TierRequest(t, p, Num(0)))
  {
  }

  /** More passengers never lower the quote. */
  lemma QuoteMonotoneInPassengers(t: Tier, p: int, q: int, l: JsValue)
    requires p <= q
    ensures AppQuote(TierRequest(t, p, l)).Quoted? && AppQuote(TierRequest(t, q, l)).Quoted?
    ensures AppQuote(TierRequest(t, p, l)).quote <= AppQuote(TierRequest(t, q, l)).quote
  {
  }

  /** More luggage never lowers the quote. */
  lemma QuoteMonotoneInLuggage(t: Tier, p: int, b: int, c: int)
    requires b <= c
    ensures AppQuote(TierRequest(t, p, Num(b))).Quoted? && AppQuote(TierRequest(t, p, Num(c))).Quoted?
    ensures AppQuote(TierRequest(t, p, Num(b))).quote <= AppQuote(TierRequest(t, p, Num(c))).quote
  {
  }

  // ---------------- src/routes/quotes.js ----------------

  /**
   * The request of the router variant. Its arithmetic coerces whatever it is given,
   * so only absent and numeric `passengers` and `luggage` are modelled.
   */
  datatype RouteQuoteRequest = RouteQuoteRequest(tier: JsValue, passengers: Option<int>, luggage: Option<int>)

  /** The router's base fare: Business and First by name, and the XL fare for anything else. */
  function RouteFare(tier: JsValue): int
  {
    match ParseTier(tier)
    case Some(t) => BaseFare(t)
    case None => BaseFare(XL)
  }

  /** `POST /` of src/routes/quotes.js: no clamping and no tier check. */
  function RouteQuote(req: RouteQuoteRequest): (r: QuoteResponse)
    ensures !r.InvalidTier?
    ensures r.MissingFields? <==> !Truthy(req.tier) || !GivenNumber(req.passengers)
    ensures r.Quoted? && req.passengers.value >= 1 && (req.luggage.None? || req.luggage.value >= 0) ==>
              (RouteFare(req.tier) <= r.quote <= RouteFare(req.tier) + 50)
  {
    if !Truthy(req.tier) || !GivenNumber(req.passengers) then MissingFields
    else
      var base := if req.tier == Str("Business") then 85 else if req.tier == Str("First") then 140 else 110;
      var luggage := if GivenNumber(req.luggage) then req.luggage.value else 0;
      Quoted(base + Min(req.passengers.value - 1, 4) * 8 + Min(luggage, 6) * 3)
  }

  /** Any truthy tier the router does not know is priced like XL rather than rejected. */
  lemma RouteUnknownTierPricedAsXL(tier: JsValue, p: Option<int>, l: Option<int>)
    requires Truthy(tier) && ParseTier(tier).None?
    ensures RouteQuote(RouteQuoteRequest(tier, p, l)) == RouteQuote(RouteQuoteRequest(Str("XL"), p, l))
  {
  }

  /** For a named tier, at least one passenger and no negative luggage, the router quotes what src/app.js quotes. */
  lemma RouteAgreesWithApp(t: Tier, p: int, b: int)
    requires 1 <= p && 0 <= b
    ensures RouteQuote(RouteQuoteRequest(Str(TierName(t)), Some(p), Some(b))) == AppQuote(TierRequest(t, p, Num(b)))
  {
  }

  /** More passengers never lower the router's quote. */
  lemma RouteMonotoneInPassengers(tier: JsValue, p: int, q: int, l: Option<int>)
    requires Truthy(tier) && p <= q && p != 0 && q != 0
    ensures RouteQuote(RouteQuoteRequest(tier, Some(p), l)).quote <= RouteQuote(RouteQuoteRequest(tier, Some(q), l)).quote
  {
  }

  /** More luggage never lowers the router's quote. */
  lemma RouteMonotoneInLuggage(tier: JsValue, p: int, b: int, c: int)
    requires Truthy(tier) && p != 0 && b <= c
    ensures RouteQuote(RouteQuoteRequest(tier, Some(p), Some(b))).quote <= RouteQuote(RouteQuoteRequest(tier, Some(p), Some(c))).quote
  {
  }

  /** Where the copies part: zero passengers are rejected by the router, priced as one by src/app.js. */
  lemma RouteRejectsZeroPassengers(t: Tier)
    ensures RouteQuote(RouteQuoteRequest(Str(TierName(t)), Some(0), None)) == MissingFields
    ensures AppQuote(TierRequest(t, 0, Undefined)) == Quoted(BaseFare(t))
  {
  }

  /** Without clamping, a negative passenger count takes the router's quote below the base fare, even below zero. */
  lemma RouteUndercutsBaseFare()
    ensures RouteQuote(RouteQuoteRequest(Str("Business"), Some(-10), None)) == Quoted(-3)
  {
  }
}
