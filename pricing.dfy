/**
 * services/pricing.py: the price of a cleaning from its type, the property
 * type and the area. Prices are exact reals here; the final rounding to two
 * decimals is not modelled.
 */
module Pricing {
  import opened Wrappers

  /** Base price per square metre (UAH) of each cleaning type; `None` is a `KeyError`. */
  function BasePricePerM2(cleaningType: string): (r: Option<real>)
    ensures r.Some? <==> cleaningType in {"maintenance", "deep", "post_renovation"}
    ensures r.Some? ==> r.value > 0.0
  {
    if cleaningType == "maintenance" then Some(50.0)
    else if cleaningType == "deep" then Some(80.0)
    else if cleaningType == "post_renovation" then Some(120.0)
    else None
  }

  /** Price multiplier of each property type; `None` is a `KeyError`. */
  function PropertyMultiplier(propertyType: string): (r: Option<real>)
    ensures r.Some? <==> propertyType in {"apartment", "house"}
    ensures r.Some? ==> r.value >= 1.0
  {
    if propertyType == "apartment" then Some(1.0)
    else if propertyType == "house" then Some(1.3)
    else None
  }

  /** The area discount tier: the discount in percent and the multiplier it stands for. */
  datatype Tier = Tier(multiplier: real, percent: int)

  /** Tiers have inclusive upper bounds 50, 100 and 150 square metres. */
  function AreaTier(area: real): (t: Tier)
    ensures t.percent in {0, 5, 10, 15}
    ensures t.multiplier == 1.0 - t.percent as real / 100.0
    ensures t.percent == 0 <==> area <= 50.0
    ensures t.percent == 5 <==> 50.0 < area <= 100.0
    ensures t.percent == 10 <==> 100.0 < area <= 150.0
    ensures t.percent == 15 <==> area > 150.0
  {
    if area <= 50.0 then Tier(1.0, 0)
    else if area <= 100.0 then Tier(0.95, 5)
    else if area <= 150.0 then Tier(0.90, 10)
    else Tier(0.85, 15)
  }

  /** A larger area never gets a smaller discount. */
  lemma AreaTierMonotone(a: real, b: real)
    requires a <= b
    ensures AreaTier(a).percent <= AreaTier(b).percent
  {
  }

  /** The returned price breakdown (the dictionary of `calculate_cleaning_price`). */
  datatype PriceQuote = PriceQuote(
    basePricePerM2: real,
    areaM2: real,
    propertyMultiplier: real,
    priceBeforeDiscount: real,
    discountPercent: int,
    discountAmount: real,
    finalPrice: real)

  /** The `KeyError`s of the two table lookups. */
  datatype PricingError = UnknownCleaningType | UnknownPropertyType

  /**
   * `calculate_cleaning_price(cleaning_type, property_type, area_m2)`. The
   * cleaning type is looked up first, so it is the error reported when both
   * keys are unknown.
   */
  function CalculateCleaningPrice(cleaningType: string, propertyType: string, area: real): (r: Result<PriceQuote, PricingError>)
    ensures r == Err(UnknownCleaningType) <==> BasePricePerM2(cleaningType).None?
    ensures r == Err(UnknownPropertyType) <==>
      BasePricePerM2(cleaningType).Some? && PropertyMultiplier(propertyType).None?
    ensures r.Ok? ==>
      var q := r.value;
      q.basePricePerM2 == BasePricePerM2(cleaningType).value &&
      q.propertyMultiplier == PropertyMultiplier(propertyType).value &&
      q.areaM2 == area &&
      q.priceBeforeDiscount == q.basePricePerM2 * area * q.propertyMultiplier &&
      q.discountPercent == AreaTier(area).percent &&
      q.finalPrice == q.priceBeforeDiscount * (1.0 - q.discountPercent as real / 100.0) &&
      q.discountAmount + q.finalPrice == q.priceBeforeDiscount
  {
    var tier := AreaTier(area);
    match BasePricePerM2(cleaningType)
    case None => Err(UnknownCleaningType)
    case Some(base) =>
      match PropertyMultiplier(propertyType)
      case None => Err(UnknownPropertyType)
      case Some(multiplier) =>
        var before := base * area * multiplier;
        var final := before * tier.multiplier;
        Ok(PriceQuote(base, area, multiplier, before, tier.percent, before - final, final))
  }

  /** For a non-negative area the discount is never negative and never exceeds the price. */
  lemma DiscountBounded(cleaningType: string, propertyType: string, area: real)
    requires area >= 0.0 && CalculateCleaningPrice(cleaningType, propertyType, area).Ok?
    ensures var q := CalculateCleaningPrice(cleaningType, propertyType, area).value;
      0.0 <= q.finalPrice <= q.priceBeforeDiscount && 0.0 <= q.discountAmount
  {
    var q := CalculateCleaningPrice(cleaningType, propertyType, area).value;
    assert q.basePricePerM2 > 0.0 && q.propertyMultiplier > 0.0;
    assert q.priceBeforeDiscount >= 0.0 by {
      assert q.basePricePerM2 * area >= 0.0;
    }
  }

  /** The price before discount grows with the area. */
  lemma PriceBeforeDiscountMonotone(cleaningType: string, propertyType: string, a: real, b: real)
    requires 0.0 <= a <= b
    requires CalculateCleaningPrice(cleaningType, propertyType, a).Ok?
    ensures CalculateCleaningPrice(cleaningType, propertyType, b).Ok?
    ensures CalculateCleaningPrice(cleaningType, propertyType, a).value.priceBeforeDiscount
         <= CalculateCleaningPrice(cleaningType, propertyType, b).value.priceBeforeDiscount
  {
    var base := BasePricePerM2(cleaningType).value;
    var m := PropertyMultiplier(propertyType).value;
    assert base * a <= base * b;
    assert base * a * m <= base * b * m;
  }

  /**
   * The discount applies to the whole price, so crossing a tier boundary can
   * lower the final price: 50 m^2 cost 2500, 51 m^2 cost 2422.5.
   */
  lemma TierBoundaryLowersPrice()
    ensures CalculateCleaningPrice("maintenance", "apartment", 50.0).value.finalPrice == 2500.0
    ensures CalculateCleaningPrice("maintenance", "apartment", 51.0).value.finalPrice == 2422.5
  {
  }

  /** Deep cleaning of a 50 m^2 apartment: 4000, no discount. */
  lemma ExampleDeepApartment50()
    ensures CalculateCleaningPrice("deep", "apartment", 50.0) ==
      Ok(PriceQuote(80.0, 50.0, 1.0, 4000.0, 0, 0.0, 4000.0))
  {
  }

  /** Post-renovation cleaning of a 200 m^2 house: 31200 before, 15% off, 26520. */
  lemma ExamplePostRenovationHouse200()
    ensures CalculateCleaningPrice("post_renovation", "house", 200.0) ==
      Ok(PriceQuote(120.0, 200.0, 1.3, 31200.0, 15, 4680.0, 26520.0))
  {
  }

  /** Deep cleaning of a 60 m^2 apartment: 5% off, 4560. */
  lemma ExampleDeepApartment60()
    ensures CalculateCleaningPrice("deep", "apartment", 60.0).value.finalPrice == 4560.0
    ensures CalculateCleaningPrice("deep", "apartment", 60.0).value.discountPercent == 5
  {
  }

  /** The tier boundaries are inclusive. */
  lemma TierBoundaries()
    ensures AreaTier(50.0).percent == 0 && AreaTier(50.01).percent == 5
    ensures AreaTier(100.0).percent == 5 && AreaTier(100.01).percent == 10
    ensures AreaTier(150.0).percent == 10
    ensures AreaTier(150.01).percent == 15
  {
  }
}
