/** The price composition inside `predict` (app.py:84-138): validation, the
    base prediction, the chain of multipliers and the price per square foot.

    The fitted scaler and regression model (app.py:111-113) are opaque; they
    are the parameter `baseModel`, which maps the accepted `total_area` and
    `overallqual` to a base prediction and may return any real at all. */
module Pricing {
  import opened FormData
  import opened Multipliers
  import opened Validation

  /** `scaler.transform` followed by `model.predict` on
      `[total_area, overall_qual, 1, 0]`. */
  type BaseModel = (real, real) -> real

  /** What the page reports: the first missing field, the generic
      invalid-number error, or an estimate with its price per square foot. */
  datatype Response =
    | MissingField(field: string)
    | InvalidNumbers
    | Estimate(price: real, pricePerSqft: int)

  /** Python's `int()` on a float: truncation toward zero. */
  function TruncateToInt(x: real): (r: int)
    ensures x >= 0.0 ==> 0 <= r && r as real <= x < r as real + 1.0
    ensures x < 0.0 ==> r <= 0 && r as real - 1.0 < x <= r as real
  {
    if x >= 0.0 then x.Floor else -((-x).Floor)
  }

  /** The base prediction times the market adjustment, the three table
      factors and the feature multiplier. */
  function ComposedPrice(basePrediction: real, propertyFactor: real, areaFactor: real,
                         furnishingFactor: real, featureFactor: real): real
  {
    basePrediction * BasePriceAdjustment * propertyFactor * areaFactor * furnishingFactor * featureFactor
  }

  /** What `predict` answers for a form, as a single expression. */
  function Respond(form: Form, parseInt: IntParser, parseFloat: FloatParser, baseModel: BaseModel): Response
  {
    match FirstMissing(form, RequiredFields)
    case Some(field) => MissingField(field)
    case None =>
      assert !IsMissing(form, RequiredFields[0]) && !IsMissing(form, RequiredFields[1]);
      assert !IsMissing(form, RequiredFields[2]) && !IsMissing(form, RequiredFields[7]);
      assert !IsMissing(form, RequiredFields[9]);
      match ParsePrimary(form["total_area"], form["overallqual"], parseFloat)
      case None => InvalidNumbers
      case Some(p) =>
        var price := ComposedPrice(
          baseModel(p.totalArea, p.overallQual),
          Lookup(PropertyTypeMultipliers, form["property_type"]),
          Lookup(AreaMultipliers, form["area"]),
          Lookup(FurnishingMultipliers, form["furnishing"]),
          FeatureMultiplier(form, parseInt));
        Estimate(price, TruncateToInt(price / p.totalArea))
  }

  /** Lines 116-135 of `predict`: the running price multiplied by each
      factor in turn. */
  method ApplyMultipliers(basePrediction: real, propertyMultiplier: real, areaMultiplier: real,
                          furnishingMultiplier: real, featureMultipliers: real)
    returns (finalPrediction: real)
    ensures finalPrediction == ComposedPrice(basePrediction, propertyMultiplier, areaMultiplier,
                                             furnishingMultiplier, featureMultipliers)
  {
    var basePrice := basePrediction * BasePriceAdjustment;
    basePrice := basePrice * propertyMultiplier;
    basePrice := basePrice * areaMultiplier;
    basePrice := basePrice * furnishingMultiplier;
    finalPrediction := basePrice * featureMultipliers;
  }

  /** `predict`: validate, then multiply the running price step by step. */
  method Predict(form: Form, parseInt: IntParser, parseFloat: FloatParser, baseModel: BaseModel)
    returns (response: Response)
    ensures response == Respond(form, parseInt, parseFloat, baseModel)
  {
    var missing := CheckRequiredFields(form);
    if missing.Some? {
      assert FirstMissing(form, RequiredFields) == missing;
      return MissingField(missing.value);
    }
    assert FirstMissing(form, RequiredFields).None?;
    assert !IsMissing(form, RequiredFields[0]) && !IsMissing(form, RequiredFields[1]);
    assert !IsMissing(form, RequiredFields[2]) && !IsMissing(form, RequiredFields[7]);
    assert !IsMissing(form, RequiredFields[9]);

    var primary := ParsePrimary(form["total_area"], form["overallqual"], parseFloat);
    if primary.None? {
      return InvalidNumbers;
    }
    var totalArea, overallQual := primary.value.totalArea, primary.value.overallQual;

    var basePrediction := baseModel(totalArea, overallQual);
    var propertyMultiplier := Lookup(PropertyTypeMultipliers, form["property_type"]);
    var areaMultiplier := Lookup(AreaMultipliers, form["area"]);
    var furnishingMultiplier := Lookup(FurnishingMultipliers, form["furnishing"]);
    var featureMultipliers := CalculateFeatureMultipliers(form, parseInt);
    var finalPrediction := ApplyMultipliers(basePrediction, propertyMultiplier, areaMultiplier,
                                            furnishingMultiplier, featureMultipliers);

    var pricePerSqft := TruncateToInt(finalPrediction / totalArea);
    response := Estimate(finalPrediction, pricePerSqft);
  }

  /** The answer is a missing-field error exactly when some required field is
      missing, and it names the first of them in list order. */
  lemma MissingFieldNamesFirst(form: Form, parseInt: IntParser, parseFloat: FloatParser, baseModel: BaseModel)
    ensures Respond(form, parseInt, parseFloat, baseModel).MissingField? <==>
      exists i :: 0 <= i < |RequiredFields| && IsMissing(form, RequiredFields[i])
    ensures Respond(form, parseInt, parseFloat, baseModel).MissingField? ==>
      exists i :: IsFirstMissing(form, RequiredFields, i)
        && RequiredFields[i] == Respond(form, parseInt, parseFloat, baseModel).field
  {
  }

  /** With every field filled in, the answer is the generic error exactly when
      a number does not parse, the area is not positive, or the quality lies
      outside [1, 10]. */
  lemma InvalidNumbersIff(form: Form, parseInt: IntParser, parseFloat: FloatParser, baseModel: BaseModel)
    requires forall i :: 0 <= i < |RequiredFields| ==> !IsMissing(form, RequiredFields[i])
    ensures "total_area" in form && "overallqual" in form
    ensures Respond(form, parseInt, parseFloat, baseModel) == InvalidNumbers <==>
      var totalArea, overallQual := parseFloat(form["total_area"]), parseFloat(form["overallqual"]);
      totalArea.None? || overallQual.None?
      || totalArea.value <= 0.0 || overallQual.value < 1.0 || overallQual.value > 10.0
  {
    assert !IsMissing(form, RequiredFields[2]) && !IsMissing(form, RequiredFields[9]);
  }

  /** An error answer is reached before anything downstream runs: neither the
      regression model nor the integer fields can change it. */
  lemma ErrorsIgnoreDownstream(form: Form, parseInt: IntParser, parseInt': IntParser,
                               parseFloat: FloatParser, baseModel: BaseModel, baseModel': BaseModel)
    requires !Respond(form, parseInt, parseFloat, baseModel).Estimate?
    ensures Respond(form, parseInt', parseFloat, baseModel') == Respond(form, parseInt, parseFloat, baseModel)
  {
  }

  /** `int(price / area)` for a positive area: for a non-negative price, the
      largest whole number whose product with the area does not exceed the
      price; for a negative price, the smallest whose product is not below
      it. */
  lemma TruncatedQuotientBounds(price: real, area: real)
    requires area > 0.0
    ensures var k := TruncateToInt(price / area) as real;
      && (price >= 0.0 ==> 0.0 <= k && k * area <= price < k * area + area)
      && (price < 0.0 ==> k <= 0.0 && k * area - area < price <= k * area)
  {
    var q := price / area;
    var k := TruncateToInt(q) as real;
    assert price == q * area;
    if price >= 0.0 {
      assert q >= 0.0;
      BetweenMultiples(price, area, q, k, k + 1.0);
    } else {
      assert q < 0.0;
      BetweenMultiples(price, area, q, k - 1.0, k);
    }
  }

  /** A quotient between two bounds puts the dividend between the bounds'
      multiples of the (positive) divisor. */
  lemma BetweenMultiples(price: real, area: real, q: real, lo: real, hi: real)
    requires area > 0.0 && price == q * area
    ensures lo <= q ==> lo * area <= price
    ensures lo < q ==> lo * area < price
    ensures q <= hi ==> price <= hi * area
    ensures q < hi ==> price < hi * area
    ensures (lo + 1.0) * area == lo * area + area
    ensures (hi - 1.0) * area == hi * area - area
  {
  }

  /** Every estimate's price per square foot is its price divided by the
      accepted area, truncated toward zero. */
  lemma PricePerSqftBounds(form: Form, parseInt: IntParser, parseFloat: FloatParser,
                           baseModel: BaseModel, p: Primary)
    requires FirstMissing(form, RequiredFields).None?
    requires "total_area" in form && "overallqual" in form
    requires ParsePrimary(form["total_area"], form["overallqual"], parseFloat) == Some(p)
    ensures Respond(form, parseInt, parseFloat, baseModel).Estimate?
    ensures var e := Respond(form, parseInt, parseFloat, baseModel);
      && (e.price >= 0.0 ==> e.pricePerSqft as real * p.totalArea <= e.price < e.pricePerSqft as real * p.totalArea + p.totalArea)
      && (e.price < 0.0 ==> e.pricePerSqft as real * p.totalArea - p.totalArea < e.price <= e.pricePerSqft as real * p.totalArea)
  {
    var e := Respond(form, parseInt, parseFloat, baseModel);
    TruncatedQuotientBounds(e.price, p.totalArea);
  }

  /** With a positive base prediction, raising any factor never lowers the
      price. */
  lemma ComposedPriceMonotone(basePrediction: real,
                              propertyFactor: real, areaFactor: real, furnishingFactor: real, featureFactor: real,
                              propertyFactor': real, areaFactor': real, furnishingFactor': real, featureFactor': real)
    requires basePrediction > 0.0
    requires 0.0 < propertyFactor <= propertyFactor'
    requires 0.0 < areaFactor <= areaFactor'
    requires 0.0 < furnishingFactor <= furnishingFactor'
    requires 0.0 < featureFactor <= featureFactor'
    ensures ComposedPrice(basePrediction, propertyFactor, areaFactor, furnishingFactor, featureFactor)
      <= ComposedPrice(basePrediction, propertyFactor', areaFactor', furnishingFactor', featureFactor')
  {
    var b := basePrediction * BasePriceAdjustment;
    ProductMonotone(b, propertyFactor, areaFactor, furnishingFactor, featureFactor,
                    b, propertyFactor', areaFactor', furnishingFactor', featureFactor');
  }

  /** An unrecognised property type prices exactly as an apartment, and an
      unrecognised furnishing exactly as unfurnished. */
  lemma UnknownCategoriesAreNeutral(form: Form, parseInt: IntParser, parseFloat: FloatParser, baseModel: BaseModel,
                                    propertyType: string, furnishing: string)
    requires propertyType != "" && propertyType !in PropertyTypeMultipliers
    requires furnishing != "" && furnishing !in FurnishingMultipliers
    ensures Respond(form["property_type" := propertyType]["furnishing" := furnishing], parseInt, parseFloat, baseModel)
      == Respond(form["property_type" := "apartment"]["furnishing" := "unfurnished"], parseInt, parseFloat, baseModel)
  {
    var typo := form["property_type" := propertyType]["furnishing" := furnishing];
    var base := form["property_type" := "apartment"]["furnishing" := "unfurnished"];
    SameOutsideCategories(form, typo, base, propertyType, furnishing);
    FirstMissingDependsOnPresence(typo, base, RequiredFields);
    assert typo["property_type"] == propertyType && base["property_type"] == "apartment";
    assert typo["furnishing"] == furnishing && base["furnishing"] == "unfurnished";
    assert Lookup(PropertyTypeMultipliers, propertyType) == Lookup(PropertyTypeMultipliers, "apartment");
    assert Lookup(FurnishingMultipliers, furnishing) == Lookup(FurnishingMultipliers, "unfurnished");
    SameFeatures(typo, base, parseInt);
  }

  lemma SameFeatures(form: Form, form': Form, parseInt: IntParser)
    requires forall i :: 0 <= i < |FeatureKeys| ==>
      (FeatureKeys[i] in form <==> FeatureKeys[i] in form')
      && (FeatureKeys[i] in form ==> form[FeatureKeys[i]] == form'[FeatureKeys[i]])
    ensures FeatureMultiplier(form, parseInt) == FeatureMultiplier(form', parseInt)
  {
    assert ParseFeatures(form, parseInt) == ParseFeatures(form', parseInt) by {
      assert FeatureKeys[0] == "bedrooms" && FeatureKeys[1] == "bathrooms" && FeatureKeys[2] == "floor";
      assert FeatureKeys[3] == "age" && FeatureKeys[4] == "parking";
    }
  }

  lemma SameOutsideCategories(form: Form, typo: Form, base: Form, propertyType: string, furnishing: string)
    requires propertyType != "" && furnishing != ""
    requires typo == form["property_type" := propertyType]["furnishing" := furnishing]
    requires base == form["property_type" := "apartment"]["furnishing" := "unfurnished"]
    ensures typo.Keys == base.Keys
    ensures forall key :: key in typo && key != "property_type" && key != "furnishing" ==> typo[key] == base[key]
    ensures forall i :: 0 <= i < |RequiredFields| ==> IsMissing(typo, RequiredFields[i]) == IsMissing(base, RequiredFields[i])
    ensures forall i :: 0 <= i < |FeatureKeys| ==>
      (FeatureKeys[i] in typo <==> FeatureKeys[i] in base)
      && (FeatureKeys[i] in typo ==> typo[FeatureKeys[i]] == base[FeatureKeys[i]])
  {
  }
}
