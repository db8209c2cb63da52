/** The hand-authored adjustments that surround the regression prediction
    (app.py:11-78): the three categorical multiplier tables, the global market
    adjustment, and the feature multiplier built from bedrooms, bathrooms,
    floor, age and parking.

    Python floats are modelled as exact reals, so `0.15` below is exactly
    fifteen hundredths. */
module Multipliers {
  import opened FormData

  /** `AREA_MULTIPLIERS`: Pune localities and their market factor. */
  const AreaMultipliers: map<string, real> := map[
    "koregaon_park" := 4.5,
    "kalyani_nagar" := 4.0,
    "viman_nagar" := 3.8,
    "baner" := 3.5,
    "wakad" := 3.0,
    "hinjewadi" := 2.8,
    "kharadi" := 3.2,
    "aundh" := 3.3,
    "pashan" := 2.9,
    "magarpatta" := 3.6
  ]

  /** `PROPERTY_TYPE_MULTIPLIERS`. */
  const PropertyTypeMultipliers: map<string, real> := map[
    "apartment" := 1.0,
    "villa" := 1.8,
    "plot" := 1.5,
    "penthouse" := 2.0,
    "row_house" := 1.2
  ]

  /** `FURNISHING_MULTIPLIERS`. */
  const FurnishingMultipliers: map<string, real> := map[
    "unfurnished" := 1.0,
    "semi_furnished" := 1.1,
    "fully_furnished" := 1.25
  ]

  /** `BASE_PRICE_ADJUSTMENT`: applied to every base prediction. */
  const BasePriceAdjustment: real := 2.5

  /** The factor `dict.get(key, 1.0)` falls back to for an unknown key. */
  const DefaultFactor: real := 1.0

  ghost predicate FactorsAtLeastOne(table: map<string, real>)
  {
    forall key :: key in table ==> table[key] >= 1.0
  }

  /** `TABLE.get(key, 1.0)`: never fails; an unknown key is neutral. */
  function Lookup(table: map<string, real>, key: string): (r: real)
    ensures key in table ==> r == table[key]
    ensures key !in table ==> r == DefaultFactor
    ensures FactorsAtLeastOne(table) ==> r >= 1.0
  {
    if key in table then table[key] else DefaultFactor
  }

  /** No table can lower a price: every listed factor is at least 1.0. */
  lemma TablesAtLeastOne()
    ensures FactorsAtLeastOne(AreaMultipliers)
    ensures FactorsAtLeastOne(PropertyTypeMultipliers)
    ensures FactorsAtLeastOne(FurnishingMultipliers)
  {
  }

  /** Every known locality multiplies by at least 2.8, so a misspelt locality
      (factor 1.0) prices far below every listed one. */
  lemma UnknownAreaBelowEveryKnownArea(known: string, unknown: string)
    requires known in AreaMultipliers && unknown !in AreaMultipliers
    ensures Lookup(AreaMultipliers, unknown) == 1.0
    ensures Lookup(AreaMultipliers, known) >= 2.8
  {
  }

  /** An unknown property type or furnishing prices exactly as the table's
      base entry ("apartment", "unfurnished") does. */
  lemma UnknownKeysActAsBaseEntries(propertyType: string, furnishing: string)
    requires propertyType !in PropertyTypeMultipliers
    requires furnishing !in FurnishingMultipliers
    ensures Lookup(PropertyTypeMultipliers, propertyType) == Lookup(PropertyTypeMultipliers, "apartment")
    ensures Lookup(FurnishingMultipliers, furnishing) == Lookup(FurnishingMultipliers, "unfurnished")
  {
  }

  function Min(a: int, b: int): int { if a < b then a else b }

  function Max(a: real, b: real): real { if a < b then b else a }

  /** Bedroom term: 15% per bedroom beyond the first, no cap. */
  function BedroomTerm(bedrooms: int): (r: real)
    ensures r == 1.0 <==> bedrooms == 1
    ensures bedrooms >= 0 ==> r >= 0.85
  {
    1.0 + (bedrooms - 1) as real * 0.15
  }

  /** Bathroom term: 10% per bathroom beyond the first, no cap. */
  function BathroomTerm(bathrooms: int): (r: real)
    ensures r == 1.0 <==> bathrooms == 1
    ensures bathrooms >= 0 ==> r >= 0.9
  {
    1.0 + (bathrooms - 1) as real * 0.1
  }

  /** Floor term: 2% per floor up to the tenth; ground and basement floors
      apply no term at all. */
  function FloorTerm(floor: int): (r: real)
    ensures floor <= 0 ==> r == 1.0
    ensures floor >= 10 ==> r == 1.2
    ensures 1.0 <= r <= 1.2
  {
    if floor > 0 then 1.0 + Min(floor, 10) as real * 0.02 else 1.0
  }

  /** Age term: 1% less per year up to thirty years, never below 70%. */
  function AgeTerm(age: int): (r: real)
    ensures r >= 0.7
    ensures age == 0 ==> r == 1.0
    ensures age >= 0 ==> r <= 1.0
    ensures age >= 30 ==> r == 0.7
    ensures age < 0 ==> r > 1.0
  {
    Max(1.0 - Min(age, 30) as real * 0.01, 0.7)
  }

  /** Parking term: 5% per parking spot, no cap. */
  function ParkingTerm(parking: int): (r: real)
    ensures r == 1.0 <==> parking == 0
    ensures parking >= 0 ==> r >= 1.0
  {
    1.0 + parking as real * 0.05
  }

  /** The 70% floor of the age term never binds: the thirty-year cap
      already stops the decrease at exactly 0.7. */
  lemma AgeFloorNeverBinds(age: int)
    ensures AgeTerm(age) == 1.0 - Min(age, 30) as real * 0.01
  {
  }

  /** The five integer fields of the form, once all of them have parsed. */
  datatype Features = Features(bedrooms: int, bathrooms: int, floor: int, age: int, parking: int)

  /** The names of the five integer fields, in the order they are parsed. */
  const FeatureKeys: seq<string> := ["bedrooms", "bathrooms", "floor", "age", "parking"]

  /** The fields parse in source order; the first failure makes the whole
      parse fail. */
  function ParseFeatures(form: Form, parseInt: IntParser): Option<Features>
  {
    var bedrooms := IntField(form, "bedrooms", 1, parseInt);
    var bathrooms := IntField(form, "bathrooms", 1, parseInt);
    var floor := IntField(form, "floor", 0, parseInt);
    var age := IntField(form, "age", 0, parseInt);
    var parking := IntField(form, "parking", 0, parseInt);
    if bedrooms.Some? && bathrooms.Some? && floor.Some? && age.Some? && parking.Some? then
      Some(Features(bedrooms.value, bathrooms.value, floor.value, age.value, parking.value))
    else
      None
  }

  /** The product of the five terms. */
  function FeatureProduct(f: Features): real
  {
    BedroomTerm(f.bedrooms) * BathroomTerm(f.bathrooms) * FloorTerm(f.floor)
      * AgeTerm(f.age) * ParkingTerm(f.parking)
  }

  /** What `calculate_feature_multipliers` returns: the product of the five
      terms when every field parses, and exactly 1.0 when any does not. */
  function FeatureMultiplier(form: Form, parseInt: IntParser): real
  {
    match ParseFeatures(form, parseInt)
    case Some(f) => FeatureProduct(f)
    case None => 1.0
  }

  /** `calculate_feature_multipliers`: a running product that returns the
      default 1.0 as soon as a field fails to parse, discarding whatever
      had been accumulated. */
  method CalculateFeatureMultipliers(form: Form, parseInt: IntParser) returns (multipliers: real)
    ensures multipliers == FeatureMultiplier(form, parseInt)
  {
    multipliers := 1.0;

    var bedrooms := IntField(form, "bedrooms", 1, parseInt);
    if bedrooms.None? { return 1.0; }
    var bedroomMult := 1.0 + (bedrooms.value - 1) as real * 0.15;
    multipliers := multipliers * bedroomMult;

    var bathrooms := IntField(form, "bathrooms", 1, parseInt);
    if bathrooms.None? { return 1.0; }
    var bathroomMult := 1.0 + (bathrooms.value - 1) as real * 0.1;
    multipliers := multipliers * bathroomMult;

    var floor := IntField(form, "floor", 0, parseInt);
    if floor.None? { return 1.0; }
    if floor.value > 0 {
      var floorMult := 1.0 + Min(floor.value, 10) as real * 0.02;
      multipliers := multipliers * floorMult;
    }

    var age := IntField(form, "age", 0, parseInt);
    if age.None? { return 1.0; }
    var ageMult := 1.0 - Min(age.value, 30) as real * 0.01;
    multipliers := multipliers * Max(ageMult, 0.7);

    var parking := IntField(form, "parking", 0, parseInt);
    if parking.None? { return 1.0; }
    var parkingMult := 1.0 + parking.value as real * 0.05;
    multipliers := multipliers * parkingMult;
  }

  /** The five fields parse exactly when none of them is present with text
      that `int()` rejects (an absent field takes its default). */
  lemma ParseFeaturesSucceedsIff(form: Form, parseInt: IntParser)
    ensures ParseFeatures(form, parseInt).Some? <==>
      forall i :: 0 <= i < |FeatureKeys| && FeatureKeys[i] in form ==> parseInt(form[FeatureKeys[i]]).Some?
  {
    var ok := forall i :: 0 <= i < |FeatureKeys| && FeatureKeys[i] in form ==> parseInt(form[FeatureKeys[i]]).Some?;
    if ParseFeatures(form, parseInt).Some? {
      forall i | 0 <= i < |FeatureKeys| && FeatureKeys[i] in form
        ensures parseInt(form[FeatureKeys[i]]).Some?
      {
        assert i == 0 || i == 1 || i == 2 || i == 3 || i == 4;
      }
    } else {
      assert !ok by {
        var bad: nat :| bad < 5 && FeatureKeys[bad] in form && parseInt(form[FeatureKeys[bad]]).None? by {
          if IntField(form, "bedrooms", 1, parseInt).None? { assert FeatureKeys[0] == "bedrooms"; }
          else if IntField(form, "bathrooms", 1, parseInt).None? { assert FeatureKeys[1] == "bathrooms"; }
          else if IntField(form, "floor", 0, parseInt).None? { assert FeatureKeys[2] == "floor"; }
          else if IntField(form, "age", 0, parseInt).None? { assert FeatureKeys[3] == "age"; }
          else { assert FeatureKeys[4] == "parking"; }
        }
      }
    }
  }

  /** One field that fails to parse makes the whole multiplier exactly 1.0;
      no partially accumulated product survives. */
  lemma ParseFailureGivesOne(form: Form, parseInt: IntParser, key: string)
    requires key in FeatureKeys && key in form && parseInt(form[key]).None?
    ensures FeatureMultiplier(form, parseInt) == 1.0
  {
    var i :| 0 <= i < |FeatureKeys| && FeatureKeys[i] == key;
    ParseFeaturesSucceedsIff(form, parseInt);
  }

  /** When every field parses, the multiplier is the product of the five
      terms of the parsed values. */
  lemma ParsedGivesProduct(form: Form, parseInt: IntParser, f: Features)
    requires ParseFeatures(form, parseInt) == Some(f)
    ensures FeatureMultiplier(form, parseInt)
      == BedroomTerm(f.bedrooms) * BathroomTerm(f.bathrooms) * FloorTerm(f.floor)
         * AgeTerm(f.age) * ParkingTerm(f.parking)
  {
  }

  /** One bedroom, one bathroom, ground floor, new, no parking: neutral. */
  lemma NeutralFeatures()
    ensures FeatureProduct(Features(1, 1, 0, 0, 0)) == 1.0
  {
  }

  /** The defaults `form_data.get` supplies are the neutral values, so a
      form without any of the five fields leaves the price unchanged. */
  lemma AbsentFieldsAreNeutral(form: Form, parseInt: IntParser)
    requires forall i :: 0 <= i < |FeatureKeys| ==> FeatureKeys[i] !in form
    ensures FeatureMultiplier(form, parseInt) == 1.0
  {
    assert FeatureKeys[0] !in form && FeatureKeys[1] !in form && FeatureKeys[2] !in form;
    assert FeatureKeys[3] !in form && FeatureKeys[4] !in form;
    NeutralFeatures();
  }

  /** Realistic counts: no negative bedrooms, bathrooms or parking spots
      (the source does not check this). Floor and age may be anything: their
      terms are positive for every integer. */
  predicate NonNegativeCounts(f: Features)
  {
    f.bedrooms >= 0 && f.bathrooms >= 0 && f.parking >= 0
  }

  lemma ProductPositive(a: real, b: real, c: real, d: real)
    requires a > 0.0 && b > 0.0 && c > 0.0 && d > 0.0
    ensures a * b * c * d > 0.0
  {
    assert a * b > 0.0;
    assert a * b * c > 0.0;
  }

  lemma PairMonotone(x: real, y: real, x': real, y': real)
    requires 0.0 < x <= x' && 0.0 < y <= y'
    ensures 0.0 < x * y <= x' * y'
  {
    assert x * y <= x' * y;
  }

  /** A product of five positive factors does not decrease when each factor
      is replaced by one at least as large. */
  lemma ProductMonotone(a: real, b: real, c: real, d: real, e: real,
                        a': real, b': real, c': real, d': real, e': real)
    requires 0.0 < a <= a' && 0.0 < b <= b' && 0.0 < c <= c' && 0.0 < d <= d' && 0.0 < e <= e'
    ensures a * b * c * d * e <= a' * b' * c' * d' * e'
  {
    PairMonotone(a, b, a', b');
    PairMonotone(a * b, c, a' * b', c');
    PairMonotone(a * b * c, d, a' * b' * c', d');
    PairMonotone(a * b * c * d, e, a' * b' * c' * d', e');
  }

  /** With non-negative counts every term is positive, and so is the product. */
  lemma FeatureProductPositive(f: Features)
    requires NonNegativeCounts(f)
    ensures FeatureProduct(f) > 0.0
  {
    ProductPositive(BedroomTerm(f.bedrooms), BathroomTerm(f.bathrooms), FloorTerm(f.floor), AgeTerm(f.age));
    var front := BedroomTerm(f.bedrooms) * BathroomTerm(f.bathrooms) * FloorTerm(f.floor) * AgeTerm(f.age);
    assert FeatureProduct(f) == front * ParkingTerm(f.parking);
  }

  /** More bedrooms, bathrooms, floors or parking spots never lower the
      multiplier, and greater age never raises it (counts non-negative). */
  lemma FeatureProductMonotone(f: Features, g: Features)
    requires NonNegativeCounts(f)
    requires f.bedrooms <= g.bedrooms && f.bathrooms <= g.bathrooms
    requires f.floor <= g.floor && f.parking <= g.parking
    requires f.age >= g.age
    ensures FeatureProduct(f) <= FeatureProduct(g)
  {
    assert FloorTerm(f.floor) <= FloorTerm(g.floor);
    assert AgeTerm(f.age) <= AgeTerm(g.age);
    ProductMonotone(BedroomTerm(f.bedrooms), BathroomTerm(f.bathrooms), FloorTerm(f.floor),
                    AgeTerm(f.age), ParkingTerm(f.parking),
                    BedroomTerm(g.bedrooms), BathroomTerm(g.bathrooms), FloorTerm(g.floor),
                    AgeTerm(g.age), ParkingTerm(g.parking));
  }
}
