/**
 * The socio-demographics schemas: the coordinate predicate, the sales-territory
 * request and its validators, GeoJSON shapes, and the statistics records of the
 * city, area and sales-territory responses.
 */
module SocioDemographics {
  import opened Wrappers
  import opened Json
  import opened Truthiness
  import opened Coordinates

  /**
   * `coordinate_valid`: both coordinates within range, bounds included; the two
   * field validators accept a point exactly when it holds.
   */
  predicate CoordinateValid(latitude: real, longitude: real)
    ensures CoordinateValid(latitude, longitude)
        <==> ValidateLatitude(latitude).Ok? && ValidateLongitude(longitude).Ok?
  {
    -90.0 <= latitude <= 90.0 && -180.0 <= longitude <= 180.0
  }

  lemma CoordinateBoundsInclusive()
    ensures CoordinateValid(90.0, 180.0) && CoordinateValid(-90.0, -180.0)
    ensures !CoordinateValid(90.0001, 0.0) && !CoordinateValid(0.0, -180.0001)
  {
  }

  // ---------------------------------------------------------------------------
  // City statistics

  /** Thirteen statistics, each optional. */
  datatype SocioDemographicsCityResponse = SocioDemographicsCityResponse(
    averageIndividualIncome: Option<real>,
    medianHouseholdIncome: Option<real>,
    populationTotal: Option<int>,
    populationYouth: Option<int>,
    populationMiddleAge: Option<int>,
    populationSenior: Option<int>,
    workTransportationSelfMobility: Option<int>,
    householdIncomeLow: Option<int>,
    householdIncomeMedium: Option<int>,
    householdIncomeHigh: Option<int>,
    householdsTotal: Option<int>,
    householdsFamilyTotal: Option<int>,
    averageHouseholdComposition: Option<real>)

  const NoCityStatistics := SocioDemographicsCityResponse(
    None, None, None, None, None, None, None, None, None, None, None, None, None)

  /**
   * Every city statistic is optional: the body decodes exactly when each statistic
   * that is present decodes, and each is then carried (None when missing or null).
   */
  function DecodeSocioDemographicsCityResponse(j: Json): (r: Checked<SocioDemographicsCityResponse>)
    ensures r.Ok? <==>
      && j.JObj?
      && OptionalDecodes(j.fields, "average_individual_income", AsFloat)
      && OptionalDecodes(j.fields, "median_household_income", AsFloat)
      && OptionalDecodes(j.fields, "population_total", AsInt)
      && OptionalDecodes(j.fields, "population_youth", AsInt)
      && OptionalDecodes(j.fields, "population_middle_age", AsInt)
      && OptionalDecodes(j.fields, "population_senior", AsInt)
      && OptionalDecodes(j.fields, "work_transportation_self_mobility", AsInt)
      && OptionalDecodes(j.fields, "household_income_low", AsInt)
      && OptionalDecodes(j.fields, "household_income_medium", AsInt)
      && OptionalDecodes(j.fields, "household_income_high", AsInt)
      && OptionalDecodes(j.fields, "households_total", AsInt)
      && OptionalDecodes(j.fields, "households_family_total", AsInt)
      && OptionalDecodes(j.fields, "average_household_composition", AsFloat)
    ensures r.Ok? ==>
      && OptionalHolds(j.fields, "average_individual_income", AsFloat, r.value.averageIndividualIncome)
      && OptionalHolds(j.fields, "median_household_income", AsFloat, r.value.medianHouseholdIncome)
      && OptionalHolds(j.fields, "population_total", AsInt, r.value.populationTotal)
      && OptionalHolds(j.fields, "population_youth", AsInt, r.value.populationYouth)
      && OptionalHolds(j.fields, "population_middle_age", AsInt, r.value.populationMiddleAge)
      && OptionalHolds(j.fields, "population_senior", AsInt, r.value.populationSenior)
      && OptionalHolds(j.fields, "work_transportation_self_mobility", AsInt, r.value.workTransportationSelfMobility)
      && OptionalHolds(j.fields, "household_income_low", AsInt, r.value.householdIncomeLow)
      && OptionalHolds(j.fields, "household_income_medium", AsInt, r.value.householdIncomeMedium)
      && OptionalHolds(j.fields, "household_income_high", AsInt, r.value.householdIncomeHigh)
      && OptionalHolds(j.fields, "households_total", AsInt, r.value.householdsTotal)
      && OptionalHolds(j.fields, "households_family_total", AsInt, r.value.householdsFamilyTotal)
      && OptionalHolds(j.fields, "average_household_composition", AsFloat, r.value.averageHouseholdComposition)
    ensures j.JObj? && (forall key :: key in j.fields ==> j.fields[key] == JNull) ==> r == Ok(NoCityStatistics)
  {
    if !j.JObj? then TypeMismatch("dict")
    else
      var m := j.fields;
      var a := Optional(m, "average_individual_income", AsFloat);
      var b := Optional(m, "median_household_income", AsFloat);
      var c := Optional(m, "population_total", AsInt);
      var d := Optional(m, "population_youth", AsInt);
      var e := Optional(m, "population_middle_age", AsInt);
      var f := Optional(m, "population_senior", AsInt);
      var g := Optional(m, "work_transportation_self_mobility", AsInt);
      var h := Optional(m, "household_income_low", AsInt);
      var i := Optional(m, "household_income_medium", AsInt);
      var k := Optional(m, "household_income_high", AsInt);
      var l := Optional(m, "households_total", AsInt);
      var n := Optional(m, "households_family_total", AsInt);
      var o := Optional(m, "average_household_composition", AsFloat);
      if a.Ok? && b.Ok? && c.Ok? && d.Ok? && e.Ok? && f.Ok? && g.Ok? && h.Ok? && i.Ok? && k.Ok? && l.Ok? && n.Ok? && o.Ok?
      then Ok(SocioDemographicsCityResponse(a.value, b.value, c.value, d.value, e.value, f.value, g.value,
                                            h.value, i.value, k.value, l.value, n.value, o.value))
      else Err(Errors(a) + Errors(b) + Errors(c) + Errors(d) + Errors(e) + Errors(f) + Errors(g)
               + Errors(h) + Errors(i) + Errors(k) + Errors(l) + Errors(n) + Errors(o))
  }

  function EncodeSocioDemographicsCityResponse(c: SocioDemographicsCityResponse): Json {
    JObj(map[
      "average_individual_income" := OptionJson(c.averageIndividualIncome, RealJson),
      "median_household_income" := OptionJson(c.medianHouseholdIncome, RealJson),
      "population_total" := OptionJson(c.populationTotal, IntJson),
      "population_youth" := OptionJson(c.populationYouth, IntJson),
      "population_middle_age" := OptionJson(c.populationMiddleAge, IntJson),
      "population_senior" := OptionJson(c.populationSenior, IntJson),
      "work_transportation_self_mobility" := OptionJson(c.workTransportationSelfMobility, IntJson),
      "household_income_low" := OptionJson(c.householdIncomeLow, IntJson),
      "household_income_medium" := OptionJson(c.householdIncomeMedium, IntJson),
      "household_income_high" := OptionJson(c.householdIncomeHigh, IntJson),
      "households_total" := OptionJson(c.householdsTotal, IntJson),
      "households_family_total" := OptionJson(c.householdsFamilyTotal, IntJson),
      "average_household_composition" := OptionJson(c.averageHouseholdComposition, RealJson)])
  }

  /** Every combination of present and absent city statistics survives serialisation. */
  lemma SocioDemographicsCityResponseRoundTrip(c: SocioDemographicsCityResponse)
    ensures DecodeSocioDemographicsCityResponse(EncodeSocioDemographicsCityResponse(c)) == Ok(c)
  {
    CityPopulationRoundTrip(c);
    CityHouseholdRoundTrip(c);
  }

  lemma CityPopulationRoundTrip(c: SocioDemographicsCityResponse)
    ensures
      var m := EncodeSocioDemographicsCityResponse(c).fields;
      && Optional(m, "average_individual_income", AsFloat) == Ok(c.averageIndividualIncome)
      && Optional(m, "median_household_income", AsFloat) == Ok(c.medianHouseholdIncome)
      && Optional(m, "population_total", AsInt) == Ok(c.populationTotal)
      && Optional(m, "population_youth", AsInt) == Ok(c.populationYouth)
      && Optional(m, "population_middle_age", AsInt) == Ok(c.populationMiddleAge)
      && Optional(m, "population_senior", AsInt) == Ok(c.populationSenior)
      && Optional(m, "work_transportation_self_mobility", AsInt) == Ok(c.workTransportationSelfMobility)
  {
    var m := EncodeSocioDemographicsCityResponse(c).fields;
    OptionalOk(m, "average_individual_income", RealJson, AsFloat, c.averageIndividualIncome);
    OptionalOk(m, "median_household_income", RealJson, AsFloat, c.medianHouseholdIncome);
    OptionalOk(m, "population_total", IntJson, AsInt, c.populationTotal);
    OptionalOk(m, "population_youth", IntJson, AsInt, c.populationYouth);
    OptionalOk(m, "population_middle_age", IntJson, AsInt, c.populationMiddleAge);
    OptionalOk(m, "population_senior", IntJson, AsInt, c.populationSenior);
    OptionalOk(m, "work_transportation_self_mobility", IntJson, AsInt, c.workTransportationSelfMobility);
  }

  lemma CityHouseholdRoundTrip(c: SocioDemographicsCityResponse)
    ensures
      var m := EncodeSocioDemographicsCityResponse(c).fields;
      && Optional(m, "household_income_low", AsInt) == Ok(c.householdIncomeLow)
      && Optional(m, "household_income_medium", AsInt) == Ok(c.householdIncomeMedium)
      && Optional(m, "household_income_high", AsInt) == Ok(c.householdIncomeHigh)
      && Optional(m, "households_total", AsInt) == Ok(c.householdsTotal)
      && Optional(m, "households_family_total", AsInt) == Ok(c.householdsFamilyTotal)
      && Optional(m, "average_household_composition", AsFloat) == Ok(c.averageHouseholdComposition)
  {
    var m := EncodeSocioDemographicsCityResponse(c).fields;
    OptionalOk(m, "household_income_low", IntJson, AsInt, c.householdIncomeLow);
    OptionalOk(m, "household_income_medium", IntJson, AsInt, c.householdIncomeMedium);
    OptionalOk(m, "household_income_high", IntJson, AsInt, c.householdIncomeHigh);
    OptionalOk(m, "households_total", IntJson, AsInt, c.householdsTotal);
    OptionalOk(m, "households_family_total", IntJson, AsInt, c.householdsFamilyTotal);
    OptionalOk(m, "average_household_composition", RealJson, AsFloat, c.averageHouseholdComposition);
  }

  // ---------------------------------------------------------------------------
  // GeoJSON

  /** `coordinates` is an untyped list, kept as JSON. */
  datatype GeometryModel = GeometryModel(kind: string, coordinates: seq<Json>)

  datatype GeometryFeature = GeometryFeature(kind: string, properties: Option<map<string, Json>>, geometry: GeometryModel)

  datatype GeojsonSpec = GeojsonSpec(kind: string, features: seq<GeometryFeature>)

  /** `coordinates` is required and kept as given; `type` defaults to "Polygon". */
  function DecodeGeometryModel(j: Json): (r: Checked<GeometryModel>)
    ensures RequiresKeys(j, {"coordinates"}, r)
    ensures r.Ok? ==> j.fields["coordinates"].JArr? && r.value.coordinates == j.fields["coordinates"].items
    ensures r.Ok? && "type" !in j.fields ==> r.value.kind == "Polygon"
  {
    if !j.JObj? then TypeMismatch("dict")
    else
      var kind := Defaulted(j.fields, "type", "Polygon", AsStr);
      var coordinates := Required(j.fields, "coordinates", AsAnyList);
      if kind.Ok? && coordinates.Ok? then Ok(GeometryModel(kind.value, coordinates.value))
      else Err(Errors(kind) + Errors(coordinates))
  }

  /** `geometry` is required; `type` defaults to "Polygon" and `properties` to None. */
  function DecodeGeometryFeature(j: Json): (r: Checked<GeometryFeature>)
    ensures RequiresKeys(j, {"geometry"}, r)
    ensures r.Ok? ==> DecodeGeometryModel(j.fields["geometry"]) == Ok(r.value.geometry)
    ensures r.Ok? && "type" !in j.fields ==> r.value.kind == "Polygon"
    ensures r.Ok? && ("properties" !in j.fields || j.fields["properties"] == JNull) ==> r.value.properties == None
  {
    if !j.JObj? then TypeMismatch("dict")
    else
      var kind := Defaulted(j.fields, "type", "Polygon", AsStr);
      var properties := Optional(j.fields, "properties", AsDict);
      var geometry := Required(j.fields, "geometry", DecodeGeometryModel);
      if kind.Ok? && properties.Ok? && geometry.Ok? then Ok(GeometryFeature(kind.value, properties.value, geometry.value))
      else Err(Errors(kind) + Errors(properties) + Errors(geometry))
  }

  /** `features` is required and every feature must decode; `type` defaults to "FeatureCollection". */
  function DecodeGeojsonSpec(j: Json): (r: Checked<GeojsonSpec>)
    ensures RequiresKeys(j, {"features"}, r)
    ensures r.Ok? ==>
      var fs := j.fields["features"];
      && fs.JArr? && |r.value.features| == |fs.items|
      && forall k :: 0 <= k < |fs.items| ==> DecodeGeometryFeature(fs.items[k]) == Ok(r.value.features[k])
    ensures r.Ok? && "type" !in j.fields ==> r.value.kind == "FeatureCollection"
  {
    if !j.JObj? then TypeMismatch("dict")
    else
      var kind := Defaulted(j.fields, "type", "FeatureCollection", AsStr);
      var features := Required(j.fields, "features", (f: Json) => AsList(f, DecodeGeometryFeature));
      if kind.Ok? && features.Ok? then Ok(GeojsonSpec(kind.value, features.value))
      else Err(Errors(kind) + Errors(features))
  }

  function EncodeGeometryModel(g: GeometryModel): Json {
    JObj(map["type" := JStr(g.kind), "coordinates" := JArr(g.coordinates)])
  }

  function EncodeGeometryFeature(f: GeometryFeature): Json {
    JObj(map["type" := JStr(f.kind),
             "properties" := if f.properties.Some? then JObj(f.properties.value) else JNull,
             "geometry" := EncodeGeometryModel(f.geometry)])
  }

  function EncodeGeojsonSpec(g: GeojsonSpec): Json {
    JObj(map["type" := JStr(g.kind), "features" := JArr(Encoded(g.features, EncodeGeometryFeature))])
  }

  lemma GeometryFeatureRoundTrip(f: GeometryFeature)
    ensures DecodeGeometryFeature(EncodeGeometryFeature(f)) == Ok(f)
  {
  }

  lemma {:induction false} GeojsonSpecRoundTrip(g: GeojsonSpec)
    ensures DecodeGeojsonSpec(EncodeGeojsonSpec(g)) == Ok(g)
  {
    forall f | f in g.features ensures DecodeGeometryFeature(EncodeGeometryFeature(f)) == Ok(f) {
      GeometryFeatureRoundTrip(f);
    }
    ListRoundTrip(g.features, EncodeGeometryFeature, DecodeGeometryFeature);
  }

  /** A feature that gives nothing but its geometry's coordinates. */
  function BareFeatureJson(coordinates: seq<Json>): Json {
    JObj(map["geometry" := JObj(map["coordinates" := JArr(coordinates)])])
  }

  function DefaultFeature(coordinates: seq<Json>): GeometryFeature {
    GeometryFeature("Polygon", None, GeometryModel("Polygon", coordinates))
  }

  /**
   * The collection's `type` defaults to "FeatureCollection" and each feature's and
   * each geometry's to "Polygon"; each feature's `properties` defaults to None.
   */
  lemma GeojsonDefaults(shapes: seq<seq<Json>>)
    ensures DecodeGeojsonSpec(JObj(map["features" := JArr(Encoded(shapes, BareFeatureJson))]))
         == Ok(GeojsonSpec("FeatureCollection", seq(|shapes|, k requires 0 <= k < |shapes| => DefaultFeature(shapes[k]))))
  {
    var items := Encoded(shapes, BareFeatureJson);
    var expected := seq(|shapes|, k requires 0 <= k < |shapes| => DefaultFeature(shapes[k]));
    forall k | 0 <= k < |items| ensures DecodeGeometryFeature(items[k]) == Ok(expected[k]) {
      assert items[k] == BareFeatureJson(shapes[k]);
    }
    var decoded := Items(items, DecodeGeometryFeature, 0);
    assert decoded.Ok?;
    assert decoded.value == expected;
  }

  // ---------------------------------------------------------------------------
  // Socio-demographic statistics of a territory: every field optional

  datatype GeneralStatistical = GeneralStatistical(value: Option<real>, city: Option<real>, share: Option<real>)

  datatype PopulationAffluence = PopulationAffluence(
    lowMedianHouseholdIncome: Option<GeneralStatistical>,
    mediumMedianHouseholdIncome: Option<GeneralStatistical>,
    highMedianHouseholdIncome: Option<GeneralStatistical>)

  datatype Demographics = Demographics(
    totalPopulation: Option<GeneralStatistical>,
    youthPopulation: Option<GeneralStatistical>,
    middleAgedPopulation: Option<GeneralStatistical>,
    seniorPopulation: Option<GeneralStatistical>,
    selfMobilizingPopulation: Option<GeneralStatistical>,
    populationAffluence: Option<PopulationAffluence>)

  datatype IncomeStatistical = IncomeStatistical(avg: Option<GeneralStatistical>, median: Option<GeneralStatistical>)

  datatype Income = Income(household: Option<IncomeStatistical>, individual: Option<IncomeStatistical>)

  datatype HouseholdComposition = HouseholdComposition(
    householdCount: Option<GeneralStatistical>,
    householdsWithFamilyCount: Option<GeneralStatistical>,
    avgPersonsPerHousehold: Option<GeneralStatistical>)

  datatype SocioDemographicResponse = SocioDemographicResponse(
    demographics: Option<Demographics>,
    income: Option<Income>,
    householdComposition: Option<HouseholdComposition>)

  /** value, city and share are optional; each present one is carried as it decodes. */
  function DecodeGeneralStatistical(j: Json): (r: Checked<GeneralStatistical>)
    ensures r.Ok? <==>
      && j.JObj?
      && OptionalDecodes(j.fields, "value", AsFloat)
      && OptionalDecodes(j.fields, "city", AsFloat)
      && OptionalDecodes(j.fields, "share", AsFloat)
    ensures r.Ok? ==>
      && OptionalHolds(j.fields, "value", AsFloat, r.value.value)
      && OptionalHolds(j.fields, "city", AsFloat, r.value.city)
      && OptionalHolds(j.fields, "share", AsFloat, r.value.share)
    ensures j.JObj? && (forall key :: key in j.fields ==> j.fields[key] == JNull) ==> r == Ok(GeneralStatistical(None, None, None))
  {
    if !j.JObj? then TypeMismatch("dict")
    else
      var v := Optional(j.fields, "value", AsFloat);
      var c := Optional(j.fields, "city", AsFloat);
      var s := Optional(j.fields, "share", AsFloat);
      if v.Ok? && c.Ok? && s.Ok? then Ok(GeneralStatistical(v.value, c.value, s.value))
      else Err(Errors(v) + Errors(c) + Errors(s))
  }

  /** The three income bands are optional; each present one is decoded as a GeneralStatistical. */
  function DecodePopulationAffluence(j: Json): (r: Checked<PopulationAffluence>)
    ensures r.Ok? <==>
      && j.JObj?
      && OptionalDecodes(j.fields, "low_median_household_income", DecodeGeneralStatistical)
      && OptionalDecodes(j.fields, "medium_median_household_income", DecodeGeneralStatistical)
      && OptionalDecodes(j.fields, "high_median_household_income", DecodeGeneralStatistical)
    ensures r.Ok? ==>
      && OptionalHolds(j.fields, "low_median_household_income", DecodeGeneralStatistical, r.value.lowMedianHouseholdIncome)
      && OptionalHolds(j.fields, "medium_median_household_income", DecodeGeneralStatistical, r.value.mediumMedianHouseholdIncome)
      && OptionalHolds(j.fields, "high_median_household_income", DecodeGeneralStatistical, r.value.highMedianHouseholdIncome)
    ensures j.JObj? && (forall key :: key in j.fields ==> j.fields[key] == JNull) ==> r == Ok(PopulationAffluence(None, None, None))
  {
    if !j.JObj? then TypeMismatch("dict")
    else
      var l := Optional(j.fields, "low_median_household_income", DecodeGeneralStatistical);
      var m := Optional(j.fields, "medium_median_household_income", DecodeGeneralStatistical);
      var h := Optional(j.fields, "high_median_household_income", DecodeGeneralStatistical);
      if l.Ok? && m.Ok? && h.Ok? then Ok(PopulationAffluence(l.value, m.value, h.value))
      else Err(Errors(l) + Errors(m) + Errors(h))
  }

  /** The six population parts are optional; each present one is decoded by its own schema. */
  function DecodeDemographics(j: Json): (r: Checked<Demographics>)
    ensures r.Ok? <==>
      && j.JObj?
      && OptionalDecodes(j.fields, "total_population", DecodeGeneralStatistical)
      && OptionalDecodes(j.fields, "youth_population", DecodeGeneralStatistical)
      && OptionalDecodes(j.fields, "middle_aged_population", DecodeGeneralStatistical)
      && OptionalDecodes(j.fields, "senior_population", DecodeGeneralStatistical)
      && OptionalDecodes(j.fields, "self_mobilizing_population", DecodeGeneralStatistical)
      && OptionalDecodes(j.fields, "population_affluence", DecodePopulationAffluence)
    ensures r.Ok? ==>
      && OptionalHolds(j.fields, "total_population", DecodeGeneralStatistical, r.value.totalPopulation)
      && OptionalHolds(j.fields, "youth_population", DecodeGeneralStatistical, r.value.youthPopulation)
      && OptionalHolds(j.fields, "middle_aged_population", DecodeGeneralStatistical, r.value.middleAgedPopulation)
      && OptionalHolds(j.fields, "senior_population", DecodeGeneralStatistical, r.value.seniorPopulation)
      && OptionalHolds(j.fields, "self_mobilizing_population", DecodeGeneralStatistical, r.value.selfMobilizingPopulation)
      && OptionalHolds(j.fields, "population_affluence", DecodePopulationAffluence, r.value.populationAffluence)
    ensures j.JObj? && (forall key :: key in j.fields ==> j.fields[key] == JNull) ==> r == Ok(Demographics(None, None, None, None, None, None))
  {
    if !j.JObj? then TypeMismatch("dict")
    else
      var t := Optional(j.fields, "total_population", DecodeGeneralStatistical);
      var y := Optional(j.fields, "youth_population", DecodeGeneralStatistical);
      var m := Optional(j.fields, "middle_aged_population", DecodeGeneralStatistical);
      var s := Optional(j.fields, "senior_population", DecodeGeneralStatistical);
      var sm := Optional(j.fields, "self_mobilizing_population", DecodeGeneralStatistical);
      var pa := Optional(j.fields, "population_affluence", DecodePopulationAffluence);
      if t.Ok? && y.Ok? && m.Ok? && s.Ok? && sm.Ok? && pa.Ok?
      then Ok(Demographics(t.value, y.value, m.value, s.value, sm.value, pa.value))
      else Err(Errors(t) + Errors(y) + Errors(m) + Errors(s) + Errors(sm) + Errors(pa))
  }

  /** avg and median are optional; each present one is decoded as a GeneralStatistical. */
  function DecodeIncomeStatistical(j: Json): (r: Checked<IncomeStatistical>)
    ensures r.Ok? <==>
      && j.JObj?
      && OptionalDecodes(j.fields, "avg", DecodeGeneralStatistical)
      && OptionalDecodes(j.fields, "median", DecodeGeneralStatistical)
    ensures r.Ok? ==>
      && OptionalHolds(j.fields, "avg", DecodeGeneralStatistical, r.value.avg)
      && OptionalHolds(j.fields, "median", DecodeGeneralStatistical, r.value.median)
    ensures j.JObj? && (forall key :: key in j.fields ==> j.fields[key] == JNull) ==> r == Ok(IncomeStatistical(None, None))
  {
    if !j.JObj? then TypeMismatch("dict")
    else
      var a := Optional(j.fields, "avg", DecodeGeneralStatistical);
      var m := Optional(j.fields, "median", DecodeGeneralStatistical);
      if a.Ok? && m.Ok? then Ok(IncomeStatistical(a.value, m.value)) else Err(Errors(a) + Errors(m))
  }

  /** household and individual are optional; each present one is decoded as an IncomeStatistical. */
  function DecodeIncome(j: Json): (r: Checked<Income>)
    ensures r.Ok? <==>
      && j.JObj?
      && OptionalDecodes(j.fields, "household", DecodeIncomeStatistical)
      && OptionalDecodes(j.fields, "individual", DecodeIncomeStatistical)
    ensures r.Ok? ==>
      && OptionalHolds(j.fields, "household", DecodeIncomeStatistical, r.value.household)
      && OptionalHolds(j.fields, "individual", DecodeIncomeStatistical, r.value.individual)
    ensures j.JObj? && (forall key :: key in j.fields ==> j.fields[key] == JNull) ==> r == Ok(Income(None, None))
  {
    if !j.JObj? then TypeMismatch("dict")
    else
      var h := Optional(j.fields, "household", DecodeIncomeStatistical);
      var i := Optional(j.fields, "individual", DecodeIncomeStatistical);
      if h.Ok? && i.Ok? then Ok(Income(h.value, i.value)) else Err(Errors(h) + Errors(i))
  }

  /** The three household statistics are optional; each present one is decoded as a GeneralStatistical. */
  function DecodeHouseholdComposition(j: Json): (r: Checked<HouseholdComposition>)
    ensures r.Ok? <==>
      && j.JObj?
      && OptionalDecodes(j.fields, "household_count", DecodeGeneralStatistical)
      && OptionalDecodes(j.fields, "households_with_family_count", DecodeGeneralStatistical)
      && OptionalDecodes(j.fields, "avg_persons_per_household", DecodeGeneralStatistical)
    ensures r.Ok? ==>
      && OptionalHolds(j.fields, "household_count", DecodeGeneralStatistical, r.value.householdCount)
      && OptionalHolds(j.fields, "households_with_family_count", DecodeGeneralStatistical, r.value.householdsWithFamilyCount)
      && OptionalHolds(j.fields, "avg_persons_per_household", DecodeGeneralStatistical, r.value.avgPersonsPerHousehold)
    ensures j.JObj? && (forall key :: key in j.fields ==> j.fields[key] == JNull) ==> r == Ok(HouseholdComposition(None, None, None))
  {
    if !j.JObj? then TypeMismatch("dict")
    else
      var c := Optional(j.fields, "household_count", DecodeGeneralStatistical);
      var f := Optional(j.fields, "households_with_family_count", DecodeGeneralStatistical);
      var a := Optional(j.fields, "avg_persons_per_household", DecodeGeneralStatistical);
      if c.Ok? && f.Ok? && a.Ok? then Ok(HouseholdComposition(c.value, f.value, a.value))
      else Err(Errors(c) + Errors(f) + Errors(a))
  }

  /** The three parts are optional; each present one is decoded by its own schema. */
  function DecodeSocioDemographicResponse(j: Json): (r: Checked<SocioDemographicResponse>)
    ensures r.Ok? <==>
      && j.JObj?
      && OptionalDecodes(j.fields, "demographics", DecodeDemographics)
      && OptionalDecodes(j.fields, "income", DecodeIncome)
      && OptionalDecodes(j.fields, "household_composition", DecodeHouseholdComposition)
    ensures r.Ok? ==>
      && OptionalHolds(j.fields, "demographics", DecodeDemographics, r.value.demographics)
      && OptionalHolds(j.fields, "income", DecodeIncome, r.value.income)
      && OptionalHolds(j.fields, "household_composition", DecodeHouseholdComposition, r.value.householdComposition)
    ensures j.JObj? && (forall key :: key in j.fields ==> j.fields[key] == JNull) ==> r == Ok(SocioDemographicResponse(None, None, None))
  {
    if !j.JObj? then TypeMismatch("dict")
    else
      var d := Optional(j.fields, "demographics", DecodeDemographics);
      var i := Optional(j.fields, "income", DecodeIncome);
      var h := Optional(j.fields, "household_composition", DecodeHouseholdComposition);
      if d.Ok? && i.Ok? && h.Ok? then Ok(SocioDemographicResponse(d.value, i.value, h.value))
      else Err(Errors(d) + Errors(i) + Errors(h))
  }

  function EncodeGeneralStatistical(g: GeneralStatistical): Json {
    JObj(map[
      "value" := OptionJson(g.value, RealJson),
      "city" := OptionJson(g.city, RealJson),
      "share" := OptionJson(g.share, RealJson)])
  }

  function EncodePopulationAffluence(p: PopulationAffluence): Json {
    JObj(map[
      "low_median_household_income" := OptionJson(p.lowMedianHouseholdIncome, EncodeGeneralStatistical),
      "medium_median_household_income" := OptionJson(p.mediumMedianHouseholdIncome, EncodeGeneralStatistical),
      "high_median_household_income" := OptionJson(p.highMedianHouseholdIncome, EncodeGeneralStatistical)])
  }

  function EncodeDemographics(d: Demographics): Json {
    JObj(map[
      "total_population" := OptionJson(d.totalPopulation, EncodeGeneralStatistical),
      "youth_population" := OptionJson(d.youthPopulation, EncodeGeneralStatistical),
      "middle_aged_population" := OptionJson(d.middleAgedPopulation, EncodeGeneralStatistical),
      "senior_population" := OptionJson(d.seniorPopulation, EncodeGeneralStatistical),
      "self_mobilizing_population" := OptionJson(d.selfMobilizingPopulation, EncodeGeneralStatistical),
      "population_affluence" := OptionJson(d.populationAffluence, EncodePopulationAffluence)])
  }

  function EncodeIncomeStatistical(i: IncomeStatistical): Json {
    JObj(map["avg" := OptionJson(i.avg, EncodeGeneralStatistical), "median" := OptionJson(i.median, EncodeGeneralStatistical)])
  }

  function EncodeIncome(i: Income): Json {
    JObj(map[
      "household" := OptionJson(i.household, EncodeIncomeStatistical),
      "individual" := OptionJson(i.individual, EncodeIncomeStatistical)])
  }

  function EncodeHouseholdComposition(h: HouseholdComposition): Json {
    JObj(map[
      "household_count" := OptionJson(h.householdCount, EncodeGeneralStatistical),
      "households_with_family_count" := OptionJson(h.householdsWithFamilyCount, EncodeGeneralStatistical),
      "avg_persons_per_household" := OptionJson(h.avgPersonsPerHousehold, EncodeGeneralStatistical)])
  }

  function EncodeSocioDemographicResponse(s: SocioDemographicResponse): Json {
    JObj(map[
      "demographics" := OptionJson(s.demographics, EncodeDemographics),
      "income" := OptionJson(s.income, EncodeIncome),
      "household_composition" := OptionJson(s.householdComposition, EncodeHouseholdComposition)])
  }

  /** Every statistic, each of its three numbers present or absent, survives serialisation. */
  lemma GeneralStatisticalRoundTrip(g: GeneralStatistical)
    ensures DecodeGeneralStatistical(EncodeGeneralStatistical(g)) == Ok(g)
  {
    var m := EncodeGeneralStatistical(g).fields;
    OptionalOk(m, "value", RealJson, AsFloat, g.value);
    OptionalOk(m, "city", RealJson, AsFloat, g.city);
    OptionalOk(m, "share", RealJson, AsFloat, g.share);
  }

  /** An optional statistic under `key` decodes back to itself, present or absent. */
  lemma StatisticFieldRoundTrip(m: map<string, Json>, key: string, o: Option<GeneralStatistical>)
    requires key in m && m[key] == OptionJson(o, EncodeGeneralStatistical)
    ensures Optional(m, key, DecodeGeneralStatistical) == Ok(o)
  {
    if o.Some? {
      GeneralStatisticalRoundTrip(o.value);
    }
    OptionalOk(m, key, EncodeGeneralStatistical, DecodeGeneralStatistical, o);
  }

  lemma PopulationAffluenceRoundTrip(p: PopulationAffluence)
    ensures DecodePopulationAffluence(EncodePopulationAffluence(p)) == Ok(p)
  {
    var m := EncodePopulationAffluence(p).fields;
    StatisticFieldRoundTrip(m, "low_median_household_income", p.lowMedianHouseholdIncome);
    StatisticFieldRoundTrip(m, "medium_median_household_income", p.mediumMedianHouseholdIncome);
    StatisticFieldRoundTrip(m, "high_median_household_income", p.highMedianHouseholdIncome);
  }

  lemma DemographicsRoundTrip(d: Demographics)
    ensures DecodeDemographics(EncodeDemographics(d)) == Ok(d)
  {
    var m := EncodeDemographics(d).fields;
    StatisticFieldRoundTrip(m, "total_population", d.totalPopulation);
    StatisticFieldRoundTrip(m, "youth_population", d.youthPopulation);
    StatisticFieldRoundTrip(m, "middle_aged_population", d.middleAgedPopulation);
    StatisticFieldRoundTrip(m, "senior_population", d.seniorPopulation);
    StatisticFieldRoundTrip(m, "self_mobilizing_population", d.selfMobilizingPopulation);
    if d.populationAffluence.Some? {
      PopulationAffluenceRoundTrip(d.populationAffluence.value);
    }
    OptionalOk(m, "population_affluence", EncodePopulationAffluence, DecodePopulationAffluence, d.populationAffluence);
  }

  lemma IncomeStatisticalRoundTrip(i: IncomeStatistical)
    ensures DecodeIncomeStatistical(EncodeIncomeStatistical(i)) == Ok(i)
  {
    var m := EncodeIncomeStatistical(i).fields;
    StatisticFieldRoundTrip(m, "avg", i.avg);
    StatisticFieldRoundTrip(m, "median", i.median);
  }

  lemma IncomeRoundTrip(i: Income)
    ensures DecodeIncome(EncodeIncome(i)) == Ok(i)
  {
    var m := EncodeIncome(i).fields;
    if i.household.Some? {
      IncomeStatisticalRoundTrip(i.household.value);
    }
    if i.individual.Some? {
      IncomeStatisticalRoundTrip(i.individual.value);
    }
    OptionalOk(m, "household", EncodeIncomeStatistical, DecodeIncomeStatistical, i.household);
    OptionalOk(m, "individual", EncodeIncomeStatistical, DecodeIncomeStatistical, i.individual);
  }

  lemma HouseholdCompositionRoundTrip(h: HouseholdComposition)
    ensures DecodeHouseholdComposition(EncodeHouseholdComposition(h)) == Ok(h)
  {
    var m := EncodeHouseholdComposition(h).fields;
    StatisticFieldRoundTrip(m, "household_count", h.householdCount);
    StatisticFieldRoundTrip(m, "households_with_family_count", h.householdsWithFamilyCount);
    StatisticFieldRoundTrip(m, "avg_persons_per_household", h.avgPersonsPerHousehold);
  }

  /** The parts of a socio-demographic record decode back to themselves, each present, null or omitted. */
  lemma SocioDemographicPartsRoundTrip(m: map<string, Json>, s: SocioDemographicResponse)
    requires Carries(m, "demographics", s.demographics, EncodeDemographics)
    requires Carries(m, "income", s.income, EncodeIncome)
    requires Carries(m, "household_composition", s.householdComposition, EncodeHouseholdComposition)
    ensures DecodeSocioDemographicResponse(JObj(m)) == Ok(s)
  {
    if s.demographics.Some? {
      DemographicsRoundTrip(s.demographics.value);
    }
    if s.income.Some? {
      IncomeRoundTrip(s.income.value);
    }
    if s.householdComposition.Some? {
      HouseholdCompositionRoundTrip(s.householdComposition.value);
    }
    OptionalOk(m, "demographics", EncodeDemographics, DecodeDemographics, s.demographics);
    OptionalOk(m, "income", EncodeIncome, DecodeIncome, s.income);
    OptionalOk(m, "household_composition", EncodeHouseholdComposition, DecodeHouseholdComposition, s.householdComposition);
  }

  /** Every socio-demographic record, at every level any mix of present and absent parts, survives serialisation. */
  lemma SocioDemographicResponseRoundTrip(s: SocioDemographicResponse)
    ensures DecodeSocioDemographicResponse(EncodeSocioDemographicResponse(s)) == Ok(s)
  {
    SocioDemographicPartsRoundTrip(EncodeSocioDemographicResponse(s).fields, s);
  }

  /**
   * Every part of the socio-demographic record is optional: a body that gives only
   * some of the three parts, omitting the others, decodes with exactly those parts
   * present (the empty body gives the all-absent record).
   */
  lemma SocioDemographicResponseAllOptional(s: SocioDemographicResponse)
    ensures DecodeSocioDemographicResponse(JObj(
              Entry("demographics", s.demographics, EncodeDemographics)
              + Entry("income", s.income, EncodeIncome)
              + Entry("household_composition", s.householdComposition, EncodeHouseholdComposition)))
         == Ok(s)
  {
    var m := Entry("demographics", s.demographics, EncodeDemographics)
      + Entry("income", s.income, EncodeIncome)
      + Entry("household_composition", s.householdComposition, EncodeHouseholdComposition);
    SocioDemographicPartsRoundTrip(m, s);
  }

  // ---------------------------------------------------------------------------
  // Sales territory request

  const TimeMinutesOutOfRange: string := "time_minutes parameter not in range 1-60"
  const DistanceMetersOutOfRange: string := "distance_meters parameter not in range 1-10,000"
  const ModeOfMobilityInvalid: string := "mode_of_mobility parameter invalid. Must be one of driving, walking"

  /** latitude, longitude and city are required; the other three are optional and absent by default. */
  datatype SalesTerritoryRequest = SalesTerritoryRequest(
    latitude: real,
    longitude: real,
    city: string,
    modeOfMobility: Option<string>,
    timeMinutes: Option<int>,
    distanceMeters: Option<int>)

  /** The class's `time_minutes_valid`. */
  predicate TimeMinutesValid(minutes: int) {
    1 <= minutes <= 60
  }

  /** The class's `distance_meters_valid`. */
  predicate DistanceMetersValid(meters: int) {
    1 <= meters <= 10000
  }

  /** The class's `mode_of_mobility_valid`. */
  predicate ModeOfMobilityValid(mode: string) {
    mode in ["driving", "walking"]
  }

  /** `time_minutes_validation`: guarded by truthiness, so None and 0 pass unchecked. */
  function ValidateTimeMinutes(minutes: Option<int>): (r: Checked<Option<int>>)
    ensures r.Ok? <==> minutes.None? || minutes.value == 0 || 1 <= minutes.value <= 60
    ensures r.Ok? ==> r.value == minutes
    ensures r.Err? ==> r.error == [FieldError([Key("time_minutes")], Rejected(TimeMinutesOutOfRange))]
  {
    if IntTruthy(minutes) && !TimeMinutesValid(minutes.value) then Reject("time_minutes", TimeMinutesOutOfRange)
    else Ok(minutes)
  }

  /** `distance_meters_validation`: guarded by truthiness, so None and 0 pass unchecked. */
  function ValidateDistanceMeters(meters: Option<int>): (r: Checked<Option<int>>)
    ensures r.Ok? <==> meters.None? || meters.value == 0 || 1 <= meters.value <= 10000
    ensures r.Ok? ==> r.value == meters
    ensures r.Err? ==> r.error == [FieldError([Key("distance_meters")], Rejected(DistanceMetersOutOfRange))]
  {
    if IntTruthy(meters) && !DistanceMetersValid(meters.value) then Reject("distance_meters", DistanceMetersOutOfRange)
    else Ok(meters)
  }

  /** `mode_of_mobility_validation`: guarded by truthiness, so None and "" pass unchecked. */
  function ValidateModeOfMobility(mode: Option<string>): (r: Checked<Option<string>>)
    ensures r.Ok? <==> mode.None? || mode.value == "" || mode.value == "driving" || mode.value == "walking"
    ensures r.Ok? ==> r.value == mode
    ensures r.Err? ==> r.error == [FieldError([Key("mode_of_mobility")], Rejected(ModeOfMobilityInvalid))]
  {
    if StrTruthy(mode) && !ModeOfMobilityValid(mode.value) then Reject("mode_of_mobility", ModeOfMobilityInvalid)
    else Ok(mode)
  }

  /** Builds the record when every field passed, otherwise reports the errors of all fields in declaration order. */
  function AssembleSalesTerritoryRequest(
    latitude: Checked<real>, longitude: Checked<real>, city: Checked<string>,
    mode: Checked<Option<string>>, minutes: Checked<Option<int>>, meters: Checked<Option<int>>
  ): Checked<SalesTerritoryRequest>
  {
    if latitude.Ok? && longitude.Ok? && city.Ok? && mode.Ok? && minutes.Ok? && meters.Ok?
    then Ok(SalesTerritoryRequest(latitude.value, longitude.value, city.value, mode.value, minutes.value, meters.value))
    else Err(Errors(latitude) + Errors(longitude) + Errors(city) + Errors(mode) + Errors(minutes) + Errors(meters))
  }

  /**
   * Constructing a SalesTerritoryRequest from arguments: accepted exactly when the
   * point is valid and each present, truthy isochrone field is in range; accepted
   * values are kept unchanged; each failing field is reported.
   */
  function ValidateSalesTerritoryRequest(
    latitude: real, longitude: real, city: string,
    mode: Option<string>, minutes: Option<int>, meters: Option<int>
  ): (r: Checked<SalesTerritoryRequest>)
    ensures r.Ok? <==>
      && CoordinateValid(latitude, longitude)
      && (!StrTruthy(mode) || mode.value in {"driving", "walking"})
      && (!IntTruthy(minutes) || 1 <= minutes.value <= 60)
      && (!IntTruthy(meters) || 1 <= meters.value <= 10000)
    ensures r.Ok? ==> r.value == SalesTerritoryRequest(latitude, longitude, city, mode, minutes, meters)
  {
    AssembleSalesTerritoryRequest(
      ValidateLatitude(latitude), ValidateLongitude(longitude), Ok(city),
      ValidateModeOfMobility(mode), ValidateTimeMinutes(minutes), ValidateDistanceMeters(meters))
  }

  /** A rejected request reports each failing field, and only those. */
  lemma SalesTerritoryRequestReportsEachField(
    latitude: real, longitude: real, city: string,
    mode: Option<string>, minutes: Option<int>, meters: Option<int>)
    ensures var r := ValidateSalesTerritoryRequest(latitude, longitude, city, mode, minutes, meters);
      r.Err? ==>
      && (FieldError([Key("latitude")], Rejected(InvalidCoordinateInputs)) in r.error
          <==> !(-90.0 <= latitude <= 90.0))
      && (FieldError([Key("longitude")], Rejected(InvalidCoordinateInputs)) in r.error
          <==> !(-180.0 <= longitude <= 180.0))
      && (FieldError([Key("time_minutes")], Rejected(TimeMinutesOutOfRange)) in r.error
          <==> IntTruthy(minutes) && !(1 <= minutes.value <= 60))
      && (FieldError([Key("distance_meters")], Rejected(DistanceMetersOutOfRange)) in r.error
          <==> IntTruthy(meters) && !(1 <= meters.value <= 10000))
      && (FieldError([Key("mode_of_mobility")], Rejected(ModeOfMobilityInvalid)) in r.error
          <==> StrTruthy(mode) && mode.value !in {"driving", "walking"})
  {
    var la, lo, mo, mi, me := ValidateLatitude(latitude), ValidateLongitude(longitude),
      ValidateModeOfMobility(mode), ValidateTimeMinutes(minutes), ValidateDistanceMeters(meters);
    var r := ValidateSalesTerritoryRequest(latitude, longitude, city, mode, minutes, meters);
    if r.Err? {
      assert r.error == Errors(la) + Errors(lo) + Errors(Ok(city)) + Errors(mo) + Errors(mi) + Errors(me);
      SingleError(la, FieldError([Key("latitude")], Rejected(InvalidCoordinateInputs)));
      SingleError(lo, FieldError([Key("longitude")], Rejected(InvalidCoordinateInputs)));
      SingleError(mo, FieldError([Key("mode_of_mobility")], Rejected(ModeOfMobilityInvalid)));
      SingleError(mi, FieldError([Key("time_minutes")], Rejected(TimeMinutesOutOfRange)));
      SingleError(me, FieldError([Key("distance_meters")], Rejected(DistanceMetersOutOfRange)));
    }
  }

  /** A one-field validator's errors: exactly its own error when it rejects, nothing otherwise. */
  lemma SingleError<T>(r: Checked<T>, e: FieldError)
    requires r.Err? ==> r.error == [e]
    ensures forall x :: x in Errors(r) <==> r.Err? && x == e
  {
  }

  /** Decoding a SalesTerritoryRequest from JSON (the `request` of an envelope): shapes, then the same validators. */
  function DecodeSalesTerritoryRequest(j: Json): (r: Checked<SalesTerritoryRequest>)
    ensures RequiresKeys(j, {"latitude", "longitude", "city"}, r)
    ensures r.Ok? ==> ValidateSalesTerritoryRequest(r.value.latitude, r.value.longitude, r.value.city,
                        r.value.modeOfMobility, r.value.timeMinutes, r.value.distanceMeters) == r
  {
    if !j.JObj? then TypeMismatch("dict")
    else
      var m := j.fields;
      AssembleSalesTerritoryRequest(
        Then(Required(m, "latitude", AsFloat), ValidateLatitude),
        Then(Required(m, "longitude", AsFloat), ValidateLongitude),
        Required(m, "city", AsStr),
        Then(Optional(m, "mode_of_mobility", AsStr), ValidateModeOfMobility),
        Then(Optional(m, "time_minutes", AsInt), ValidateTimeMinutes),
        Then(Optional(m, "distance_meters", AsInt), ValidateDistanceMeters))
  }

  function EncodeSalesTerritoryRequest(q: SalesTerritoryRequest): Json {
    JObj(map[
      "latitude" := JReal(q.latitude),
      "longitude" := JReal(q.longitude),
      "city" := JStr(q.city),
      "mode_of_mobility" := OptionJson(q.modeOfMobility, StrJson),
      "time_minutes" := OptionJson(q.timeMinutes, IntJson),
      "distance_meters" := OptionJson(q.distanceMeters, IntJson)])
  }

  /** Decoding a serialised request applies exactly the validation its construction applies. */
  lemma SalesTerritoryRequestRoundTrip(q: SalesTerritoryRequest)
    ensures DecodeSalesTerritoryRequest(EncodeSalesTerritoryRequest(q))
         == ValidateSalesTerritoryRequest(q.latitude, q.longitude, q.city, q.modeOfMobility, q.timeMinutes, q.distanceMeters)
  {
    var m := EncodeSalesTerritoryRequest(q).fields;
    RequiredOk(m, "latitude", AsFloat, q.latitude);
    RequiredOk(m, "longitude", AsFloat, q.longitude);
    RequiredOk(m, "city", AsStr, q.city);
    OptionalOk(m, "mode_of_mobility", StrJson, AsStr, q.modeOfMobility);
    OptionalOk(m, "time_minutes", IntJson, AsInt, q.timeMinutes);
    OptionalOk(m, "distance_meters", IntJson, AsInt, q.distanceMeters);
  }

  /** latitude, longitude and city are required; the three isochrone fields default to absent. */
  lemma SalesTerritoryRequestDefaults(latitude: real, longitude: real, city: string)
    requires CoordinateValid(latitude, longitude)
    ensures DecodeSalesTerritoryRequest(JObj(map["latitude" := JReal(latitude), "longitude" := JReal(longitude), "city" := JStr(city)]))
         == Ok(SalesTerritoryRequest(latitude, longitude, city, None, None, None))
    ensures FieldError([Key("city")], Missing)
         in DecodeSalesTerritoryRequest(JObj(map["latitude" := JReal(latitude), "longitude" := JReal(longitude)])).error
    ensures FieldError([Key("latitude")], Missing)
         in DecodeSalesTerritoryRequest(JObj(map["longitude" := JReal(longitude), "city" := JStr(city)])).error
    ensures FieldError([Key("longitude")], Missing)
         in DecodeSalesTerritoryRequest(JObj(map["latitude" := JReal(latitude), "city" := JStr(city)])).error
  {
  }

  // ---------------------------------------------------------------------------
  // Sales territory and area responses

  datatype SalesTerritoryResponse = SalesTerritoryResponse(
    sociodemographic: Option<SocioDemographicResponse>,
    areasCovered: Option<seq<string>>,
    geometry: Option<GeojsonSpec>)

  /** AreaResponse adds nothing to SalesTerritoryResponse. */
  type AreaResponse = SalesTerritoryResponse

  datatype SalesTerritoryEndpointResponse = SalesTerritoryEndpointResponse(
    request: Option<SalesTerritoryRequest>,
    response: Option<SalesTerritoryResponse>)

  /** The three parts are optional; each present one is decoded by its own schema. */
  function DecodeSalesTerritoryResponse(j: Json): (r: Checked<SalesTerritoryResponse>)
    ensures r.Ok? <==>
      && j.JObj?
      && OptionalDecodes(j.fields, "sociodemographic", DecodeSocioDemographicResponse)
      && OptionalDecodes(j.fields, "areas_covered", AsStrList)
      && OptionalDecodes(j.fields, "geometry", DecodeGeojsonSpec)
    ensures r.Ok? ==>
      && OptionalHolds(j.fields, "sociodemographic", DecodeSocioDemographicResponse, r.value.sociodemographic)
      && OptionalHolds(j.fields, "areas_covered", AsStrList, r.value.areasCovered)
      && OptionalHolds(j.fields, "geometry", DecodeGeojsonSpec, r.value.geometry)
    ensures j.JObj? && (forall key :: key in j.fields ==> j.fields[key] == JNull) ==> r == Ok(SalesTerritoryResponse(None, None, None))
  {
    if !j.JObj? then TypeMismatch("dict")
    else
      var s := Optional(j.fields, "sociodemographic", DecodeSocioDemographicResponse);
      var a := Optional(j.fields, "areas_covered", AsStrList);
      var g := Optional(j.fields, "geometry", DecodeGeojsonSpec);
      if s.Ok? && a.Ok? && g.Ok? then Ok(SalesTerritoryResponse(s.value, a.value, g.value))
      else Err(Errors(s) + Errors(a) + Errors(g))
  }

  function EncodeSalesTerritoryResponse(t: SalesTerritoryResponse): Json {
    JObj(map[
      "sociodemographic" := OptionJson(t.sociodemographic, EncodeSocioDemographicResponse),
      "areas_covered" := OptionJson(t.areasCovered, StrListJson),
      "geometry" := OptionJson(t.geometry, EncodeGeojsonSpec)])
  }

  /** Every sales-territory (and area) response, each part present or absent, survives serialisation. */
  lemma SalesTerritoryResponseRoundTrip(t: SalesTerritoryResponse)
    ensures DecodeSalesTerritoryResponse(EncodeSalesTerritoryResponse(t)) == Ok(t)
  {
    var m := EncodeSalesTerritoryResponse(t).fields;
    if t.sociodemographic.Some? {
      SocioDemographicResponseRoundTrip(t.sociodemographic.value);
    }
    if t.areasCovered.Some? {
      StrListRoundTrip(t.areasCovered.value);
    }
    if t.geometry.Some? {
      GeojsonSpecRoundTrip(t.geometry.value);
    }
    OptionalOk(m, "sociodemographic", EncodeSocioDemographicResponse, DecodeSocioDemographicResponse, t.sociodemographic);
    OptionalOk(m, "areas_covered", StrListJson, AsStrList, t.areasCovered);
    OptionalOk(m, "geometry", EncodeGeojsonSpec, DecodeGeojsonSpec, t.geometry);
  }

  /** Both parts are optional; a request that is present is validated again. */
  function DecodeSalesTerritoryEndpointResponse(j: Json): (r: Checked<SalesTerritoryEndpointResponse>)
    ensures r.Ok? <==>
      && j.JObj?
      && OptionalDecodes(j.fields, "request", DecodeSalesTerritoryRequest)
      && OptionalDecodes(j.fields, "response", DecodeSalesTerritoryResponse)
    ensures r.Ok? ==>
      && OptionalHolds(j.fields, "request", DecodeSalesTerritoryRequest, r.value.request)
      && OptionalHolds(j.fields, "response", DecodeSalesTerritoryResponse, r.value.response)
    ensures j.JObj? && (forall key :: key in j.fields ==> j.fields[key] == JNull) ==> r == Ok(SalesTerritoryEndpointResponse(None, None))
    ensures r.Ok? && r.value.request.Some? ==>
      var q := r.value.request.value;
      ValidateSalesTerritoryRequest(q.latitude, q.longitude, q.city, q.modeOfMobility, q.timeMinutes, q.distanceMeters).Ok?
  {
    if !j.JObj? then TypeMismatch("dict")
    else
      var q := Optional(j.fields, "request", DecodeSalesTerritoryRequest);
      var s := Optional(j.fields, "response", DecodeSalesTerritoryResponse);
      if q.Ok? && s.Ok? then Ok(SalesTerritoryEndpointResponse(q.value, s.value))
      else Err(Errors(q) + Errors(s))
  }

  /**
   * Both parts of the sales-territory envelope are optional, and a request that is
   * present is validated again: it decodes exactly when its construction would succeed.
   */
  lemma SalesTerritoryEnvelopeRevalidates(q: SalesTerritoryRequest)
    ensures DecodeSalesTerritoryEndpointResponse(JObj(map[])) == Ok(SalesTerritoryEndpointResponse(None, None))
    ensures DecodeSalesTerritoryEndpointResponse(JObj(map["request" := EncodeSalesTerritoryRequest(q)])).Ok?
        <==> ValidateSalesTerritoryRequest(q.latitude, q.longitude, q.city, q.modeOfMobility, q.timeMinutes, q.distanceMeters).Ok?
  {
    SalesTerritoryRequestRoundTrip(q);
  }

  function EncodeSalesTerritoryEndpointResponse(e: SalesTerritoryEndpointResponse): Json {
    JObj(map[
      "request" := OptionJson(e.request, EncodeSalesTerritoryRequest),
      "response" := OptionJson(e.response, EncodeSalesTerritoryResponse)])
  }

  /** An envelope whose echoed request (when present) is valid decodes back to itself. */
  lemma SalesTerritoryEndpointRoundTrip(e: SalesTerritoryEndpointResponse)
    requires e.request.Some? ==>
      var q := e.request.value;
      ValidateSalesTerritoryRequest(q.latitude, q.longitude, q.city, q.modeOfMobility, q.timeMinutes, q.distanceMeters).Ok?
    ensures DecodeSalesTerritoryEndpointResponse(EncodeSalesTerritoryEndpointResponse(e)) == Ok(e)
  {
    var m := EncodeSalesTerritoryEndpointResponse(e).fields;
    if e.request.Some? {
      SalesTerritoryRequestRoundTrip(e.request.value);
    }
    if e.response.Some? {
      SalesTerritoryResponseRoundTrip(e.response.value);
    }
    OptionalOk(m, "request", EncodeSalesTerritoryRequest, DecodeSalesTerritoryRequest, e.request);
    OptionalOk(m, "response", EncodeSalesTerritoryResponse, DecodeSalesTerritoryResponse, e.response);
  }
}
