/**
 * The competition schemas: price bins, operating hours, the nearby-competition
 * request and response, the insights request with its price-range validator, and
 * the category, brand and area insights envelopes.
 */
module Competition {
  import opened Wrappers
  import opened Json
  import opened Truthiness
  import opened Coordinates

  // ---------------------------------------------------------------------------
  // Price bins and operating hours

  /** Four independent buckets, each optional: an absent bucket means "no data", not zero. */
  datatype PriceBins = PriceBins(price1: Option<int>, price2: Option<int>, price3: Option<int>, price4: Option<int>)

  function DecodePriceBins(j: Json): (r: Checked<PriceBins>)
    ensures r.Ok? ==> j.JObj?
    ensures j.JObj? && (forall key :: key in j.fields ==> j.fields[key] == JNull) ==> r == Ok(PriceBins(None, None, None, None))
  {
    if !j.JObj? then TypeMismatch("dict")
    else
      var a := Optional(j.fields, "price_1", AsInt);
      var b := Optional(j.fields, "price_2", AsInt);
      var c := Optional(j.fields, "price_3", AsInt);
      var d := Optional(j.fields, "price_4", AsInt);
      if a.Ok? && b.Ok? && c.Ok? && d.Ok? then Ok(PriceBins(a.value, b.value, c.value, d.value))
      else Err(Errors(a) + Errors(b) + Errors(c) + Errors(d))
  }

  function EncodePriceBins(p: PriceBins): Json {
    JObj(map[
      "price_1" := OptionJson(p.price1, IntJson),
      "price_2" := OptionJson(p.price2, IntJson),
      "price_3" := OptionJson(p.price3, IntJson),
      "price_4" := OptionJson(p.price4, IntJson)])
  }

  /** Every combination of present and absent buckets survives serialisation. */
  lemma PriceBinsRoundTrip(p: PriceBins)
    ensures DecodePriceBins(EncodePriceBins(p)) == Ok(p)
  {
  }

  /**
   * Each bucket is independent: whatever else the body holds, a bucket that is
   * absent or null decodes to None and a bucket given as an integer to that integer,
   * and a body whose buckets are all integers or null always decodes.
   */
  lemma PriceBinsAbsentByDefault(m: map<string, Json>)
    ensures var r := DecodePriceBins(JObj(m));
      r.Ok? ==>
      && (("price_1" !in m || m["price_1"] == JNull) ==> r.value.price1 == None)
      && (("price_2" !in m || m["price_2"] == JNull) ==> r.value.price2 == None)
      && (("price_3" !in m || m["price_3"] == JNull) ==> r.value.price3 == None)
      && (("price_4" !in m || m["price_4"] == JNull) ==> r.value.price4 == None)
      && ("price_1" in m && m["price_1"].JInt? ==> r.value.price1 == Some(m["price_1"].i))
      && ("price_2" in m && m["price_2"].JInt? ==> r.value.price2 == Some(m["price_2"].i))
      && ("price_3" in m && m["price_3"].JInt? ==> r.value.price3 == Some(m["price_3"].i))
      && ("price_4" in m && m["price_4"].JInt? ==> r.value.price4 == Some(m["price_4"].i))
    ensures (forall k :: k in PriceBinKeys && k in m ==> m[k].JInt? || m[k] == JNull) ==> DecodePriceBins(JObj(m)).Ok?
  {
  }

  const PriceBinKeys: set<string> := {"price_1", "price_2", "price_3", "price_4"}

  /** Seven weekday lists with no constraint on their length or their values. */
  datatype OperatingHours = OperatingHours(
    sunday: seq<int>, monday: seq<int>, tuesday: seq<int>, wednesday: seq<int>,
    thursday: seq<int>, friday: seq<int>, saturday: seq<int>)

  const Weekdays: set<string> := {"sunday", "monday", "tuesday", "wednesday", "thursday", "friday", "saturday"}

  /** Every weekday is required: a missing one is reported as missing. */
  function DecodeOperatingHours(j: Json): (r: Checked<OperatingHours>)
    ensures RequiresKeys(j, Weekdays, r)
  {
    if !j.JObj? then TypeMismatch("dict")
    else
      var m := j.fields;
      var su := Required(m, "sunday", AsIntList);
      var mo := Required(m, "monday", AsIntList);
      var tu := Required(m, "tuesday", AsIntList);
      var we := Required(m, "wednesday", AsIntList);
      var th := Required(m, "thursday", AsIntList);
      var fr := Required(m, "friday", AsIntList);
      var sa := Required(m, "saturday", AsIntList);
      if su.Ok? && mo.Ok? && tu.Ok? && we.Ok? && th.Ok? && fr.Ok? && sa.Ok?
      then Ok(OperatingHours(su.value, mo.value, tu.value, we.value, th.value, fr.value, sa.value))
      else Err(Errors(su) + Errors(mo) + Errors(tu) + Errors(we) + Errors(th) + Errors(fr) + Errors(sa))
  }

  function EncodeOperatingHours(h: OperatingHours): Json {
    JObj(map[
      "sunday" := IntListJson(h.sunday),
      "monday" := IntListJson(h.monday),
      "tuesday" := IntListJson(h.tuesday),
      "wednesday" := IntListJson(h.wednesday),
      "thursday" := IntListJson(h.thursday),
      "friday" := IntListJson(h.friday),
      "saturday" := IntListJson(h.saturday)])
  }

  /** Operating hours survive serialisation, whatever the lengths and values of the lists. */
  lemma OperatingHoursRoundTrip(h: OperatingHours)
    ensures DecodeOperatingHours(EncodeOperatingHours(h)) == Ok(h)
  {
    IntListRoundTrip(h.sunday);
    IntListRoundTrip(h.monday);
    IntListRoundTrip(h.tuesday);
    IntListRoundTrip(h.wednesday);
    IntListRoundTrip(h.thursday);
    IntListRoundTrip(h.friday);
    IntListRoundTrip(h.saturday);
  }

  // ---------------------------------------------------------------------------
  // Nearby competition request

  const RadiusMetersOutOfRange: string := "Radius Meters not in range of 1 mile"

  /** The class's `radius_meters_valid`. */
  predicate RadiusMetersValid(radius: int) {
    1 <= radius <= 10000
  }

  /** `radius_meters_validation`: NOT guarded by truthiness, so 0 is rejected. */
  function ValidateRadiusMeters(radius: int): (r: Checked<int>)
    ensures r.Ok? <==> 1 <= radius <= 10000
    ensures r.Ok? ==> r.value == radius
    ensures r.Err? ==> r.error == [FieldError([Key("radius_meters")], Rejected(RadiusMetersOutOfRange))]
  {
    if !RadiusMetersValid(radius) then Reject("radius_meters", RadiusMetersOutOfRange) else Ok(radius)
  }

  /** `brands` and `categories` are optional and absent by default. */
  datatype CompetitionRequest = CompetitionRequest(
    latitude: real,
    longitude: real,
    city: string,
    commercialType: string,
    radiusMeters: int,
    brands: Option<seq<string>>,
    categories: Option<seq<string>>)

  function AssembleCompetitionRequest(
    latitude: Checked<real>, longitude: Checked<real>, city: Checked<string>, commercialType: Checked<string>,
    radius: Checked<int>, brands: Checked<Option<seq<string>>>, categories: Checked<Option<seq<string>>>
  ): Checked<CompetitionRequest>
  {
    if latitude.Ok? && longitude.Ok? && city.Ok? && commercialType.Ok? && radius.Ok? && brands.Ok? && categories.Ok?
    then Ok(CompetitionRequest(latitude.value, longitude.value, city.value, commercialType.value,
                               radius.value, brands.value, categories.value))
    else Err(Errors(latitude) + Errors(longitude) + Errors(city) + Errors(commercialType)
             + Errors(radius) + Errors(brands) + Errors(categories))
  }

  /**
   * Constructing a CompetitionRequest from arguments: accepted exactly when the
   * point is in range and 1 <= radius <= 10000; accepted values are kept unchanged.
   */
  function ValidateCompetitionRequest(
    latitude: real, longitude: real, city: string, commercialType: string,
    radius: int, brands: Option<seq<string>>, categories: Option<seq<string>>
  ): (r: Checked<CompetitionRequest>)
    ensures r.Ok? <==> -90.0 <= latitude <= 90.0 && -180.0 <= longitude <= 180.0 && 1 <= radius <= 10000
    ensures r.Ok? ==> r.value == CompetitionRequest(latitude, longitude, city, commercialType, radius, brands, categories)
    ensures !(1 <= radius <= 10000) ==>
      r.Err? && FieldError([Key("radius_meters")], Rejected(RadiusMetersOutOfRange)) in r.error
  {
    AssembleCompetitionRequest(
      ValidateLatitude(latitude), ValidateLongitude(longitude), Ok(city), Ok(commercialType),
      ValidateRadiusMeters(radius), Ok(brands), Ok(categories))
  }

  lemma RadiusBoundaries()
    ensures ValidateRadiusMeters(1).Ok? && ValidateRadiusMeters(10000).Ok?
    ensures ValidateRadiusMeters(0).Err? && ValidateRadiusMeters(10001).Err?
  {
  }

  /** Decoding the `request` of an envelope: the required keys, then the same validators as construction. */
  function DecodeCompetitionRequest(j: Json): (r: Checked<CompetitionRequest>)
    ensures RequiresKeys(j, {"latitude", "longitude", "city", "commercial_type", "radius_meters"}, r)
    ensures r.Ok? ==> ValidateCompetitionRequest(r.value.latitude, r.value.longitude, r.value.city, r.value.commercialType,
                        r.value.radiusMeters, r.value.brands, r.value.categories) == r
  {
    if !j.JObj? then TypeMismatch("dict")
    else
      var m := j.fields;
      AssembleCompetitionRequest(
        Then(Required(m, "latitude", AsFloat), ValidateLatitude),
        Then(Required(m, "longitude", AsFloat), ValidateLongitude),
        Required(m, "city", AsStr),
        Required(m, "commercial_type", AsStr),
        Then(Required(m, "radius_meters", AsInt), ValidateRadiusMeters),
        Optional(m, "brands", AsStrList),
        Optional(m, "categories", AsStrList))
  }

  /** `brands` and `categories` may be omitted: a request without them decodes with both absent. */
  lemma CompetitionRequestFiltersOptional(latitude: real, longitude: real, city: string, commercialType: string, radius: int)
    requires -90.0 <= latitude <= 90.0 && -180.0 <= longitude <= 180.0 && 1 <= radius <= 10000
    ensures DecodeCompetitionRequest(JObj(map[
              "latitude" := JReal(latitude), "longitude" := JReal(longitude), "city" := JStr(city),
              "commercial_type" := JStr(commercialType), "radius_meters" := JInt(radius)]))
         == Ok(CompetitionRequest(latitude, longitude, city, commercialType, radius, None, None))
  {
  }

  // ---------------------------------------------------------------------------
  // Nearby competition response

  datatype CompetitionInsights = CompetitionInsights(
    nearbyOutletCount: Option<int>,
    ratingPercentile: Option<real>,
    priceRangePercentile: Option<real>,
    ordersPercentile: Option<real>,
    priceBins: PriceBins)

  /** A top outlet's coordinates are plain numbers: no range check applies to them. */
  datatype TopOutlet = TopOutlet(
    brandName: string,
    address: string,
    categoryTags: seq<string>,
    rating: real,
    numberOfReviews: Option<int>,
    ratingPercentile: real,
    ordersPercentile: real,
    latitude: real,
    longitude: real)

  datatype CompetitionData = CompetitionData(
    topOccurringCategories: Option<seq<string>>,
    topNearbyOutlets: Option<seq<TopOutlet>>,
    operatingHoursOutletCount: int,
    operatingHours: OperatingHours)

  datatype CompetitionResponse = CompetitionResponse(insights: CompetitionInsights, data: CompetitionData)

  datatype CompetitionEndpointResponse = CompetitionEndpointResponse(request: CompetitionRequest, response: CompetitionResponse)

  /** `price_bins` is required; the four statistics are optional, and each present one is carried. */
  function DecodeCompetitionInsights(j: Json): (r: Checked<CompetitionInsights>)
    ensures RequiresKeys(j, {"price_bins"}, r)
    ensures r.Ok? <==>
      && j.JObj?
      && OptionalDecodes(j.fields, "nearby_outlet_count", AsInt)
      && OptionalDecodes(j.fields, "rating_percentile", AsFloat)
      && OptionalDecodes(j.fields, "price_range_percentile", AsFloat)
      && OptionalDecodes(j.fields, "orders_percentile", AsFloat)
      && RequiredDecodes(j.fields, "price_bins", DecodePriceBins)
    ensures r.Ok? ==>
      && OptionalHolds(j.fields, "nearby_outlet_count", AsInt, r.value.nearbyOutletCount)
      && OptionalHolds(j.fields, "rating_percentile", AsFloat, r.value.ratingPercentile)
      && OptionalHolds(j.fields, "price_range_percentile", AsFloat, r.value.priceRangePercentile)
      && OptionalHolds(j.fields, "orders_percentile", AsFloat, r.value.ordersPercentile)
      && RequiredHolds(j.fields, "price_bins", DecodePriceBins, r.value.priceBins)
  {
    if !j.JObj? then TypeMismatch("dict")
    else
      var n := Optional(j.fields, "nearby_outlet_count", AsInt);
      var r := Optional(j.fields, "rating_percentile", AsFloat);
      var p := Optional(j.fields, "price_range_percentile", AsFloat);
      var o := Optional(j.fields, "orders_percentile", AsFloat);
      var b := Required(j.fields, "price_bins", DecodePriceBins);
      if n.Ok? && r.Ok? && p.Ok? && o.Ok? && b.Ok? then Ok(CompetitionInsights(n.value, r.value, p.value, o.value, b.value))
      else Err(Errors(n) + Errors(r) + Errors(p) + Errors(o) + Errors(b))
  }

  /** Every field but `number_of_reviews` is required; each field is carried as it decodes. */
  function DecodeTopOutlet(j: Json): (r: Checked<TopOutlet>)
    ensures RequiresKeys(j, {"brand_name", "address", "category_tags", "rating", "rating_percentile",
                             "orders_percentile", "latitude", "longitude"}, r)
    ensures r.Ok? ==>
      && RequiredHolds(j.fields, "brand_name", AsStr, r.value.brandName)
      && RequiredHolds(j.fields, "address", AsStr, r.value.address)
      && RequiredHolds(j.fields, "category_tags", AsStrList, r.value.categoryTags)
      && RequiredHolds(j.fields, "rating", AsFloat, r.value.rating)
      && OptionalHolds(j.fields, "number_of_reviews", AsInt, r.value.numberOfReviews)
      && RequiredHolds(j.fields, "rating_percentile", AsFloat, r.value.ratingPercentile)
      && RequiredHolds(j.fields, "orders_percentile", AsFloat, r.value.ordersPercentile)
      && RequiredHolds(j.fields, "latitude", AsFloat, r.value.latitude)
      && RequiredHolds(j.fields, "longitude", AsFloat, r.value.longitude)
  {
    if !j.JObj? then TypeMismatch("dict")
    else
      var m := j.fields;
      var bn := Required(m, "brand_name", AsStr);
      var ad := Required(m, "address", AsStr);
      var ct := Required(m, "category_tags", AsStrList);
      var ra := Required(m, "rating", AsFloat);
      var nr := Optional(m, "number_of_reviews", AsInt);
      var rp := Required(m, "rating_percentile", AsFloat);
      var op := Required(m, "orders_percentile", AsFloat);
      var la := Required(m, "latitude", AsFloat);
      var lo := Required(m, "longitude", AsFloat);
      if bn.Ok? && ad.Ok? && ct.Ok? && ra.Ok? && nr.Ok? && rp.Ok? && op.Ok? && la.Ok? && lo.Ok?
      then Ok(TopOutlet(bn.value, ad.value, ct.value, ra.value, nr.value, rp.value, op.value, la.value, lo.value))
      else Err(Errors(bn) + Errors(ad) + Errors(ct) + Errors(ra) + Errors(nr) + Errors(rp) + Errors(op)
               + Errors(la) + Errors(lo))
  }

  function TopOutletsDecoder(): Decoder<seq<TopOutlet>> {
    (x: Json) => AsList(x, DecodeTopOutlet)
  }

  /** The operating-hours part is required; the two top-N lists are optional; each field is carried as it decodes. */
  function DecodeCompetitionData(j: Json): (r: Checked<CompetitionData>)
    ensures RequiresKeys(j, {"operating_hours_outlet_count", "operating_hours"}, r)
    ensures r.Ok? <==>
      && j.JObj?
      && OptionalDecodes(j.fields, "top_occurring_categories", AsStrList)
      && OptionalDecodes(j.fields, "top_nearby_outlets", TopOutletsDecoder())
      && RequiredDecodes(j.fields, "operating_hours_outlet_count", AsInt)
      && RequiredDecodes(j.fields, "operating_hours", DecodeOperatingHours)
    ensures r.Ok? ==>
      && OptionalHolds(j.fields, "top_occurring_categories", AsStrList, r.value.topOccurringCategories)
      && OptionalHolds(j.fields, "top_nearby_outlets", TopOutletsDecoder(), r.value.topNearbyOutlets)
      && RequiredHolds(j.fields, "operating_hours_outlet_count", AsInt, r.value.operatingHoursOutletCount)
      && RequiredHolds(j.fields, "operating_hours", DecodeOperatingHours, r.value.operatingHours)
  {
    if !j.JObj? then TypeMismatch("dict")
    else
      var c := Optional(j.fields, "top_occurring_categories", AsStrList);
      var t := Optional(j.fields, "top_nearby_outlets", TopOutletsDecoder());
      var n := Required(j.fields, "operating_hours_outlet_count", AsInt);
      var h := Required(j.fields, "operating_hours", DecodeOperatingHours);
      if c.Ok? && t.Ok? && n.Ok? && h.Ok? then Ok(CompetitionData(c.value, t.value, n.value, h.value))
      else Err(Errors(c) + Errors(t) + Errors(n) + Errors(h))
  }

  /** Both parts are required, each decoded by its own schema. */
  function DecodeCompetitionResponse(j: Json): (r: Checked<CompetitionResponse>)
    ensures RequiresKeys(j, {"insights", "data"}, r)
    ensures r.Ok? <==>
      && j.JObj?
      && RequiredDecodes(j.fields, "insights", DecodeCompetitionInsights)
      && RequiredDecodes(j.fields, "data", DecodeCompetitionData)
    ensures r.Ok? ==>
      && RequiredHolds(j.fields, "insights", DecodeCompetitionInsights, r.value.insights)
      && RequiredHolds(j.fields, "data", DecodeCompetitionData, r.value.data)
  {
    if !j.JObj? then TypeMismatch("dict")
    else
      var i := Required(j.fields, "insights", DecodeCompetitionInsights);
      var d := Required(j.fields, "data", DecodeCompetitionData);
      if i.Ok? && d.Ok? then Ok(CompetitionResponse(i.value, d.value)) else Err(Errors(i) + Errors(d))
  }

  /** Both parts of the nearby-competition envelope are required, and its request is validated again. */
  function DecodeCompetitionEndpointResponse(j: Json): (r: Checked<CompetitionEndpointResponse>)
    ensures RequiresKeys(j, {"request", "response"}, r)
    ensures r.Ok? ==>
      && RequiredHolds(j.fields, "request", DecodeCompetitionRequest, r.value.request)
      && RequiredHolds(j.fields, "response", DecodeCompetitionResponse, r.value.response)
    ensures r.Ok? ==> 1 <= r.value.request.radiusMeters <= 10000
    ensures r.Ok? ==> -90.0 <= r.value.request.latitude <= 90.0 && -180.0 <= r.value.request.longitude <= 180.0
  {
    var parts :- RequiredParts(j, DecodeCompetitionRequest, DecodeCompetitionResponse);
    Ok(CompetitionEndpointResponse(parts.0, parts.1))
  }

  function EncodeCompetitionRequest(q: CompetitionRequest): Json {
    JObj(map[
      "latitude" := JReal(q.latitude),
      "longitude" := JReal(q.longitude),
      "city" := JStr(q.city),
      "commercial_type" := JStr(q.commercialType),
      "radius_meters" := JInt(q.radiusMeters),
      "brands" := OptionJson(q.brands, StrListJson),
      "categories" := OptionJson(q.categories, StrListJson)])
  }

  function EncodeCompetitionInsights(i: CompetitionInsights): Json {
    JObj(map[
      "nearby_outlet_count" := OptionJson(i.nearbyOutletCount, IntJson),
      "rating_percentile" := OptionJson(i.ratingPercentile, RealJson),
      "price_range_percentile" := OptionJson(i.priceRangePercentile, RealJson),
      "orders_percentile" := OptionJson(i.ordersPercentile, RealJson),
      "price_bins" := EncodePriceBins(i.priceBins)])
  }

  function EncodeTopOutlet(t: TopOutlet): Json {
    JObj(map[
      "brand_name" := JStr(t.brandName),
      "address" := JStr(t.address),
      "category_tags" := StrListJson(t.categoryTags),
      "rating" := JReal(t.rating),
      "number_of_reviews" := OptionJson(t.numberOfReviews, IntJson),
      "rating_percentile" := JReal(t.ratingPercentile),
      "orders_percentile" := JReal(t.ordersPercentile),
      "latitude" := JReal(t.latitude),
      "longitude" := JReal(t.longitude)])
  }

  function EncodeTopOutlets(ts: seq<TopOutlet>): Json {
    JArr(Encoded(ts, EncodeTopOutlet))
  }

  function EncodeCompetitionData(d: CompetitionData): Json {
    JObj(map[
      "top_occurring_categories" := OptionJson(d.topOccurringCategories, StrListJson),
      "top_nearby_outlets" := OptionJson(d.topNearbyOutlets, EncodeTopOutlets),
      "operating_hours_outlet_count" := JInt(d.operatingHoursOutletCount),
      "operating_hours" := EncodeOperatingHours(d.operatingHours)])
  }

  function EncodeCompetitionResponse(c: CompetitionResponse): Json {
    JObj(map["insights" := EncodeCompetitionInsights(c.insights), "data" := EncodeCompetitionData(c.data)])
  }

  function EncodeCompetitionEndpointResponse(e: CompetitionEndpointResponse): Json {
    JObj(map["request" := EncodeCompetitionRequest(e.request), "response" := EncodeCompetitionResponse(e.response)])
  }

  /** Decoding a serialised request applies exactly the validation its construction applies. */
  lemma CompetitionRequestRoundTrip(q: CompetitionRequest)
    ensures DecodeCompetitionRequest(EncodeCompetitionRequest(q))
         == ValidateCompetitionRequest(q.latitude, q.longitude, q.city, q.commercialType, q.radiusMeters, q.brands, q.categories)
  {
    var m := EncodeCompetitionRequest(q).fields;
    RequiredOk(m, "latitude", AsFloat, q.latitude);
    RequiredOk(m, "longitude", AsFloat, q.longitude);
    RequiredOk(m, "city", AsStr, q.city);
    RequiredOk(m, "commercial_type", AsStr, q.commercialType);
    RequiredOk(m, "radius_meters", AsInt, q.radiusMeters);
    if q.brands.Some? {
      StrListRoundTrip(q.brands.value);
    }
    if q.categories.Some? {
      StrListRoundTrip(q.categories.value);
    }
    OptionalOk(m, "brands", StrListJson, AsStrList, q.brands);
    OptionalOk(m, "categories", StrListJson, AsStrList, q.categories);
  }

  /** The four statistics, each present or absent, and the price bins survive serialisation. */
  lemma CompetitionInsightsRoundTrip(i: CompetitionInsights)
    ensures DecodeCompetitionInsights(EncodeCompetitionInsights(i)) == Ok(i)
  {
    var m := EncodeCompetitionInsights(i).fields;
    OptionalOk(m, "nearby_outlet_count", IntJson, AsInt, i.nearbyOutletCount);
    OptionalOk(m, "rating_percentile", RealJson, AsFloat, i.ratingPercentile);
    OptionalOk(m, "price_range_percentile", RealJson, AsFloat, i.priceRangePercentile);
    OptionalOk(m, "orders_percentile", RealJson, AsFloat, i.ordersPercentile);
    PriceBinsRoundTrip(i.priceBins);
    RequiredOk(m, "price_bins", DecodePriceBins, i.priceBins);
  }

  /** Every outlet survives serialisation, each field in its own place. */
  lemma TopOutletRoundTrip(t: TopOutlet)
    ensures DecodeTopOutlet(EncodeTopOutlet(t)) == Ok(t)
  {
    var m := EncodeTopOutlet(t).fields;
    RequiredOk(m, "brand_name", AsStr, t.brandName);
    RequiredOk(m, "address", AsStr, t.address);
    StrListRoundTrip(t.categoryTags);
    RequiredOk(m, "category_tags", AsStrList, t.categoryTags);
    RequiredOk(m, "rating", AsFloat, t.rating);
    OptionalOk(m, "number_of_reviews", IntJson, AsInt, t.numberOfReviews);
    RequiredOk(m, "rating_percentile", AsFloat, t.ratingPercentile);
    RequiredOk(m, "orders_percentile", AsFloat, t.ordersPercentile);
    RequiredOk(m, "latitude", AsFloat, t.latitude);
    RequiredOk(m, "longitude", AsFloat, t.longitude);
  }

  lemma {:induction false} TopOutletsRoundTrip(ts: seq<TopOutlet>)
    ensures TopOutletsDecoder()(EncodeTopOutlets(ts)) == Ok(ts)
  {
    forall t | t in ts ensures DecodeTopOutlet(EncodeTopOutlet(t)) == Ok(t) {
      TopOutletRoundTrip(t);
    }
    ListRoundTrip(ts, EncodeTopOutlet, DecodeTopOutlet);
  }

  lemma CompetitionDataRoundTrip(d: CompetitionData)
    ensures DecodeCompetitionData(EncodeCompetitionData(d)) == Ok(d)
  {
    var m := EncodeCompetitionData(d).fields;
    if d.topOccurringCategories.Some? {
      StrListRoundTrip(d.topOccurringCategories.value);
    }
    OptionalOk(m, "top_occurring_categories", StrListJson, AsStrList, d.topOccurringCategories);
    if d.topNearbyOutlets.Some? {
      TopOutletsRoundTrip(d.topNearbyOutlets.value);
    }
    OptionalOk(m, "top_nearby_outlets", EncodeTopOutlets, TopOutletsDecoder(), d.topNearbyOutlets);
    RequiredOk(m, "operating_hours_outlet_count", AsInt, d.operatingHoursOutletCount);
    OperatingHoursRoundTrip(d.operatingHours);
    RequiredOk(m, "operating_hours", DecodeOperatingHours, d.operatingHours);
  }

  lemma CompetitionResponseRoundTrip(c: CompetitionResponse)
    ensures DecodeCompetitionResponse(EncodeCompetitionResponse(c)) == Ok(c)
  {
    var m := EncodeCompetitionResponse(c).fields;
    CompetitionInsightsRoundTrip(c.insights);
    RequiredOk(m, "insights", DecodeCompetitionInsights, c.insights);
    CompetitionDataRoundTrip(c.data);
    RequiredOk(m, "data", DecodeCompetitionData, c.data);
  }

  /** A nearby-competition envelope whose request is valid decodes back to itself. */
  lemma CompetitionEndpointRoundTrip(e: CompetitionEndpointResponse)
    requires -90.0 <= e.request.latitude <= 90.0 && -180.0 <= e.request.longitude <= 180.0
    requires 1 <= e.request.radiusMeters <= 10000
    ensures DecodeCompetitionEndpointResponse(EncodeCompetitionEndpointResponse(e)) == Ok(e)
  {
    var m := EncodeCompetitionEndpointResponse(e).fields;
    CompetitionRequestRoundTrip(e.request);
    RequiredOk(m, "request", DecodeCompetitionRequest, e.request);
    CompetitionResponseRoundTrip(e.response);
    RequiredOk(m, "response", DecodeCompetitionResponse, e.response);
  }

  // ---------------------------------------------------------------------------
  // Insights request

  const InvalidPriceRange: string := "Invalid Price Range"

  datatype GenericInsightsRequest = GenericInsightsRequest(
    city: string,
    commercialType: string,
    categories: Option<seq<string>>,
    priceRange: Option<int>)

  /**
   * `price_range_validation`: rejects a truthy value below 1. Because 0 is falsy
   * it passes unchecked, so the values accepted are None and every p >= 0.
   */
  function ValidatePriceRange(priceRange: Option<int>): (r: Checked<Option<int>>)
    ensures r.Ok? <==> priceRange.None? || priceRange.value >= 0
    ensures r.Ok? ==> r.value == priceRange
    ensures r.Err? ==> r.error == [FieldError([Key("price_range")], Rejected(InvalidPriceRange))]
  {
    if IntTruthy(priceRange) && priceRange.value < 1 then Reject("price_range", InvalidPriceRange) else Ok(priceRange)
  }

  function AssembleGenericInsightsRequest(
    city: Checked<string>, commercialType: Checked<string>,
    categories: Checked<Option<seq<string>>>, priceRange: Checked<Option<int>>
  ): Checked<GenericInsightsRequest>
  {
    if city.Ok? && commercialType.Ok? && categories.Ok? && priceRange.Ok?
    then Ok(GenericInsightsRequest(city.value, commercialType.value, categories.value, priceRange.value))
    else Err(Errors(city) + Errors(commercialType) + Errors(categories) + Errors(priceRange))
  }

  /** Constructing a GenericInsightsRequests: accepted exactly when price_range is absent or non-negative. */
  function ValidateGenericInsightsRequest(
    city: string, commercialType: string, categories: Option<seq<string>>, priceRange: Option<int>
  ): (r: Checked<GenericInsightsRequest>)
    ensures r.Ok? <==> priceRange.None? || priceRange.value >= 0
    ensures r.Ok? ==> r.value == GenericInsightsRequest(city, commercialType, categories, priceRange)
    ensures r.Err? ==> r.error == [FieldError([Key("price_range")], Rejected(InvalidPriceRange))]
  {
    AssembleGenericInsightsRequest(Ok(city), Ok(commercialType), Ok(categories), ValidatePriceRange(priceRange))
  }

  /** Decoding the `request` of an insights envelope: city and commercial_type required, then the price-range validator. */
  function DecodeGenericInsightsRequest(j: Json): (r: Checked<GenericInsightsRequest>)
    ensures RequiresKeys(j, {"city", "commercial_type"}, r)
    ensures r.Ok? ==> ValidateGenericInsightsRequest(r.value.city, r.value.commercialType, r.value.categories, r.value.priceRange) == r
  {
    if !j.JObj? then TypeMismatch("dict")
    else
      AssembleGenericInsightsRequest(
        Required(j.fields, "city", AsStr),
        Required(j.fields, "commercial_type", AsStr),
        Optional(j.fields, "categories", AsStrList),
        Then(Optional(j.fields, "price_range", AsInt), ValidatePriceRange))
  }

  function EncodeGenericInsightsRequest(q: GenericInsightsRequest): Json {
    JObj(map[
      "city" := JStr(q.city),
      "commercial_type" := JStr(q.commercialType),
      "categories" := OptionJson(q.categories, StrListJson),
      "price_range" := OptionJson(q.priceRange, IntJson)])
  }

  /** Decoding a serialised insights request applies exactly the validation its construction applies. */
  lemma GenericInsightsRequestRoundTrip(q: GenericInsightsRequest)
    ensures DecodeGenericInsightsRequest(EncodeGenericInsightsRequest(q))
         == ValidateGenericInsightsRequest(q.city, q.commercialType, q.categories, q.priceRange)
  {
    if q.categories.Some? {
      StrListRoundTrip(q.categories.value);
    }
  }

  // ---------------------------------------------------------------------------
  // Category insights

  datatype CategoryStat = CategoryStat(
    categoryTag: string, avgRating: real, avgNumberOfReviews: real, outletCount: int, priceBins: PriceBins)

  datatype CategoryPairwiseOccurrence = CategoryPairwiseOccurrence(category1: string, category2: string, pairOccurrences: int)

  /** The three GenericInsights strings come first, then the category-specific fields. */
  datatype CategoryInsights = CategoryInsights(
    maxOutlets: string,
    maxAvgRating: string,
    maxAvgReviews: string,
    minAvgRating: string,
    categoryStats: seq<CategoryStat>,
    categoryByPairwiseOccurrence: seq<CategoryPairwiseOccurrence>)

  datatype CategoryInsightsEndpointResponse = CategoryInsightsEndpointResponse(
    request: GenericInsightsRequest, response: CategoryInsights)

  /** Every field is required and carried as it decodes. */
  function DecodeCategoryStat(j: Json): (r: Checked<CategoryStat>)
    ensures RequiresKeys(j, {"category_tag", "avg_rating", "avg_number_of_reviews", "outlet_count", "price_bins"}, r)
    ensures r.Ok? ==>
      && RequiredHolds(j.fields, "category_tag", AsStr, r.value.categoryTag)
      && RequiredHolds(j.fields, "avg_rating", AsFloat, r.value.avgRating)
      && RequiredHolds(j.fields, "avg_number_of_reviews", AsFloat, r.value.avgNumberOfReviews)
      && RequiredHolds(j.fields, "outlet_count", AsInt, r.value.outletCount)
      && RequiredHolds(j.fields, "price_bins", DecodePriceBins, r.value.priceBins)
  {
    if !j.JObj? then TypeMismatch("dict")
    else
      var t := Required(j.fields, "category_tag", AsStr);
      var r := Required(j.fields, "avg_rating", AsFloat);
      var n := Required(j.fields, "avg_number_of_reviews", AsFloat);
      var o := Required(j.fields, "outlet_count", AsInt);
      var p := Required(j.fields, "price_bins", DecodePriceBins);
      if t.Ok? && r.Ok? && n.Ok? && o.Ok? && p.Ok? then Ok(CategoryStat(t.value, r.value, n.value, o.value, p.value))
      else Err(Errors(t) + Errors(r) + Errors(n) + Errors(o) + Errors(p))
  }

  /** Every field is required and carried as it decodes. */
  function DecodeCategoryPairwiseOccurrence(j: Json): (r: Checked<CategoryPairwiseOccurrence>)
    ensures RequiresKeys(j, {"category_1", "category_2", "pair_occurrences"}, r)
    ensures r.Ok? ==>
      && RequiredHolds(j.fields, "category_1", AsStr, r.value.category1)
      && RequiredHolds(j.fields, "category_2", AsStr, r.value.category2)
      && RequiredHolds(j.fields, "pair_occurrences", AsInt, r.value.pairOccurrences)
  {
    if !j.JObj? then TypeMismatch("dict")
    else
      var a := Required(j.fields, "category_1", AsStr);
      var b := Required(j.fields, "category_2", AsStr);
      var n := Required(j.fields, "pair_occurrences", AsInt);
      if a.Ok? && b.Ok? && n.Ok? then Ok(CategoryPairwiseOccurrence(a.value, b.value, n.value))
      else Err(Errors(a) + Errors(b) + Errors(n))
  }

  /** The three string fields every insights response inherits from `GenericInsights`. */
  const GenericInsightsFields: set<string> := {"max_outlets", "max_avg_rating", "max_avg_reviews"}

  /** Decodes the inherited `GenericInsights` fields, all three required and carried as given. */
  function DecodeGenericInsights(j: Json): (r: Checked<(string, string, string)>)
    ensures RequiresKeys(j, GenericInsightsFields, r)
    ensures r.Ok? ==>
      && RequiredHolds(j.fields, "max_outlets", AsStr, r.value.0)
      && RequiredHolds(j.fields, "max_avg_rating", AsStr, r.value.1)
      && RequiredHolds(j.fields, "max_avg_reviews", AsStr, r.value.2)
  {
    if !j.JObj? then TypeMismatch("dict")
    else
      var mo := Required(j.fields, "max_outlets", AsStr);
      var mr := Required(j.fields, "max_avg_rating", AsStr);
      var mv := Required(j.fields, "max_avg_reviews", AsStr);
      if mo.Ok? && mr.Ok? && mv.Ok? then Ok((mo.value, mr.value, mv.value)) else Err(Errors(mo) + Errors(mr) + Errors(mv))
  }

  function CategoryStatsDecoder(): Decoder<seq<CategoryStat>> {
    (x: Json) => AsList(x, DecodeCategoryStat)
  }

  function PairwiseOccurrencesDecoder(): Decoder<seq<CategoryPairwiseOccurrence>> {
    (x: Json) => AsList(x, DecodeCategoryPairwiseOccurrence)
  }

  /**
   * Every field is required, the inherited ones included; the four strings are
   * carried as given and each list decodes element by element, in order.
   */
  function DecodeCategoryInsights(j: Json): (r: Checked<CategoryInsights>)
    ensures RequiresKeys(j, {"max_outlets", "max_avg_rating", "max_avg_reviews", "min_avg_rating",
                             "category_stats", "category_by_pairwise_occurrence"}, r)
    ensures r.Ok? ==>
      && RequiredHolds(j.fields, "max_outlets", AsStr, r.value.maxOutlets)
      && RequiredHolds(j.fields, "max_avg_rating", AsStr, r.value.maxAvgRating)
      && RequiredHolds(j.fields, "max_avg_reviews", AsStr, r.value.maxAvgReviews)
      && RequiredHolds(j.fields, "min_avg_rating", AsStr, r.value.minAvgRating)
      && RequiredHolds(j.fields, "category_stats", CategoryStatsDecoder(), r.value.categoryStats)
      && RequiredHolds(j.fields, "category_by_pairwise_occurrence", PairwiseOccurrencesDecoder(),
                       r.value.categoryByPairwiseOccurrence)
  {
    if !j.JObj? then TypeMismatch("dict")
    else
      var m := j.fields;
      var g := DecodeGenericInsights(j);
      var mi := Required(m, "min_avg_rating", AsStr);
      var cs := Required(m, "category_stats", CategoryStatsDecoder());
      var cp := Required(m, "category_by_pairwise_occurrence", PairwiseOccurrencesDecoder());
      if g.Ok? && mi.Ok? && cs.Ok? && cp.Ok?
      then Ok(CategoryInsights(g.value.0, g.value.1, g.value.2, mi.value, cs.value, cp.value))
      else Err(Errors(g) + Errors(mi) + Errors(cs) + Errors(cp))
  }

  function DecodeCategoryInsightsEndpointResponse(j: Json): (r: Checked<CategoryInsightsEndpointResponse>)
    ensures RequiresKeys(j, {"request", "response"}, r)
    ensures r.Ok? ==>
      && RequiredHolds(j.fields, "request", DecodeGenericInsightsRequest, r.value.request)
      && RequiredHolds(j.fields, "response", DecodeCategoryInsights, r.value.response)
    ensures r.Ok? ==> r.value.request.priceRange.None? || r.value.request.priceRange.value >= 0
  {
    var parts :- RequiredParts(j, DecodeGenericInsightsRequest, DecodeCategoryInsights);
    Ok(CategoryInsightsEndpointResponse(parts.0, parts.1))
  }

  function EncodeCategoryStat(c: CategoryStat): Json {
    JObj(map[
      "category_tag" := JStr(c.categoryTag),
      "avg_rating" := JReal(c.avgRating),
      "avg_number_of_reviews" := JReal(c.avgNumberOfReviews),
      "outlet_count" := JInt(c.outletCount),
      "price_bins" := EncodePriceBins(c.priceBins)])
  }

  function EncodeCategoryPairwiseOccurrence(c: CategoryPairwiseOccurrence): Json {
    JObj(map[
      "category_1" := JStr(c.category1),
      "category_2" := JStr(c.category2),
      "pair_occurrences" := JInt(c.pairOccurrences)])
  }

  function EncodeCategoryInsights(c: CategoryInsights): Json {
    JObj(map[
      "max_outlets" := JStr(c.maxOutlets),
      "max_avg_rating" := JStr(c.maxAvgRating),
      "max_avg_reviews" := JStr(c.maxAvgReviews),
      "min_avg_rating" := JStr(c.minAvgRating),
      "category_stats" := JArr(Encoded(c.categoryStats, EncodeCategoryStat)),
      "category_by_pairwise_occurrence" := JArr(Encoded(c.categoryByPairwiseOccurrence, EncodeCategoryPairwiseOccurrence))])
  }

  function EncodeCategoryInsightsEndpointResponse(e: CategoryInsightsEndpointResponse): Json {
    JObj(map["request" := EncodeGenericInsightsRequest(e.request), "response" := EncodeCategoryInsights(e.response)])
  }

  /** Every category statistic survives serialisation, each number in its own place. */
  lemma CategoryStatRoundTrip(c: CategoryStat)
    ensures DecodeCategoryStat(EncodeCategoryStat(c)) == Ok(c)
  {
    PriceBinsRoundTrip(c.priceBins);
  }

  lemma CategoryPairwiseOccurrenceRoundTrip(c: CategoryPairwiseOccurrence)
    ensures DecodeCategoryPairwiseOccurrence(EncodeCategoryPairwiseOccurrence(c)) == Ok(c)
  {
  }

  /** Every category-insights value, both lists of any length included, survives serialisation. */
  lemma CategoryInsightsRoundTrip(c: CategoryInsights)
    ensures DecodeCategoryInsights(EncodeCategoryInsights(c)) == Ok(c)
  {
    var m := EncodeCategoryInsights(c).fields;
    GenericInsightsRoundTrip(m, c.maxOutlets, c.maxAvgRating, c.maxAvgReviews);
    RequiredOk(m, "min_avg_rating", AsStr, c.minAvgRating);
    forall x | x in c.categoryStats ensures DecodeCategoryStat(EncodeCategoryStat(x)) == Ok(x) {
      CategoryStatRoundTrip(x);
    }
    ListRoundTrip(c.categoryStats, EncodeCategoryStat, DecodeCategoryStat);
    RequiredOk(m, "category_stats", CategoryStatsDecoder(), c.categoryStats);
    forall x | x in c.categoryByPairwiseOccurrence
      ensures DecodeCategoryPairwiseOccurrence(EncodeCategoryPairwiseOccurrence(x)) == Ok(x)
    {
      CategoryPairwiseOccurrenceRoundTrip(x);
    }
    ListRoundTrip(c.categoryByPairwiseOccurrence, EncodeCategoryPairwiseOccurrence, DecodeCategoryPairwiseOccurrence);
    RequiredOk(m, "category_by_pairwise_occurrence", PairwiseOccurrencesDecoder(), c.categoryByPairwiseOccurrence);
  }

  /** A category-insights envelope whose request is valid decodes back to itself. */
  lemma CategoryInsightsEndpointRoundTrip(e: CategoryInsightsEndpointResponse)
    requires e.request.priceRange.None? || e.request.priceRange.value >= 0
    ensures DecodeCategoryInsightsEndpointResponse(EncodeCategoryInsightsEndpointResponse(e)) == Ok(e)
  {
    var m := EncodeCategoryInsightsEndpointResponse(e).fields;
    GenericInsightsRequestRoundTrip(e.request);
    RequiredOk(m, "request", DecodeGenericInsightsRequest, e.request);
    CategoryInsightsRoundTrip(e.response);
    RequiredOk(m, "response", DecodeCategoryInsights, e.response);
  }

  // ---------------------------------------------------------------------------
  // Brand insights

  datatype BrandStat = BrandStat(
    brandName: string, avgRating: real, avgNumberOfReviews: real, outletCount: int,
    categoryTags: seq<string>, priceBins: PriceBins)

  datatype BrandInsights = BrandInsights(
    maxOutlets: string,
    maxAvgRating: string,
    maxAvgReviews: string,
    outletCount: int,
    brandStatsByOutletCount: seq<BrandStat>,
    brandStatsByAvgRating: seq<BrandStat>,
    brandStatsByAvgNumberOfReviews: seq<BrandStat>,
    outletCountsByPrice: PriceBins,
    operatingHoursOutletCount: int,
    operatingHours: OperatingHours)

  datatype BrandInsightsEndpointResponse = BrandInsightsEndpointResponse(
    request: GenericInsightsRequest, response: BrandInsights)

  /** Every field of BrandInsights is required, the three inherited ones included. */
  const BrandInsightsFields: set<string> := {
    "max_outlets", "max_avg_rating", "max_avg_reviews", "outlet_count",
    "brand_stats_by_outlet_count", "brand_stats_by_avg_rating", "brand_stats_by_avg_number_of_reviews",
    "outlet_counts_by_price", "operating_hours_outlet_count", "operating_hours"}

  function DecodeBrandStat(j: Json): (r: Checked<BrandStat>)
    ensures RequiresKeys(j, {"brand_name", "avg_rating", "avg_number_of_reviews", "outlet_count", "category_tags", "price_bins"}, r)
    ensures r.Ok? ==>
      && RequiredHolds(j.fields, "brand_name", AsStr, r.value.brandName)
      && RequiredHolds(j.fields, "avg_rating", AsFloat, r.value.avgRating)
      && RequiredHolds(j.fields, "avg_number_of_reviews", AsFloat, r.value.avgNumberOfReviews)
      && RequiredHolds(j.fields, "outlet_count", AsInt, r.value.outletCount)
      && RequiredHolds(j.fields, "category_tags", AsStrList, r.value.categoryTags)
      && RequiredHolds(j.fields, "price_bins", DecodePriceBins, r.value.priceBins)
  {
    if !j.JObj? then TypeMismatch("dict")
    else
      var m := j.fields;
      var b := Required(m, "brand_name", AsStr);
      var r := Required(m, "avg_rating", AsFloat);
      var n := Required(m, "avg_number_of_reviews", AsFloat);
      var o := Required(m, "outlet_count", AsInt);
      var c := Required(m, "category_tags", AsStrList);
      var p := Required(m, "price_bins", DecodePriceBins);
      if b.Ok? && r.Ok? && n.Ok? && o.Ok? && c.Ok? && p.Ok? then Ok(BrandStat(b.value, r.value, n.value, o.value, c.value, p.value))
      else Err(Errors(b) + Errors(r) + Errors(n) + Errors(o) + Errors(c) + Errors(p))
  }

  function BrandStatsDecoder(): Decoder<seq<BrandStat>> {
    (x: Json) => AsList(x, DecodeBrandStat)
  }

  const BrandRankingFields: set<string> := {
    "brand_stats_by_outlet_count", "brand_stats_by_avg_rating", "brand_stats_by_avg_number_of_reviews"}

  /** The three brand rankings, each a required list of brand statistics decoded element by element. */
  function DecodeBrandRankings(j: Json): (r: Checked<(seq<BrandStat>, seq<BrandStat>, seq<BrandStat>)>)
    ensures RequiresKeys(j, BrandRankingFields, r)
    ensures r.Ok? ==>
      && RequiredHolds(j.fields, "brand_stats_by_outlet_count", BrandStatsDecoder(), r.value.0)
      && RequiredHolds(j.fields, "brand_stats_by_avg_rating", BrandStatsDecoder(), r.value.1)
      && RequiredHolds(j.fields, "brand_stats_by_avg_number_of_reviews", BrandStatsDecoder(), r.value.2)
  {
    if !j.JObj? then TypeMismatch("dict")
    else
      var bo := Required(j.fields, "brand_stats_by_outlet_count", BrandStatsDecoder());
      var br := Required(j.fields, "brand_stats_by_avg_rating", BrandStatsDecoder());
      var bn := Required(j.fields, "brand_stats_by_avg_number_of_reviews", BrandStatsDecoder());
      if bo.Ok? && br.Ok? && bn.Ok? then Ok((bo.value, br.value, bn.value)) else Err(Errors(bo) + Errors(br) + Errors(bn))
  }

  /**
   * Every field is required, the inherited ones included (BrandInsightsRequiresEveryField
   * reports each missing one), and each is carried as it decodes.
   */
  function DecodeBrandInsights(j: Json): (r: Checked<BrandInsights>)
    ensures r.Ok? ==> j.JObj?
    ensures r.Ok? ==>
      && RequiredHolds(j.fields, "max_outlets", AsStr, r.value.maxOutlets)
      && RequiredHolds(j.fields, "max_avg_rating", AsStr, r.value.maxAvgRating)
      && RequiredHolds(j.fields, "max_avg_reviews", AsStr, r.value.maxAvgReviews)
      && RequiredHolds(j.fields, "outlet_count", AsInt, r.value.outletCount)
      && RequiredHolds(j.fields, "brand_stats_by_outlet_count", BrandStatsDecoder(), r.value.brandStatsByOutletCount)
      && RequiredHolds(j.fields, "brand_stats_by_avg_rating", BrandStatsDecoder(), r.value.brandStatsByAvgRating)
      && RequiredHolds(j.fields, "brand_stats_by_avg_number_of_reviews", BrandStatsDecoder(),
                       r.value.brandStatsByAvgNumberOfReviews)
      && RequiredHolds(j.fields, "outlet_counts_by_price", DecodePriceBins, r.value.outletCountsByPrice)
      && RequiredHolds(j.fields, "operating_hours_outlet_count", AsInt, r.value.operatingHoursOutletCount)
      && RequiredHolds(j.fields, "operating_hours", DecodeOperatingHours, r.value.operatingHours)
  {
    if !j.JObj? then TypeMismatch("dict")
    else
      var m := j.fields;
      var g := DecodeGenericInsights(j);
      var oc := Required(m, "outlet_count", AsInt);
      var bs := DecodeBrandRankings(j);
      var pb := Required(m, "outlet_counts_by_price", DecodePriceBins);
      var hc := Required(m, "operating_hours_outlet_count", AsInt);
      var oh := Required(m, "operating_hours", DecodeOperatingHours);
      if g.Ok? && oc.Ok? && bs.Ok? && pb.Ok? && hc.Ok? && oh.Ok?
      then Ok(BrandInsights(g.value.0, g.value.1, g.value.2, oc.value, bs.value.0, bs.value.1, bs.value.2,
                            pb.value, hc.value, oh.value))
      else Err(Errors(g) + Errors(oc) + Errors(bs) + Errors(pb) + Errors(hc) + Errors(oh))
  }

  function DecodeBrandInsightsEndpointResponse(j: Json): (r: Checked<BrandInsightsEndpointResponse>)
    ensures RequiresKeys(j, {"request", "response"}, r)
    ensures r.Ok? ==>
      && RequiredHolds(j.fields, "request", DecodeGenericInsightsRequest, r.value.request)
      && RequiredHolds(j.fields, "response", DecodeBrandInsights, r.value.response)
    ensures r.Ok? ==> r.value.request.priceRange.None? || r.value.request.priceRange.value >= 0
  {
    var parts :- RequiredParts(j, DecodeGenericInsightsRequest, DecodeBrandInsights);
    Ok(BrandInsightsEndpointResponse(parts.0, parts.1))
  }

  function EncodeBrandStat(b: BrandStat): Json {
    JObj(map[
      "brand_name" := JStr(b.brandName),
      "avg_rating" := JReal(b.avgRating),
      "avg_number_of_reviews" := JReal(b.avgNumberOfReviews),
      "outlet_count" := JInt(b.outletCount),
      "category_tags" := StrListJson(b.categoryTags),
      "price_bins" := EncodePriceBins(b.priceBins)])
  }

  function EncodeBrandStats(bs: seq<BrandStat>): Json {
    JArr(Encoded(bs, EncodeBrandStat))
  }

  function EncodeBrandInsights(b: BrandInsights): Json {
    JObj(map[
      "max_outlets" := JStr(b.maxOutlets),
      "max_avg_rating" := JStr(b.maxAvgRating),
      "max_avg_reviews" := JStr(b.maxAvgReviews),
      "outlet_count" := JInt(b.outletCount),
      "brand_stats_by_outlet_count" := EncodeBrandStats(b.brandStatsByOutletCount),
      "brand_stats_by_avg_rating" := EncodeBrandStats(b.brandStatsByAvgRating),
      "brand_stats_by_avg_number_of_reviews" := EncodeBrandStats(b.brandStatsByAvgNumberOfReviews),
      "outlet_counts_by_price" := EncodePriceBins(b.outletCountsByPrice),
      "operating_hours_outlet_count" := JInt(b.operatingHoursOutletCount),
      "operating_hours" := EncodeOperatingHours(b.operatingHours)])
  }

  function EncodeBrandInsightsEndpointResponse(e: BrandInsightsEndpointResponse): Json {
    JObj(map["request" := EncodeGenericInsightsRequest(e.request), "response" := EncodeBrandInsights(e.response)])
  }

  lemma BrandStatRoundTrip(b: BrandStat)
    ensures DecodeBrandStat(EncodeBrandStat(b)) == Ok(b)
  {
    StrListRoundTrip(b.categoryTags);
    PriceBinsRoundTrip(b.priceBins);
  }

  lemma {:induction false} BrandStatsRoundTrip(bs: seq<BrandStat>)
    ensures BrandStatsDecoder()(EncodeBrandStats(bs)) == Ok(bs)
  {
    forall b | b in bs ensures DecodeBrandStat(EncodeBrandStat(b)) == Ok(b) {
      BrandStatRoundTrip(b);
    }
    ListRoundTrip(bs, EncodeBrandStat, DecodeBrandStat);
  }

  /** Brand insights decoding fails, reporting the field as missing, whenever any of its fields is absent. */
  lemma BrandInsightsRequiresEveryField(m: map<string, Json>, field: string)
    requires field in BrandInsightsFields && field !in m
    ensures DecodeBrandInsights(JObj(m)).Err?
    ensures FieldError([Key(field)], Missing) in DecodeBrandInsights(JObj(m)).error
  {
  }

  /** The inherited strings of a serialised insights response decode back to themselves. */
  lemma GenericInsightsRoundTrip(m: map<string, Json>, maxOutlets: string, maxAvgRating: string, maxAvgReviews: string)
    requires "max_outlets" in m && m["max_outlets"] == JStr(maxOutlets)
    requires "max_avg_rating" in m && m["max_avg_rating"] == JStr(maxAvgRating)
    requires "max_avg_reviews" in m && m["max_avg_reviews"] == JStr(maxAvgReviews)
    ensures DecodeGenericInsights(JObj(m)) == Ok((maxOutlets, maxAvgRating, maxAvgReviews))
  {
    RequiredOk(m, "max_outlets", AsStr, maxOutlets);
    RequiredOk(m, "max_avg_rating", AsStr, maxAvgRating);
    RequiredOk(m, "max_avg_reviews", AsStr, maxAvgReviews);
  }

  lemma BrandRankingsRoundTrip(b: BrandInsights)
    ensures DecodeBrandRankings(EncodeBrandInsights(b))
         == Ok((b.brandStatsByOutletCount, b.brandStatsByAvgRating, b.brandStatsByAvgNumberOfReviews))
  {
    var m := EncodeBrandInsights(b).fields;
    BrandStatsRoundTrip(b.brandStatsByOutletCount);
    RequiredOk(m, "brand_stats_by_outlet_count", BrandStatsDecoder(), b.brandStatsByOutletCount);
    BrandStatsRoundTrip(b.brandStatsByAvgRating);
    RequiredOk(m, "brand_stats_by_avg_rating", BrandStatsDecoder(), b.brandStatsByAvgRating);
    BrandStatsRoundTrip(b.brandStatsByAvgNumberOfReviews);
    RequiredOk(m, "brand_stats_by_avg_number_of_reviews", BrandStatsDecoder(), b.brandStatsByAvgNumberOfReviews);
  }

  lemma BrandInsightsRoundTrip(b: BrandInsights)
    ensures DecodeBrandInsights(EncodeBrandInsights(b)) == Ok(b)
  {
    var m := EncodeBrandInsights(b).fields;
    GenericInsightsRoundTrip(m, b.maxOutlets, b.maxAvgRating, b.maxAvgReviews);
    RequiredOk(m, "outlet_count", AsInt, b.outletCount);
    BrandRankingsRoundTrip(b);
    PriceBinsRoundTrip(b.outletCountsByPrice);
    RequiredOk(m, "outlet_counts_by_price", DecodePriceBins, b.outletCountsByPrice);
    RequiredOk(m, "operating_hours_outlet_count", AsInt, b.operatingHoursOutletCount);
    OperatingHoursRoundTrip(b.operatingHours);
    RequiredOk(m, "operating_hours", DecodeOperatingHours, b.operatingHours);
  }

  /**
   * A brand-insights envelope whose request is valid (price_range absent or
   * non-negative) decodes to the structurally equal typed value, every nested
   * field populated.
   */
  lemma BrandInsightsEndpointRoundTrip(e: BrandInsightsEndpointResponse)
    requires e.request.priceRange.None? || e.request.priceRange.value >= 0
    ensures DecodeBrandInsightsEndpointResponse(EncodeBrandInsightsEndpointResponse(e)) == Ok(e)
  {
    var m := EncodeBrandInsightsEndpointResponse(e).fields;
    GenericInsightsRequestRoundTrip(e.request);
    RequiredOk(m, "request", DecodeGenericInsightsRequest, e.request);
    BrandInsightsRoundTrip(e.response);
    RequiredOk(m, "response", DecodeBrandInsights, e.response);
  }

  // ---------------------------------------------------------------------------
  // Area insights

  /**
   * The street, neighbourhood and postcode statistics share one shape and differ
   * only in the key naming the locality; `name` holds that key's value.
   */
  datatype LocalityStat = LocalityStat(name: string, avgRating: real, avgNumberOfReviews: real, brandCount: int)

  datatype AreaInsights = AreaInsights(
    streetStats: seq<LocalityStat>,
    neighborhoodStats: seq<LocalityStat>,
    postcodeStats: seq<LocalityStat>)

  datatype AreaInsightsEndpointResponse = AreaInsightsEndpointResponse(request: GenericInsightsRequest, response: AreaInsights)

  /** The locality's name under `nameKey` and the three statistics are required, each carried as it decodes. */
  function DecodeLocalityStat(nameKey: string, j: Json): (r: Checked<LocalityStat>)
    ensures RequiresKeys(j, {nameKey, "avg_rating", "avg_number_of_reviews", "brand_count"}, r)
    ensures r.Ok? ==> j.fields[nameKey] == JStr(r.value.name)
    ensures r.Ok? ==>
      && RequiredHolds(j.fields, "avg_rating", AsFloat, r.value.avgRating)
      && RequiredHolds(j.fields, "avg_number_of_reviews", AsFloat, r.value.avgNumberOfReviews)
      && RequiredHolds(j.fields, "brand_count", AsInt, r.value.brandCount)
  {
    if !j.JObj? then TypeMismatch("dict")
    else
      var n := Required(j.fields, nameKey, AsStr);
      var r := Required(j.fields, "avg_rating", AsFloat);
      var v := Required(j.fields, "avg_number_of_reviews", AsFloat);
      var b := Required(j.fields, "brand_count", AsInt);
      if n.Ok? && r.Ok? && v.Ok? && b.Ok? then Ok(LocalityStat(n.value, r.value, v.value, b.value))
      else Err(Errors(n) + Errors(r) + Errors(v) + Errors(b))
  }

  function LocalityStatDecoder(nameKey: string): Decoder<LocalityStat> {
    (y: Json) => DecodeLocalityStat(nameKey, y)
  }

  function LocalityStatsDecoder(nameKey: string): Decoder<seq<LocalityStat>> {
    (x: Json) => AsList(x, LocalityStatDecoder(nameKey))
  }

  /** The three locality lists are required; their entries are keyed by street, neighborhood and postcode. */
  function DecodeAreaInsights(j: Json): (r: Checked<AreaInsights>)
    ensures RequiresKeys(j, {"street_stats", "neighborhood_stats", "postcode_stats"}, r)
    ensures r.Ok? ==>
      var ss := j.fields["street_stats"];
      && ss.JArr? && |r.value.streetStats| == |ss.items|
      && forall k :: 0 <= k < |ss.items| ==> DecodeLocalityStat("street", ss.items[k]) == Ok(r.value.streetStats[k])
    ensures r.Ok? ==>
      var ns := j.fields["neighborhood_stats"];
      && ns.JArr? && |r.value.neighborhoodStats| == |ns.items|
      && forall k :: 0 <= k < |ns.items| ==> DecodeLocalityStat("neighborhood", ns.items[k]) == Ok(r.value.neighborhoodStats[k])
    ensures r.Ok? ==>
      var ps := j.fields["postcode_stats"];
      && ps.JArr? && |r.value.postcodeStats| == |ps.items|
      && forall k :: 0 <= k < |ps.items| ==> DecodeLocalityStat("postcode", ps.items[k]) == Ok(r.value.postcodeStats[k])
  {
    if !j.JObj? then TypeMismatch("dict")
    else
      var s := Required(j.fields, "street_stats", LocalityStatsDecoder("street"));
      var n := Required(j.fields, "neighborhood_stats", LocalityStatsDecoder("neighborhood"));
      var p := Required(j.fields, "postcode_stats", LocalityStatsDecoder("postcode"));
      if s.Ok? && n.Ok? && p.Ok? then Ok(AreaInsights(s.value, n.value, p.value)) else Err(Errors(s) + Errors(n) + Errors(p))
  }

  function DecodeAreaInsightsEndpointResponse(j: Json): (r: Checked<AreaInsightsEndpointResponse>)
    ensures RequiresKeys(j, {"request", "response"}, r)
    ensures r.Ok? ==>
      && RequiredHolds(j.fields, "request", DecodeGenericInsightsRequest, r.value.request)
      && RequiredHolds(j.fields, "response", DecodeAreaInsights, r.value.response)
    ensures r.Ok? ==> r.value.request.priceRange.None? || r.value.request.priceRange.value >= 0
  {
    var parts :- RequiredParts(j, DecodeGenericInsightsRequest, DecodeAreaInsights);
    Ok(AreaInsightsEndpointResponse(parts.0, parts.1))
  }

  /** A locality statistic serialised with its name under `nameKey`. */
  function EncodeLocalityStat(nameKey: string, l: LocalityStat): Json {
    JObj(map[
      "avg_rating" := JReal(l.avgRating),
      "avg_number_of_reviews" := JReal(l.avgNumberOfReviews),
      "brand_count" := JInt(l.brandCount)][nameKey := JStr(l.name)])
  }

  function LocalityStatEncoder(nameKey: string): LocalityStat -> Json {
    (l: LocalityStat) => EncodeLocalityStat(nameKey, l)
  }

  function EncodeAreaInsights(a: AreaInsights): Json {
    JObj(map[
      "street_stats" := JArr(Encoded(a.streetStats, LocalityStatEncoder("street"))),
      "neighborhood_stats" := JArr(Encoded(a.neighborhoodStats, LocalityStatEncoder("neighborhood"))),
      "postcode_stats" := JArr(Encoded(a.postcodeStats, LocalityStatEncoder("postcode")))])
  }

  function EncodeAreaInsightsEndpointResponse(e: AreaInsightsEndpointResponse): Json {
    JObj(map["request" := EncodeGenericInsightsRequest(e.request), "response" := EncodeAreaInsights(e.response)])
  }

  /** A locality statistic keyed by one of the three statistic names survives serialisation. */
  lemma LocalityStatRoundTrip(nameKey: string, l: LocalityStat)
    requires nameKey in {"street", "neighborhood", "postcode"}
    ensures DecodeLocalityStat(nameKey, EncodeLocalityStat(nameKey, l)) == Ok(l)
  {
    var m := EncodeLocalityStat(nameKey, l).fields;
    RequiredOk(m, nameKey, AsStr, l.name);
    RequiredOk(m, "avg_rating", AsFloat, l.avgRating);
    RequiredOk(m, "avg_number_of_reviews", AsFloat, l.avgNumberOfReviews);
    RequiredOk(m, "brand_count", AsInt, l.brandCount);
  }

  lemma {:induction false} LocalityStatsRoundTrip(nameKey: string, xs: seq<LocalityStat>)
    requires nameKey in {"street", "neighborhood", "postcode"}
    ensures LocalityStatsDecoder(nameKey)(JArr(Encoded(xs, LocalityStatEncoder(nameKey)))) == Ok(xs)
  {
    forall l | l in xs ensures LocalityStatDecoder(nameKey)(LocalityStatEncoder(nameKey)(l)) == Ok(l) {
      LocalityStatRoundTrip(nameKey, l);
    }
    ListRoundTrip(xs, LocalityStatEncoder(nameKey), LocalityStatDecoder(nameKey));
  }

  /** Every area-insights value survives serialisation, each list under its own locality key. */
  lemma AreaInsightsRoundTrip(a: AreaInsights)
    ensures DecodeAreaInsights(EncodeAreaInsights(a)) == Ok(a)
  {
    var m := EncodeAreaInsights(a).fields;
    LocalityStatsRoundTrip("street", a.streetStats);
    RequiredOk(m, "street_stats", LocalityStatsDecoder("street"), a.streetStats);
    LocalityStatsRoundTrip("neighborhood", a.neighborhoodStats);
    RequiredOk(m, "neighborhood_stats", LocalityStatsDecoder("neighborhood"), a.neighborhoodStats);
    LocalityStatsRoundTrip("postcode", a.postcodeStats);
    RequiredOk(m, "postcode_stats", LocalityStatsDecoder("postcode"), a.postcodeStats);
  }

  /** An area-insights envelope whose request is valid decodes back to itself. */
  lemma AreaInsightsEndpointRoundTrip(e: AreaInsightsEndpointResponse)
    requires e.request.priceRange.None? || e.request.priceRange.value >= 0
    ensures DecodeAreaInsightsEndpointResponse(EncodeAreaInsightsEndpointResponse(e)) == Ok(e)
  {
    var m := EncodeAreaInsightsEndpointResponse(e).fields;
    GenericInsightsRequestRoundTrip(e.request);
    RequiredOk(m, "request", DecodeGenericInsightsRequest, e.request);
    AreaInsightsRoundTrip(e.response);
    RequiredOk(m, "response", DecodeAreaInsights, e.response);
  }

  // ---------------------------------------------------------------------------

  /**
   * The category, brand and area envelopes all carry a GenericInsightsRequest, so
   * a negative price_range in the returned request fails decoding again, reported
   * under request.price_range, whatever the response part holds.
   */
  lemma InsightsEnvelopesRecheckPriceRange(request: map<string, Json>, response: Json, p: int)
    requires "price_range" in request && request["price_range"] == JInt(p) && p < 0
    ensures
      var j := JObj(map["request" := JObj(request), "response" := response]);
      var e := FieldError([Key("request"), Key("price_range")], Rejected(InvalidPriceRange));
      && DecodeCategoryInsightsEndpointResponse(j).Err? && e in DecodeCategoryInsightsEndpointResponse(j).error
      && DecodeBrandInsightsEndpointResponse(j).Err? && e in DecodeBrandInsightsEndpointResponse(j).error
      && DecodeAreaInsightsEndpointResponse(j).Err? && e in DecodeAreaInsightsEndpointResponse(j).error
  {
    var q := DecodeGenericInsightsRequest(JObj(request));
    var inner := FieldError([Key("price_range")], Rejected(InvalidPriceRange));
    assert q.Err? && inner in q.error;
    ErrorAt(Key("request"), q, inner);
    assert [Key("request")] + [Key("price_range")] == [Key("request"), Key("price_range")];
  }
}
