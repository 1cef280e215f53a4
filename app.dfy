/**
 * The `App` client: one method per API endpoint. Each builds a URL and query
 * parameters, validates its arguments with the endpoint's request schema before
 * any request is sent, fetches through `__generic_fetch`, and turns the JSON body
 * into the endpoint's response schema.
 *
 * A raised exception is an `Err` of `Http.Error`. The network is a parameter
 * (`transport`), so every result here is a function of the arguments and of the
 * outcome the transport reports for the one request the call sends.
 */
module Dotlas {
  import opened Wrappers
  import opened Json
  import opened Truthiness
  import opened Http
  import SocioDemographics
  import Competition
  import Cities

  const BaseUrl: string := "https://api.dotlas.com"
  const SocioDemographicsUrl: string := BaseUrl + "/socio-demographics"
  const CompetitionUrl: string := BaseUrl + "/competition"
  const CitiesUrl: string := BaseUrl + "/cities"

  /** Every request is a GET with a ten-second timeout. */
  const TimeoutSeconds: int := 10

  const DefaultModeOfMobility: Option<string> := Some("driving")
  const DefaultRadiusMeters: int := 500

  /**
   * The argument defaults pass validation: the default mode of mobility is truthy
   * and one of the accepted modes, so a time-based call that omits it is never
   * refused for lack of a mode; the default radius is in range.
   */
  lemma DefaultsAreValid()
    ensures StrTruthy(DefaultModeOfMobility) && SocioDemographics.ValidateModeOfMobility(DefaultModeOfMobility).Ok?
    ensures Competition.ValidateRadiusMeters(DefaultRadiusMeters).Ok?
  {
  }

  /** The thirteen statistics `city_stats` reads from the body with `.get`. */
  const CityStatisticsKeys: set<string> := {
    "average_individual_income", "median_household_income", "population_total", "population_youth",
    "population_middle_age", "population_senior", "work_transportation_self_mobility",
    "household_income_low", "household_income_medium", "household_income_high",
    "households_total", "households_family_total", "average_household_composition"}

  /** `{key: m.get(key) for key in keys}`: the keys asked for, absent ones as null. */
  function Picked(m: map<string, Json>, keys: set<string>): (p: map<string, Json>)
    ensures p.Keys == keys
    ensures forall key :: key in keys ==> p[key] == (if key in m then m[key] else JNull)
  {
    map key | key in keys :: if key in m then m[key] else JNull
  }

  /** An optional field reads a picked map exactly as it reads the original. */
  lemma OptionalPicked<T>(m: map<string, Json>, keys: set<string>, key: string, f: Decoder<T>)
    requires key in keys
    ensures Optional(Picked(m, keys), key, f) == Optional(m, key, f)
  {
  }

  /**
   * Passing every city statistic through `.get` loses nothing: the city-statistics
   * schema reads the picked map exactly as it reads the body itself.
   */
  lemma CityStatisticsPickedLossless(m: map<string, Json>)
    ensures SocioDemographics.DecodeSocioDemographicsCityResponse(JObj(Picked(m, CityStatisticsKeys)))
         == SocioDemographics.DecodeSocioDemographicsCityResponse(JObj(m))
  {
    var keys := CityStatisticsKeys;
    OptionalPicked(m, keys, "average_individual_income", AsFloat);
    OptionalPicked(m, keys, "median_household_income", AsFloat);
    OptionalPicked(m, keys, "population_total", AsInt);
    OptionalPicked(m, keys, "population_youth", AsInt);
    OptionalPicked(m, keys, "population_middle_age", AsInt);
    OptionalPicked(m, keys, "population_senior", AsInt);
    OptionalPicked(m, keys, "work_transportation_self_mobility", AsInt);
    OptionalPicked(m, keys, "household_income_low", AsInt);
    OptionalPicked(m, keys, "household_income_medium", AsInt);
    OptionalPicked(m, keys, "household_income_high", AsInt);
    OptionalPicked(m, keys, "households_total", AsInt);
    OptionalPicked(m, keys, "households_family_total", AsInt);
    OptionalPicked(m, keys, "average_household_composition", AsFloat);
  }

  /** The area schema reads only its three keys, so restricting the body to them changes nothing. */
  lemma AreaResponseRestrictedLossless(m: map<string, Json>)
    requires "sociodemographic" in m && "areas_covered" in m && "geometry" in m
    ensures
      var r := map["sociodemographic" := m["sociodemographic"], "areas_covered" := m["areas_covered"], "geometry" := m["geometry"]];
      SocioDemographics.DecodeSalesTerritoryResponse(JObj(r)) == SocioDemographics.DecodeSalesTerritoryResponse(JObj(m))
  {
    var keys := {"sociodemographic", "areas_covered", "geometry"};
    assert Picked(m, keys) == map["sociodemographic" := m["sociodemographic"], "areas_covered" := m["areas_covered"], "geometry" := m["geometry"]];
    OptionalPicked(m, keys, "sociodemographic", SocioDemographics.DecodeSocioDemographicResponse);
    OptionalPicked(m, keys, "areas_covered", AsStrList);
    OptionalPicked(m, keys, "geometry", SocioDemographics.DecodeGeojsonSpec);
  }

  class App {
    /** The key sent with every request, in the Authorization header and, on some endpoints, as a parameter. */
    const apiKey: string

    /** The parameters of every endpoint that takes no filters. */
    const defaultParams: map<string, Json> := map["api_key" := JStr(apiKey)]

    const headers: map<string, string> := map[
      "Accept" := "application/json",
      "Content-Type" := "application/json",
      "Authorization" := apiKey]

    /** `App(api_key)`: the key is kept; the headers and the default parameters carry it. */
    constructor(apiKey: string)
      ensures this.apiKey == apiKey
      ensures headers["Authorization"] == apiKey
      ensures defaultParams == map["api_key" := JStr(apiKey)]
    {
      this.apiKey := apiKey;
    }

    /** The request `__generic_fetch` sends. */
    function Outbound(url: string, params: map<string, Json>): (q: HttpRequest)
      ensures q.verb == "GET" && q.url == url && q.params == params && q.timeoutSeconds == 10
      ensures q.headers == map["Accept" := "application/json", "Content-Type" := "application/json", "Authorization" := apiKey]
    {
      HttpRequest("GET", url, params, headers, TimeoutSeconds)
    }

    /**
     * `__generic_fetch(url, params)`: only a 200 with a JSON body yields a body,
     * every client or server error status fails, and the outcome is that of the
     * one request `Outbound` describes.
     */
    function Fetch(transport: Transport, url: string, params: map<string, Json>): (r: Result<Option<Json>, Error>)
      ensures var o := transport(Outbound(url, params));
        && (r.Ok? && r.value.Some? <==> o.Responded? && o.status == 200 && o.body.Some?)
        && (r.Ok? && r.value.Some? ==> r.value.value == o.body.value)
        && (o.Responded? && RaisesForStatus(o.status) ==> r.Err?)
        && (o.TransportFailed? ==> r == Err(FetchFailed(Transport)))
    {
      Classify(transport(Outbound(url, params)))
    }

    // -------------------------------------------------------------------------
    // Listings: the body is returned as it is, without a schema.

    function ListCommercialTypes(transport: Transport): (r: Result<Option<Json>, Error>)
      ensures r == Classify(transport(Outbound(CompetitionUrl + "/types", map["api_key" := JStr(apiKey)])))
    {
      Fetch(transport, CompetitionUrl + "/types", defaultParams)
    }

    function ListCities(transport: Transport): (r: Result<Option<Json>, Error>)
      ensures r == Classify(transport(Outbound(CitiesUrl, map["api_key" := JStr(apiKey)])))
    {
      Fetch(transport, CitiesUrl, defaultParams)
    }

    function ListPlacesInCity(transport: Transport, city: string): (r: Result<Option<Json>, Error>)
      ensures r == Classify(transport(Outbound(CitiesUrl + "/places/" + city, map["api_key" := JStr(apiKey)])))
    {
      Fetch(transport, CitiesUrl + "/places/" + city, defaultParams)
    }

    function ListAreasInCity(transport: Transport, city: string): (r: Result<Option<Json>, Error>)
      ensures r == Classify(transport(Outbound(CitiesUrl + "/areas/" + city, map["api_key" := JStr(apiKey)])))
    {
      Fetch(transport, CitiesUrl + "/areas/" + city, defaultParams)
    }

    function ListCommercialBrands(transport: Transport, city: string, commercialType: string): (r: Result<Option<Json>, Error>)
      ensures r == Classify(transport(Outbound(
        CompetitionUrl + "/brands/" + city + "/" + commercialType, map["api_key" := JStr(apiKey)])))
    {
      Fetch(transport, CompetitionUrl + "/brands/" + city + "/" + commercialType, defaultParams)
    }

    function ListCommercialCategories(transport: Transport, city: string, commercialType: string): (r: Result<Option<Json>, Error>)
      ensures r == Classify(transport(Outbound(
        CompetitionUrl + "/categories/" + city + "/" + commercialType, map["api_key" := JStr(apiKey)])))
    {
      Fetch(transport, CompetitionUrl + "/categories/" + city + "/" + commercialType, defaultParams)
    }

    // -------------------------------------------------------------------------
    // Statistics and boundaries

    /**
     * `city_stats`: every statistic is read with `.get`, so a dictionary body gives
     * exactly what the schema makes of the body itself; a body that is not a
     * dictionary (None included) has no `.get`.
     */
    function CityStats(transport: Transport, city: string): (r: Result<SocioDemographics.SocioDemographicsCityResponse, Error>)
      ensures
        var fetched := Classify(transport(Outbound(SocioDemographicsUrl + "/stats/" + city, map["api_key" := JStr(apiKey)])));
        && (fetched.Err? ==> r == Err(fetched.error))
        && (fetched.Ok? && fetched.value.Some? && fetched.value.value.JObj? ==>
              r == Lift(SocioDemographics.DecodeSocioDemographicsCityResponse(fetched.value.value)))
        && (fetched.Ok? && !(fetched.value.Some? && fetched.value.value.JObj?) ==> r == Err(NoGetMethod))
    {
      var body :- Fetch(transport, SocioDemographicsUrl + "/stats/" + city, defaultParams);
      var _ :- Get(body, "average_individual_income");
      CityStatisticsPickedLossless(body.value.fields);
      Lift(SocioDemographics.DecodeSocioDemographicsCityResponse(JObj(Picked(body.value.fields, CityStatisticsKeys))))
    }

    /**
     * `area_stats`: the three parts are looked up with `body[...]`, in the order
     * sociodemographic, areas_covered, geometry, so a body lacking one is a
     * KeyError although the schema makes all three optional.
     */
    function AreaStats(transport: Transport, city: string, area: string): (r: Result<SocioDemographics.AreaResponse, Error>)
      ensures
        var fetched := Classify(transport(Outbound(
          SocioDemographicsUrl + "/stats/" + city + "/" + area, map["api_key" := JStr(apiKey)])));
        && (fetched.Err? ==> r == Err(fetched.error))
        && (fetched.Ok? && !(fetched.value.Some? && fetched.value.value.JObj?) ==> r == Err(NotSubscriptable))
        && (fetched.Ok? && fetched.value.Some? && fetched.value.value.JObj? ==>
              var m := fetched.value.value.fields;
              && ("sociodemographic" !in m ==> r == Err(KeyMissing("sociodemographic")))
              && ("sociodemographic" in m && "areas_covered" !in m ==> r == Err(KeyMissing("areas_covered")))
              && ("sociodemographic" in m && "areas_covered" in m && "geometry" !in m ==> r == Err(KeyMissing("geometry")))
              && ("sociodemographic" in m && "areas_covered" in m && "geometry" in m ==>
                    r == Lift(SocioDemographics.DecodeSalesTerritoryResponse(fetched.value.value))))
    {
      var body :- Fetch(transport, SocioDemographicsUrl + "/stats/" + city + "/" + area, defaultParams);
      var s :- Subscript(body, "sociodemographic");
      var a :- Subscript(body, "areas_covered");
      var g :- Subscript(body, "geometry");
      AreaResponseRestrictedLossless(body.value.fields);
      Lift(SocioDemographics.DecodeSalesTerritoryResponse(JObj(map["sociodemographic" := s, "areas_covered" := a, "geometry" := g])))
    }

    /**
     * The shared body of the three boundary endpoints: `type` and `features` are
     * read with `.get` and passed on explicitly, so a body with both keys decodes as
     * the schema decodes it, while a body without `type` hands the schema an
     * explicit None, which it rejects instead of applying its default.
     */
    function Boundary(transport: Transport, url: string): (r: Result<SocioDemographics.GeojsonSpec, Error>)
      ensures
        var fetched := Classify(transport(Outbound(url, map["api_key" := JStr(apiKey)])));
        && (fetched.Err? ==> r == Err(fetched.error))
        && (fetched.Ok? && !(fetched.value.Some? && fetched.value.value.JObj?) ==> r == Err(NoGetMethod))
        && (fetched.Ok? && fetched.value.Some? && fetched.value.value.JObj? ==>
              var m := fetched.value.value.fields;
              && ("type" in m && "features" in m ==> r == Lift(SocioDemographics.DecodeGeojsonSpec(fetched.value.value)))
              && ("type" !in m ==> r.Err? && r.error.Invalid? && FieldError([Key("type")], NoneNotAllowed) in r.error.errors)
              && ("features" !in m ==> r.Err? && r.error.Invalid? && FieldError([Key("features")], NoneNotAllowed) in r.error.errors))
    {
      var body :- Fetch(transport, url, defaultParams);
      var _ :- Get(body, "type");
      var picked := Picked(body.value.fields, {"type", "features"});
      var decoded := SocioDemographics.DecodeGeojsonSpec(JObj(picked));
      assert "type" !in body.value.fields ==> decoded.Err? && FieldError([Key("type")], NoneNotAllowed) in decoded.error;
      assert "features" !in body.value.fields ==> decoded.Err? && FieldError([Key("features")], NoneNotAllowed) in decoded.error;
      Lift(decoded)
    }

    function CityBoundary(transport: Transport, city: string): (r: Result<SocioDemographics.GeojsonSpec, Error>)
      ensures r == Boundary(transport, CitiesUrl + "/boundary/" + city)
    {
      Boundary(transport, CitiesUrl + "/boundary/" + city)
    }

    function PlaceBoundary(transport: Transport, city: string, place: string): (r: Result<SocioDemographics.GeojsonSpec, Error>)
      ensures r == Boundary(transport, CitiesUrl + "/places/boundary/" + city + "/" + place)
    {
      Boundary(transport, CitiesUrl + "/places/boundary/" + city + "/" + place)
    }

    function AreaBoundary(transport: Transport, city: string, area: string): (r: Result<SocioDemographics.GeojsonSpec, Error>)
      ensures r == Boundary(transport, CitiesUrl + "/areas/boundary/" + city + "/" + area)
    {
      Boundary(transport, CitiesUrl + "/areas/boundary/" + city + "/" + area)
    }

    // -------------------------------------------------------------------------
    // Validated endpoints

    /**
     * `sales_territory`: one of the two isochrone arguments must be truthy; the
     * arguments are then validated; a time-based territory needs a truthy mode of
     * mobility; time takes precedence over distance. No api_key parameter is sent.
     */
    method SalesTerritory(
      transport: Transport, latitude: real, longitude: real, city: string,
      modeOfMobility: Option<string> := DefaultModeOfMobility,
      timeMinutes: Option<int> := None,
      distanceMeters: Option<int> := None)
      returns (r: Result<SocioDemographics.SalesTerritoryEndpointResponse, Error>)
      ensures !IntTruthy(timeMinutes) && !IntTruthy(distanceMeters) ==> r == Err(IsochroneMissing)
      ensures
        var v := SocioDemographics.ValidateSalesTerritoryRequest(latitude, longitude, city, modeOfMobility, timeMinutes, distanceMeters);
        var base := map[
          "latitude" := JReal(latitude), "longitude" := JReal(longitude), "city" := JStr(city),
          "mode_of_mobility" := OptionJson(modeOfMobility, StrJson)];
        var decode := SocioDemographics.DecodeSalesTerritoryEndpointResponse;
        && (IntTruthy(timeMinutes) || IntTruthy(distanceMeters) ==>
              && (v.Err? ==> r == Err(Invalid(v.error)))
              && (v.Ok? && IntTruthy(timeMinutes) && !StrTruthy(modeOfMobility) ==> r == Err(ModeOfMobilityMissing)))
        && (v.Ok? && IntTruthy(timeMinutes) && StrTruthy(modeOfMobility) ==>
              r == Envelope(Classify(transport(Outbound(
                     SocioDemographicsUrl + "/sales_territory/time",
                     base["time_minutes" := JInt(timeMinutes.value)]))), decode))
        && (v.Ok? && !IntTruthy(timeMinutes) && IntTruthy(distanceMeters) ==>
              r == Envelope(Classify(transport(Outbound(
                     SocioDemographicsUrl + "/sales_territory/distance",
                     base["distance_meters" := JInt(distanceMeters.value)]))), decode))
      ensures r.Ok? ==> IntTruthy(timeMinutes) || IntTruthy(distanceMeters)
      ensures r.Ok? ==> SocioDemographics.CoordinateValid(latitude, longitude)
      ensures r.Ok? && IntTruthy(timeMinutes) ==> 1 <= timeMinutes.value <= 60 && StrTruthy(modeOfMobility)
      ensures r.Ok? && IntTruthy(distanceMeters) ==> 1 <= distanceMeters.value <= 10000
    {
      if !IntTruthy(timeMinutes) && !IntTruthy(distanceMeters) {
        return Err(IsochroneMissing);
      }
      var v := SocioDemographics.ValidateSalesTerritoryRequest(latitude, longitude, city, modeOfMobility, timeMinutes, distanceMeters);
      if v.Err? {
        return Err(Invalid(v.error));
      }
      var url: string;
      var params := map[
        "latitude" := JReal(latitude), "longitude" := JReal(longitude), "city" := JStr(city),
        "mode_of_mobility" := OptionJson(modeOfMobility, StrJson)];
      if IntTruthy(timeMinutes) {
        if !StrTruthy(modeOfMobility) {
          return Err(ModeOfMobilityMissing);
        }
        url := SocioDemographicsUrl + "/sales_territory/time";
        params := params["time_minutes" := JInt(timeMinutes.value)];
      } else {
        url := SocioDemographicsUrl + "/sales_territory/distance";
        params := params["distance_meters" := JInt(distanceMeters.value)];
      }
      r := Envelope(Fetch(transport, url, params), SocioDemographics.DecodeSalesTerritoryEndpointResponse);
    }

    /**
     * `nearby_competition`: the point and the radius are validated; the filters are
     * passed to the request schema under names it does not declare, so they are
     * never validated, and are sent as they are (None as null). No api_key
     * parameter is sent.
     */
    function NearbyCompetition(
      transport: Transport, latitude: real, longitude: real, city: string, commercialType: string,
      radiusMeters: int := DefaultRadiusMeters,
      brandFilters: Option<seq<string>> := None,
      categoryFilters: Option<seq<string>> := None
    ): (r: Result<Competition.CompetitionEndpointResponse, Error>)
      ensures
        var v := Competition.ValidateCompetitionRequest(latitude, longitude, city, commercialType, radiusMeters, None, None);
        && (v.Err? ==> r == Err(Invalid(v.error)))
        && (v.Ok? ==> r == Envelope(Classify(transport(Outbound(
              CompetitionUrl + "/nearby/" + commercialType,
              map[
                "latitude" := JReal(latitude), "longitude" := JReal(longitude), "city" := JStr(city),
                "radius_meters" := JInt(radiusMeters),
                "brand_filters" := OptionJson(brandFilters, StrListJson),
                "category_filters" := OptionJson(categoryFilters, StrListJson)]))),
              Competition.DecodeCompetitionEndpointResponse))
      ensures r.Ok? ==> SocioDemographics.CoordinateValid(latitude, longitude) && 1 <= radiusMeters <= 10000
      ensures r.Ok? ==> SocioDemographics.CoordinateValid(r.value.request.latitude, r.value.request.longitude)
    {
      var _ :- Lift(Competition.ValidateCompetitionRequest(latitude, longitude, city, commercialType, radiusMeters, None, None));
      var params := map[
        "latitude" := JReal(latitude), "longitude" := JReal(longitude), "city" := JStr(city),
        "radius_meters" := JInt(radiusMeters),
        "brand_filters" := OptionJson(brandFilters, StrListJson),
        "category_filters" := OptionJson(categoryFilters, StrListJson)];
      Envelope(Fetch(transport, CompetitionUrl + "/nearby/" + commercialType, params), Competition.DecodeCompetitionEndpointResponse)
    }

    /**
     * The parameters of the three insights endpoints: the truthy filters alone, or
     * the api_key when there is no truthy filter.
     */
    function InsightsParams(categories: Option<seq<string>>, priceRange: Option<int>): (p: map<string, Json>)
      ensures "categories" in p <==> ListTruthy(categories)
      ensures "price_range" in p <==> IntTruthy(priceRange)
      ensures "categories" in p ==> p["categories"] == StrListJson(categories.value)
      ensures "price_range" in p ==> p["price_range"] == JInt(priceRange.value)
      ensures "api_key" in p <==> !ListTruthy(categories) && !IntTruthy(priceRange)
      ensures "api_key" in p ==> p == map["api_key" := JStr(apiKey)]
      ensures p.Keys <= {"api_key", "categories", "price_range"}
    {
      var filters := (if ListTruthy(categories) then map["categories" := StrListJson(categories.value)] else map[])
                   + (if IntTruthy(priceRange) then map["price_range" := JInt(priceRange.value)] else map[]);
      if filters == map[] then defaultParams else filters
    }

    /** The shared body of the insights endpoints, which differ only in their URL and response schema. */
    method Insights<T>(
      transport: Transport, url: string, city: string, commercialType: string,
      categories: Option<seq<string>>, priceRange: Option<int>, decode: Json -> Checked<T>)
      returns (r: Result<T, Error>)
      ensures
        var v := Competition.ValidateGenericInsightsRequest(city, commercialType, categories, priceRange);
        && (v.Err? ==> r == Err(Invalid(v.error)))
        && (v.Ok? ==> r == Envelope(Fetch(transport, url, InsightsParams(categories, priceRange)), decode))
    {
      var v := Competition.ValidateGenericInsightsRequest(city, commercialType, categories, priceRange);
      if v.Err? {
        return Err(Invalid(v.error));
      }
      var params: map<string, Json> := map[];
      if ListTruthy(categories) {
        params := params["categories" := StrListJson(categories.value)];
      }
      if IntTruthy(priceRange) {
        params := params["price_range" := JInt(priceRange.value)];
      }
      assert params == InsightsParams(categories, priceRange) || params == map[];
      r := Envelope(Fetch(transport, url, if params != map[] then params else defaultParams), decode);
    }

    method CategoryInsights(
      transport: Transport, city: string, commercialType: string,
      categories: Option<seq<string>> := None, priceRange: Option<int> := None)
      returns (r: Result<Competition.CategoryInsightsEndpointResponse, Error>)
      ensures priceRange.Some? && priceRange.value < 0 ==>
        r == Err(Invalid([FieldError([Key("price_range")], Rejected(Competition.InvalidPriceRange))]))
      ensures priceRange.None? || priceRange.value >= 0 ==>
        r == Envelope(Classify(transport(Outbound(
               CompetitionUrl + "/insights/categories/" + city + "/" + commercialType,
               InsightsParams(categories, priceRange)))), Competition.DecodeCategoryInsightsEndpointResponse)
      ensures r.Ok? ==> r.value.request.priceRange.None? || r.value.request.priceRange.value >= 0
    {
      r := Insights(transport, CompetitionUrl + "/insights/categories/" + city + "/" + commercialType, city, commercialType, categories, priceRange,
                    Competition.DecodeCategoryInsightsEndpointResponse);
    }

    method BrandInsights(
      transport: Transport, city: string, commercialType: string,
      categories: Option<seq<string>> := None, priceRange: Option<int> := None)
      returns (r: Result<Competition.BrandInsightsEndpointResponse, Error>)
      ensures priceRange.Some? && priceRange.value < 0 ==>
        r == Err(Invalid([FieldError([Key("price_range")], Rejected(Competition.InvalidPriceRange))]))
      ensures priceRange.None? || priceRange.value >= 0 ==>
        r == Envelope(Classify(transport(Outbound(
               CompetitionUrl + "/insights/brands/" + city + "/" + commercialType,
               InsightsParams(categories, priceRange)))), Competition.DecodeBrandInsightsEndpointResponse)
      ensures r.Ok? ==> r.value.request.priceRange.None? || r.value.request.priceRange.value >= 0
    {
      r := Insights(transport, CompetitionUrl + "/insights/brands/" + city + "/" + commercialType, city, commercialType, categories, priceRange,
                    Competition.DecodeBrandInsightsEndpointResponse);
    }

    method AreaInsights(
      transport: Transport, city: string, commercialType: string,
      categories: Option<seq<string>> := None, priceRange: Option<int> := None)
      returns (r: Result<Competition.AreaInsightsEndpointResponse, Error>)
      ensures priceRange.Some? && priceRange.value < 0 ==>
        r == Err(Invalid([FieldError([Key("price_range")], Rejected(Competition.InvalidPriceRange))]))
      ensures priceRange.None? || priceRange.value >= 0 ==>
        r == Envelope(Classify(transport(Outbound(
               CompetitionUrl + "/insights/areas/" + city + "/" + commercialType,
               InsightsParams(categories, priceRange)))), Competition.DecodeAreaInsightsEndpointResponse)
      ensures r.Ok? ==> r.value.request.priceRange.None? || r.value.request.priceRange.value >= 0
    {
      r := Insights(transport, CompetitionUrl + "/insights/areas/" + city + "/" + commercialType, city, commercialType, categories, priceRange,
                    Competition.DecodeAreaInsightsEndpointResponse);
    }

    /** `reverse_geocode`: the point is validated, then sent without an api_key parameter. */
    function ReverseGeocode(transport: Transport, latitude: real, longitude: real): (r: Result<Cities.ReverseGeocodeEndpointResponse, Error>)
      ensures
        var v := Cities.ValidateReverseGeocodeRequest(latitude, longitude);
        && (v.Err? ==> r == Err(Invalid(v.error)))
        && (v.Ok? ==> r == Envelope(Classify(transport(Outbound(
              CitiesUrl + "/reverse_geocode",
              map["latitude" := JReal(latitude), "longitude" := JReal(longitude)]))),
              Cities.DecodeReverseGeocodeEndpointResponse))
      ensures r.Ok? ==> SocioDemographics.CoordinateValid(latitude, longitude)
    {
      var _ :- Lift(Cities.ValidateReverseGeocodeRequest(latitude, longitude));
      Envelope(Fetch(transport, CitiesUrl + "/reverse_geocode", map["latitude" := JReal(latitude), "longitude" := JReal(longitude)]),
               Cities.DecodeReverseGeocodeEndpointResponse)
    }
  }
}
