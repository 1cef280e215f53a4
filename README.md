# Dotlas API client — a verified model

This project models the core of the Dotlas Python API client, written in Dafny.

The client is a class, `App`, with one method per endpoint of the Dotlas location-intelligence API. Its endpoints cover cities, reverse geocoding, socio-demographic statistics, sales territories, nearby competition, and category, brand and area insights. Every method builds the endpoint URL from fixed service paths and its positional arguments, fetches it with a GET and classifies the HTTP status. Beyond that the endpoints fall into three groups:

- the six listings (`list_*`) return the JSON body as it is, with no schema in either direction;
- `city_stats`, `area_stats` and the three boundary endpoints take no request schema, and turn the body into a pydantic response schema;
- `sales_territory`, `nearby_competition`, `reverse_geocode` and the three insights endpoints first validate their arguments with a pydantic request schema, then build the query parameters (on some endpoints by conditional insertion), and turn the body into a pydantic request/response envelope.

The model has eight modules:

- `Wrappers`: `Option` and `Result`.
- `Truthiness`: Python's truthiness of the optional arguments the client tests with `if x:`.
- `Json`:
  - JSON values;
  - the field kinds pydantic uses (required, optional with default None, defaulted to a non-None value);
  - list decoding;
  - error locations;
  - serialisation, used by the round-trip lemmas.
- `Coordinates`: the latitude and longitude validators shared by three request schemas.
- `SocioDemographics`, `Competition`, `Cities`: the three schema files. Each schema is a datatype and a decoder. Each validator is a function whose contract is the range it accepts.
- `Http`:
  - the status classification of `__generic_fetch`;
  - the client's exceptions, one constructor per message;
  - `body["key"]` and `body.get("key")` on a body that may not be a dictionary;
  - the request/response envelope construction.
- `Dotlas`: the `App` class.
  - The configuration set in `__init__` is held in `const` fields.
  - `sales_territory` and the three insights methods build their parameters by in-place insertion. They are `method`s.
  - The other endpoints are single expressions. They are `function`s.

The network is a parameter, `transport: HttpRequest -> HttpOutcome`. Every endpoint's result is stated in terms of the request it sends and the outcome the transport reports for it.

Pydantic v1 semantics are modelled:

- A missing required field is "field required".
- An explicit null on a field whose default is not None is "none is not an allowed value".
- A field declared `= None` accepts a missing value or null as None. Its validator still runs on None; every such validator in these schemas is guarded by truthiness, so None always passes.
- Every field error of a model is collected, each with its location.
- Undeclared keys are ignored.

Consequences of the code worth knowing:

- `price_range = 0` is accepted: the validator at dotlas/schemas/competition.py:139 tests `price_range and price_range < 1`, so 0 passes, and the values accepted are None and every integer ≥ 0.
- `time_minutes`, `distance_meters` and `mode_of_mobility` are only range-checked when truthy (dotlas/schemas/sociodemographics.py:112, 118, 124), so 0 and "" pass.
- Insights `categories` is a list of strings (dotlas/schemas/competition.py:134), kept in the order given.

## Model

| member | source | states |
|---|---|---|
| Json.Items | dotlas/schemas/sociodemographics.py:40 | A `List[T]` field decodes exactly when every element decodes; the result has the same length and holds each element's decoded value in order |
| Json.ItemsReportIndex | dotlas/schemas/sociodemographics.py:40 | An element that fails is reported under its own list index, every one of its errors kept |
| Json.ListRoundTrip | dotlas/schemas/sociodemographics.py:40 | A list of values that each survive serialisation decodes back to itself |
| Json.Required | dotlas/schemas/sociodemographics.py:82-84 | A required field: missing gives "field required", null gives "none is not an allowed value", otherwise the value's own decoding located under the key |
| Json.Optional | dotlas/schemas/sociodemographics.py:85-87 | A field declared `= None`: missing or null gives None; otherwise it succeeds exactly when the value decodes |
| Json.Defaulted | dotlas/schemas/sociodemographics.py:29 | A field with a non-None default: missing gives the default, null is rejected, otherwise the value's decoding |
| Json.ErrorAt | dotlas/schemas/competition.py:168 | An error inside a nested model is reported under the nested model's key |
| Json.RequiredParts | dotlas/schemas/competition.py:81-82 | The two parts of a request/response envelope are both required (each missing one reported); it succeeds exactly when both decode, and each part is what the body's value decodes to |
| Json.Entry | dotlas/schemas/sociodemographics.py:49-78 | A body that omits absent optional fields: an absent field has no key, a present one exactly its serialised value |
| Coordinates.ValidateLatitude | dotlas/schemas/sociodemographics.py:98-102 | Accepts exactly -90 ≤ latitude ≤ 90, returns it unchanged, else "Invalid Coordinate Inputs" at latitude |
| Coordinates.ValidateLongitude | dotlas/schemas/sociodemographics.py:104-108 | Accepts exactly -180 ≤ longitude ≤ 180, returns it unchanged, else "Invalid Coordinate Inputs" at longitude |
| SocioDemographics.CoordinateValid | dotlas/schemas/sociodemographics.py:5-9 | `coordinate_valid` holds exactly when both coordinate validators accept the point |
| SocioDemographics.CoordinateBoundsInclusive | dotlas/schemas/sociodemographics.py:5-9 | The bounds ±90 and ±180 are accepted, values just outside them are not |
| SocioDemographics.DecodeSocioDemographicsCityResponse | dotlas/schemas/sociodemographics.py:12-25 | Decodes exactly a dictionary whose thirteen statistics are each missing, null or of their type; each statistic is None when missing or null and otherwise the value the body holds |
| SocioDemographics.SocioDemographicsCityResponseRoundTrip | dotlas/schemas/sociodemographics.py:12-25 | Every city-statistics record, each of the thirteen statistics present or absent, survives serialisation |
| SocioDemographics.DecodeGeometryModel | dotlas/schemas/sociodemographics.py:28-30 | Decodes only a dictionary with `coordinates` (each missing key reported), keeps the coordinate list as given, and a missing `type` becomes "Polygon" |
| SocioDemographics.DecodeGeometryFeature | dotlas/schemas/sociodemographics.py:34-37 | Decodes only with `geometry` present (else "field required" there), the geometry decoded as a GeometryModel; a missing `type` becomes "Polygon" and a missing or null `properties` None |
| SocioDemographics.DecodeGeojsonSpec | dotlas/schemas/sociodemographics.py:33-40 | Decodes only with `features` present (else "field required" there), each feature decoded in order; a missing `type` becomes "FeatureCollection" |
| SocioDemographics.GeometryFeatureRoundTrip | dotlas/schemas/sociodemographics.py:34-37 | Every feature survives serialisation |
| SocioDemographics.GeojsonSpecRoundTrip | dotlas/schemas/sociodemographics.py:33-40 | Every GeoJSON value, with any number of features, survives serialisation |
| SocioDemographics.GeojsonDefaults | dotlas/schemas/sociodemographics.py:29-40 | A body giving only `features`, any number of them each giving only `geometry.coordinates`, decodes with every `type` defaulted and every `properties` None, in order |
| SocioDemographics.SocioDemographicResponseAllOptional | dotlas/schemas/sociodemographics.py:49-78 | Every part is optional: a body that omits any of demographics, income and household composition, and carries the others, decodes to exactly the parts it carries |
| SocioDemographics.DecodeGeneralStatistical | dotlas/schemas/sociodemographics.py:43-46 | Decodes exactly a dictionary whose value, city and share are each missing, null or a number; each is None when missing or null and otherwise the body's number; an all-null body gives all three None |
| SocioDemographics.DecodePopulationAffluence | dotlas/schemas/sociodemographics.py:51-54 | Decodes exactly when each of the three income bands is missing, null or a decodable statistic; each band is None or the statistic the body holds |
| SocioDemographics.DecodeDemographics | dotlas/schemas/sociodemographics.py:50-60 | Decodes exactly when each of the six population parts is missing, null or decodes; each part is None or what the body holds decodes to |
| SocioDemographics.DecodeIncomeStatistical | dotlas/schemas/sociodemographics.py:63-65 | Decodes exactly when avg and median are each missing, null or decodable statistics; each is None or the statistic the body holds |
| SocioDemographics.DecodeIncome | dotlas/schemas/sociodemographics.py:62-68 | Decodes exactly when household and individual income are each missing, null or decode; each is None or what the body holds decodes to |
| SocioDemographics.DecodeHouseholdComposition | dotlas/schemas/sociodemographics.py:70-73 | Decodes exactly when each of the three household statistics is missing, null or decodable; each is None or the statistic the body holds |
| SocioDemographics.GeneralStatisticalRoundTrip | dotlas/schemas/sociodemographics.py:43-46 | Every statistic, each of value, city and share present or absent, survives serialisation |
| SocioDemographics.PopulationAffluenceRoundTrip | dotlas/schemas/sociodemographics.py:51-54 | Every population-affluence record survives serialisation |
| SocioDemographics.DemographicsRoundTrip | dotlas/schemas/sociodemographics.py:50-60 | Every demographics record survives serialisation |
| SocioDemographics.IncomeStatisticalRoundTrip | dotlas/schemas/sociodemographics.py:63-65 | Every income statistic survives serialisation |
| SocioDemographics.IncomeRoundTrip | dotlas/schemas/sociodemographics.py:62-68 | Every income record survives serialisation |
| SocioDemographics.HouseholdCompositionRoundTrip | dotlas/schemas/sociodemographics.py:70-73 | Every household-composition record survives serialisation |
| SocioDemographics.DecodeSocioDemographicResponse | dotlas/schemas/sociodemographics.py:49-78 | Decodes exactly when demographics, income and household composition are each missing, null or decode; each part is None or what the body holds decodes to |
| SocioDemographics.SocioDemographicResponseRoundTrip | dotlas/schemas/sociodemographics.py:49-78 | Every socio-demographic response, each part present or absent, survives serialisation with absent parts as null |
| SocioDemographics.ValidateTimeMinutes | dotlas/schemas/sociodemographics.py:110-114 | Accepts None, 0 and 1..60, returning the input; rejects any other value with the source's message |
| SocioDemographics.ValidateDistanceMeters | dotlas/schemas/sociodemographics.py:116-120 | Accepts None, 0 and 1..10000, returning the input; rejects any other value with the source's message |
| SocioDemographics.ValidateModeOfMobility | dotlas/schemas/sociodemographics.py:122-128 | Accepts None, "" and exactly "driving" or "walking", returning the input; rejects any other string |
| SocioDemographics.ValidateSalesTerritoryRequest | dotlas/schemas/sociodemographics.py:81-128 | Construction succeeds exactly when the point is valid and each truthy isochrone field is in range; the record holds the arguments unchanged |
| SocioDemographics.SalesTerritoryRequestReportsEachField | dotlas/schemas/sociodemographics.py:98-128 | A rejected request carries each failing field's error, and an error for a field only if that field fails |
| SocioDemographics.SalesTerritoryRequestRoundTrip | dotlas/schemas/sociodemographics.py:81-128 | Decoding a serialised request applies exactly the validation its construction applies |
| SocioDemographics.SalesTerritoryRequestDefaults | dotlas/schemas/sociodemographics.py:82-87 | A body without `latitude`, without `longitude` or without `city` is rejected with "field required" at that key; mode, time and distance default to None |
| SocioDemographics.DecodeSalesTerritoryRequest | dotlas/schemas/sociodemographics.py:81-128 | latitude, longitude and city are required (each missing one reported); whatever decodes is exactly what construction from those values gives, so the same validators ran |
| SocioDemographics.DecodeSalesTerritoryResponse | dotlas/schemas/sociodemographics.py:131-138 | Decodes exactly when sociodemographic, areas_covered and geometry are each missing, null or decode; each is None or what the body holds decodes to |
| SocioDemographics.SalesTerritoryResponseRoundTrip | dotlas/schemas/sociodemographics.py:131-138 | Every sales-territory response survives serialisation |
| SocioDemographics.DecodeSalesTerritoryEndpointResponse | dotlas/schemas/sociodemographics.py:141-143 | Decodes exactly when request and response are each missing, null or decode; each part is None or what the body holds decodes to, and a present echoed request passes construction |
| SocioDemographics.SalesTerritoryEndpointRoundTrip | dotlas/schemas/sociodemographics.py:141-143 | An envelope whose echoed request, when present, is valid decodes back to itself |
| SocioDemographics.SalesTerritoryEnvelopeRevalidates | dotlas/schemas/sociodemographics.py:141-143 | Both envelope parts are optional, and an echoed request decodes exactly when its construction would succeed |
| Competition.PriceBinsRoundTrip | dotlas/schemas/competition.py:4-8 | Every combination of present and absent buckets survives serialisation |
| Competition.DecodePriceBins | dotlas/schemas/competition.py:4-8 | Decodes only a dictionary; all four buckets are optional, absent from an all-null body |
| Competition.PriceBinsAbsentByDefault | dotlas/schemas/competition.py:4-8 | For any body: each bucket that is absent or null decodes to None and each given as an integer to that integer, whatever the others hold; a body whose buckets are all integers or null always decodes |
| Competition.OperatingHoursRoundTrip | dotlas/schemas/competition.py:11-18 | Any seven lists of integers, of any length, survive serialisation |
| Competition.DecodeOperatingHours | dotlas/schemas/competition.py:11-18 | Decodes only a dictionary holding all seven weekdays; each missing weekday is reported as "field required" at that day |
| Competition.ValidateRadiusMeters | dotlas/schemas/competition.py:47-51 | Accepts exactly 1 ≤ radius ≤ 10000, with no truthiness guard, else "Radius Meters not in range of 1 mile" |
| Competition.RadiusBoundaries | dotlas/schemas/competition.py:47-51 | 1 and 10000 are accepted; 0 and 10001 are rejected |
| Competition.ValidateCompetitionRequest | dotlas/schemas/competition.py:22-51 | Construction succeeds exactly when the point is valid and the radius in range; an out-of-range radius is always reported |
| Competition.CompetitionRequestFiltersOptional | dotlas/schemas/competition.py:28-29 | A request without `brands` and `categories` decodes with both absent |
| Competition.DecodeCompetitionRequest | dotlas/schemas/competition.py:22-51 | latitude, longitude, city, commercial_type and radius_meters are required (each missing one reported); whatever decodes is exactly what construction from those values gives |
| Competition.CompetitionRequestRoundTrip | dotlas/schemas/competition.py:22-51 | Decoding a serialised request applies exactly the validation its construction applies |
| Competition.DecodeCompetitionInsights | dotlas/schemas/competition.py:54-59 | price_bins is required (a missing one reported); decodes exactly when the four optional statistics are missing, null or numbers and price_bins decodes; each field is what the body holds, None when missing or null |
| Competition.CompetitionInsightsRoundTrip | dotlas/schemas/competition.py:54-59 | The four statistics, each present or absent, and the price bins survive serialisation |
| Competition.DecodeTopOutlet | dotlas/schemas/competition.py:62-71 | The eight fields other than number_of_reviews are required (each missing one reported) and each is the value the body holds; number_of_reviews is None when missing or null and otherwise the body's integer |
| Competition.TopOutletRoundTrip | dotlas/schemas/competition.py:62-71 | Every outlet survives serialisation, number_of_reviews present or absent |
| Competition.TopOutletsRoundTrip | dotlas/schemas/competition.py:74 | Every list of outlets survives serialisation, in order |
| Competition.DecodeCompetitionData | dotlas/schemas/competition.py:61-76 | operating_hours_outlet_count and operating_hours are required (each missing one reported); decodes exactly when every field decodes; each field is what the body holds, the two top-N lists None when missing or null |
| Competition.CompetitionDataRoundTrip | dotlas/schemas/competition.py:61-76 | Every competition-data value, each top-N list present or absent, survives serialisation |
| Competition.DecodeCompetitionResponse | dotlas/schemas/competition.py:53-79 | insights and data are required (each missing one reported); decodes exactly when both decode, and each part is what the body's value decodes to |
| Competition.CompetitionResponseRoundTrip | dotlas/schemas/competition.py:53-79 | Every competition response survives serialisation |
| Competition.DecodeCompetitionEndpointResponse | dotlas/schemas/competition.py:21-82 | request and response are required (each missing one reported); each part is what the body's value decodes to, and the echoed request satisfies the coordinate and radius rules |
| Competition.CompetitionEndpointRoundTrip | dotlas/schemas/competition.py:21-82 | An envelope whose echoed point and radius are valid decodes back to itself |
| Competition.ValidatePriceRange | dotlas/schemas/competition.py:137-141 | Accepts exactly None and every value ≥ 0, returning it, else "Invalid Price Range" at price_range |
| Competition.ValidateGenericInsightsRequest | dotlas/schemas/competition.py:131-141 | Construction succeeds exactly when price_range is None or ≥ 0, and then holds the arguments unchanged |
| Competition.GenericInsightsRequestRoundTrip | dotlas/schemas/competition.py:131-141 | Decoding a serialised insights request applies exactly the validation its construction applies |
| Competition.DecodeGenericInsightsRequest | dotlas/schemas/competition.py:131-141 | city and commercial_type are required (each missing one reported); whatever decodes is exactly what construction gives, so price_range is None or ≥ 0 |
| Competition.DecodeCategoryInsightsEndpointResponse | dotlas/schemas/competition.py:150-169 | request and response are required (each missing one reported); each part is what the body's value decodes to, and the echoed request's price_range is None or ≥ 0 |
| Competition.CategoryInsightsEndpointRoundTrip | dotlas/schemas/competition.py:150-169 | An envelope whose echoed price_range is None or ≥ 0 decodes back to itself |
| Competition.DecodeCategoryStat | dotlas/schemas/competition.py:152-157 | All five fields are required (each missing one reported) and each is the value the body holds, price_bins decoded as PriceBins |
| Competition.CategoryStatRoundTrip | dotlas/schemas/competition.py:152-157 | Every category statistic survives serialisation |
| Competition.DecodeCategoryPairwiseOccurrence | dotlas/schemas/competition.py:159-162 | All three fields are required (each missing one reported) and each is the value the body holds |
| Competition.CategoryPairwiseOccurrenceRoundTrip | dotlas/schemas/competition.py:159-162 | Every category pair survives serialisation |
| Competition.DecodeCategoryInsights | dotlas/schemas/competition.py:144-166 | All six fields, the three inherited ones included, are required (each missing one reported); the four strings are the body's, and both lists are what the body's lists decode to, element by element |
| Competition.DecodeGenericInsights | dotlas/schemas/competition.py:144-147 | The three inherited strings are required (each missing one reported), each the body's string |
| Competition.GenericInsightsRoundTrip | dotlas/schemas/competition.py:144-147 | Any body carrying the three inherited strings decodes to exactly those strings |
| Competition.CategoryInsightsRoundTrip | dotlas/schemas/competition.py:144-166 | Every category-insights value, including the inherited fields and both lists, survives serialisation |
| Competition.DecodeBrandInsightsEndpointResponse | dotlas/schemas/competition.py:172-191 | request and response are required (each missing one reported); each part is what the body's value decodes to, and the echoed request's price_range is None or ≥ 0 |
| Competition.DecodeBrandStat | dotlas/schemas/competition.py:174-180 | All six fields are required (each missing one reported) and each is the value the body holds, price_bins decoded as PriceBins |
| Competition.DecodeBrandInsights | dotlas/schemas/competition.py:144-188 | Decodes only a dictionary; each of the ten fields, the inherited ones included, is what the body's value for it decodes to |
| Competition.DecodeBrandRankings | dotlas/schemas/competition.py:183-185 | The three brand rankings are required (each missing one reported), each what the body's list decodes to |
| Competition.BrandRankingsRoundTrip | dotlas/schemas/competition.py:183-185 | The three rankings of a serialised brand-insights value decode back to themselves |
| Competition.DecodeAreaInsightsEndpointResponse | dotlas/schemas/competition.py:194-219 | request and response are required (each missing one reported); each part is what the body's value decodes to, and the echoed request's price_range is None or ≥ 0 |
| Competition.DecodeLocalityStat | dotlas/schemas/competition.py:196-212 | The locality key (street, neighborhood or postcode), avg_rating, avg_number_of_reviews and brand_count are required (each missing one reported); the name is the locality key's string and each number the body's |
| Competition.DecodeAreaInsights | dotlas/schemas/competition.py:195-216 | The three locality lists are required (each missing one reported); each list has the body's length and its k-th entry is the body's k-th entry decoded under its own key: street, neighborhood or postcode |
| Competition.LocalityStatRoundTrip | dotlas/schemas/competition.py:196-212 | Every locality statistic survives serialisation under each of the street, neighborhood and postcode keys |
| Competition.LocalityStatsRoundTrip | dotlas/schemas/competition.py:196-212 | Every list of locality statistics survives serialisation under each locality key, in order |
| Competition.AreaInsightsRoundTrip | dotlas/schemas/competition.py:195-216 | Every area-insights value survives serialisation, each list keyed by its own locality |
| Competition.AreaInsightsEndpointRoundTrip | dotlas/schemas/competition.py:194-219 | An envelope whose echoed price_range is None or ≥ 0 decodes back to itself |
| Competition.BrandStatRoundTrip | dotlas/schemas/competition.py:174-180 | Every brand statistic survives serialisation |
| Competition.BrandStatsRoundTrip | dotlas/schemas/competition.py:183-185 | Every list of brand statistics survives serialisation |
| Competition.BrandInsightsRoundTrip | dotlas/schemas/competition.py:144-188 | Every brand-insights value, including the inherited fields, survives serialisation |
| Competition.BrandInsightsEndpointRoundTrip | dotlas/schemas/competition.py:172-191 | An envelope whose request is valid decodes back to itself, every nested field populated |
| Competition.BrandInsightsRequiresEveryField | dotlas/schemas/competition.py:173-188 | Missing any of the ten brand-insights fields is rejected with "field required" at that field |
| Competition.InsightsEnvelopesRecheckPriceRange | dotlas/schemas/competition.py:137-141 | In all three insights envelopes, a negative echoed price_range is rejected at request.price_range, whatever the response holds |
| Cities.ValidateReverseGeocodeRequest | dotlas/schemas/cities.py:6-20 | Construction succeeds exactly when the point is valid, keeps it unchanged, and otherwise reports each bad coordinate |
| Cities.ReverseGeocodeRequestRoundTrip | dotlas/schemas/cities.py:6-20 | Decoding a serialised point applies exactly the validation its construction applies |
| Cities.DecodeReverseGeocodeRequest | dotlas/schemas/cities.py:6-20 | latitude and longitude are required (each missing one reported); whatever decodes is exactly what construction gives, so the point is in range |
| Cities.ReverseGeocodeResponseRoundTrip | dotlas/schemas/cities.py:22-35 | Every reverse-geocode response survives serialisation |
| Cities.LocalityNamesRoundTrip | dotlas/schemas/cities.py:23-28 | Each of the six optional names survives serialisation, present or absent |
| Cities.CountyFieldsRoundTrip | dotlas/schemas/cities.py:29-35 | Each of the seven county and state strings survives serialisation |
| Cities.DecodeReverseGeocodeResponse | dotlas/schemas/cities.py:22-35 | The seven county and state fields are required, each missing one reported as "field required" at that field |
| Cities.ReverseGeocodeLocalitiesOptional | dotlas/schemas/cities.py:23-28 | A body with only the seven required strings decodes, with every locality name absent |
| Cities.DecodeReverseGeocodeEndpointResponse | dotlas/schemas/cities.py:37-38 | request and response are required (each missing one reported); each part is what the body's value decodes to, and the echoed point is in range |
| Cities.ReverseGeocodeEndpointRoundTrip | dotlas/schemas/cities.py:37-38 | An envelope whose echoed point is in range decodes back to itself |
| Http.Classify | dotlas/app.py:61-82 | 200 with a JSON body yields the body; 404 yields its body as the error; 422 and 403 yield their messages; other 4xx/5xx and transport failures yield "Unable to fetch response"; every other status yields None |
| Http.ErrorStatusesFail | dotlas/app.py:66-82 | Every status in [400, 600) fails; only 403, 422 and a 404 with a JSON body escape the "Unable to fetch response" wrapping |
| Http.Subscript | dotlas/app.py:209-211 | `body[key]` is the dictionary's value; a KeyError when the key is absent; a TypeError when the body is not a dictionary |
| Http.Get | dotlas/app.py:173-191 | `body.get(key)` is the value or null; an AttributeError when the body is not a dictionary |
| Http.Envelope | dotlas/app.py:280-283 | A fetch error propagates; `request` and then `response` are looked up with `[]`; the pair is then validated by the envelope schema |
| Dotlas.DefaultsAreValid | dotlas/app.py:214-291 | The default mode "driving" is truthy and valid, and the default radius 500 is in range |
| Dotlas.Picked | dotlas/app.py:172-191 | The repacked dictionary has exactly the listed keys, each holding the body's value or null when absent |
| Dotlas.OptionalPicked | dotlas/app.py:172-191 | A field declared `= None` reads the `.get`-repacked dictionary exactly as it reads the original |
| Dotlas.CityStatisticsPickedLossless | dotlas/app.py:172-192 | Re-reading the thirteen statistics with `.get` gives the schema exactly what it would read from the body itself |
| Dotlas.AreaResponseRestrictedLossless | dotlas/app.py:208-212 | Passing only the three subscripted parts gives the area schema exactly what it would read from the body itself |
| Dotlas.App.constructor | dotlas/app.py:21-40 | The API key is kept, the Authorization header carries it and the default parameters are `{"api_key": key}` |
| Dotlas.App.Outbound | dotlas/app.py:36-64 | Every request is a GET with a 10-second timeout and exactly the headers Accept and Content-Type "application/json" and Authorization the API key |
| Dotlas.App.Fetch | dotlas/app.py:42-82 | Only a 200 with a JSON body yields a body, which is the transport's; every 4xx/5xx fails; a transport failure is "Unable to fetch response" |
| Dotlas.App.ListCommercialTypes | dotlas/app.py:84-92 | GET competition/types with `{"api_key": key}`; the classified body is returned unchanged |
| Dotlas.App.ListCities | dotlas/app.py:94-101 | GET cities with `{"api_key": key}`; the classified body is returned unchanged |
| Dotlas.App.ListPlacesInCity | dotlas/app.py:103-115 | GET cities/places/{city} with `{"api_key": key}`; the classified body is returned unchanged |
| Dotlas.App.ListAreasInCity | dotlas/app.py:117-128 | GET cities/areas/{city} with `{"api_key": key}`; the classified body is returned unchanged |
| Dotlas.App.ListCommercialBrands | dotlas/app.py:130-142 | GET competition/brands/{city}/{type} with `{"api_key": key}`; the classified body is returned unchanged |
| Dotlas.App.ListCommercialCategories | dotlas/app.py:144-157 | GET competition/categories/{city}/{type} with `{"api_key": key}`; the classified body is returned unchanged |
| Dotlas.App.CityStats | dotlas/app.py:159-192 | A dictionary body decodes exactly as the city-statistics schema decodes it; any other body is an AttributeError; fetch errors propagate |
| Dotlas.App.AreaStats | dotlas/app.py:194-212 | A body lacking sociodemographic, areas_covered or geometry (in that order) is a KeyError, although the schema makes them optional; otherwise the schema decodes the body |
| Dotlas.App.Boundary | dotlas/app.py:486-534 | A body with `type` and `features` decodes as the GeoJSON schema decodes it; a missing `type` or `features` is passed on as None and rejected |
| Dotlas.App.CityBoundary | dotlas/app.py:486-500 | The boundary rules, at cities/boundary/{city} |
| Dotlas.App.PlaceBoundary | dotlas/app.py:502-517 | The boundary rules, at cities/places/boundary/{city}/{place} |
| Dotlas.App.AreaBoundary | dotlas/app.py:519-534 | The boundary rules, at cities/areas/boundary/{city}/{area} |
| Dotlas.App.SalesTerritory | dotlas/app.py:214-283 | Listed after this table |
| Dotlas.App.NearbyCompetition | dotlas/app.py:285-333 | Only the point and radius are validated (the filters are not); then GET competition/nearby/{type} with exactly the six keys and no api_key; a result implies a valid point and radius |
| Dotlas.App.InsightsParams | dotlas/app.py:364-371 | `categories` is sent exactly when non-empty and `price_range` exactly when non-zero; `api_key` is sent exactly when neither is, and then the parameters are `{"api_key": key}` alone |
| Dotlas.App.Insights | dotlas/app.py:355-376 | Validation failure is returned before any request; otherwise the envelope of the fetch with `InsightsParams` |
| Dotlas.App.CategoryInsights | dotlas/app.py:335-376 | A negative price_range fails before any request; otherwise GET competition/insights/categories/{city}/{type} with `InsightsParams` |
| Dotlas.App.BrandInsights | dotlas/app.py:378-417 | As CategoryInsights, at competition/insights/brands/{city}/{type} |
| Dotlas.App.AreaInsights | dotlas/app.py:419-459 | As CategoryInsights, at competition/insights/areas/{city}/{type} |
| Dotlas.App.ReverseGeocode | dotlas/app.py:461-484 | An invalid point fails before any request; otherwise GET cities/reverse_geocode with only latitude and longitude; a result implies a valid point |

`Dotlas.App.SalesTerritory` states the following:

- Neither isochrone argument truthy: "Either time_minutes or distance_meters …", before any validation.
- Otherwise, the validation errors.
- Otherwise, a truthy time with a falsy mode: the missing-mode error.
- Otherwise, a truthy time: the time route, adding `time_minutes` but never `distance_meters`.
- Otherwise: the distance route, adding `distance_meters`.
- Both routes send latitude, longitude, city and mode_of_mobility (null when None) and no api_key.
- A result implies that every rule held.

## Left out

- The HTTP transport (`requests.request`, the connection, the 10-second timeout's effect) is a parameter. A transport exception is one outcome, `TransportFailed`.
- The JSON text of a body is not modelled. A body is either a JSON value or "not JSON"; `response.json()` failing on the latter is reported as "Unable to fetch response". This matches requests ≥ 2.27, where that error is a RequestException.
- The text of "404: {body}" and "Unable to fetch response: {exc}" is not rendered. The errors carry the body and the cause instead.
- Every exception the client raises is a ValueError differing only by message. The model keeps one `Http.Error` constructor per message, and pydantic's ValidationError as `Invalid` with its field errors.
- Pydantic type coercion is not modelled. Examples: "5" to 5, a float truncated to an int, a tuple to a list. Only a JSON integer for a `float` field is accepted.
- `requests` leaves query parameters whose value is None out of the URL. The model keeps them in the parameter map as null (sales_territory's mode_of_mobility, nearby_competition's filters).
- `__generic_fetch`'s `request_type` argument is always GET at every call site. Other verbs are not modelled.
- Response statistics (incomes, ratings, percentiles) are carried values with no arithmetic. They are `real` or `int`, and no floating-point behaviour is modelled.
- GeoJSON geometric validity is not checked by the source. `coordinates` is an untyped list, kept as JSON.
- Schemas the client never uses are not modelled: `SalesTerritoryCompare*` (dotlas/schemas/sociodemographics.py:146-169), `CompetitionCityEndpointResponse` and the `CompetitionDiscovery*` classes (dotlas/schemas/competition.py:85-128). They are field-presence shapes with no rules.
- The unused `multiprocessing.sharedctypes` import, setup.py and the mock test harness are not part of this model.
- Competition.DecodeBrandInsights: states each of the ten fields' values but not, in its own contract, that a decoded body held all ten keys and that each missing one is reported; the solver does not close that ten-way quantifier within the resource limit. Competition.BrandInsightsRequiresEveryField states it field by field instead.
- Competition.LocalityStatRoundTrip, Competition.LocalityStatsRoundTrip: stated for the three locality keys the schemas use (street, neighborhood, postcode); another key that collides with a statistic's own key would not round-trip.
- Dotlas.App.ListCommercialTypes, Dotlas.App.ListCities, Dotlas.App.ListPlacesInCity, Dotlas.App.ListAreasInCity, Dotlas.App.ListCommercialBrands, Dotlas.App.ListCommercialCategories: these state the URL in terms of the three service prefixes (`SocioDemographicsUrl`, `CompetitionUrl`, `CitiesUrl`, each `BaseUrl` plus its segment) rather than as one spelled-out string.
