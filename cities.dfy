/** The reverse-geocode schemas: a validated point in, a county and its surroundings out. */
module Cities {
  import opened Wrappers
  import opened Json
  import opened Coordinates

  datatype ReverseGeocodeRequest = ReverseGeocodeRequest(latitude: real, longitude: real)

  /** Constructing a ReverseGeocodeRequest: accepted exactly when the point is in range, reporting each bad coordinate. */
  function ValidateReverseGeocodeRequest(latitude: real, longitude: real): (r: Checked<ReverseGeocodeRequest>)
    ensures r.Ok? <==> -90.0 <= latitude <= 90.0 && -180.0 <= longitude <= 180.0
    ensures r.Ok? ==> r.value == ReverseGeocodeRequest(latitude, longitude)
    ensures r.Err? ==> r.error == Errors(ValidateLatitude(latitude)) + Errors(ValidateLongitude(longitude))
  {
    AssembleReverseGeocodeRequest(ValidateLatitude(latitude), ValidateLongitude(longitude))
  }

  function AssembleReverseGeocodeRequest(latitude: Checked<real>, longitude: Checked<real>): Checked<ReverseGeocodeRequest> {
    if latitude.Ok? && longitude.Ok? then Ok(ReverseGeocodeRequest(latitude.value, longitude.value))
    else Err(Errors(latitude) + Errors(longitude))
  }

  /** Decoding the echoed point: both coordinates required, then the same validators as construction. */
  function DecodeReverseGeocodeRequest(j: Json): (r: Checked<ReverseGeocodeRequest>)
    ensures RequiresKeys(j, {"latitude", "longitude"}, r)
    ensures r.Ok? ==> ValidateReverseGeocodeRequest(r.value.latitude, r.value.longitude) == r
  {
    if !j.JObj? then TypeMismatch("dict")
    else
      AssembleReverseGeocodeRequest(
        Then(Required(j.fields, "latitude", AsFloat), ValidateLatitude),
        Then(Required(j.fields, "longitude", AsFloat), ValidateLongitude))
  }

  function EncodeReverseGeocodeRequest(q: ReverseGeocodeRequest): Json {
    JObj(map["latitude" := JReal(q.latitude), "longitude" := JReal(q.longitude)])
  }

  /** Decoding a serialised request applies exactly the validation its construction applies. */
  lemma ReverseGeocodeRequestRoundTrip(q: ReverseGeocodeRequest)
    ensures DecodeReverseGeocodeRequest(EncodeReverseGeocodeRequest(q)) == ValidateReverseGeocodeRequest(q.latitude, q.longitude)
  {
  }

  /** Six optional names (the place may lie outside any neighbourhood, place or urban area) and seven required county and state fields. */
  datatype ReverseGeocodeResponse = ReverseGeocodeResponse(
    nbdName: Option<string>,
    placeCode: Option<string>,
    placeName: Option<string>,
    placeNameComplete: Option<string>,
    urbanAreaName: Option<string>,
    urbanAreaNameComplete: Option<string>,
    countyGeoId: string,
    countyName: string,
    countyNameComplete: string,
    stateCode: string,
    stateName: string,
    statePostcode: string,
    countyCode: string)

  const OptionalLocalityFields: set<string> := {
    "nbd_name", "place_code", "place_name", "place_name_complete", "urban_area_name", "urban_area_name_complete"}

  const RequiredCountyFields: set<string> := {
    "county_geo_id", "county_name", "county_name_complete", "state_code", "state_name", "state_postcode", "county_code"}

  /** The seven county and state strings are required; a missing one is reported as missing. */
  function DecodeReverseGeocodeResponse(j: Json): (r: Checked<ReverseGeocodeResponse>)
    ensures RequiresKeys(j, RequiredCountyFields, r)
  {
    if !j.JObj? then TypeMismatch("dict")
    else
      var m := j.fields;
      var nb := Optional(m, "nbd_name", AsStr);
      var pc := Optional(m, "place_code", AsStr);
      var pn := Optional(m, "place_name", AsStr);
      var px := Optional(m, "place_name_complete", AsStr);
      var un := Optional(m, "urban_area_name", AsStr);
      var ux := Optional(m, "urban_area_name_complete", AsStr);
      var cg := Required(m, "county_geo_id", AsStr);
      var cn := Required(m, "county_name", AsStr);
      var cx := Required(m, "county_name_complete", AsStr);
      var sc := Required(m, "state_code", AsStr);
      var sn := Required(m, "state_name", AsStr);
      var sp := Required(m, "state_postcode", AsStr);
      var cc := Required(m, "county_code", AsStr);
      if nb.Ok? && pc.Ok? && pn.Ok? && px.Ok? && un.Ok? && ux.Ok?
         && cg.Ok? && cn.Ok? && cx.Ok? && sc.Ok? && sn.Ok? && sp.Ok? && cc.Ok?
      then Ok(ReverseGeocodeResponse(nb.value, pc.value, pn.value, px.value, un.value, ux.value,
                                     cg.value, cn.value, cx.value, sc.value, sn.value, sp.value, cc.value))
      else Err(Errors(nb) + Errors(pc) + Errors(pn) + Errors(px) + Errors(un) + Errors(ux)
               + Errors(cg) + Errors(cn) + Errors(cx) + Errors(sc) + Errors(sn) + Errors(sp) + Errors(cc))
  }

  function EncodeReverseGeocodeResponse(g: ReverseGeocodeResponse): Json {
    JObj(map[
      "nbd_name" := OptionJson(g.nbdName, StrJson),
      "place_code" := OptionJson(g.placeCode, StrJson),
      "place_name" := OptionJson(g.placeName, StrJson),
      "place_name_complete" := OptionJson(g.placeNameComplete, StrJson),
      "urban_area_name" := OptionJson(g.urbanAreaName, StrJson),
      "urban_area_name_complete" := OptionJson(g.urbanAreaNameComplete, StrJson),
      "county_geo_id" := JStr(g.countyGeoId),
      "county_name" := JStr(g.countyName),
      "county_name_complete" := JStr(g.countyNameComplete),
      "state_code" := JStr(g.stateCode),
      "state_name" := JStr(g.stateName),
      "state_postcode" := JStr(g.statePostcode),
      "county_code" := JStr(g.countyCode)])
  }

  lemma ReverseGeocodeResponseRoundTrip(g: ReverseGeocodeResponse)
    ensures DecodeReverseGeocodeResponse(EncodeReverseGeocodeResponse(g)) == Ok(g)
  {
    LocalityNamesRoundTrip(g);
    CountyFieldsRoundTrip(g);
  }

  lemma LocalityNamesRoundTrip(g: ReverseGeocodeResponse)
    ensures
      var m := EncodeReverseGeocodeResponse(g).fields;
      && Optional(m, "nbd_name", AsStr) == Ok(g.nbdName)
      && Optional(m, "place_code", AsStr) == Ok(g.placeCode)
      && Optional(m, "place_name", AsStr) == Ok(g.placeName)
      && Optional(m, "place_name_complete", AsStr) == Ok(g.placeNameComplete)
      && Optional(m, "urban_area_name", AsStr) == Ok(g.urbanAreaName)
      && Optional(m, "urban_area_name_complete", AsStr) == Ok(g.urbanAreaNameComplete)
  {
    var m := EncodeReverseGeocodeResponse(g).fields;
    OptionalOk(m, "nbd_name", StrJson, AsStr, g.nbdName);
    OptionalOk(m, "place_code", StrJson, AsStr, g.placeCode);
    OptionalOk(m, "place_name", StrJson, AsStr, g.placeName);
    OptionalOk(m, "place_name_complete", StrJson, AsStr, g.placeNameComplete);
    OptionalOk(m, "urban_area_name", StrJson, AsStr, g.urbanAreaName);
    OptionalOk(m, "urban_area_name_complete", StrJson, AsStr, g.urbanAreaNameComplete);
  }

  lemma CountyFieldsRoundTrip(g: ReverseGeocodeResponse)
    ensures
      var m := EncodeReverseGeocodeResponse(g).fields;
      && Required(m, "county_geo_id", AsStr) == Ok(g.countyGeoId)
      && Required(m, "county_name", AsStr) == Ok(g.countyName)
      && Required(m, "county_name_complete", AsStr) == Ok(g.countyNameComplete)
      && Required(m, "state_code", AsStr) == Ok(g.stateCode)
      && Required(m, "state_name", AsStr) == Ok(g.stateName)
      && Required(m, "state_postcode", AsStr) == Ok(g.statePostcode)
      && Required(m, "county_code", AsStr) == Ok(g.countyCode)
  {
    var m := EncodeReverseGeocodeResponse(g).fields;
    RequiredOk(m, "county_geo_id", AsStr, g.countyGeoId);
    RequiredOk(m, "county_name", AsStr, g.countyName);
    RequiredOk(m, "county_name_complete", AsStr, g.countyNameComplete);
    RequiredOk(m, "state_code", AsStr, g.stateCode);
    RequiredOk(m, "state_name", AsStr, g.stateName);
    RequiredOk(m, "state_postcode", AsStr, g.statePostcode);
    RequiredOk(m, "county_code", AsStr, g.countyCode);
  }

  /**
   * The locality names may all be absent: a response holding only the seven
   * county and state strings decodes, with every locality name None.
   */
  lemma ReverseGeocodeLocalitiesOptional(m: map<string, Json>)
    requires forall k :: k in RequiredCountyFields ==> k in m && m[k].JStr?
    requires forall k :: k in OptionalLocalityFields ==> k !in m
    ensures DecodeReverseGeocodeResponse(JObj(m)).Ok?
    ensures
      var g := DecodeReverseGeocodeResponse(JObj(m)).value;
      g.nbdName == g.placeCode == g.placeName == g.placeNameComplete == g.urbanAreaName == g.urbanAreaNameComplete == None
      && g.countyName == m["county_name"].s && g.stateCode == m["state_code"].s && g.countyCode == m["county_code"].s
  {
  }

  datatype ReverseGeocodeEndpointResponse = ReverseGeocodeEndpointResponse(
    request: ReverseGeocodeRequest, response: ReverseGeocodeResponse)

  /** Both parts are required, each decoded by its own schema, and the echoed point is validated again. */
  function DecodeReverseGeocodeEndpointResponse(j: Json): (r: Checked<ReverseGeocodeEndpointResponse>)
    ensures RequiresKeys(j, {"request", "response"}, r)
    ensures r.Ok? ==>
      && RequiredHolds(j.fields, "request", DecodeReverseGeocodeRequest, r.value.request)
      && RequiredHolds(j.fields, "response", DecodeReverseGeocodeResponse, r.value.response)
    ensures r.Ok? ==> -90.0 <= r.value.request.latitude <= 90.0 && -180.0 <= r.value.request.longitude <= 180.0
  {
    var parts :- RequiredParts(j, DecodeReverseGeocodeRequest, DecodeReverseGeocodeResponse);
    Ok(ReverseGeocodeEndpointResponse(parts.0, parts.1))
  }

  function EncodeReverseGeocodeEndpointResponse(e: ReverseGeocodeEndpointResponse): Json {
    JObj(map["request" := EncodeReverseGeocodeRequest(e.request), "response" := EncodeReverseGeocodeResponse(e.response)])
  }

  /** A reverse-geocode envelope whose echoed point is in range decodes back to itself. */
  lemma ReverseGeocodeEndpointRoundTrip(e: ReverseGeocodeEndpointResponse)
    requires -90.0 <= e.request.latitude <= 90.0 && -180.0 <= e.request.longitude <= 180.0
    ensures DecodeReverseGeocodeEndpointResponse(EncodeReverseGeocodeEndpointResponse(e)) == Ok(e)
  {
    var m := EncodeReverseGeocodeEndpointResponse(e).fields;
    ReverseGeocodeRequestRoundTrip(e.request);
    RequiredOk(m, "request", DecodeReverseGeocodeRequest, e.request);
    ReverseGeocodeResponseRoundTrip(e.response);
    RequiredOk(m, "response", DecodeReverseGeocodeResponse, e.response);
  }
}
