/**
 * The client's view of one HTTP exchange and the status classification of
 * `App.__generic_fetch`. The network is not modelled: a transport is any function
 * from the request sent to the outcome observed.
 */
module Http {
  import opened Wrappers
  import opened Json

  /** Why a fetch raised "Unable to fetch response: ...". */
  datatype FetchFailure =
    | Transport            // connection error, timeout or any other request exception
    | HttpStatus(status: int) // raise_for_status on a 4xx/5xx status without a dedicated message
    | BodyNotJson          // `response.json()` could not decode the body

  /** Every way a client call can fail, with the message the client raises. */
  datatype Error =
    | IsochroneMissing             // "Either time_minutes or distance_meters parameters must be specified"
    | ModeOfMobilityMissing        // "`Mode of Mobility` parameter must be provided for time-based sales territory derivation"
    | Invalid(errors: seq<FieldError>) // a schema rejected the arguments or the response body
    | NotFound(body: Json)         // "404: {body}"
    | ServerValidation             // "Validation Error - Check params or body"
    | InvalidApiKey                // "Invalid API Key"
    | FetchFailed(cause: FetchFailure)
    | NotSubscriptable             // TypeError: `body["key"]` on a body that is not a dictionary
    | KeyMissing(key: string)      // KeyError: `body["key"]` on a dictionary without that key
    | NoGetMethod                  // AttributeError: `body.get(...)` on a body that is not a dictionary

  /** What the client hands to the transport. */
  datatype HttpRequest = HttpRequest(
    verb: string,
    url: string,
    params: map<string, Json>,
    headers: map<string, string>,
    timeoutSeconds: int)

  /** A response (its body None when it is not JSON), or a failure of the transport itself. */
  datatype HttpOutcome = Responded(status: int, body: Option<Json>) | TransportFailed

  type Transport = HttpRequest -> HttpOutcome

  /** The statuses `raise_for_status` turns into an HTTPError. */
  predicate RaisesForStatus(status: int) {
    400 <= status < 600
  }

  /**
   * `__generic_fetch` after the request: 200 yields the decoded body; 404, 422 and
   * 403 raise their own messages; every other 4xx/5xx raises through
   * `raise_for_status`; any other status falls off the end and yields None.
   */
  function Classify(o: HttpOutcome): (r: Result<Option<Json>, Error>)
    ensures r.Ok? && r.value.Some? <==> o.Responded? && o.status == 200 && o.body.Some?
    ensures r.Ok? && r.value.Some? ==> r.value.value == o.body.value
    ensures r == Ok(None) <==> o.Responded? && o.status != 200 && !RaisesForStatus(o.status)
    ensures o.TransportFailed? ==> r == Err(FetchFailed(Transport))
    ensures o.Responded? && o.status == 404 && o.body.Some? ==> r == Err(NotFound(o.body.value))
    ensures o.Responded? && o.status in {200, 404} && o.body.None? ==> r == Err(FetchFailed(BodyNotJson))
    ensures o.Responded? && o.status == 422 ==> r == Err(ServerValidation)
    ensures o.Responded? && o.status == 403 ==> r == Err(InvalidApiKey)
    ensures o.Responded? && o.status !in {200, 403, 404, 422} && RaisesForStatus(o.status)
      ==> r == Err(FetchFailed(HttpStatus(o.status)))
  {
    match o
    case TransportFailed => Err(FetchFailed(Transport))
    case Responded(status, body) =>
      if status == 200 then
        if body.Some? then Ok(body) else Err(FetchFailed(BodyNotJson))
      else if status == 404 then
        if body.Some? then Err(NotFound(body.value)) else Err(FetchFailed(BodyNotJson))
      else if status == 422 then Err(ServerValidation)
      else if status == 403 then Err(InvalidApiKey)
      else if RaisesForStatus(status) then Err(FetchFailed(HttpStatus(status)))
      else Ok(None)
  }

  /** Every client and server error status fails the fetch, whatever the body. */
  lemma ErrorStatusesFail(status: int, body: Option<Json>)
    requires RaisesForStatus(status)
    ensures Classify(Responded(status, body)).Err?
    ensures Classify(Responded(status, body)).error.FetchFailed? <==> status !in {403, 422} && (status != 404 || body.None?)
  {
  }

  /** `body["key"]`: the value under `key` of a dictionary body. */
  function Subscript(body: Option<Json>, key: string): (r: Result<Json, Error>)
    ensures r.Ok? <==> body.Some? && body.value.JObj? && key in body.value.fields
    ensures r.Ok? ==> r.value == body.value.fields[key]
    ensures body.Some? && body.value.JObj? && key !in body.value.fields ==> r == Err(KeyMissing(key))
    ensures !(body.Some? && body.value.JObj?) ==> r == Err(NotSubscriptable)
  {
    if body.Some? && body.value.JObj? then
      if key in body.value.fields then Ok(body.value.fields[key]) else Err(KeyMissing(key))
    else Err(NotSubscriptable)
  }

  /** `body.get("key")`: the value under `key` of a dictionary body, None (null) when absent. */
  function Get(body: Option<Json>, key: string): (r: Result<Json, Error>)
    ensures r.Ok? <==> body.Some? && body.value.JObj?
    ensures r.Ok? && key in body.value.fields ==> r.value == body.value.fields[key]
    ensures r.Ok? && key !in body.value.fields ==> r.value == JNull
    ensures r.Err? ==> r.error == NoGetMethod
  {
    if body.Some? && body.value.JObj? then
      Ok(if key in body.value.fields then body.value.fields[key] else JNull)
    else Err(NoGetMethod)
  }

  /** A schema's rejection becomes the client's error; an accepted value is returned. */
  function Lift<T>(c: Checked<T>): (r: Result<T, Error>)
    ensures r.Ok? <==> c.Ok?
    ensures c.Ok? ==> r.value == c.value
    ensures c.Err? ==> r.error == Invalid(c.error)
  {
    if c.Ok? then Ok(c.value) else Err(Invalid(c.error))
  }

  /**
   * `Envelope(request=body["request"], response=body["response"])`: both keys are
   * looked up first (so a missing one is a KeyError even when the schema makes it
   * optional), and the pair is then validated by the envelope schema.
   */
  function Envelope<T>(fetched: Result<Option<Json>, Error>, decode: Json -> Checked<T>): (r: Result<T, Error>)
    ensures fetched.Err? ==> r == Err(fetched.error)
    ensures fetched.Ok? && fetched.value.Some? && fetched.value.value.JObj? ==>
      var m := fetched.value.value.fields;
      && ("request" !in m ==> r == Err(KeyMissing("request")))
      && ("request" in m && "response" !in m ==> r == Err(KeyMissing("response")))
      && ("request" in m && "response" in m ==>
            r == Lift(decode(JObj(map["request" := m["request"], "response" := m["response"]]))))
    ensures fetched.Ok? && !(fetched.value.Some? && fetched.value.value.JObj?) ==> r == Err(NotSubscriptable)
  {
    match fetched
    case Err(e) => Err(e)
    case Ok(body) =>
      var q :- Subscript(body, "request");
      var s :- Subscript(body, "response");
      Lift(decode(JObj(map["request" := q, "response" := s])))
  }
}
