/**
 * JSON values as the client sees them (the result of `response.json()`, and the
 * Python values it puts in a request's `params`), and the pydantic-style
 * decoding of a JSON value into a typed record.
 *
 * Decoding follows pydantic's rules for the field kinds the schemas use:
 *  - a required field (`x: T`) that is missing fails with "field required", and one
 *    that is null fails with "none is not an allowed value";
 *  - an optional field (`x: T = None`) that is missing or null decodes to None;
 *  - a field with a non-None default (`x: str = "Polygon"`) takes the default when it
 *    is missing and, like a required field, rejects null;
 *  - every field of a record is checked and ALL the errors are reported, each with
 *    the location of the offending value;
 *  - keys the schema does not declare are ignored.
 */
module Json {
  import opened Wrappers

  datatype Json =
    | JNull
    | JBool(b: bool)
    | JInt(i: int)
    | JReal(r: real)
    | JStr(s: string)
    | JArr(items: seq<Json>)
    | JObj(fields: map<string, Json>)

  /** One step of the path to an offending value: a dictionary key or a list index. */
  datatype Loc = Key(name: string) | Index(i: nat)

  datatype Issue =
    | Missing                     // "field required"
    | NoneNotAllowed              // "none is not an allowed value"
    | WrongType(expected: string) // the value is not of the declared type
    | Rejected(message: string)   // a validator raised ValueError(message)

  datatype FieldError = FieldError(loc: seq<Loc>, issue: Issue)

  /** The outcome of validating or decoding: a value, or every error found. */
  type Checked<T> = Result<T, seq<FieldError>>

  type Decoder<T> = Json -> Checked<T>

  function Errors<T>(r: Checked<T>): seq<FieldError> {
    if r.Ok? then [] else r.error
  }

  /** The error of a one-field validator, located at that field. */
  function Reject<T>(field: string, message: string): Checked<T> {
    Err([FieldError([Key(field)], Rejected(message))])
  }

  function TypeMismatch<T>(expected: string): Checked<T> {
    Err([FieldError([], WrongType(expected))])
  }

  /** Locates every error of `r` under `loc`. */
  function At<T>(loc: Loc, r: Checked<T>): (r': Checked<T>)
    ensures r'.Ok? <==> r.Ok?
    ensures r.Ok? ==> r' == r
    ensures r.Err? ==> |r'.error| == |r.error|
    ensures r.Err? ==> forall k :: 0 <= k < |r.error| ==> r'.error[k] == FieldError([loc] + r.error[k].loc, r.error[k].issue)
  {
    match r
    case Ok(v) => Ok(v)
    case Err(es) => Err(seq(|es|, k requires 0 <= k < |es| => FieldError([loc] + es[k].loc, es[k].issue)))
  }

  /** An error found inside a value is reported under that value's location. */
  lemma ErrorAt<T>(loc: Loc, r: Checked<T>, e: FieldError)
    requires r.Err? && e in r.error
    ensures At(loc, r).Err? && FieldError([loc] + e.loc, e.issue) in At(loc, r).error
  {
    var k :| 0 <= k < |r.error| && r.error[k] == e;
    assert At(loc, r).error[k] == FieldError([loc] + e.loc, e.issue);
  }

  function AsStr(j: Json): (r: Checked<string>)
    ensures r.Ok? <==> j.JStr?
    ensures r.Ok? ==> r.value == j.s
  {
    if j.JStr? then Ok(j.s) else TypeMismatch("str")
  }

  function AsInt(j: Json): (r: Checked<int>)
    ensures r.Ok? <==> j.JInt?
    ensures r.Ok? ==> r.value == j.i
  {
    if j.JInt? then Ok(j.i) else TypeMismatch("int")
  }

  /** A `float` field accepts a JSON integer as well as a JSON real. */
  function AsFloat(j: Json): (r: Checked<real>)
    ensures r.Ok? <==> j.JInt? || j.JReal?
    ensures j.JReal? ==> r == Ok(j.r)
    ensures j.JInt? ==> r == Ok(j.i as real)
  {
    match j
    case JInt(i) => Ok(i as real)
    case JReal(x) => Ok(x)
    case _ => TypeMismatch("float")
  }

  function AsDict(j: Json): (r: Checked<map<string, Json>>)
    ensures r.Ok? <==> j.JObj?
    ensures r.Ok? ==> r.value == j.fields
  {
    if j.JObj? then Ok(j.fields) else TypeMismatch("dict")
  }

  /** An untyped `list` field: any JSON array, kept as it is. */
  function AsAnyList(j: Json): (r: Checked<seq<Json>>)
    ensures r.Ok? <==> j.JArr?
    ensures r.Ok? ==> r.value == j.items
  {
    if j.JArr? then Ok(j.items) else TypeMismatch("list")
  }

  /**
   * Decodes every element of `xs` with `f`; element k's errors are reported at index
   * `from + k` (ItemsReportIndex).
   * The result holds the decoded elements in order exactly when every element decodes.
   */
  function Items<T>(xs: seq<Json>, f: Decoder<T>, from: nat): (r: Checked<seq<T>>)
    ensures r.Ok? <==> forall k :: 0 <= k < |xs| ==> f(xs[k]).Ok?
    ensures r.Ok? ==> |r.value| == |xs| && forall k :: 0 <= k < |xs| ==> f(xs[k]) == Ok(r.value[k])
    decreases |xs|
  {
    if xs == [] then Ok([])
    else
      var head := At(Index(from), f(xs[0]));
      var tail := Items(xs[1..], f, from + 1);
      assert forall k :: 1 <= k < |xs| ==> xs[k] == xs[1..][k - 1];
      if head.Ok? && tail.Ok? then Ok([head.value] + tail.value)
      else Err(Errors(head) + Errors(tail))
  }

  /** An element's errors are reported under its index, counted from `from`. */
  lemma {:induction false} ItemsReportIndex<T>(xs: seq<Json>, f: Decoder<T>, from: nat, k: nat, e: FieldError)
    requires k < |xs| && f(xs[k]).Err? && e in f(xs[k]).error
    ensures Items(xs, f, from).Err?
    ensures FieldError([Index(from + k)] + e.loc, e.issue) in Items(xs, f, from).error
    decreases k
  {
    if k == 0 {
      ErrorAt(Index(from), f(xs[0]), e);
    } else {
      assert xs[1..][k - 1] == xs[k];
      ItemsReportIndex(xs[1..], f, from + 1, k - 1, e);
    }
  }

  /** A `List[T]` field. */
  function AsList<T>(j: Json, f: Decoder<T>): (r: Checked<seq<T>>)
    ensures r.Ok? ==> j.JArr?
    ensures j.JArr? ==> r == Items(j.items, f, 0)
  {
    if j.JArr? then Items(j.items, f, 0) else TypeMismatch("list")
  }

  function AsStrList(j: Json): Checked<seq<string>> {
    AsList(j, AsStr)
  }

  function AsIntList(j: Json): Checked<seq<int>> {
    AsList(j, AsInt)
  }

  /** A required field decodes when it is present, not null, and its value decodes. */
  predicate RequiredDecodes<T>(m: map<string, Json>, key: string, f: Decoder<T>) {
    key in m && m[key] != JNull && f(m[key]).Ok?
  }

  /** A required field's decoded value `v` is what the value under `key` decodes to. */
  ghost predicate RequiredHolds<T>(m: map<string, Json>, key: string, f: Decoder<T>, v: T) {
    key in m && m[key] != JNull && f(m[key]) == Ok(v)
  }

  /** An optional field decodes when it is missing, null, or its value decodes. */
  predicate OptionalDecodes<T>(m: map<string, Json>, key: string, f: Decoder<T>) {
    key !in m || m[key] == JNull || f(m[key]).Ok?
  }

  /**
   * An optional field's decoded value `o` is None when the key is missing or null,
   * and otherwise what the value under `key` decodes to.
   */
  ghost predicate OptionalHolds<T>(m: map<string, Json>, key: string, f: Decoder<T>, o: Option<T>) {
    && (key !in m || m[key] == JNull ==> o == None)
    && (key in m && m[key] != JNull ==> o.Some? && f(m[key]) == Ok(o.value))
  }

  /** A required field `key: T`. */
  function Required<T>(m: map<string, Json>, key: string, f: Decoder<T>): (r: Checked<T>)
    ensures r.Ok? <==> RequiredDecodes(m, key, f)
    ensures r.Ok? ==> RequiredHolds(m, key, f, r.value)
    ensures key !in m ==> r == Err([FieldError([Key(key)], Missing)])
    ensures key in m && m[key] == JNull ==> r == Err([FieldError([Key(key)], NoneNotAllowed)])
    ensures key in m && m[key] != JNull ==> r == At(Key(key), f(m[key]))
  {
    if key !in m then Err([FieldError([Key(key)], Missing)])
    else if m[key] == JNull then Err([FieldError([Key(key)], NoneNotAllowed)])
    else At(Key(key), f(m[key]))
  }

  /**
   * A record decoder's promise about its required keys: it succeeds only on a
   * dictionary holding all of them, and reports each one that is missing.
   */
  predicate RequiresKeys<T>(j: Json, required: set<string>, r: Checked<T>) {
    && (r.Ok? ==> j.JObj? && required <= j.fields.Keys)
    && (j.JObj? ==> forall k :: k in required && k !in j.fields ==> r.Err? && FieldError([Key(k)], Missing) in r.error)
  }

  /**
   * The two required parts of a request/response envelope, each decoded by its own
   * schema; the errors of both are reported, the request's first.
   */
  function RequiredParts<A, B>(j: Json, request: Decoder<A>, response: Decoder<B>): (r: Checked<(A, B)>)
    ensures RequiresKeys(j, {"request", "response"}, r)
    ensures r.Ok? <==> j.JObj? && RequiredDecodes(j.fields, "request", request) && RequiredDecodes(j.fields, "response", response)
    ensures r.Ok? ==> RequiredHolds(j.fields, "request", request, r.value.0) && RequiredHolds(j.fields, "response", response, r.value.1)
  {
    if !j.JObj? then TypeMismatch("dict")
    else
      var q := Required(j.fields, "request", request);
      var s := Required(j.fields, "response", response);
      if q.Ok? && s.Ok? then Ok((q.value, s.value)) else Err(Errors(q) + Errors(s))
  }

  /** A required field that is present, not null, and decodes, gives its decoded value. */
  lemma RequiredOk<T>(m: map<string, Json>, key: string, f: Decoder<T>, v: T)
    requires key in m && m[key] != JNull && f(m[key]) == Ok(v)
    ensures Required(m, key, f) == Ok(v)
  {
  }

  /** `m` holds the option `o` under `key`: its encoding when present, and a missing key or null when absent. */
  ghost predicate Carries<T>(m: map<string, Json>, key: string, o: Option<T>, enc: T -> Json) {
    if o.Some? then key in m && m[key] == enc(o.value) else key !in m || m[key] == JNull
  }

  /** An optional field holding an encoded option, or omitting an absent one, gives the option back. */
  lemma OptionalOk<T>(m: map<string, Json>, key: string, enc: T -> Json, f: Decoder<T>, o: Option<T>)
    requires Carries(m, key, o, enc)
    requires o.Some? ==> enc(o.value) != JNull && f(enc(o.value)) == Ok(o.value)
    ensures Optional(m, key, f) == Ok(o)
  {
  }

  /** An optional field `key: T = None`. */
  function Optional<T>(m: map<string, Json>, key: string, f: Decoder<T>): (r: Checked<Option<T>>)
    ensures r.Ok? <==> OptionalDecodes(m, key, f)
    ensures r.Ok? ==> OptionalHolds(m, key, f, r.value)
    ensures key !in m || m[key] == JNull ==> r == Ok(None)
    ensures key in m && m[key] != JNull ==> (r.Ok? <==> f(m[key]).Ok?)
    ensures key in m && m[key] != JNull && r.Ok? ==> r.value == Some(f(m[key]).value)
  {
    if key !in m || m[key] == JNull then Ok(None)
    else
      var v := At(Key(key), f(m[key]));
      if v.Ok? then Ok(Some(v.value)) else Err(v.error)
  }

  /** A field `key: T = default` whose default is not None. */
  function Defaulted<T>(m: map<string, Json>, key: string, default: T, f: Decoder<T>): (r: Checked<T>)
    ensures key !in m ==> r == Ok(default)
    ensures key in m && m[key] == JNull ==> r == Err([FieldError([Key(key)], NoneNotAllowed)])
    ensures key in m && m[key] != JNull ==> r == At(Key(key), f(m[key]))
  {
    if key !in m then Ok(default) else Required(m, key, f)
  }

  /** Serialisation, the inverse direction used by the round-trip lemmas (pydantic's `.dict()`). */
  function Encoded<T>(xs: seq<T>, enc: T -> Json): (js: seq<Json>)
    ensures |js| == |xs|
    ensures forall k :: 0 <= k < |xs| ==> js[k] == enc(xs[k])
  {
    seq(|xs|, k requires 0 <= k < |xs| => enc(xs[k]))
  }

  function StrJson(s: string): Json {
    JStr(s)
  }

  function IntJson(i: int): Json {
    JInt(i)
  }

  function RealJson(x: real): Json {
    JReal(x)
  }

  function StrListJson(xs: seq<string>): Json {
    JArr(Encoded(xs, StrJson))
  }

  function IntListJson(xs: seq<int>): Json {
    JArr(Encoded(xs, IntJson))
  }

  /** None is serialised as null. */
  function OptionJson<T>(o: Option<T>, enc: T -> Json): Json {
    if o.Some? then enc(o.value) else JNull
  }

  /** The entry of an optional field in a body that omits absent fields: nothing for None. */
  function Entry<T>(key: string, o: Option<T>, enc: T -> Json): (m: map<string, Json>)
    ensures o.None? ==> key !in m
    ensures o.Some? ==> m == map[key := enc(o.value)]
  {
    if o.Some? then map[key := enc(o.value)] else map[]
  }

  /** A list decodes back to the list it was encoded from, when each element does. */
  lemma ListRoundTrip<T>(xs: seq<T>, enc: T -> Json, f: Decoder<T>)
    requires forall x :: x in xs ==> f(enc(x)) == Ok(x)
    ensures AsList(JArr(Encoded(xs, enc)), f) == Ok(xs)
  {
    var js := Encoded(xs, enc);
    var r := Items(js, f, 0);
    assert forall k :: 0 <= k < |js| ==> f(js[k]) == Ok(xs[k]) by {
      forall k | 0 <= k < |js| ensures f(js[k]) == Ok(xs[k]) {
        assert xs[k] in xs;
      }
    }
    assert r.value == xs;
  }

  lemma StrListRoundTrip(xs: seq<string>)
    ensures AsStrList(StrListJson(xs)) == Ok(xs)
  {
    ListRoundTrip(xs, StrJson, AsStr);
  }

  lemma IntListRoundTrip(xs: seq<int>)
    ensures AsIntList(IntListJson(xs)) == Ok(xs)
  {
    ListRoundTrip(xs, IntJson, AsInt);
  }

  /** Decoding an optional value that was encoded gives it back. */
  lemma OptionalRoundTrip<T>(o: Option<T>, key: string, enc: T -> Json, f: Decoder<T>)
    requires o.Some? ==> enc(o.value) != JNull && f(enc(o.value)) == Ok(o.value)
    ensures Optional(map[key := OptionJson(o, enc)], key, f) == Ok(o)
  {
  }
}
