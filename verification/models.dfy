/**
 * The domain model of the mock-server client (models.go): the records that
 * describe requests, responses, expectations and verifications, the wire
 * keys their struct tags give them, and the helpers that build common shapes.
 *
 * Records are values, as Go structs are. The two helpers that assign through
 * a pointer receiver, `(*Request).WithPath` and `(*VerifySequence).WithIds`,
 * live on the classes RequestRef and VerifySequenceRef, which stand for a
 * `*Request` and a `*VerifySequence`; `Value()` on them is the dereference.
 */
module Models {
  import opened Wrappers
  import opened JsonTags

  // ---------------------------------------------------------------------
  // Body types
  // ---------------------------------------------------------------------

  /** The named constants of `BodyType`. */
  datatype BodyType =
    | Binary | Json | JsonSchema | JsonPath | Parameters | Regex
    | String | Xml | XmlSchema | XPath | LogEvent

  /** The string each constant stands for, which is what goes on the wire. */
  function WireName(t: BodyType): (s: string)
    ensures s != ""
  {
    match t
    case Binary => "BINARY"
    case Json => "JSON"
    case JsonSchema => "JSON_SCHEMA"
    case JsonPath => "JSON_PATH"
    case Parameters => "PARAMETERS"
    case Regex => "REGEX"
    case String => "STRING"
    case Xml => "XML"
    case XmlSchema => "XML_SCHEMA"
    case XPath => "XPATH"
    case LogEvent => "LOG_EVENT"
  }

  /** Reads a wire string back as a named constant, if it is one. */
  function BodyTypeOf(s: string): (r: Option<BodyType>)
    ensures r.Some? ==> WireName(r.value) == s
  {
    if s == "BINARY" then Some(Binary)
    else if s == "JSON" then Some(Json)
    else if s == "JSON_SCHEMA" then Some(JsonSchema)
    else if s == "JSON_PATH" then Some(JsonPath)
    else if s == "PARAMETERS" then Some(Parameters)
    else if s == "REGEX" then Some(Regex)
    else if s == "STRING" then Some(String)
    else if s == "XML" then Some(Xml)
    else if s == "XML_SCHEMA" then Some(XmlSchema)
    else if s == "XPATH" then Some(XPath)
    else if s == "LOG_EVENT" then Some(LogEvent)
    else None
  }

  lemma WireNameRoundTrip(t: BodyType)
    ensures BodyTypeOf(WireName(t)) == Some(t)
  {
  }

  /** No two constants share a wire string. */
  lemma WireNamesDistinct(a: BodyType, b: BodyType)
    requires WireName(a) == WireName(b)
    ensures a == b
  {
    WireNameRoundTrip(a);
    WireNameRoundTrip(b);
  }

  // ---------------------------------------------------------------------
  // Records
  // ---------------------------------------------------------------------

  datatype PathParameter = PathParameter(name: string, values: seq<string>)

  datatype QueryParameter = QueryParameter(name: string, values: seq<string>)

  /** A body matcher or response body. `bodyType` holds the underlying string
      of a `BodyType`, so its zero value is the empty string. */
  datatype Body = Body(base64Bytes: string, not: bool, bodyType: string, contentType: string)

  datatype HttpHeader = HttpHeader(name: string, values: seq<string>)

  datatype HttpCookie = HttpCookie(name: string, value: string)

  datatype SocketAddress = SocketAddress(host: string, port: int, scheme: string)

  /** A request matcher; `httpMethod` is the field tagged `method`. */
  datatype Request = Request(
    secure: bool,
    keepAlive: bool,
    httpMethod: string,
    path: string,
    pathParameters: seq<PathParameter>,
    queryStringParameters: seq<QueryParameter>,
    body: Body,
    headers: seq<HttpHeader>,
    cookies: seq<HttpCookie>,
    socketAddress: SocketAddress,
    protocol: string)

  datatype TimeUnit = TimeUnit(timeUnit: string, value: int)

  datatype ConnectionOptions = ConnectionOptions(
    suppressContentLengthHeader: bool,
    contentLengthHeaderOverride: int,
    suppressConnectionHeader: bool,
    chunkSize: int,
    keepAliveOverride: bool,
    closeSocket: bool,
    closeSocketDelay: TimeUnit)

  datatype Response = Response(
    delay: TimeUnit,
    body: Body,
    cookies: seq<HttpCookie>,
    connectionOptions: ConnectionOptions,
    headers: seq<HttpHeader>,
    statusCode: int,
    reasonPhrase: string)

  datatype Times = Times(remainingTimes: int, unlimited: bool)

  datatype TimeToLive = TimeToLive(timeUnit: string, timeToLive: int, unlimited: bool)

  /** An expectation: the request to match, the static response, how many
      times it applies and for how long. The other action fields are not
      part of this model. */
  datatype Expectation = Expectation(
    id: string,
    priority: int,
    request: Request,
    response: Response,
    times: Times,
    timeToLive: TimeToLive)

  datatype ExpectationId = ExpectationId(id: string)

  /** `maxRequestsInFailure` is the field tagged
      `maximumNumberOfRequestToReturnInVerificationFailure`. */
  datatype VerifySequence = VerifySequence(
    expectationIds: seq<ExpectationId>,
    requests: seq<Request>,
    maxRequestsInFailure: int)

  datatype VerifyTimes = VerifyTimes(atLeast: int, atMost: int)

  datatype Verify = Verify(
    expectationId: ExpectationId,
    request: Request,
    times: VerifyTimes,
    maxRequestsInFailure: int)

  // Zero values (Go's `T{}`)

  const ZeroBody := Body("", false, "", "")
  const ZeroTimeUnit := TimeUnit("", 0)
  const ZeroConnectionOptions := ConnectionOptions(false, 0, false, 0, false, false, ZeroTimeUnit)
  const ZeroResponse := Response(ZeroTimeUnit, ZeroBody, [], ZeroConnectionOptions, [], 0, "")

  // ---------------------------------------------------------------------
  // Wire keys of the scalar fields, as the struct tags fix them
  // ---------------------------------------------------------------------

  function BodyTags(b: Body): seq<Field>
  {
    [ Field("base64Bytes", true, b.base64Bytes == ""),
      Field("not", true, !b.not),
      Field("type", true, b.bodyType == ""),
      Field("contentType", true, b.contentType == "") ]
  }

  /** Every key of a Body is `omitempty`: it is present exactly when its
      field is non-zero. */
  function BodyKeys(b: Body): (keys: set<string>)
    ensures "base64Bytes" in keys <==> b.base64Bytes != ""
    ensures "not" in keys <==> b.not
    ensures "type" in keys <==> b.bodyType != ""
    ensures "contentType" in keys <==> b.contentType != ""
    ensures keys <= {"base64Bytes", "not", "type", "contentType"}
  {
    var tags := BodyTags(b);
    assert tags[0].key == "base64Bytes" && tags[1].key == "not";
    assert tags[2].key == "type" && tags[3].key == "contentType";
    Emitted(tags)
  }

  function TimesTags(t: Times): seq<Field>
  {
    [ Field("remainingTimes", true, t.remainingTimes == 0),
      Field("unlimited", true, !t.unlimited) ]
  }

  /** Both keys of Times are `omitempty`. */
  function TimesKeys(t: Times): (keys: set<string>)
    ensures "remainingTimes" in keys <==> t.remainingTimes != 0
    ensures "unlimited" in keys <==> t.unlimited
    ensures keys <= {"remainingTimes", "unlimited"}
  {
    var tags := TimesTags(t);
    assert tags[0].key == "remainingTimes" && tags[1].key == "unlimited";
    Emitted(tags)
  }

  function VerifyTimesTags(v: VerifyTimes): seq<Field>
  {
    [ Field("atLeast", false, v.atLeast == 0),
      Field("atMost", false, v.atMost == 0) ]
  }

  /** Neither key of VerifyTimes is `omitempty`, so both are always written,
      zero or not. */
  function VerifyTimesKeys(v: VerifyTimes): (keys: set<string>)
    ensures keys == {"atLeast", "atMost"}
  {
    var tags := VerifyTimesTags(v);
    assert tags[0].key == "atLeast" && tags[1].key == "atMost";
    Emitted(tags)
  }

  function ExpectationIdKeys(e: ExpectationId): (keys: set<string>)
    ensures keys == if e.id == "" then {} else {"id"}
  {
    var tags := [Field("id", true, e.id == "")];
    assert tags[0].key == "id";
    Emitted(tags)
  }

  function ResponseScalarTags(r: Response): seq<Field>
  {
    [ Field("statusCode", true, r.statusCode == 0),
      Field("reasonPhrase", true, r.reasonPhrase == "") ]
  }

  /** The keys of the scalar fields of a Response. */
  function ResponseScalarKeys(r: Response): (keys: set<string>)
    ensures "statusCode" in keys <==> r.statusCode != 0
    ensures "reasonPhrase" in keys <==> r.reasonPhrase != ""
    ensures keys <= {"statusCode", "reasonPhrase"}
  {
    var tags := ResponseScalarTags(r);
    assert tags[0].key == "statusCode" && tags[1].key == "reasonPhrase";
    Emitted(tags)
  }

  function RequestScalarTags(r: Request): seq<Field>
  {
    [ Field("secure", true, !r.secure),
      Field("keepAlive", true, !r.keepAlive),
      Field("method", true, r.httpMethod == ""),
      Field("path", true, r.path == ""),
      Field("protocol", true, r.protocol == "") ]
  }

  /** The keys of the scalar fields of a Request. */
  function RequestScalarKeys(r: Request): (keys: set<string>)
    ensures "secure" in keys <==> r.secure
    ensures "keepAlive" in keys <==> r.keepAlive
    ensures "method" in keys <==> r.httpMethod != ""
    ensures "path" in keys <==> r.path != ""
    ensures "protocol" in keys <==> r.protocol != ""
    ensures keys <= {"secure", "keepAlive", "method", "path", "protocol"}
  {
    var tags := RequestScalarTags(r);
    assert tags[0].key == "secure" && tags[1].key == "keepAlive" && tags[2].key == "method";
    assert tags[3].key == "path" && tags[4].key == "protocol";
    Emitted(tags)
  }

  /** The tags of a record holding a name and a list of values, shared by
      PathParameter, QueryParameter and HTTPHeader. An empty list counts as
      zero and is dropped. */
  function NamedValuesKeys(name: string, values: seq<string>): (keys: set<string>)
    ensures "name" in keys <==> name != ""
    ensures "values" in keys <==> |values| > 0
    ensures keys <= {"name", "values"}
  {
    var tags := [Field("name", true, name == ""), Field("values", true, values == [])];
    assert tags[0].key == "name" && tags[1].key == "values";
    Emitted(tags)
  }

  function HttpCookieKeys(c: HttpCookie): (keys: set<string>)
    ensures "name" in keys <==> c.name != ""
    ensures "value" in keys <==> c.value != ""
    ensures keys <= {"name", "value"}
  {
    var tags := [Field("name", true, c.name == ""), Field("value", true, c.value == "")];
    assert tags[0].key == "name" && tags[1].key == "value";
    Emitted(tags)
  }

  function SocketAddressKeys(a: SocketAddress): (keys: set<string>)
    ensures "host" in keys <==> a.host != ""
    ensures "port" in keys <==> a.port != 0
    ensures "scheme" in keys <==> a.scheme != ""
    ensures keys <= {"host", "port", "scheme"}
  {
    var tags := [ Field("host", true, a.host == ""),
                  Field("port", true, a.port == 0),
                  Field("scheme", true, a.scheme == "") ];
    assert tags[0].key == "host" && tags[1].key == "port" && tags[2].key == "scheme";
    Emitted(tags)
  }

  function TimeUnitKeys(t: TimeUnit): (keys: set<string>)
    ensures "timeUnit" in keys <==> t.timeUnit != ""
    ensures "value" in keys <==> t.value != 0
    ensures keys <= {"timeUnit", "value"}
  {
    var tags := [Field("timeUnit", true, t.timeUnit == ""), Field("value", true, t.value == 0)];
    assert tags[0].key == "timeUnit" && tags[1].key == "value";
    Emitted(tags)
  }

  function TimeToLiveKeys(t: TimeToLive): (keys: set<string>)
    ensures "timeUnit" in keys <==> t.timeUnit != ""
    ensures "timeToLive" in keys <==> t.timeToLive != 0
    ensures "unlimited" in keys <==> t.unlimited
    ensures keys <= {"timeUnit", "timeToLive", "unlimited"}
  {
    var tags := [ Field("timeUnit", true, t.timeUnit == ""),
                  Field("timeToLive", true, t.timeToLive == 0),
                  Field("unlimited", true, !t.unlimited) ];
    assert tags[0].key == "timeUnit" && tags[1].key == "timeToLive" && tags[2].key == "unlimited";
    Emitted(tags)
  }

  function ConnectionOptionsScalarTags(o: ConnectionOptions): seq<Field>
  {
    [ Field("suppressContentLengthHeader", true, !o.suppressContentLengthHeader),
      Field("contentLengthHeaderOverride", true, o.contentLengthHeaderOverride == 0),
      Field("suppressConnectionHeader", true, !o.suppressConnectionHeader),
      Field("chunkSize", true, o.chunkSize == 0),
      Field("keepAliveOverride", true, !o.keepAliveOverride),
      Field("closeSocket", true, !o.closeSocket) ]
  }

  /** The keys of the scalar fields of ConnectionOptions. An explicit
      `closeSocket: false` cannot be told apart from leaving it unset. */
  function ConnectionOptionsScalarKeys(o: ConnectionOptions): (keys: set<string>)
    ensures "suppressContentLengthHeader" in keys <==> o.suppressContentLengthHeader
    ensures "contentLengthHeaderOverride" in keys <==> o.contentLengthHeaderOverride != 0
    ensures "suppressConnectionHeader" in keys <==> o.suppressConnectionHeader
    ensures "chunkSize" in keys <==> o.chunkSize != 0
    ensures "keepAliveOverride" in keys <==> o.keepAliveOverride
    ensures "closeSocket" in keys <==> o.closeSocket
    ensures keys <= {"suppressContentLengthHeader", "contentLengthHeaderOverride",
                     "suppressConnectionHeader", "chunkSize", "keepAliveOverride", "closeSocket"}
  {
    var tags := ConnectionOptionsScalarTags(o);
    assert tags[0].key == "suppressContentLengthHeader" && tags[1].key == "contentLengthHeaderOverride";
    assert tags[2].key == "suppressConnectionHeader" && tags[3].key == "chunkSize";
    assert tags[4].key == "keepAliveOverride" && tags[5].key == "closeSocket";
    Emitted(tags)
  }

  /** The keys of the scalar fields of an Expectation. A priority of 0 is
      dropped, so it cannot be told apart from no priority. */
  function ExpectationScalarKeys(e: Expectation): (keys: set<string>)
    ensures "id" in keys <==> e.id != ""
    ensures "priority" in keys <==> e.priority != 0
    ensures keys <= {"id", "priority"}
  {
    var tags := [Field("id", true, e.id == ""), Field("priority", true, e.priority == 0)];
    assert tags[0].key == "id" && tags[1].key == "priority";
    Emitted(tags)
  }

  const FailureCapKey := "maximumNumberOfRequestToReturnInVerificationFailure"

  /** The keys of the scalar fields of a VerifySequence: only the failure cap. */
  function VerifySequenceScalarKeys(v: VerifySequence): (keys: set<string>)
    ensures keys == if v.maxRequestsInFailure == 0 then {} else {FailureCapKey}
  {
    var tags := [Field(FailureCapKey, true, v.maxRequestsInFailure == 0)];
    assert tags[0].key == FailureCapKey;
    Emitted(tags)
  }

  /** The keys of a Verify decided by its tags alone: `times` has no
      `omitempty`, so it is written whatever its value, and the failure cap
      is written only when non-zero. */
  function VerifyTaggedKeys(v: Verify): (keys: set<string>)
    ensures "times" in keys
    ensures FailureCapKey in keys <==> v.maxRequestsInFailure != 0
    ensures keys <= {"times", FailureCapKey}
  {
    var tags := [ Field("times", false, v.times == VerifyTimes(0, 0)),
                  Field(FailureCapKey, true, v.maxRequestsInFailure == 0) ];
    assert tags[0].key == "times" && tags[1].key == FailureCapKey;
    Emitted(tags)
  }

  // ---------------------------------------------------------------------
  // Helpers
  // ---------------------------------------------------------------------

  /** A one-element query-parameter list holding `name` and `values` in the
      order given. */
  function WithQueryParameter(name: string, values: seq<string>): (qs: seq<QueryParameter>)
    ensures |qs| == 1
    ensures qs[0].name == name && qs[0].values == values
  {
    [QueryParameter(name, values)]
  }

  /** A JSON body carrying `value` verbatim. */
  function JsonBody(value: string): (b: Body)
    ensures BodyTypeOf(b.bodyType) == Some(Json)
    ensures b.contentType == "application/json"
    ensures b.base64Bytes == value && !b.not
  {
    Body(value, false, WireName(Json), "application/json")
  }

  /** A plain-text body carrying `value` verbatim. */
  function StringBody(value: string): (b: Body)
    ensures BodyTypeOf(b.bodyType) == Some(String)
    ensures b.contentType == "text/plain"
    ensures b.base64Bytes == value && !b.not
  {
    Body(value, false, WireName(String), "text/plain")
  }

  /** The two body helpers write the same payload under a different type
      and content type, and emit the payload key only when it is non-empty. */
  lemma BodyHelperKeys(value: string)
    ensures JsonBody(value) != StringBody(value)
    ensures BodyKeys(JsonBody(value)) == BodyKeys(StringBody(value))
    ensures BodyKeys(JsonBody(value)) ==
      {"type", "contentType"} + (if value == "" then {} else {"base64Bytes"})
  {
    assert JsonBody(value).contentType != StringBody(value).contentType;
    var j, s := BodyKeys(JsonBody(value)), BodyKeys(StringBody(value));
    assert "not" !in j && "not" !in s;
  }

  /** A response whose body is the JSON encoding of a value; `marshalled` is
      what json.Marshal returned for it. Its error is discarded, so a failed
      encoding gives an empty payload. */
  function JsonResponse(marshalled: Encoding): (r: Response)
    ensures r.body == JsonBody(if marshalled.Encoded? then marshalled.text else "")
    ensures r.(body := ZeroBody) == ZeroResponse
  {
    var text := match marshalled
      case Encoded(t) => t
      case EncodeError(_) => "";
    Response(ZeroTimeUnit, JsonBody(text), [], ZeroConnectionOptions, [], 0, "")
  }

  /** A response whose body is the given plain text. */
  function StringResponse(value: string): (r: Response)
    ensures r.body == StringBody(value)
    ensures r.(body := ZeroBody) == ZeroResponse
  {
    Response(ZeroTimeUnit, StringBody(value), [], ZeroConnectionOptions, [], 0, "")
  }

  /** The response helpers set no status code and no reason phrase, so
      neither key is written and the server applies its own default. */
  lemma ResponseHelpersLeaveStatusToServer(marshalled: Encoding, value: string)
    ensures ResponseScalarKeys(JsonResponse(marshalled)) == {}
    ensures ResponseScalarKeys(StringResponse(value)) == {}
  {
    var j, s := ResponseScalarKeys(JsonResponse(marshalled)), ResponseScalarKeys(StringResponse(value));
    assert "statusCode" !in j && "reasonPhrase" !in j;
    assert "statusCode" !in s && "reasonPhrase" !in s;
  }

  /** An expectation that applies exactly once. */
  function Once(): (t: Times)
    ensures t.remainingTimes == 1 && !t.unlimited
    ensures TimesKeys(t) == {"remainingTimes"}
  {
    Times(1, false)
  }

  /** A verification that the request never happened. */
  function NeverCalled(): (v: VerifyTimes)
    ensures v.atLeast == 0 && v.atMost == 0
    ensures VerifyTimesKeys(v) == {"atLeast", "atMost"}
  {
    VerifyTimes(0, 0)
  }

  /** A Times with both fields zero writes no key at all, whereas the zero
      VerifyTimes that NeverCalled returns writes both. */
  lemma ZeroTimesOmitted()
    ensures TimesKeys(Times(0, false)) == {}
    ensures VerifyTimesKeys(NeverCalled()) != {}
  {
    var keys := TimesKeys(Times(0, false));
    assert "remainingTimes" !in keys && "unlimited" !in keys;
  }

  /** The expectation ids, one per identifier, in the order given. */
  function WrapIds(ids: seq<string>): (eids: seq<ExpectationId>)
    ensures |eids| == |ids|
    ensures forall i :: 0 <= i < |ids| ==> eids[i] == ExpectationId(ids[i])
  {
    if ids == [] then []
    else WrapIds(ids[..|ids| - 1]) + [ExpectationId(ids[|ids| - 1])]
  }

  /** The identifiers held by a list of expectation ids. */
  function IdsOf(eids: seq<ExpectationId>): (ids: seq<string>)
  {
    if eids == [] then [] else [eids[0].id] + IdsOf(eids[1..])
  }

  /** Wrapping loses nothing: the identifiers come back in their order. */
  lemma {:induction false} IdsOfWrapIds(ids: seq<string>)
    ensures IdsOf(WrapIds(ids)) == ids
  {
    if ids != [] {
      var w := WrapIds(ids);
      IdsOfWrapIds(ids[1..]);
      assert w[1..] == WrapIds(ids[1..]);
    }
  }

  /** Setting a path to a non-empty string writes the `path` key, clearing it
      drops the key, and no other scalar key changes. */
  lemma PathKey(r: Request, path: string)
    ensures RequestScalarKeys(r.(path := path)) ==
      (RequestScalarKeys(r) - {"path"}) + (if path == "" then {} else {"path"})
  {
    var before, after := RequestScalarKeys(r), RequestScalarKeys(r.(path := path));
    var expected := (before - {"path"}) + (if path == "" then {} else {"path"});
    forall k | k in after ensures k in expected {}
    forall k | k in expected ensures k in after {}
  }

  // ---------------------------------------------------------------------
  // Pointer receivers
  // ---------------------------------------------------------------------

  /** A `*Request`: a Request that setters update in place. */
  class RequestRef {
    var secure: bool
    var keepAlive: bool
    var httpMethod: string
    var path: string
    var pathParameters: seq<PathParameter>
    var queryStringParameters: seq<QueryParameter>
    var body: Body
    var headers: seq<HttpHeader>
    var cookies: seq<HttpCookie>
    var socketAddress: SocketAddress
    var protocol: string

    /** The Request this pointer points to. */
    function Value(): Request
      reads this
    {
      Request(secure, keepAlive, httpMethod, path, pathParameters, queryStringParameters,
              body, headers, cookies, socketAddress, protocol)
    }

    /** `&r`: a fresh pointer to a copy of `r`. */
    constructor (r: Request)
      ensures Value() == r
    {
      secure, keepAlive, httpMethod, path := r.secure, r.keepAlive, r.httpMethod, r.path;
      pathParameters, queryStringParameters := r.pathParameters, r.queryStringParameters;
      body, headers, cookies := r.body, r.headers, r.cookies;
      socketAddress, protocol := r.socketAddress, r.protocol;
    }

    /** Sets the path and returns the receiver, for chaining. */
    method WithPath(path: string) returns (self: RequestRef)
      modifies this
      ensures self == this
      ensures this.path == path
      ensures Value() == old(Value()).(path := path)
    {
      this.path := path;
      self := this;
    }
  }

  /** A `*VerifySequence`. */
  class VerifySequenceRef {
    var expectationIds: seq<ExpectationId>
    var requests: seq<Request>
    var maxRequestsInFailure: int

    /** The VerifySequence this pointer points to. */
    function Value(): VerifySequence
      reads this
    {
      VerifySequence(expectationIds, requests, maxRequestsInFailure)
    }

    /** `Sequence()`: a fresh pointer to an empty VerifySequence. */
    constructor Sequence()
      ensures Value() == VerifySequence([], [], 0)
    {
      expectationIds, requests, maxRequestsInFailure := [], [], 0;
    }

    /** Replaces the expectation ids by one record per identifier, in the
        order given, and returns the receiver, for chaining. */
    method WithIds(ids: seq<string>) returns (self: VerifySequenceRef)
      modifies this
      ensures self == this
      ensures expectationIds == WrapIds(ids)
      ensures |expectationIds| == |ids|
      ensures forall i :: 0 <= i < |ids| ==> expectationIds[i].id == ids[i]
      ensures requests == old(requests)
      ensures maxRequestsInFailure == old(maxRequestsInFailure)
    {
      var wrapped: seq<ExpectationId> := [];
      for i := 0 to |ids|
        invariant wrapped == WrapIds(ids[..i])
      {
        assert ids[..i + 1][..i] == ids[..i];
        wrapped := wrapped + [ExpectationId(ids[i])];
      }
      assert ids[..|ids|] == ids;
      expectationIds := wrapped;
      self := this;
    }
  }
}
