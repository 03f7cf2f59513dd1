/**
 * The dispatcher of the mock-server client (mockServerClient.go): one
 * operation per control endpoint, each a fixed (path suffix, body, method)
 * call into the shared send routine, which encodes the body, builds the
 * request, sends it and classifies the reply.
 *
 * The standard library and the network are not part of this model; what the
 * client asks of them is passed in as an Env of total functions, so every
 * outcome is determined by the client, the operation and the Env. A Go panic
 * is an explicit `Aborted` outcome.
 */
module Client {
  import opened Wrappers
  import opened JsonTags
  import Models

  const MethodPut := "PUT"
  const ExpectationPath := "/mockserver/expectation"
  const VerifyPath := "/mockserver/verify"
  const VerifySequencePath := "/mockserver/verifySequence"
  const ClearPath := "/mockserver/clear?type=all"

  /** The only header the client sets. */
  const ContentTypeHeader: map<string, seq<string>> := map["Content-Type" := ["application/json"]]

  /** The `data` argument of the send routine: nil, or the value to encode. */
  datatype Payload =
    | Nil
    | ExpectationPayload(expectation: Models.Expectation)
    | VerifyPayload(verify: Models.Verify)
    | SequencePayload(sequence: Models.VerifySequence)
    | RequestPayload(request: Models.Request)
    | ObjectPayload(fields: map<string, string>)

  /** An outgoing HTTP request as the transport receives it. */
  datatype HttpRequest = HttpRequest(
    httpMethod: string,
    target: string,
    body: Option<string>,
    header: map<string, seq<string>>)

  /** What the transport hands back: an error, or a response with its status
      code, its status line and the text of its body. */
  datatype Reply =
    | TransportError(reason: string)
    | Received(statusCode: int, status: string, body: string)

  /** The collaborators the client calls: url.Parse followed by String (None
      when parsing fails), json.Marshal, and one round trip over the HTTP
      transport. */
  datatype Env = Env(
    parseUrl: string -> Option<string>,
    marshal: Payload -> Encoding,
    transport: HttpRequest -> Reply)

  /** Why an operation (or the construction of a client) aborts. */
  datatype Failure =
    | BadUrl(uri: string)
    | EncodeFailed(reason: string)
    | TransportFailed(reason: string)
    | BadStatus(message: string)

  datatype Outcome = Done | Aborted(cause: Failure)

  // ---------------------------------------------------------------------
  // The endpoint table
  // ---------------------------------------------------------------------

  /** The public operations with their arguments. */
  datatype Operation =
    | RegisterExpectation(expectation: Models.Expectation)
    | Verify(verify: Models.Verify)
    | VerifySequence(sequence: Models.VerifySequence)
    | ClearAll
    | ClearById(expectationId: string)
    | Clear(request: Models.Request)

  /** The arguments an operation passes to the send routine. */
  datatype Call = Call(suffix: string, data: Payload, httpMethod: string)

  function CallOf(op: Operation): (c: Call)
    ensures c.httpMethod == MethodPut
    ensures c.data.Nil? <==> op.ClearAll?
    ensures c.suffix == ClearPath <==> (op.ClearAll? || op.ClearById? || op.Clear?)
    ensures op.RegisterExpectation? <==> c.suffix == ExpectationPath
    ensures op.Verify? <==> c.suffix == VerifyPath
    ensures op.VerifySequence? <==> c.suffix == VerifySequencePath
  {
    match op
    case RegisterExpectation(e) => Call(ExpectationPath, ExpectationPayload(e), MethodPut)
    case Verify(v) => Call(VerifyPath, VerifyPayload(v), MethodPut)
    case VerifySequence(s) => Call(VerifySequencePath, SequencePayload(s), MethodPut)
    case ClearAll => Call(ClearPath, Nil, MethodPut)
    case ClearById(id) => Call(ClearPath, ObjectPayload(map["id" := id]), MethodPut)
    case Clear(r) => Call(ClearPath, RequestPayload(r), MethodPut)
  }

  /** The operations that take a record send that record itself as body, and
      ClearById sends an object whose only key, "id", maps to the identifier. */
  lemma CallBodies(op: Operation)
    ensures op.RegisterExpectation? ==> CallOf(op).data == ExpectationPayload(op.expectation)
    ensures op.Verify? ==> CallOf(op).data == VerifyPayload(op.verify)
    ensures op.VerifySequence? ==> CallOf(op).data == SequencePayload(op.sequence)
    ensures op.Clear? ==> CallOf(op).data == RequestPayload(op.request)
    ensures op.ClearById? ==>
      CallOf(op).data.ObjectPayload? &&
      CallOf(op).data.fields.Keys == {"id"} &&
      CallOf(op).data.fields["id"] == op.expectationId
  {
  }

  // ---------------------------------------------------------------------
  // The send routine, as functions
  // ---------------------------------------------------------------------

  /** Go's integer division, which truncates toward zero. */
  function GoQuotient(a: int, b: int): (q: int)
    requires b > 0
    ensures a >= 0 ==> q == a / b
    ensures a < 0 ==> q <= 0
  {
    if a >= 0 then a / b else -((-a) / b)
  }

  /** The status test of the send routine: the code divided by 100 is 2. */
  function StatusOk(statusCode: int): (ok: bool)
    ensures ok <==> 200 <= statusCode <= 299
  {
    GoQuotient(statusCode, 100) == 2
  }

  /** The outcome of a received response. */
  function Classify(statusCode: int, status: string, body: string): (o: Outcome)
    ensures o.Done? <==> 200 <= statusCode <= 299
    ensures o.Aborted? ==>
      o.cause == BadStatus("bad response status: " + status + " with message: " + body)
  {
    if StatusOk(statusCode) then Done
    else Aborted(BadStatus("bad response status: " + status + " with message: " + body))
  }

  /** The request the send routine hands to the transport, or why it gives up
      before sending: the body is encoded first, and the target (base URL
      and suffix, joined with no separator) is parsed afterwards. */
  function BuildRequest(base: string, call: Call, env: Env): (r: Result<HttpRequest, Failure>)
    ensures r.Err? <==>
      (!call.data.Nil? && env.marshal(call.data).EncodeError?) ||
      env.parseUrl(base + call.suffix).None?
    ensures r.Err? && !call.data.Nil? && env.marshal(call.data).EncodeError? ==>
      r.error == EncodeFailed(env.marshal(call.data).reason)
    ensures r.Err? && (call.data.Nil? || env.marshal(call.data).Encoded?) ==>
      r.error == BadUrl(base + call.suffix)
    ensures r.Ok? ==>
      && r.value.httpMethod == call.httpMethod
      && r.value.target == base + call.suffix
      && r.value.header == ContentTypeHeader
      && (r.value.body.Some? <==> !call.data.Nil?)
      && (r.value.body.Some? ==> env.marshal(call.data) == Encoded(r.value.body.value))
  {
    var encoded: Result<Option<string>, Failure> :=
      if call.data.Nil? then Ok(None)
      else match env.marshal(call.data)
        case Encoded(text) => Ok(Some(text))
        case EncodeError(reason) => Err(EncodeFailed(reason));
    match encoded
    case Err(f) => Err(f)
    case Ok(body) =>
      var target := base + call.suffix;
      if env.parseUrl(target).None? then Err(BadUrl(target))
      else Ok(HttpRequest(call.httpMethod, target, body, ContentTypeHeader))
  }

  /** The outcome of one call of the send routine. */
  function Send(base: string, call: Call, env: Env): (o: Outcome)
    ensures o.Done? <==>
      && BuildRequest(base, call, env).Ok?
      && env.transport(BuildRequest(base, call, env).value).Received?
      && 200 <= env.transport(BuildRequest(base, call, env).value).statusCode <= 299
    ensures BuildRequest(base, call, env).Err? ==> o == Aborted(BuildRequest(base, call, env).error)
    ensures BuildRequest(base, call, env).Ok? ==>
      var reply := env.transport(BuildRequest(base, call, env).value);
      && (reply.TransportError? ==> o == Aborted(TransportFailed(reply.reason)))
      && (reply.Received? ==> o == Classify(reply.statusCode, reply.status, reply.body))
  {
    match BuildRequest(base, call, env)
    case Err(f) => Aborted(f)
    case Ok(req) =>
      match env.transport(req)
      case TransportError(reason) => Aborted(TransportFailed(reason))
      case Received(code, status, body) => Classify(code, status, body)
  }

  /** The target is the base URL followed by the suffix, nothing between. */
  lemma TargetIsBasePlusSuffix(base: string, call: Call, env: Env)
    requires BuildRequest(base, call, env).Ok?
    ensures var t := BuildRequest(base, call, env).value.target;
      |t| == |base| + |call.suffix| && t[..|base|] == base && t[|base|..] == call.suffix
  {
    var t := BuildRequest(base, call, env).value.target;
    assert t == base + call.suffix;
  }

  /** ClearAll never calls the encoder: its request is the same whatever the
      encoder does, and carries no body but still the Content-Type header. */
  lemma ClearAllRequest(base: string, env: Env, marshal: Payload -> Encoding)
    ensures BuildRequest(base, CallOf(ClearAll), env) ==
            BuildRequest(base, CallOf(ClearAll), env.(marshal := marshal))
    ensures BuildRequest(base, CallOf(ClearAll), env).Ok? <==> env.parseUrl(base + ClearPath).Some?
    ensures BuildRequest(base, CallOf(ClearAll), env).Ok? ==>
      BuildRequest(base, CallOf(ClearAll), env).value ==
        HttpRequest(MethodPut, base + ClearPath, None, ContentTypeHeader)
  {
  }

  /** A response outside the 2xx range aborts the operation with a message
      that holds both the status line and the body the server sent. */
  lemma RejectionMessage(statusCode: int, status: string, body: string)
    requires !(200 <= statusCode <= 299)
    ensures Classify(statusCode, status, body).Aborted?
    ensures var m := Classify(statusCode, status, body).cause.message;
      var n := |"bad response status: "|;
      |m| >= n + |status| + |body| &&
      m[n..n + |status|] == status &&
      m[|m| - |body|..] == body
  {
    var m := Classify(statusCode, status, body).cause.message;
    var prefix := "bad response status: ";
    assert m == prefix + status + " with message: " + body;
    assert m[|prefix|..|prefix| + |status|] == status;
    assert m[|m| - |body|..] == body;
  }

  // ---------------------------------------------------------------------
  // The client
  // ---------------------------------------------------------------------

  /** A client bound to one mock server. `url` is the string form of the
      parsed base URL; it is set once, so every call of an operation with the
      same arguments and collaborators sends the same request. */
  class MockServerClient {
    const url: string

    constructor (url: string)
      ensures this.url == url
    {
      this.url := url;
    }

    /** The send routine, step by step: encode the body when there is one,
        build the request, set its Content-Type header, send it and check
        the status. */
    method SendData(suffix: string, data: Payload, httpMethod: string, env: Env)
      returns (outcome: Outcome)
      ensures outcome == Send(url, Call(suffix, data, httpMethod), env)
    {
      var jsonData: Option<string> := None;
      if !data.Nil? {
        var encoded := env.marshal(data);
        if encoded.EncodeError? {
          return Aborted(EncodeFailed(encoded.reason));
        }
        jsonData := Some(encoded.text);
      }
      var target := url + suffix;
      if env.parseUrl(target).None? {
        return Aborted(BadUrl(target));
      }
      var header: map<string, seq<string>> := map[];
      header := header["Content-Type" := ["application/json"]];
      var req := HttpRequest(httpMethod, target, jsonData, header);
      var reply := env.transport(req);
      match reply {
        case TransportError(reason) =>
          outcome := Aborted(TransportFailed(reason));
        case Received(code, status, body) =>
          if GoQuotient(code, 100) != 2 {
            outcome := Aborted(BadStatus("bad response status: " + status + " with message: " + body));
          } else {
            outcome := Done;
          }
      }
    }

    method RegisterExpectation(expectation: Models.Expectation, env: Env) returns (outcome: Outcome)
      ensures outcome == Send(url, CallOf(Operation.RegisterExpectation(expectation)), env)
    {
      outcome := SendData(ExpectationPath, ExpectationPayload(expectation), MethodPut, env);
    }

    method Verify(verify: Models.Verify, env: Env) returns (outcome: Outcome)
      ensures outcome == Send(url, CallOf(Operation.Verify(verify)), env)
    {
      outcome := SendData(VerifyPath, VerifyPayload(verify), MethodPut, env);
    }

    method VerifySequence(sequence: Models.VerifySequence, env: Env) returns (outcome: Outcome)
      ensures outcome == Send(url, CallOf(Operation.VerifySequence(sequence)), env)
    {
      outcome := SendData(VerifySequencePath, SequencePayload(sequence), MethodPut, env);
    }

    method ClearAll(env: Env) returns (outcome: Outcome)
      ensures outcome == Send(url, CallOf(Operation.ClearAll), env)
    {
      outcome := SendData(ClearPath, Nil, MethodPut, env);
    }

    method ClearById(expectationId: string, env: Env) returns (outcome: Outcome)
      ensures outcome == Send(url, CallOf(Operation.ClearById(expectationId)), env)
    {
      outcome := SendData(ClearPath, ObjectPayload(map["id" := expectationId]), MethodPut, env);
    }

    method Clear(request: Models.Request, env: Env) returns (outcome: Outcome)
      ensures outcome == Send(url, CallOf(Operation.Clear(request)), env)
    {
      outcome := SendData(ClearPath, RequestPayload(request), MethodPut, env);
    }
  }

  /** Two successive ClearAll calls on one client. Each call is its own round
      trip, so the second is answered by its own transport, which may reply
      differently; but no field of the client changes between the calls, so
      both hand the transport the same request. */
  method ClearAllTwice(client: MockServerClient, env: Env, secondTransport: HttpRequest -> Reply)
    returns (first: Outcome, second: Outcome)
    ensures first == Send(client.url, CallOf(Operation.ClearAll), env)
    ensures second == Send(client.url, CallOf(Operation.ClearAll), env.(transport := secondTransport))
    ensures BuildRequest(client.url, CallOf(Operation.ClearAll), env) ==
            BuildRequest(client.url, CallOf(Operation.ClearAll), env.(transport := secondTransport))
  {
    first := client.ClearAll(env);
    second := client.ClearAll(env.(transport := secondTransport));
  }

  /** `New`: a client for the given base URL, or BadUrl when it does not
      parse. */
  method New(uri: string, env: Env) returns (r: Result<MockServerClient, Failure>)
    ensures r.Ok? <==> env.parseUrl(uri).Some?
    ensures r.Ok? ==> fresh(r.value) && r.value.url == env.parseUrl(uri).value
    ensures r.Err? ==> r.error == BadUrl(uri)
  {
    var parsed := env.parseUrl(uri);
    if parsed.None? {
      return Err(BadUrl(uri));
    }
    var client := new MockServerClient(parsed.value);
    return Ok(client);
  }
}
