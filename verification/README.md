# go-mock-server-client, modelled in Dafny

A model of a Go client library that configures and verifies a remote HTTP
mock server. Callers build records that describe requests, responses,
expectations and verifications. They then call one of six dispatcher
operations. Each operation encodes its record as JSON, PUTs it to a fixed
control endpoint under the server's base URL, and aborts unless the status is
in the 2xx range.

The project has four modules, one file each:

- `wrappers.dfy` (`Wrappers`): `Option` and `Result`.
- `json_tags.dfy` (`JsonTags`): the struct-tag rule that decides which wire
  keys a record emits (`Emitted`), and `Encoding`, the result of
  `json.Marshal`.
- `models.dfy` (`Models`): the records of `models.go` as datatypes, the
  wire-key sets of every modelled record's scalar fields (and of the `values`
  list of the name-and-values records), and the helper constructors.
  `(*Request).WithPath` and `(*VerifySequence).WithIds` assign through a
  pointer receiver. They are methods of the classes `RequestRef` and
  `VerifySequenceRef`, which stand for `*Request` and `*VerifySequence`;
  `Value()` on either is the Go dereference.
- `client.dfy` (`Client`): the endpoint table (`Operation`, `CallOf`) and the
  send routine. The send routine is written as specification functions
  (`BuildRequest`, `Classify`, `Send`) and as the imperative method
  `MockServerClient.SendData`, which is proved equal to `Send`. The six public
  operations and `New` are also here.

The client calls the standard library and the network. Those calls are the
fields of an `Env` of total functions that every operation takes:

- `parseUrl`: `url.Parse` followed by `URL.String`. It is used by `New` and by
  `http.NewRequest`.
- `marshal`: `json.Marshal`.
- `transport`: one `client.Do` round trip, plus reading the body of the
  response.

Every Go `panic` becomes an explicit `Aborted(cause)` outcome, or `Err(BadUrl)`
in `New`.

Two details of the code are easy to miss, and the model follows them:

- `JsonResponse` discards the encoder's error. A value that fails to encode
  gives a JSON body with an empty payload.
- On a bad status, the body text comes from `io.ReadAll` with its error
  discarded. That text is whatever was read, not necessarily empty. The model
  takes the body text as part of the reply.

## Model

| member | source | states |
|---|---|---|
| `JsonTags.Emitted` | models.go:58-63 | a key is emitted exactly when some field carries it and that field is not both `omitempty` and zero |
| `Models.WireName` | models.go:9-21 | every body-type constant stands for a non-empty wire string |
| `Models.BodyTypeOf` | models.go:7-21 | reading a wire string back gives a constant only if that constant's wire string is exactly that string |
| `Models.WireNameRoundTrip` | models.go:9-21 | each constant's wire string reads back as that constant |
| `Models.WireNamesDistinct` | models.go:9-21 | two constants with the same wire string are the same constant (the eleven strings are pairwise distinct) |
| `Models.BodyKeys` | models.go:58-63 | each of `base64Bytes`, `not`, `type`, `contentType` is on the wire iff its field is non-zero, and no other key is |
| `Models.TimesKeys` | models.go:225-228 | `remainingTimes` is present iff non-zero, `unlimited` iff true, and nothing else |
| `Models.VerifyTimesKeys` | models.go:284-287 | with no `omitempty`, both `atLeast` and `atMost` are always on the wire, whatever their values |
| `Models.ExpectationIdKeys` | models.go:261-263 | `id` is on the wire iff the identifier is non-empty |
| `Models.ResponseScalarKeys` | models.go:87-88 | `statusCode` is present iff non-zero, `reasonPhrase` iff non-empty |
| `Models.RequestScalarKeys` | models.go:24-34 | `secure`, `keepAlive`, `method`, `path`, `protocol` are each present iff their field is non-zero |
| `Models.NamedValuesKeys` | models.go:42-50 | for a path parameter, query parameter or header, `name` is present iff non-empty and `values` iff the list is non-empty |
| `Models.HttpCookieKeys` | models.go:70-73 | `name` and `value` are each present iff non-empty |
| `Models.SocketAddressKeys` | models.go:75-79 | `host`, `port`, `scheme` are each present iff non-zero |
| `Models.TimeUnitKeys` | models.go:104-107 | `timeUnit` is present iff non-empty, `value` iff non-zero |
| `Models.TimeToLiveKeys` | models.go:237-241 | `timeUnit`, `timeToLive`, `unlimited` are each present iff non-zero |
| `Models.ConnectionOptionsScalarKeys` | models.go:125-131 | each of the six flag and size fields is present iff non-zero, so an explicit `closeSocket: false` is indistinguishable from unset |
| `Models.ExpectationScalarKeys` | models.go:244-245 | `id` is present iff non-empty and `priority` iff non-zero, so a priority of 0 is dropped |
| `Models.VerifySequenceScalarKeys` | models.go:268 | the failure cap is on the wire iff it is non-zero |
| `Models.VerifyTaggedKeys` | models.go:299-300 | `times`, having no `omitempty`, is always on the wire; the failure cap only when non-zero |
| `Models.WithQueryParameter` | models.go:52-56 | a list of exactly one parameter, with the given name and the given values in the given order |
| `Models.JsonBody` | models.go:109-115 | type reads back as JSON, content type `application/json`, payload is the input verbatim, not negated |
| `Models.StringBody` | models.go:117-123 | type reads back as STRING, content type `text/plain`, payload is the input verbatim, not negated |
| `Models.BodyHelperKeys` | models.go:109-123 | the two body helpers differ, emit the same keys, and emit `base64Bytes` only for a non-empty payload |
| `Models.JsonResponse` | models.go:91-96 | the body is `JsonBody` of the encoded text (empty if encoding failed) and every other field is zero |
| `Models.StringResponse` | models.go:98-102 | the body is `StringBody` of the input and every other field is zero |
| `Models.ResponseHelpersLeaveStatusToServer` | models.go:91-102 | neither response helper writes `statusCode` or `reasonPhrase`, so the server applies its default |
| `Models.Once` | models.go:230-235 | remaining count 1, not unlimited, so `remainingTimes` is its only wire key |
| `Models.NeverCalled` | models.go:289-294 | at least 0 and at most 0, and both keys are still on the wire |
| `Models.ZeroTimesOmitted` | models.go:225-228 | an all-zero `Times` writes no key, unlike the all-zero `VerifyTimes` of `NeverCalled` |
| `Models.WrapIds` | models.go:276-279 | one expectation id per identifier, same length, the i-th holding the i-th identifier |
| `Models.IdsOfWrapIds` | models.go:276-279 | reading the identifiers back out of the wrapped list gives the input, in order |
| `Models.PathKey` | models.go:27 | after setting the path, `path` is on the wire iff the new path is non-empty, and no other scalar key changes |
| `Models.RequestRef.WithPath` | models.go:37-40 | the path is the argument, every other field is unchanged, and the receiver is returned |
| `Models.VerifySequenceRef.Sequence` | models.go:271-273 | a fresh pointer to an all-zero `VerifySequence` |
| `Models.VerifySequenceRef.WithIds` | models.go:275-282 | the ids are replaced (not extended) by one record per identifier in input order, the requests and the failure cap are unchanged, and the receiver is returned |
| `Client.CallOf` | mockServerClient.go:27-49 | every operation uses PUT; only ClearAll has no body; the three clear operations share `/mockserver/clear?type=all`, and each other operation has its own suffix |
| `Client.CallBodies` | mockServerClient.go:27-49 | record operations send their record as body; ClearById sends an object whose only key `id` maps to the identifier |
| `Client.GoQuotient` | mockServerClient.go:74 | Go's truncating division agrees with Dafny's on non-negative operands and is never positive for a negative dividend |
| `Client.StatusOk` | mockServerClient.go:74 | `status / 100 == 2` holds iff the status is between 200 and 299, for every integer status |
| `Client.Classify` | mockServerClient.go:74-77 | success iff the status is in 200-299; otherwise failure with `bad response status: <status line> with message: <body>` |
| `Client.RejectionMessage` | mockServerClient.go:76 | a non-2xx response aborts with a message that contains the status line after the fixed prefix and ends with the body text |
| `Client.BuildRequest` | mockServerClient.go:51-67 | fails iff a body fails to encode or the target does not parse, encoding failures first with `EncodeFailed(reason)`, otherwise `BadUrl(base ++ suffix)`; otherwise the request has the given method, target base ++ suffix, a body iff data is non-nil (the encoder's text), and exactly the header `Content-Type: application/json` |
| `Client.Send` | mockServerClient.go:51-78 | the send routine succeeds iff the request is built, the transport replies, and the status is 2xx; a build failure aborts with its own cause, a transport error with `TransportFailed`, and a received response gives exactly `Classify` of its status code, status line and body |
| `Client.TargetIsBasePlusSuffix` | mockServerClient.go:60-62 | the target starts with the base URL and the rest is exactly the suffix, with no separator inserted |
| `Client.ClearAllRequest` | mockServerClient.go:39-41 | ClearAll never consults the encoder; its request is PUT to base ++ `/mockserver/clear?type=all` with no body and the JSON content type, the same on every call |
| `Client.MockServerClient.SendData` | mockServerClient.go:51-78 | the step-by-step routine yields exactly the outcome `Send` specifies for the client's base URL |
| `Client.MockServerClient.RegisterExpectation` | mockServerClient.go:27-29 | the outcome of sending the table's call for RegisterExpectation |
| `Client.MockServerClient.Verify` | mockServerClient.go:31-33 | the outcome of sending the table's call for Verify |
| `Client.MockServerClient.VerifySequence` | mockServerClient.go:35-37 | the outcome of sending the table's call for VerifySequence |
| `Client.MockServerClient.ClearAll` | mockServerClient.go:39-41 | the outcome of sending the table's call for ClearAll; the base URL is a constant field, so repeated calls send the same request |
| `Client.MockServerClient.ClearById` | mockServerClient.go:43-45 | the outcome of sending the table's call for ClearById |
| `Client.MockServerClient.Clear` | mockServerClient.go:47-49 | the outcome of sending the table's call for Clear |
| `Client.ClearAllTwice` | mockServerClient.go:11-14 | two successive ClearAll calls on one client, each answered by its own transport, each give the outcome of sending the ClearAll call, and both hand the transport the same request, since no client field changes |
| `Client.New` | mockServerClient.go:16-25 | a client exists iff the base URL parses; it holds the parsed URL's string form; otherwise the error is `BadUrl(uri)` |

## Left out

- The HTTP transport. `http.NewRequest` internals, `client.Do`, `io.ReadAll` and the deferred `resp.Body.Close()` are network I/O. They are the `Env.transport` function: one reply per request. Closing the body has no counterpart.
- `http.NewRequest` rejects an invalid method as well as an unparsable URL. Only `PUT` is ever passed, so the model only checks the URL.
- `http.Header.Set` canonicalises the header name. `Content-Type` is already canonical, so the model stores it as written.
- `url.Parse` and `URL.String` are standard-library code. They are the `Env.parseUrl` function.
- `json.Marshal` is the `Env.marshal` function and the `Encoding` datatype. There is no claim about how nested records are encoded. In particular, the model does not say whether a zero nested struct is dropped. Key sets cover scalar fields and the `values` lists of `PathParameter`, `QueryParameter` and `HTTPHeader`. The list and nested-record fields of `Request`, `Response`, `Expectation`, `Verify` and `VerifySequence` get no key claim; `times` of `Verify` is the exception, because it has no `omitempty` and so is always written.
- The passive action and modifier records at models.go:135-223 have no behaviour and are not modelled. `ConnectionOptions` (models.go:125-133) and `TimeUnit` (models.go:104-107) are modelled, because `Response` holds them. `Expectation` keeps only `id`, `priority`, `httpRequest`, `httpResponse`, `times` and `timeToLive`. Its other action fields are not modelled.
- `http.DefaultClient`, the client's transport field, is not a field of `MockServerClient`. The transport is passed in through `Env`.
- Go's `int` is 64 bits wide. The records use unbounded `int`, since the client does no arithmetic on those fields.
- A panic ends the process in Go. Here it is an `Aborted` outcome returned to the caller.
- `Env.transport` is a fixed function of the request. The remote server's state between calls is not modelled; successive calls are related only through the requests they send, as in `ClearAllTwice`.
- Concurrent use of one client is not modelled. Nothing in the code coordinates threads.
