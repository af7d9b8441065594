# meetbot-mcp core, modelled in Dafny

meetbot-mcp exposes the Meet.bot booking-page API as MCP tools. The Dafny
project models its core, in eight modules:

- **EventStore** models `src/in-memory-event-store.ts`. It is the per-session
  event log, a class whose `streams` sequence keeps the JavaScript `Map`'s
  insertion order beside the `events` map. Event ids are supplied by the caller.
  Replay is specified by the function `ReplayOf`; the lemmas prove the promised
  properties of `ReplayOf`.
- **Streamable** models `src/mcp-server-streamable.ts`. It covers:
  - the session registry, as a class with the `transports` and `clients` maps;
  - the POST, GET and DELETE routing rules;
  - auto-configuration from a `Bearer` header;
  - the `onsessioninitialized` and `onclose` callbacks;
  - the session-gated tool handlers.

  Each registry step is also a pure function over the two maps, and the
  lemmas are stated over those functions.
- **StdioServer** models `src/mcp-server.ts`. It covers the single optional
  client slot, the ListTools table and the CallTool dispatcher with its catch
  block. It is a class, specified by the pure function `Dispatch`.
- **Client** models `src/meetbot-client.ts`. It covers:
  - the constructor's validation;
  - the headers every request carries;
  - validate-then-call for each endpoint, with the fixed base URL, paths and timeouts;
  - the response interceptor;
  - the health-check classification.

  HTTP is an oracle, `Api.send`, which answers a request with what axios
  resolves or rejects with. A client is a value, because all of its fields
  are `readonly`.
- **Schemas** models `src/schemas.ts`. Every `z.object` is a list of fields,
  each with a check. It defines acceptance, `parse` with key stripping, and
  the date regex as an anchored pattern.
- **Tools**, **Js** and **Wrappers** are shared vocabulary:
  - tool names and results;
  - JavaScript values with truthiness and property access;
  - `Option` and `Result`.

Code outside the model is passed in as parameters:

- The zod `url()`, `email()` and `datetime()` checks and the text of a
  `ZodError` are the fields of `Schemas.Zod`.
- The network and `JSON.stringify` are the fields of `Client.Api`.
- `isInitializeRequest(body)` is a boolean parameter.
- What the MCP transport's `handleRequest` did is the `Streamable.Handling`
  parameter: the session id it initialized, whether it threw, and whether
  headers had been sent.

Three behaviours of the code are worth stating plainly, because a resumable
session registry is often expected to work otherwise:

- Registering a session id that is already present overwrites the entry
  (`Map.set`) instead of failing with a duplicate-session error.
- Closing a session does not clear its event log. The store is dropped
  together with the transport.
- Event ids are one random id per event, not a per-stream monotonic
  counter, so no ordering of ids is claimed.

## Model

| member | source | states |
|---|---|---|
| EventStore.FindIndex | src/in-memory-event-store.ts:24 | The result is -1 exactly when no event has the id. Otherwise it is the position of the first event with that id. |
| EventStore.Without | src/in-memory-event-store.ts:38 | The insertion order after a delete holds exactly the old streams other than the deleted one. Deleting a stream that is not there leaves the order unchanged. |
| EventStore.ReplayOf | src/in-memory-event-store.ts:23-34 | The replay loop. A failure carries "Event ID … not found". `EventStore.ReplayCharacterized` and the lemmas after it characterize the loop completely. |
| EventStore.InMemoryEventStore.StoreEvent | src/in-memory-event-store.ts:10-17 | The event is appended at the end of its stream's list. A missing stream is first created empty and placed last in the insertion order. Every other stream is unchanged. The returned id is the id of the stream's new last element. |
| EventStore.InMemoryEventStore.ReplayEventsAfter | src/in-memory-event-store.ts:19-35 | It does not modify the store. It returns the stream and the sent events that `ReplayOf` prescribes, or throws "Event ID … not found" having sent nothing. |
| EventStore.InMemoryEventStore.SendAll | src/in-memory-event-store.ts:28-30 | Every event to replay is sent, once each, in stored order. |
| EventStore.InMemoryEventStore.ClearSession | src/in-memory-event-store.ts:37-39 | Only the named stream is removed. An absent stream leaves the store as it was. |
| EventStore.WithoutKeepsDistinct | src/in-memory-event-store.ts:38 | Deleting a key keeps the insertion order free of repeats. |
| EventStore.ReplayCharacterized | src/in-memory-event-store.ts:23-34 | A replay fails exactly when no stream holds the cursor, and then with "Event ID … not found". Otherwise it returns the first stream in insertion order that holds the cursor. It sends that stream's events after the cursor's first occurrence. |
| EventStore.ReplayedHolds | src/in-memory-event-store.ts:24-31 | The returned stream holds the cursor, and the sent events are the ones after the cursor's first occurrence in that stream. |
| EventStore.ReplayAfterAppend | src/in-memory-event-store.ts:15 | Resuming works: events appended to the cursor's stream are replayed after the earlier ones, in append order. |
| EventStore.StoreThenReplayNewest | src/in-memory-event-store.ts:10-31 | After an event is stored under a fresh id, replaying from that id sends nothing and returns the stream the event was stored in. |
| EventStore.ReplayAfterClear | src/in-memory-event-store.ts:34-39 | After `clearSession(s)`, replaying an id that only `s` held throws "Event ID … not found". |
| Schemas.ShapeOf | src/schemas.ts:7-76 | The field lists of the eleven `z.object` declarations. Every declaration has distinct keys, and only `Pages` and `Slots` nest objects. |
| Schemas.ValueOk | src/schemas.ts:7-76 | One value against one zod check. `undefined` and `null` pass no check. |
| Schemas.FieldOk | src/schemas.ts:7-76 | An absent field passes exactly when it is `.optional()`. A present one passes exactly when its value passes the field's check. |
| Schemas.ObjectOk | src/schemas.ts:7-76 | `z.object` acceptance. An accepted value is an object holding every required key. |
| Schemas.Accepts | src/schemas.ts:7-76 | A schema's acceptance. It implies every required key is present, and it depends only on the declared keys' values, so undeclared keys never matter. |
| Schemas.FullMatchPositionwise | src/schemas.ts:58-59 | An anchored regex made of single-character atoms matches exactly the strings of its length whose characters match atom by atom. |
| Schemas.DatePatternIsDateShape | src/schemas.ts:58-59 | `^\d{4}-\d{2}-\d{2}$` accepts exactly 4 ASCII digits, '-', 2 digits, '-', 2 digits. It checks no month or day range. |
| Schemas.FieldIssues | src/schemas.ts:7-76 | There are no issues exactly when every declared field passes. Each issue names a failing field. |
| Schemas.ParseShape | src/schemas.ts:7-76 | A parse succeeds exactly when the value is an object whose declared fields all pass. It then keeps exactly the declared keys that are present, with their values unchanged. A failure reports at least one issue. |
| Schemas.Parse | src/schemas.ts:47-76 | `schema.parse` succeeds exactly when the schema accepts the value. Its output is the stripped copy; a failure carries a non-empty issue list. |
| Schemas.ParseShapeIdempotent | src/schemas.ts:7-76 | A parsed value is itself accepted, and parsing it again returns it unchanged. |
| Schemas.GetSlotsParamsFields | src/schemas.ts:55-62 | States what each of the six fields demands on its own. |
| Schemas.GetSlotsParamsAccepts | src/schemas.ts:55-62 | A value is accepted exactly when `page` is a URL, `count` is absent or a positive integer, `start` and `end` are absent or date-shaped, `timezone` is absent or non-empty, and `booking_link` is absent or a boolean. |
| Schemas.GetSlotsParamsMinimal | src/schemas.ts:55-62 | A record holding only a URL `page` is accepted. |
| Schemas.GetSlotsParamsRejectsSlashDate | src/schemas.ts:58 | A `start` of "2025/01/01" is rejected. |
| Schemas.PageInfoPositive | src/schemas.ts:17-23 | `duration` and `max_days_into_the_future` are positive integers. |
| Schemas.PageInfoRejectsNegativeDuration | src/schemas.ts:19 | A duration of -30 is rejected whatever the other fields hold. |
| Schemas.SlotsAndPagesCounts | src/schemas.ts:25-45 | `Slots.count` is a non-negative integer. `Slots.duration` and `SchedulingPage.duration` are positive integers. |
| Schemas.SlotsCountMayBeZero | src/schemas.ts:41-45 | A zero count passes, but a zero duration is rejected. |
| Schemas.NonEmptyNames | src/schemas.ts:7-62 | `guest_name` is a non-empty string in both `BookSlot` and `BookSlotRequest`, and a present `timezone` is non-empty. |
| Schemas.MeetbotConfigAccepts | src/schemas.ts:74-76 | The config schema accepts exactly the objects whose `authToken`, if present, is a string. |
| Schemas.MeetbotConfigIgnoresExtraKeys | src/schemas.ts:74-76 | Adding a key other than `authToken`, such as `baseUrl`, never changes acceptance. |
| Schemas.ApiErrorSuccessIsFalse | src/schemas.ts:68-72 | An accepted `ApiError` has `success` literally `false`. |
| Client.NewClient | src/meetbot-client.ts:26-29 | Construction succeeds exactly when the config schema accepts the input. A failure is a non-empty schema error. A success holds only `authToken`, and holds it exactly when the input had it, with the input's value. |
| Client.GetConfig | src/meetbot-client.ts:129-131 | Returns a valid configuration equal to the stored one. |
| Client.ConfigRoundTrip | src/meetbot-client.ts:26-29 | Building a client from what `getConfig` returns gives back the same client. |
| Client.TokenConfigures | src/meetbot-client.ts:28 | Any string token, the empty one included, makes a valid config. |
| Client.Headers | src/meetbot-client.ts:35-47 | Every request carries JSON `Content-Type` and `Accept`. It carries `Authorization: Bearer <token>` exactly when the token is truthy, and no other header. |
| Client.NoTokenNoHeader | src/meetbot-client.ts:42-47 | An absent or empty token sends no `Authorization` header. |
| Client.Intercept | src/meetbot-client.ts:50-58 | Successes pass through unchanged. An error whose response has a truthy body becomes `Error("API Error: " + JSON.stringify(body))`. Any other error is rethrown as it is, and no intercepted error still carries a body. |
| Client.InterceptIdempotent | src/meetbot-client.ts:50-58 | Applying the interceptor a second time changes nothing. |
| Client.Send | src/meetbot-client.ts:50-58 | The request is issued as given, and its settlement is the response interceptor applied to what the network answered. |
| Client.GetPages | src/meetbot-client.ts:64-67 | Issues GET https://meet.bot/v1/pages with no parameters, the client's headers and a 30000 ms timeout, and settles as the intercepted reply. |
| Client.GetPageInfo | src/meetbot-client.ts:72-78 | Invalid params reject with the schema error and issue no request. Valid ones issue GET /v1/info carrying the parsed params. |
| Client.GetSlots | src/meetbot-client.ts:83-89 | Invalid params reject with the schema error and issue no request. Valid ones issue GET /v1/slots carrying the parsed params. |
| Client.BookSlot | src/meetbot-client.ts:94-98 | An invalid request rejects with the schema error and issues nothing. A valid one issues POST /v1/book with the parsed request as its body. |
| Client.InvalidPageSendsNothing | src/meetbot-client.ts:73-95 | A `page` that is not a URL makes all three operations reject before any request. |
| Client.HealthRequest | src/meetbot-client.ts:106-108 | The health probe is GET /v1/pages with a 5000 ms timeout. |
| Client.CatchDecision | src/meetbot-client.ts:109-122 | A success counts as healthy. An error counts as healthy exactly when it is an axios error with a response status in 400..499. |
| Client.HealthCheckAsWritten | src/meetbot-client.ts:103-124 | As written: true after a success. For a 4xx it is true exactly when the response has no body. False for any other failure. |
| Client.HealthCheck | src/meetbot-client.ts:103-124 | As intended: true after a success or any 4xx, 401 and 403 included. False for a 5xx, a network error or a non-axios error. |
| Client.HealthCheckDiffersOnlyOnBody | src/meetbot-client.ts:50-58 | The two classifications differ exactly on a 4xx response that carries a body. |
| Client.UnauthorizedWithBody | src/meetbot-client.ts:111-117 | For a 401 with a JSON body, the as-written check says unreachable and the intended one says reachable. |
| StdioServer.ListTools | src/mcp-server.ts:26-139 | Six tools with distinct names, exactly the names the dispatcher handles. Every required argument is a declared property. |
| StdioServer.KeySeqPositionwise | src/mcp-server.ts:26-139 | The advertised key list of a schema is its fields' keys, in order. |
| StdioServer.ToolTableMatchesSchemas | src/mcp-server.ts:29-128 | Each validating tool advertises exactly its schema's fields, and requires exactly the schema's non-optional ones: `page`, or `page`, `guest_email`, `guest_name` and `start`. |
| StdioServer.Operate | src/mcp-server.ts:207-298 | The five client handlers. `health_check` never throws, and its text is ✅ or ❌ as the corrected health check decides. The other four pass their arguments to the client unchanged. When the client call returns, the result summarises that call's payload. When it throws, the handler throws that call's error message. An argument list the schema rejects is always a throw. |
| StdioServer.Dispatch | src/mcp-server.ts:142-298 | `configure_meetbot` replaces the client and replies "configured" or "reconfigured" by whether one existed. A construction failure keeps the old client and returns an error result. No other name touches the client. Without a client the other five tools fail with the not-configured message. With one, the result is `StdioServer.Operate`'s result, or, when `Operate` throws, the error result built from its message. An unknown name fails with "Unknown tool: <name>". Every caught failure becomes an error result whose only text is "Error: " + message. `health_check` uses the corrected health check; see "## Left out". |
| StdioServer.ConfiguredToolsReachClient | src/mcp-server.ts:228-298 | With a client, `health_check` is never an error and answers ✅ or ❌ as the corrected health check decides. `get_page_info` returns a summary of its payload, or an error result with the client call's error message. |
| StdioServer.MeetbotMCPServer.HandleConfigureMeetbot | src/mcp-server.ts:182-205 | The slot is assigned only after construction succeeded. The reply is chosen by whether a client existed before. |
| StdioServer.MeetbotMCPServer.CallTool | src/mcp-server.ts:142-178 | The new client slot and the result are exactly what `Dispatch` prescribes, so no call ever propagates an error. |
| Streamable.RoutePost | src/mcp-server-streamable.ts:282-338 | A POST naming a registered session goes to it. One naming no session goes to a new session exactly when it is an initialize request. Every other POST is rejected. |
| Streamable.AfterHandling | src/mcp-server-streamable.ts:342-353 | The 500 reply is written exactly when handling threw before any header was sent. |
| Streamable.BearerToken | src/mcp-server-streamable.ts:296-298 | There is a token exactly when the header starts with "Bearer ", and the header is "Bearer " followed by the token. |
| Streamable.Initialized | src/mcp-server-streamable.ts:291-310 | The transport is registered under the session id. With a Bearer token a client holding that token is stored for the session and no other client changes. Without one the clients are untouched. |
| Streamable.Closed | src/mcp-server-streamable.ts:314-321 | A present, registered id is removed from both maps. Anything else changes nothing. |
| Streamable.StepsKeepConsistent | src/mcp-server-streamable.ts:293-319 | Initialization and close keep every client's session registered, with a valid configuration. |
| Streamable.CloseIdempotent | src/mcp-server-streamable.ts:314-321 | A second close of the same session changes nothing. |
| Streamable.CloseIsLocal | src/mcp-server-streamable.ts:318-319 | Closing one session leaves every other session's transport and client as they were. |
| Streamable.NoHeaderNoClient | src/mcp-server-streamable.ts:296-309 | A session initialized without a Bearer header is registered without a client. |
| Streamable.Transport.constructor | src/mcp-server-streamable.ts:287-290 | Every new transport gets its own fresh, empty event store. |
| Streamable.MeetbotMCPStreamable.OnSessionInitialized | src/mcp-server-streamable.ts:291-310 | The registry becomes `Initialized` of the old one, and the invariant holds. |
| Streamable.MeetbotMCPStreamable.OnClose | src/mcp-server-streamable.ts:314-321 | The registry becomes `Closed` of the old one for the transport's session id. |
| Streamable.MeetbotMCPStreamable.HandlePost | src/mcp-server-streamable.ts:274-355 | A rejected POST gets a 400 -32000 reply and changes nothing. A POST to an existing session changes nothing. A new session creates a transport with a fresh store and is registered only once the transport initializes it. The 500 -32603 reply follows `AfterHandling`. |
| Streamable.MeetbotMCPStreamable.HandleGet | src/mcp-server-streamable.ts:358-378 | A missing or unknown session gets 400 "Invalid or missing session ID", which is the only case it is sent. Otherwise the transport answers. |
| Streamable.MeetbotMCPStreamable.HandleDelete | src/mcp-server-streamable.ts:381-400 | A missing or unknown session gets 400. Otherwise the transport answers, and the 500 reply follows `AfterHandling`. |
| Streamable.MeetbotMCPStreamable.SessionClient | src/mcp-server-streamable.ts:70-80 | A missing session id throws "Session ID is required". A session without a client throws the not-configured message. Otherwise the result is the session's client. |
| Streamable.MeetbotMCPStreamable.CallTool | src/mcp-server-streamable.ts:30-249 | `configure_meetbot` reports "already configured" exactly when the session has a client. The other tools fail with "not configured" without one. `get_page_info` and `get_available_slots` need a truthy page. `book_meeting` needs page, guest_email, guest_name and start. With a client the result is exactly `Streamable.Operate`'s for that client. |
| Streamable.Operate | src/mcp-server-streamable.ts:83-248 | The tool bodies after the session gate. A falsy `page` throws "Page URL is required". `get_page_info` then passes only `{ page }` to the client, and `get_available_slots` passes the arguments as they are. Missing booking arguments throw the "Required parameters missing" message. A complete booking passes exactly page, guest_email, guest_name, notes and start. When the client call returns, the result summarises that call's payload. When it throws, the handler throws that call's error message. `health_check` reports the corrected health check and never throws. |

## Findings

| source | as written | input that shows it | evidently intended | confidence | as-written member | corrected member |
|---|---|---|---|---|---|---|
| src/meetbot-client.ts:50-58, 110-121 | The response interceptor turns every error whose response has a truthy body into a plain `Error`. So `healthCheck`'s `axios.isAxiosError` branch never sees a 401, 403 or other 4xx that carries a body, and returns false. | The health GET is answered 401 with body `{"error": "Unauthorized"}` | The comments at lines 111 and 116-119 say any 4xx means the API is reachable, so the result should be true | not executed | Client.HealthCheckAsWritten, Client.UnauthorizedWithBody | Client.HealthCheck |

Both servers' `health_check` tools use the corrected `Client.HealthCheck`; "## Left out" records where that departs from the program.

## Left out

- Event-id generation from `Date.now()` and `Math.random()` is nondeterministic. Ids are a parameter of `StoreEvent`, and neither uniqueness nor order is claimed.
- The `send` callback of a replay is modelled as the returned sequence of sent events. A `send` that rejects part-way is not modelled.
- Concurrency and `async`/`await`: every operation runs to completion in sequence.
- The text of successful tool results is kept abstract as `Formatted(tool, payload)`. This covers the `map`/`join` formatting and `toLocaleString`. A formatting failure on a malformed payload is not modelled either.
- The zod `url()`, `email()` and `datetime()` checks and the wording of `ZodError` messages are foreign code and appear as parameters. Issues are reported one per failing field, without zod's nested paths.
- Stripping of unknown keys is modelled for the flat schemas the code parses at run time. The nested `Pages` and `Slots` schemas are modelled by acceptance only.
- Numbers are mathematical reals: NaN, infinities and floating-point rounding are not modelled.
- The network, axios's request pipeline and the two timeouts are not modelled. The timeouts appear only as constants on the request, and the interceptors appear as functions applied around each request.
- Client.GetConfig: returns an equal value; that the copy is a distinct object is not expressible over values.
- StdioServer.Operate, Streamable.Operate: the `health_check` branch calls the corrected `Client.HealthCheck`, not the `healthCheck()` the handlers call (src/mcp-server.ts:287, src/mcp-server-streamable.ts:238). On a 401, 403 or other 4xx whose response carries a body, the program replies "❌ … cannot connect" and the model replies "✅ … healthy". On every other reply the two agree (`Client.HealthCheckDiffersOnlyOnBody`). The same holds for the rows of `StdioServer.Dispatch`, `StdioServer.ConfiguredToolsReachClient` and `Streamable.MeetbotMCPStreamable.CallTool`.
- The MCP SDK is foreign code, and none of these parts are modelled:
  - `StreamableHTTPServerTransport.handleRequest`, which appears as the `Handling` parameter;
  - `isInitializeRequest`, which appears as a boolean parameter;
  - session-id generation (`randomUUID`), which appears as the supplied id;
  - the SDK's validation of tool arguments against the registered input schemas;
  - its wrapping of a thrown tool error into a result;
  - its routing of unknown tool names;
  - `McpServer.connect`, including the same server being connected to every new transport;
  - SSE framing, and how the SDK drives replay.
- Streamable.MeetbotMCPStreamable.HandleGet: an exception from the transport is not modelled, because the GET handler has no catch and the error goes to Express.
- When the transport closes is the SDK's decision. The model exposes `OnClose` as the callback it invokes; `HandleDelete` itself changes nothing.
- Express is not modelled: the CORS middleware, the OPTIONS short-circuit, `/health`, JSON body parsing and status and header plumbing. Responses are abstract `Response` values.
- `MeetbotMCPServer.run`, the stdio transport, the tool descriptions and property types in ListTools, and all console logging are not modelled.
- The command-line entry points, the re-exports, the type declarations, the example and the test and build scripts are not part of this model.
