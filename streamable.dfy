/**
 * The Streamable HTTP MCP server: a registry of sessions (one transport
 * and at most one configured client per session id), the POST/GET/DELETE
 * routing rules in front of the transports, auto-configuration from a
 * `Bearer` header, cleanup on close, and the session-gated tools.
 *
 * The MCP transport is foreign: what `handleRequest` did is an input
 * (`Handling`), and its callbacks are the methods `OnSessionInitialized`
 * and `OnClose`, which it invokes.
 */
module Streamable {
  import opened Wrappers
  import opened Js
  import opened Tools
  import Schemas
  import Client
  import EventStore

  const BadRequestMessage := "Bad Request: No valid session ID provided"
  const InternalErrorMessage := "Internal server error"
  const InvalidSessionText := "Invalid or missing session ID"
  const TerminationErrorText := "Error processing session termination"
  const SessionRequired := "Session ID is required"
  const NotConfigured := "Meet.bot client not configured. Please use configure_meetbot first."
  const AlreadyConfigured := "✅ Meet.bot client is already configured and ready to use."
  const NotConfiguredHint :=
    "⚠️ Meet.bot client not configured. Please ensure the Authorization header is provided during connection."
  const PageRequired := "Page URL is required"
  const BookingArgsMissing := "Required parameters missing: page, guest_email, guest_name, start"
  const BearerPrefix := "Bearer "

  /** An HTTP reply written by the router itself, or left to the transport. */
  datatype Response =
    | Delegated                                         // the transport answered
    | RpcError(status: int, code: int, message: string) // `{jsonrpc: "2.0", error: {code, message}, id: null}`
    | PlainText(status: int, text: string)

  /** What `transport.handleRequest` did: the id it initialized, whether it threw, whether headers went out. */
  datatype Handling = Handling(initializedAs: Option<string>, threw: bool, headersSent: bool)

  /** A header, or `extra.sessionId`, as JavaScript tests it: present and non-empty. */
  predicate Present(h: Option<string>)
  {
    h.Some? && h.value != ""
  }

  // ---------------------------------------------------------------- routing rules

  datatype Route = Existing(id: string) | Initialize | Reject

  /**
   * Which way a POST goes: to the known session it names; to a new session
   * when it names none and is an initialize request; otherwise rejected.
   */
  function RoutePost(sessionHeader: Option<string>, known: set<string>, isInitialize: bool): (r: Route)
    ensures r.Existing? <==> Present(sessionHeader) && sessionHeader.value in known
    ensures r.Existing? ==> r.id == sessionHeader.value
    ensures r.Initialize? <==> !Present(sessionHeader) && isInitialize
    ensures r.Reject? <==>
      (Present(sessionHeader) && sessionHeader.value !in known) || (!Present(sessionHeader) && !isInitialize)
  {
    if Present(sessionHeader) && sessionHeader.value in known then Existing(sessionHeader.value)
    else if !Present(sessionHeader) && isInitialize then Initialize
    else Reject
  }

  /**
   * The catch block of the POST and DELETE handlers: the error reply is
   * written only when the handler threw before any header went out.
   */
  function AfterHandling(h: Handling, error: Response): (r: Response)
    requires error != Delegated
    ensures r != Delegated <==> h.threw && !h.headersSent
    ensures r != Delegated ==> r == error
  {
    if h.threw && !h.headersSent then error else Delegated
  }

  /**
   * The token of an `Authorization` header: present exactly when the header
   * starts with "Bearer ", and then everything after those 7 characters.
   */
  function BearerToken(authorization: Option<string>): (r: Option<string>)
    ensures r.Some? <==> authorization.Some? && BearerPrefix <= authorization.value
    ensures r.Some? ==> authorization.value == BearerPrefix + r.value
  {
    if Present(authorization) && BearerPrefix <= authorization.value then
      Some(authorization.value[|BearerPrefix|..])
    else None
  }

  // ---------------------------------------------------------------- the registry as a value

  /** The two maps of the registry; `T` stands for the transport objects. */
  datatype Sessions<T> = Sessions(transports: map<string, T>, clients: map<string, Client.MeetbotClient>)

  /** Every configured session has a transport, and every client a valid configuration. */
  predicate Consistent<T>(s: Sessions<T>)
  {
    && s.clients.Keys <= s.transports.Keys
    && forall id :: id in s.clients ==> Client.ValidConfig(s.clients[id].config)
  }

  /**
   * `onsessioninitialized(id)`: register the transport, and store a client
   * built from the Bearer token when there is one; a constructor failure is
   * swallowed and leaves the session without a client.
   */
  function Initialized<T>(z: Schemas.Zod, s: Sessions<T>, id: string, t: T, authorization: Option<string>): (r: Sessions<T>)
    ensures r.transports == s.transports[id := t]
    ensures BearerToken(authorization).None? ==> r.clients == s.clients
    ensures BearerToken(authorization).Some? ==>
      r.clients.Keys == s.clients.Keys + {id} &&
      Get(r.clients[id].config, "authToken") == Str(BearerToken(authorization).value) &&
      forall other :: other in s.clients && other != id ==> r.clients[other] == s.clients[other]
  {
    var clients := (
      if BearerToken(authorization).None? then s.clients
      else
        var token := BearerToken(authorization).value;
        Client.TokenConfigures(z, token);
        var made := Client.NewClient(z, Single("authToken", token));
        if made.Ok? then s.clients[id := made.value] else s.clients);
    Sessions(s.transports[id := t], clients)
  }

  /** `onclose`: forget the session in both maps when its id is present and registered. */
  function Closed<T>(s: Sessions<T>, sid: Option<string>): (r: Sessions<T>)
    ensures Present(sid) && sid.value in s.transports ==>
      r.transports == s.transports - {sid.value} && r.clients == s.clients - {sid.value}
    ensures !(Present(sid) && sid.value in s.transports) ==> r == s
  {
    if Present(sid) && sid.value in s.transports then
      Sessions(s.transports - {sid.value}, s.clients - {sid.value})
    else s
  }

  /** Initialization and close keep every client's session registered. */
  lemma StepsKeepConsistent<T>(z: Schemas.Zod, s: Sessions<T>, id: string, t: T, authorization: Option<string>, sid: Option<string>)
    requires Consistent(s)
    ensures Consistent(Initialized(z, s, id, t, authorization))
    ensures Consistent(Closed(s, sid))
  {
    var r := Initialized(z, s, id, t, authorization);
    if BearerToken(authorization).Some? {
      var token := BearerToken(authorization).value;
      Client.TokenConfigures(z, token);
      assert r.clients == s.clients[id := Client.NewClient(z, Single("authToken", token)).value];
    }
  }

  /** A second close of the same session changes nothing. */
  lemma CloseIdempotent<T>(s: Sessions<T>, sid: Option<string>)
    ensures Closed(Closed(s, sid), sid) == Closed(s, sid)
  {
  }

  /** Closing a session leaves every other session as it was. */
  lemma CloseIsLocal<T>(s: Sessions<T>, sid: Option<string>, other: string)
    requires !(sid.Some? && other == sid.value)
    ensures (other in Closed(s, sid).transports) == (other in s.transports)
    ensures other in s.transports ==> Closed(s, sid).transports[other] == s.transports[other]
    ensures (other in Closed(s, sid).clients) == (other in s.clients)
    ensures other in s.clients ==> Closed(s, sid).clients[other] == s.clients[other]
  {
  }

  /** A session initialized without a Bearer header has no client until it is closed. */
  lemma NoHeaderNoClient<T>(z: Schemas.Zod, s: Sessions<T>, id: string, t: T, authorization: Option<string>)
    requires id !in s.clients
    requires authorization.None? || !(BearerPrefix <= authorization.value)
    ensures id in Initialized(z, s, id, t, authorization).transports
    ensures id !in Initialized(z, s, id, t, authorization).clients
  {
  }

  // ---------------------------------------------------------------- transports

  /**
   * A transport created for one initialize request, with its own event
   * store, and the request's `Authorization` header, which its
   * initialization callback reads.
   */
  class Transport {
    var sessionId: Option<string>
    const eventStore: EventStore.InMemoryEventStore
    const authorization: Option<string>

    constructor (authorization: Option<string>)
      ensures sessionId.None? && this.authorization == authorization
      ensures fresh(eventStore) && eventStore.Valid()
      ensures eventStore.streams == [] && eventStore.events == map[]
    {
      sessionId := None;
      eventStore := new EventStore.InMemoryEventStore();
      this.authorization := authorization;
    }
  }

  // ---------------------------------------------------------------- the server

  class MeetbotMCPStreamable {
    var transports: map<string, Transport>
    var clients: map<string, Client.MeetbotClient>

    function State(): Sessions<Transport>
      reads this
    {
      Sessions(transports, clients)
    }

    /** The registry is consistent, and every transport is registered under its own session id. */
    ghost predicate Valid()
      reads this, transports.Values
    {
      && Consistent(State())
      && forall id :: id in transports ==> transports[id].sessionId == Some(id)
    }

    constructor ()
      ensures Valid() && transports == map[] && clients == map[]
    {
      transports := map[];
      clients := map[];
    }

    /**
     * The transport's `onsessioninitialized(id)` callback; the transport has
     * taken `id` as its session id just before.
     */
    method OnSessionInitialized(z: Schemas.Zod, t: Transport, id: string)
      requires Valid() && t !in transports.Values
      modifies this, t
      ensures Valid()
      ensures t.sessionId == Some(id)
      ensures State() == Initialized(z, old(State()), id, t, t.authorization)
    {
      t.sessionId := Some(id);
      transports := transports[id := t];
      var token := BearerToken(t.authorization);
      if token.Some? {
        Client.TokenConfigures(z, token.value);
        var made := Client.NewClient(z, Single("authToken", token.value));
        if made.Ok? {
          clients := clients[id := made.value];
        }
      }
      StepsKeepConsistent(z, old(State()), id, t, t.authorization, None);
    }

    /** The transport's `onclose` callback. */
    method OnClose(t: Transport)
      requires Valid()
      modifies this
      ensures Valid()
      ensures State() == Closed(old(State()), t.sessionId)
    {
      var sid := t.sessionId;
      if Present(sid) && sid.value in transports {
        transports := transports - {sid.value};
        clients := clients - {sid.value};
      }
    }

    /**
     * POST /: route on the session header and the body's kind; `sdk` is
     * what the transport's `handleRequest` did with the request.  A new
     * session's transport is returned as `created`.
     */
    method HandlePost(z: Schemas.Zod, sessionHeader: Option<string>, authorization: Option<string>,
                      isInitialize: bool, sdk: Handling)
      returns (response: Response, created: Option<Transport>)
      requires Valid()
      modifies this
      ensures Valid()
      ensures var route := RoutePost(sessionHeader, old(transports).Keys, isInitialize);
        && (route.Reject? ==>
              response == RpcError(400, -32000, BadRequestMessage) && State() == old(State()) && created.None?)
        && (route.Existing? ==>
              response == AfterHandling(sdk, RpcError(500, -32603, InternalErrorMessage)) &&
              State() == old(State()) && created.None?)
        && (route.Initialize? ==>
              response == AfterHandling(sdk, RpcError(500, -32603, InternalErrorMessage)) &&
              created.Some? && fresh(created.value) && fresh(created.value.eventStore) &&
              created.value.eventStore.events == map[] &&
              created.value.authorization == authorization &&
              State() == (if sdk.initializedAs.Some?
                          then Initialized(z, old(State()), sdk.initializedAs.value, created.value, authorization)
                          else old(State())))
    {
      var route := RoutePost(sessionHeader, transports.Keys, isInitialize);
      if route.Reject? {
        return RpcError(400, -32000, BadRequestMessage), None;
      }
      created := None;
      if route.Initialize? {
        var t := new Transport(authorization);
        created := Some(t);
        if sdk.initializedAs.Some? {
          OnSessionInitialized(z, t, sdk.initializedAs.value);
        }
      }
      response := AfterHandling(sdk, RpcError(500, -32603, InternalErrorMessage));
    }

    /** The guard shared by GET and DELETE: a present header naming a registered session. */
    predicate Admits(sessionHeader: Option<string>)
      reads this
    {
      Present(sessionHeader) && sessionHeader.value in transports
    }

    /** GET /: the SSE stream of a known session, or 400. */
    method HandleGet(sessionHeader: Option<string>) returns (response: Response)
      ensures response == PlainText(400, InvalidSessionText) <==> !Admits(sessionHeader)
      ensures Admits(sessionHeader) ==> response == Delegated
    {
      if !Present(sessionHeader) || sessionHeader.value !in transports {
        return PlainText(400, InvalidSessionText);
      }
      response := Delegated;
    }

    /** DELETE /: termination of a known session, 400 for an unknown one, 500 on an early failure. */
    method HandleDelete(sessionHeader: Option<string>, sdk: Handling) returns (response: Response)
      ensures !Admits(sessionHeader) ==> response == PlainText(400, InvalidSessionText)
      ensures Admits(sessionHeader) ==>
        response == AfterHandling(sdk, PlainText(500, TerminationErrorText))
    {
      if !Present(sessionHeader) || sessionHeader.value !in transports {
        return PlainText(400, InvalidSessionText);
      }
      response := AfterHandling(sdk, PlainText(500, TerminationErrorText));
    }

    // ------------------------------------------------------------ session-gated tools

    /** The client of the calling session, or the message the tool throws. */
    function SessionClient(sessionId: Option<string>): (r: Result<Client.MeetbotClient, string>)
      reads this
      ensures !Present(sessionId) ==> r == Err(SessionRequired)
      ensures Present(sessionId) ==>
        (r.Ok? <==> sessionId.value in clients) &&
        (r.Ok? ==> r.value == clients[sessionId.value]) &&
        (r.Err? ==> r.error == NotConfigured)
    {
      if !Present(sessionId) then Err(SessionRequired)
      else if sessionId.value !in clients then Err(NotConfigured)
      else Ok(clients[sessionId.value])
    }

    /**
     * The registered tools, as their handlers return or throw (`Err` holds
     * the thrown message).  They only read the registry.
     */
    function CallTool(z: Schemas.Zod, api: Client.Api, sessionId: Option<string>, name: string, args: Json)
      : (r: Result<ToolResult, string>)
      requires IsTool(name) && Consistent(State())
      reads this
      ensures !Present(sessionId) ==> r == Err(SessionRequired)
      ensures Present(sessionId) && name == ConfigureMeetbot ==>
        r == Ok(Reply(if sessionId.value in clients then AlreadyConfigured else NotConfiguredHint))
      ensures Present(sessionId) && name in ClientTools && sessionId.value !in clients ==> r == Err(NotConfigured)
      ensures (Present(sessionId) && sessionId.value in clients &&
               (name == GetPageInfo || name == GetAvailableSlots) && !Truthy(Get(args, "page"))) ==>
        r == Err(PageRequired)
      ensures (Present(sessionId) && sessionId.value in clients && name == BookMeeting &&
               !BookingArgsPresent(args)) ==>
        r == Err(BookingArgsMissing)
      ensures Present(sessionId) && name in ClientTools && sessionId.value in clients ==>
        r == Operate(z, api, clients[sessionId.value], name, args)
    {
      if name == ConfigureMeetbot then
        if !Present(sessionId) then Err(SessionRequired)
        else Ok(Reply(if sessionId.value in clients then AlreadyConfigured else NotConfiguredHint))
      else
        match SessionClient(sessionId)
        case Err(message) => Err(message)
        case Ok(c) => Operate(z, api, c, name, args)
    }
  }

  /** The four arguments `book_meeting` insists on are all truthy. */
  predicate BookingArgsPresent(args: Json)
  {
    Truthy(Get(args, "page")) && Truthy(Get(args, "guest_email")) &&
    Truthy(Get(args, "guest_name")) && Truthy(Get(args, "start"))
  }

  /** The booking handed to the client: the five named arguments, `notes` possibly undefined. */
  function BookingOf(args: Json): (r: Json)
    ensures r.Obj? && r.fields.Keys == {"page", "guest_email", "guest_name", "notes", "start"}
    ensures forall k :: k in r.fields ==> r.fields[k] == Get(args, k)
  {
    Obj(map["page" := Get(args, "page"), "guest_email" := Get(args, "guest_email"),
            "guest_name" := Get(args, "guest_name"), "notes" := Get(args, "notes"),
            "start" := Get(args, "start")])
  }

  /**
   * A client tool once the session's client is known: the argument checks,
   * then the client call.  `get_page_info` hands the client `{ page }` only,
   * `get_available_slots` the arguments as they are, `book_meeting` the five
   * booking fields; a returned call becomes a summary of its payload.
   */
  function Operate(z: Schemas.Zod, api: Client.Api, c: Client.MeetbotClient, name: string, args: Json)
    : (r: Result<ToolResult, string>)
    requires Client.ValidConfig(c.config) && name in ClientTools
    ensures name == HealthCheck ==> r == Ok(HealthReply(Client.HealthCheck(api, c)))
    ensures name == GetSchedulingPages ==> Answers(z, name, Client.GetPages(api, c).outcome, r)
    ensures (name == GetPageInfo || name == GetAvailableSlots) && !Truthy(Get(args, "page")) ==>
      r == Err(PageRequired)
    ensures name == GetPageInfo && Truthy(Get(args, "page")) ==>
      Answers(z, name, Client.GetPageInfo(z, api, c, Obj(map["page" := Get(args, "page")])).outcome, r)
    ensures name == GetAvailableSlots && Truthy(Get(args, "page")) ==>
      Answers(z, name, Client.GetSlots(z, api, c, args).outcome, r)
    ensures name == BookMeeting && !BookingArgsPresent(args) ==> r == Err(BookingArgsMissing)
    ensures name == BookMeeting && BookingArgsPresent(args) ==>
      Answers(z, name, Client.BookSlot(z, api, c, BookingOf(args)).outcome, r)
  {
    if name == GetSchedulingPages then Settle(z, name, Client.GetPages(api, c).outcome)
    else if name == GetPageInfo then
      if !Truthy(Get(args, "page")) then Err(PageRequired)
      else Settle(z, name, Client.GetPageInfo(z, api, c, Obj(map["page" := Get(args, "page")])).outcome)
    else if name == GetAvailableSlots then
      if !Truthy(Get(args, "page")) then Err(PageRequired)
      else Settle(z, name, Client.GetSlots(z, api, c, args).outcome)
    else if name == BookMeeting then
      if !BookingArgsPresent(args) then Err(BookingArgsMissing)
      else Settle(z, name, Client.BookSlot(z, api, c, BookingOf(args)).outcome)
    else Ok(HealthReply(Client.HealthCheck(api, c)))
  }
}
