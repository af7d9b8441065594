/**
 * The stdio MCP server: one optional client slot, a tool table, and a
 * dispatcher over tool names whose every failure is caught and turned into
 * an error result.
 */
module StdioServer {
  import opened Wrappers
  import opened Js
  import opened Schemas
  import opened Tools
  import Client

  const NotConfigured := "Meet.bot client not configured. Please run configure_meetbot first."
  const ConfiguredText := "Meet.bot API client configured successfully."
  const ReconfiguredText := "Meet.bot API client reconfigured successfully."

  // ---------------------------------------------------------------- the tool table

  /** One entry of the ListTools reply: a name, its input properties and `required` (absent for some). */
  datatype ToolSpec = ToolSpec(name: string, properties: seq<string>, required: Option<seq<string>>)

  const ToolTable: seq<ToolSpec> := [
    ToolSpec(ConfigureMeetbot, ["authToken"], Some([])),
    ToolSpec(GetSchedulingPages, [], None),
    ToolSpec(GetPageInfo, ["page"], Some(["page"])),
    ToolSpec(GetAvailableSlots, ["page", "count", "start", "end", "timezone", "booking_link"], Some(["page"])),
    ToolSpec(BookMeeting, ["page", "guest_email", "guest_name", "notes", "start"],
             Some(["page", "guest_email", "guest_name", "start"])),
    ToolSpec(HealthCheck, [], None)]

  function Names(tools: seq<ToolSpec>): set<string>
  {
    set i | 0 <= i < |tools| :: tools[i].name
  }

  /**
   * The ListTools reply: six tools with distinct names, exactly the names
   * the dispatcher knows, each requiring only arguments it declares.
   * `configure_meetbot` declares an optional `authToken`; the two tools
   * without arguments declare no properties and no `required` list.
   */
  function ListTools(): (r: seq<ToolSpec>)
    ensures |r| == 6
    ensures r[0].name == ConfigureMeetbot && r[0].properties == ["authToken"] && r[0].required == Some([])
    ensures r[1].name == GetSchedulingPages && r[1].properties == [] && r[1].required.None?
    ensures r[2].name == GetPageInfo && r[2].required == Some(["page"])
    ensures r[3].name == GetAvailableSlots && r[3].required == Some(["page"])
    ensures r[4].name == BookMeeting && r[4].required == Some(["page", "guest_email", "guest_name", "start"])
    ensures r[5].name == HealthCheck && r[5].properties == [] && r[5].required.None?
    ensures forall i, j :: 0 <= i < j < |r| ==> r[i].name != r[j].name
    ensures forall n :: n in Names(r) <==> IsTool(n)
    ensures forall i :: 0 <= i < |r| && r[i].required.Some? ==>
      forall k :: k in r[i].required.value ==> k in r[i].properties
  {
    var r := ToolTable;
    assert Names(r) == {r[0].name, r[1].name, r[2].name, r[3].name, r[4].name, r[5].name};
    r
  }

  /** The declared keys of a field list, in order. */
  function KeySeq(fields: seq<Field>): seq<string>
  {
    if fields == [] then [] else [fields[0].key] + KeySeq(fields[1..])
  }

  /** The keys of the non-optional fields, in order. */
  function RequiredSeq(fields: seq<Field>): seq<string>
  {
    if fields == [] then []
    else (if fields[0].optional then [] else [fields[0].key]) + RequiredSeq(fields[1..])
  }

  /** The keys of a field list are its fields' keys, position by position. */
  lemma {:induction false} KeySeqPositionwise(fields: seq<Field>)
    ensures |KeySeq(fields)| == |fields|
    ensures forall i :: 0 <= i < |fields| ==> KeySeq(fields)[i] == fields[i].key
  {
    if fields != [] {
      KeySeqPositionwise(fields[1..]);
    }
  }

  /**
   * The tool table advertises exactly the fields, and the required fields,
   * of the schemas the client validates the same arguments with:
   * `configure_meetbot` (entry 0) those of the config schema,
   * `get_page_info` (entry 2), `get_available_slots` (entry 3) and
   * `book_meeting` (entry 4) those of their parameter schemas.
   */
  lemma ToolTableMatchesSchemas()
    ensures ListTools()[0].properties == KeySeq(MeetbotConfigShape.fields)
    ensures ListTools()[0].required == Some(RequiredSeq(MeetbotConfigShape.fields))
    ensures ListTools()[2].properties == KeySeq(GetInfoParamsShape.fields)
    ensures ListTools()[2].required == Some(RequiredSeq(GetInfoParamsShape.fields))
    ensures ListTools()[3].properties == KeySeq(GetSlotsParamsShape.fields)
    ensures ListTools()[3].required == Some(RequiredSeq(GetSlotsParamsShape.fields))
    ensures ListTools()[4].properties == KeySeq(BookSlotRequestShape.fields)
    ensures ListTools()[4].required == Some(RequiredSeq(BookSlotRequestShape.fields))
  {
    KeySeqPositionwise(GetSlotsParamsShape.fields);
    KeySeqPositionwise(BookSlotRequestShape.fields);
    SlotsRequired();
    BookRequired();
  }

  lemma SlotsRequired()
    ensures RequiredSeq(GetSlotsParamsShape.fields) == ["page"]
  {
    var f := GetSlotsParamsShape.fields;
    assert RequiredSeq(f[5..]) == [] by { assert f[5..][1..] == []; }
    assert RequiredSeq(f[4..]) == [] by { assert f[4..][1..] == f[5..]; }
    assert RequiredSeq(f[3..]) == [] by { assert f[3..][1..] == f[4..]; }
    assert RequiredSeq(f[2..]) == [] by { assert f[2..][1..] == f[3..]; }
    assert RequiredSeq(f[1..]) == [] by { assert f[1..][1..] == f[2..]; }
  }

  lemma BookRequired()
    ensures RequiredSeq(BookSlotRequestShape.fields) == ["page", "guest_email", "guest_name", "start"]
  {
    var f := BookSlotRequestShape.fields;
    assert RequiredSeq(f[4..]) == ["start"] by { assert f[4..][1..] == []; }
    assert RequiredSeq(f[3..]) == ["start"] by { assert f[3..][1..] == f[4..]; }
    assert RequiredSeq(f[2..]) == ["guest_name", "start"] by { assert f[2..][1..] == f[3..]; }
    assert RequiredSeq(f[1..]) == ["guest_email", "guest_name", "start"] by { assert f[1..][1..] == f[2..]; }
  }

  // ---------------------------------------------------------------- dispatch

  /** The catch block: `Error: <message>` as an error result. */
  function ErrorResult(message: string): (r: ToolResult)
    ensures r.isError && r.content == [Text("Error: " + message)]
  {
    ToolResult([Text("Error: " + message)], true)
  }

  /** The client slot after a call, and the tool result it answered with. */
  datatype Handled = Handled(client: Option<Client.MeetbotClient>, result: ToolResult)

  predicate SlotValid(client: Option<Client.MeetbotClient>)
  {
    client.Some? ==> Client.ValidConfig(client.value.config)
  }

  /**
   * What a tool other than `configure_meetbot` returns or throws, given a
   * client: `health_check` never throws and reports the health check; the
   * other four pass their arguments to the client unchanged, return a
   * summary of the payload when the client call returns, and throw the
   * call's error message otherwise, a schema rejection included.
   */
  function Operate(z: Zod, api: Client.Api, c: Client.MeetbotClient, name: string, args: Json)
    : (r: Result<ToolResult, string>)
    requires Client.ValidConfig(c.config) && name in ClientTools
    ensures name == HealthCheck ==> r == Ok(HealthReply(Client.HealthCheck(api, c)))
    ensures name == GetSchedulingPages ==> Answers(z, name, Client.GetPages(api, c).outcome, r)
    ensures name == GetPageInfo ==> Answers(z, name, Client.GetPageInfo(z, api, c, args).outcome, r)
    ensures name == GetAvailableSlots ==> Answers(z, name, Client.GetSlots(z, api, c, args).outcome, r)
    ensures name == BookMeeting ==> Answers(z, name, Client.BookSlot(z, api, c, args).outcome, r)
    ensures name == GetPageInfo && !Accepts(z, GetInfoParamsSchema, args) ==> r.Err?
    ensures name == GetAvailableSlots && !Accepts(z, GetSlotsParamsSchema, args) ==> r.Err?
    ensures name == BookMeeting && !Accepts(z, BookSlotRequestSchema, args) ==> r.Err?
  {
    if name == GetSchedulingPages then Settle(z, name, Client.GetPages(api, c).outcome)
    else if name == GetPageInfo then Settle(z, name, Client.GetPageInfo(z, api, c, args).outcome)
    else if name == GetAvailableSlots then Settle(z, name, Client.GetSlots(z, api, c, args).outcome)
    else if name == BookMeeting then Settle(z, name, Client.BookSlot(z, api, c, args).outcome)
    else Ok(HealthReply(Client.HealthCheck(api, c)))
  }

  /**
   * The CallTool handler from the slot's point of view.  `configure_meetbot`
   * replaces the client when the arguments are a valid configuration and
   * keeps the old one otherwise; no other name touches the slot.  Without a
   * client the five other tools fail with the not-configured message; an
   * unknown name fails with `Unknown tool: <name>`; every failure is an
   * error result whose only text starts with `Error: `.
   */
  function Dispatch(z: Zod, api: Client.Api, client: Option<Client.MeetbotClient>, name: string, args: Json): (r: Handled)
    requires SlotValid(client)
    ensures SlotValid(r.client)
    ensures name == ConfigureMeetbot && Client.NewClient(z, args).Ok? ==>
      r == Handled(Some(Client.NewClient(z, args).value),
                   Reply(if client.None? then ConfiguredText else ReconfiguredText))
    ensures name == ConfigureMeetbot && Client.NewClient(z, args).Err? ==>
      r == Handled(client, ErrorResult(Client.Message(z, Client.NewClient(z, args).error)))
    ensures name != ConfigureMeetbot ==> r.client == client
    ensures name in ClientTools && client.Some? ==>
      r.result == match Operate(z, api, client.value, name, args)
        case Ok(t) => t
        case Err(m) => ErrorResult(m)
    ensures name in ClientTools && client.None? ==> r.result == ErrorResult(NotConfigured)
    ensures !IsTool(name) ==> r.result == ErrorResult("Unknown tool: " + name)
    ensures r.result.isError ==>
      |r.result.content| == 1 && r.result.content[0].Text? && "Error: " <= r.result.content[0].text
  {
    if name == ConfigureMeetbot then
      match Client.NewClient(z, args)
      case Ok(c) => Handled(Some(c), Reply(if client.None? then ConfiguredText else ReconfiguredText))
      case Err(e) => Handled(client, ErrorResult(Client.Message(z, e)))
    else if name in ClientTools then
      if client.None? then Handled(client, ErrorResult(NotConfigured))
      else
        match Operate(z, api, client.value, name, args)
        case Ok(result) => Handled(client, result)
        case Err(message) => Handled(client, ErrorResult(message))
    else Handled(client, ErrorResult("Unknown tool: " + name))
  }

  /** With a client, the operation tools answer with the client call's result or its error. */
  lemma ConfiguredToolsReachClient(z: Zod, api: Client.Api, c: Client.MeetbotClient, name: string, args: Json)
    requires Client.ValidConfig(c.config) && name in ClientTools
    ensures var r := Dispatch(z, api, Some(c), name, args).result;
      (name == HealthCheck ==> r == HealthReply(Client.HealthCheck(api, c))) &&
      (name == GetPageInfo ==>
        var out := Client.GetPageInfo(z, api, c, args).outcome;
        (out.Returned? ==> r == Summary(name, out.data)) &&
        (out.Threw? ==> r == ErrorResult(Client.Message(z, out.error))))
  {
  }

  // ---------------------------------------------------------------- the server

  class MeetbotMCPServer {
    var client: Option<Client.MeetbotClient>

    ghost predicate Valid()
      reads this
    {
      SlotValid(client)
    }

    constructor()
      ensures Valid() && client.None?
    {
      client := None;
    }

    /** `handleConfigureMeetbot`: the assignment happens only once the constructor returned. */
    method HandleConfigureMeetbot(z: Zod, args: Json) returns (outcome: Result<ToolResult, string>)
      requires Valid()
      modifies this
      ensures Valid()
      ensures match Client.NewClient(z, args)
        case Ok(c) =>
          client == Some(c) &&
          outcome == Ok(Reply(if old(client).None? then ConfiguredText else ReconfiguredText))
        case Err(e) => client == old(client) && outcome == Err(Client.Message(z, e))
    {
      var made := Client.NewClient(z, args);
      if made.Err? {
        return Err(Client.Message(z, made.error));
      }
      if client.None? {
        client := Some(made.value);
        outcome := Ok(Reply(ConfiguredText));
      } else {
        client := Some(made.value);
        outcome := Ok(Reply(ReconfiguredText));
      }
    }

    /** The CallTool request handler: dispatch on the name, catch every failure. */
    method CallTool(z: Zod, api: Client.Api, name: string, args: Json) returns (result: ToolResult)
      requires Valid()
      modifies this
      ensures Valid()
      ensures Handled(client, result) == Dispatch(z, api, old(client), name, args)
    {
      var outcome: Result<ToolResult, string>;
      if name == ConfigureMeetbot {
        outcome := HandleConfigureMeetbot(z, args);
      } else if name in ClientTools {
        if client.None? {
          outcome := Err(NotConfigured);
        } else {
          outcome := Operate(z, api, client.value, name, args);
        }
      } else {
        outcome := Err("Unknown tool: " + name);
      }
      match outcome {
        case Ok(r) => result := r;
        case Err(message) => result := ErrorResult(message);
      }
    }
  }
}
