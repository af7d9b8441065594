/**
 * What the two MCP servers share: the six tool names, the shape of a tool
 * result, and the fixed health-check replies.  The text a successful
 * operation formats from an API payload is kept abstract as
 * `Formatted(tool, payload)`.
 */
module Tools {
  import opened Wrappers
  import opened Js
  import Schemas
  import Client

  const ConfigureMeetbot := "configure_meetbot"
  const GetSchedulingPages := "get_scheduling_pages"
  const GetPageInfo := "get_page_info"
  const GetAvailableSlots := "get_available_slots"
  const BookMeeting := "book_meeting"
  const HealthCheck := "health_check"

  /** The five tools that need a configured client. */
  const ClientTools: set<string> := {GetSchedulingPages, GetPageInfo, GetAvailableSlots, BookMeeting, HealthCheck}

  predicate IsTool(name: string)
  {
    name == ConfigureMeetbot || name in ClientTools
  }

  datatype Content =
    | Text(text: string)
    | Formatted(tool: string, payload: Json)   // the tool's summary of an API reply

  /** `{ content, isError }` as a tool call answers. */
  datatype ToolResult = ToolResult(content: seq<Content>, isError: bool)

  /** A successful reply made of one text. */
  function Reply(text: string): (r: ToolResult)
    ensures !r.isError && r.content == [Text(text)]
  {
    ToolResult([Text(text)], false)
  }

  /** A successful reply summarising an API payload. */
  function Summary(tool: string, payload: Json): (r: ToolResult)
    ensures !r.isError && r.content == [Formatted(tool, payload)]
  {
    ToolResult([Formatted(tool, payload)], false)
  }

  const HealthyText := "✅ Meet.bot API client is healthy and can connect to the API."
  const UnhealthyText := "❌ Meet.bot API client cannot connect to the API. Please check your configuration."

  function HealthReply(healthy: bool): (r: ToolResult)
    ensures !r.isError
    ensures r.content == [Text(if healthy then HealthyText else UnhealthyText)]
  {
    Reply(if healthy then HealthyText else UnhealthyText)
  }

  /**
   * A handler's answer to a client call's settlement: the summary of the
   * payload when the call returned, a throw of the call's error message
   * when it threw.
   */
  predicate Answers(z: Schemas.Zod, name: string, out: Client.Outcome, r: Result<ToolResult, string>)
  {
    && (out.Returned? ==> r == Ok(Summary(name, out.data)))
    && (out.Threw? ==> r == Err(Client.Message(z, out.error)))
  }

  /** How a client operation's settlement becomes the handler's return or throw. */
  function Settle(z: Schemas.Zod, tool: string, out: Client.Outcome): (r: Result<ToolResult, string>)
    ensures Answers(z, tool, out, r)
  {
    match out
    case Returned(data) => Ok(Summary(tool, data))
    case Threw(e) => Err(Client.Message(z, e))
  }
}
