/** The unified protocol client: one object that lazily connects its A2A and
    MCP clients and routes each invocation by resource type, agents to A2A and
    tools to MCP; and the factory that turns a protocol name into a client. */
module Protocol {
  import opened Schemas

  /** The MCP client as the unified client uses it: `invoke_tool(endpoint,
      tool_name, params)`, where the tool name and the params may be `None`. */
  datatype McpClient = McpClient(invokeTool: (string, Option<string>, Option<Dict>) -> Reply<Dict>)

  /** A call handed to one of the two clients. */
  datatype Call =
    | AgentCall(endpoint: string, taskDesc: string, context: Dict)
    | ToolCall(endpoint: string, toolName: Option<string>, params: Option<Dict>)

  const DefaultTaskDesc: string := "Execute task"
  const UnknownResourceType: string := "Unknown resource type: "

  /** `task_desc or "Execute task"`: a missing or empty description is replaced. */
  function DescOrDefault(taskDesc: Option<string>): string {
    if taskDesc.None? || taskDesc.value == "" then DefaultTaskDesc else taskDesc.value
  }

  /** `params or {}`: a missing dictionary becomes the empty one. */
  function ContextOrDefault(params: Option<Dict>): Dict {
    if params.None? then map[] else params.value
  }

  /** The call `invoke` makes for `resourceType`, or `None` for a type it does not know. */
  function Route(endpoint: string, resourceType: string, taskDesc: Option<string>, params: Option<Dict>): Option<Call> {
    if resourceType == "agent" then Some(AgentCall(endpoint, DescOrDefault(taskDesc), ContextOrDefault(params)))
    else if resourceType == "tool" then Some(ToolCall(endpoint, None, params))
    else None
  }

  /** The answer `invoke` gives once it has routed the call. */
  function Dispatch(a2a: AgentInvoker, mcp: McpClient, endpoint: string, resourceType: string,
                    taskDesc: Option<string>, params: Option<Dict>): Reply<Dict>
  {
    match Route(endpoint, resourceType, taskDesc, params)
    case None => Returned(map["error" := UnknownResourceType + resourceType])
    case Some(AgentCall(e, d, c)) => a2a.invokeAgent(e, d, c)
    case Some(ToolCall(e, n, p)) => mcp.invokeTool(e, n, p)
  }

  /** "agent" goes to the A2A client only, with a non-empty description (the
      given one or the default) and the given context or `{}`. */
  lemma AgentRoute(a2a: AgentInvoker, mcp: McpClient, other: McpClient, endpoint: string,
                   taskDesc: Option<string>, params: Option<Dict>)
    ensures Route(endpoint, "agent", taskDesc, params).Some?
    ensures var c := Route(endpoint, "agent", taskDesc, params).value;
      && c.AgentCall? && c.endpoint == endpoint && c.taskDesc != ""
      && (taskDesc.Some? && taskDesc.value != "" ==> c.taskDesc == taskDesc.value)
      && (taskDesc.None? || taskDesc.value == "" ==> c.taskDesc == DefaultTaskDesc)
      && (params.Some? ==> c.context == params.value)
      && (params.None? ==> c.context == map[])
    ensures Dispatch(a2a, mcp, endpoint, "agent", taskDesc, params)
         == Dispatch(a2a, other, endpoint, "agent", taskDesc, params)
  {
  }

  /** "tool" goes to the MCP client only, with the endpoint and params unchanged
      and no tool name. */
  lemma ToolRoute(a2a: AgentInvoker, other: AgentInvoker, mcp: McpClient, endpoint: string,
                  taskDesc: Option<string>, params: Option<Dict>)
    ensures Route(endpoint, "tool", taskDesc, params) == Some(ToolCall(endpoint, None, params))
    ensures Dispatch(a2a, mcp, endpoint, "tool", taskDesc, params)
         == Dispatch(other, mcp, endpoint, "tool", taskDesc, params)
    ensures Dispatch(a2a, mcp, endpoint, "tool", taskDesc, params) == mcp.invokeTool(endpoint, None, params)
  {
  }

  /** Exactly the types other than "agent" and "tool" are unknown; they reach
      neither client and answer with an error dictionary naming the type. */
  lemma UnknownRoute(a2a: AgentInvoker, mcp: McpClient, endpoint: string, resourceType: string,
                     taskDesc: Option<string>, params: Option<Dict>)
    ensures Route(endpoint, resourceType, taskDesc, params).None? <==> resourceType != "agent" && resourceType != "tool"
    ensures resourceType != "agent" && resourceType != "tool" ==>
      Dispatch(a2a, mcp, endpoint, resourceType, taskDesc, params)
        == Returned(map["error" := UnknownResourceType + resourceType])
  {
  }

  /** What one `connect()` does, given what the two clients' `connect()` answer:
      the value returned, the flag afterwards, and whether MCP was asked. */
  datatype Connection = Connection(returned: bool, connected: bool, mcpAsked: bool)

  function ConnectOnce(a2aAnswer: Reply<bool>, mcpAnswer: Reply<bool>, connected: bool): Connection {
    match a2aAnswer
    case Raised(_) => Connection(false, connected, false)
    case Returned(a) =>
      match mcpAnswer
      case Raised(_) => Connection(false, connected, true)
      case Returned(m) => Connection(a && m, a && m, true)
  }

  /** `connect()` succeeds exactly when both clients report success; it returns
      the flag it sets, except that an exception returns false and leaves the
      flag as it was; MCP is asked only when A2A answered. */
  lemma ConnectSpec(a2aAnswer: Reply<bool>, mcpAnswer: Reply<bool>, connected: bool)
    ensures var c := ConnectOnce(a2aAnswer, mcpAnswer, connected);
      && (c.returned <==> a2aAnswer == Returned(true) && mcpAnswer == Returned(true))
      && (c.connected <==> (a2aAnswer == Returned(true) && mcpAnswer == Returned(true))
                           || (connected && (a2aAnswer.Raised? || mcpAnswer.Raised?)))
      && (a2aAnswer.Returned? && mcpAnswer.Returned? ==> c.returned == c.connected)
      && (a2aAnswer.Raised? || mcpAnswer.Raised? ==> !c.returned && c.connected == connected)
      && (c.mcpAsked <==> a2aAnswer.Returned?)
  {
  }

  /** The flag after an `invoke` that found it `connected`. */
  function ConnectedAfterInvoke(a2aAnswer: Reply<bool>, mcpAnswer: Reply<bool>, connected: bool): bool {
    if connected then true else ConnectOnce(a2aAnswer, mcpAnswer, connected).connected
  }

  /** Once connected, the client stays connected through every later `invoke`;
      while it is not, each `invoke` connects again. */
  lemma StaysConnected(a2aAnswer: Reply<bool>, mcpAnswer: Reply<bool>, connected: bool)
    ensures connected ==> ConnectedAfterInvoke(a2aAnswer, mcpAnswer, connected)
    ensures !connected ==>
      (ConnectedAfterInvoke(a2aAnswer, mcpAnswer, connected) <==> a2aAnswer == Returned(true) && mcpAnswer == Returned(true))
  {
  }

  /** The connect requests one `invoke` sends: one when not yet connected, none otherwise. */
  function Reconnects(connected: bool): nat {
    if connected then 0 else 1
  }

  class UnifiedProtocolClient {
    const a2aClient: AgentInvoker
    const mcpClient: McpClient
    var connected: bool
    /** How many times `connect()` has run, and the calls passed on to the clients. */
    ghost var connectCalls: nat
    ghost var sent: seq<Call>

    constructor(a2a: AgentInvoker, mcp: McpClient)
      ensures a2aClient == a2a && mcpClient == mcp
      ensures !connected && connectCalls == 0 && sent == []
    {
      a2aClient := a2a;
      mcpClient := mcp;
      connected := false;
      connectCalls := 0;
      sent := [];
    }

    /** `connect()`, with what the A2A and MCP clients' own `connect()` answer
        passed in. */
    method Connect(a2aAnswer: Reply<bool>, mcpAnswer: Reply<bool>) returns (ok: bool)
      modifies this`connected, this`connectCalls
      ensures var c := ConnectOnce(a2aAnswer, mcpAnswer, old(connected));
        ok == c.returned && connected == c.connected
      ensures connectCalls == old(connectCalls) + 1
    {
      connectCalls := connectCalls + 1;
      match a2aAnswer {
        case Raised(_) =>
          ok := false;
        case Returned(a2aConnected) =>
          match mcpAnswer {
            case Raised(_) =>
              ok := false;
            case Returned(mcpConnected) =>
              connected := a2aConnected && mcpConnected;
              ok := connected;
          }
      }
    }

    /** `invoke(endpoint, resource_type, task_desc, params)`: connect first when
        not connected, then route, whatever the connection attempt gave. */
    method Invoke(endpoint: string, resourceType: string, taskDesc: Option<string>, params: Option<Dict>,
                  a2aAnswer: Reply<bool>, mcpAnswer: Reply<bool>) returns (answer: Reply<Dict>)
      modifies this`connected, this`connectCalls, this`sent
      ensures answer == Dispatch(a2aClient, mcpClient, endpoint, resourceType, taskDesc, params)
      ensures connected == ConnectedAfterInvoke(a2aAnswer, mcpAnswer, old(connected))
      ensures connectCalls == old(connectCalls) + Reconnects(old(connected))
      ensures var route := Route(endpoint, resourceType, taskDesc, params);
        sent == old(sent) + if route.Some? then [route.value] else []
    {
      if !connected {
        var _ := Connect(a2aAnswer, mcpAnswer);
      }
      answer := Send(endpoint, resourceType, taskDesc, params);
    }

    /** The routing half of `invoke`: the call to the client the resource type
        names, or the error dictionary for an unknown type. */
    method Send(endpoint: string, resourceType: string, taskDesc: Option<string>, params: Option<Dict>)
      returns (answer: Reply<Dict>)
      modifies this`sent
      ensures answer == Dispatch(a2aClient, mcpClient, endpoint, resourceType, taskDesc, params)
      ensures var route := Route(endpoint, resourceType, taskDesc, params);
        sent == old(sent) + if route.Some? then [route.value] else []
    {
      if resourceType == "agent" {
        var desc := if taskDesc.None? || taskDesc.value == "" then DefaultTaskDesc else taskDesc.value;
        var context := if params.None? then map[] else params.value;
        sent := sent + [AgentCall(endpoint, desc, context)];
        answer := a2aClient.invokeAgent(endpoint, desc, context);
      } else if resourceType == "tool" {
        sent := sent + [ToolCall(endpoint, None, params)];
        answer := mcpClient.invokeTool(endpoint, None, params);
      } else {
        answer := Returned(map["error" := UnknownResourceType + resourceType]);
      }
    }
  }

  /** The kinds of client the factory builds. */
  datatype ClientKind = A2aKind | McpKind | UnifiedKind

  function ProtocolName(k: ClientKind): string {
    match k
    case A2aKind => "a2a"
    case McpKind => "mcp"
    case UnifiedKind => "unified"
  }

  /** The factory's default argument. */
  const DefaultProtocol: string := "unified"

  const UnknownProtocolType: string := "Unknown protocol type: "

  /** `create_protocol_client(protocol_type)`: the client kind for a known name,
      or the `ValueError` message for any other string. */
  function CreateProtocolClient(protocolType: string): (r: Reply<ClientKind>)
    ensures r.Returned? <==> protocolType in {"a2a", "mcp", "unified"}
    ensures r.Returned? ==> ProtocolName(r.value) == protocolType
  {
    if protocolType == "a2a" then Returned(A2aKind)
    else if protocolType == "mcp" then Returned(McpKind)
    else if protocolType == "unified" then Returned(UnifiedKind)
    else Raised(UnknownProtocolType + protocolType)
  }

  /** Each kind is built from its own name, and only from that name. */
  lemma CreateRoundTrip(k: ClientKind, s: string)
    ensures CreateProtocolClient(ProtocolName(k)) == Returned(k)
    ensures CreateProtocolClient(s) == Returned(k) <==> s == ProtocolName(k)
  {
  }

  /** Every other string raises, naming the string; the default builds a unified client. */
  lemma CreateRejects(s: string)
    ensures CreateProtocolClient(s).Raised? <==> s != "a2a" && s != "mcp" && s != "unified"
    ensures CreateProtocolClient(s).Raised? ==> CreateProtocolClient(s).message == UnknownProtocolType + s
    ensures CreateProtocolClient(DefaultProtocol) == Returned(UnifiedKind)
  {
  }
}
