/**
 * The shared data model of the client and the backend: the records and the
 * frame union declared in src/types/index.ts, written as datatypes.
 * Timestamps are milliseconds since the epoch, as JavaScript numbers carry
 * them; they are modelled as unbounded integers.
 */
module Types {

  datatype Option<+T> = None | Some(value: T)

  /** The connection badge state: socket up, AutoGen reachable, last error text. */
  datatype ConnectionState = ConnectionState(
    isConnected: bool,
    autogenConnected: bool,
    connectionError: Option<string>)

  /** Conversation roles; the wire spells them "user" and "assistant". */
  datatype Role = User | Assistant

  function RoleName(r: Role): string
  {
    match r
    case User => "user"
    case Assistant => "assistant"
  }

  function ParseRole(s: string): (r: Option<Role>)
    ensures r.Some? ==> RoleName(r.value) == s
  {
    if s == "user" then Some(User)
    else if s == "assistant" then Some(Assistant)
    else None
  }

  /** A conversation entry. */
  datatype Message = Message(role: Role, content: string, timestamp: int)

  /** The three agents that emit traces; spelled "TaskManager", "Research", "Creative". */
  datatype AgentName = TaskManager | Research | Creative

  function AgentNameText(a: AgentName): string
  {
    match a
    case TaskManager => "TaskManager"
    case Research => "Research"
    case Creative => "Creative"
  }

  function ParseAgentName(s: string): (r: Option<AgentName>)
    ensures r.Some? ==> AgentNameText(r.value) == s
  {
    if s == "TaskManager" then Some(TaskManager)
    else if s == "Research" then Some(Research)
    else if s == "Creative" then Some(Creative)
    else None
  }

  datatype AgentTrace = AgentTrace(agent: AgentName, content: string, timestamp: int)

  datatype InternalComm = InternalComm(from: string, to: string, content: string, timestamp: int)

  /** The closed union of server-to-client frames, discriminated by `type`. */
  datatype WebSocketMessage =
    | AgentTraceMessage(agent: AgentName, content: string, timestamp: int)
    | InternalCommMessage(from: string, to: string, content: string, timestamp: int)
    | UserMessage(role: Role, content: string, timestamp: int)
    | ErrorMessage(message: string)

  /** The `type` discriminator each variant carries on the wire. */
  function TypeTag(m: WebSocketMessage): string
  {
    match m
    case AgentTraceMessage(_, _, _) => "agent_trace"
    case InternalCommMessage(_, _, _, _) => "internal_comm"
    case UserMessage(_, _, _) => "user_message"
    case ErrorMessage(_) => "error"
  }

  /** The discriminator alone tells two frames' variants apart. */
  predicate SameVariant(a: WebSocketMessage, b: WebSocketMessage)
  {
    (a.AgentTraceMessage? && b.AgentTraceMessage?)
    || (a.InternalCommMessage? && b.InternalCommMessage?)
    || (a.UserMessage? && b.UserMessage?)
    || (a.ErrorMessage? && b.ErrorMessage?)
  }

  const FrameTags: set<string> := {"agent_trace", "internal_comm", "user_message", "error"}

  /** Agents addressed by a direct message; spelled "task_manager", "research", "creative". */
  datatype AgentId = TaskManagerId | ResearchId | CreativeId

  function AgentIdText(a: AgentId): string
  {
    match a
    case TaskManagerId => "task_manager"
    case ResearchId => "research"
    case CreativeId => "creative"
  }

  function ParseAgentId(s: string): (r: Option<AgentId>)
    ensures r.Some? ==> AgentIdText(r.value) == s
  {
    if s == "task_manager" then Some(TaskManagerId)
    else if s == "research" then Some(ResearchId)
    else if s == "creative" then Some(CreativeId)
    else None
  }

  /** `{type: 'direct_agent_message', agent_id, content}` */
  datatype DirectAgentMessage = DirectAgentMessage(agentId: AgentId, content: string)

  const DirectAgentTag := "direct_agent_message"

  /** The only framework the client ever names. */
  datatype Framework = Autogen

  function FrameworkText(f: Framework): string
  {
    match f
    case Autogen => "autogen"
  }

  /** The body the client posts to /process. */
  datatype ProcessRequestPayload = ProcessRequestPayload(clientId: string, framework: Framework, prompt: string)

  datatype ProcessStatus = Success | Failure

  function ProcessStatusText(s: ProcessStatus): string
  {
    match s
    case Success => "success"
    case Failure => "error"
  }

  /** The /process reply: status, message and an optional session id. */
  datatype ProcessResponse = ProcessResponse(status: ProcessStatus, message: string, sessionId: Option<string>)

  datatype ServerStatus = Running | Unavailable

  function ServerStatusText(s: ServerStatus): string
  {
    match s
    case Running => "running"
    case Unavailable => "error"
  }

  /** The /status reply. */
  datatype StatusResponse = StatusResponse(status: ServerStatus, autogenInstalled: bool, openaiApiKeyConfigured: bool)

  /**
   * One inbound socket payload after JSON.parse: a frame of the union, a
   * direct-agent reply, an object whose `type` is none of these, or a payload
   * that did not parse.
   */
  datatype Inbound =
    | Frame(msg: WebSocketMessage)
    | Direct(reply: DirectAgentMessage)
    | OtherType(tag: string)
    | Unparsable

  /** `OtherType` stands only for a discriminator that no handler names. */
  predicate WellTagged(f: Inbound)
  {
    f.OtherType? ==> f.tag !in FrameTags && f.tag != DirectAgentTag
  }

  /** Exactly four discriminators exist, and each names exactly one variant. */
  lemma TypeTagDiscriminates(a: WebSocketMessage, b: WebSocketMessage)
    ensures TypeTag(a) in FrameTags && |FrameTags| == 4
    ensures TypeTag(a) == TypeTag(b) <==> SameVariant(a, b)
  {
    assert "agent_trace" != "internal_comm" && "agent_trace" != "user_message" && "agent_trace" != "error";
    assert "internal_comm" != "user_message" && "internal_comm" != "error" && "user_message" != "error";
  }

  /** A direct-agent reply's discriminator is none of the union's. */
  lemma DirectTagOutsideUnion()
    ensures DirectAgentTag !in FrameTags
  {
  }

  /** Role, agent name and agent id spellings parse back to what printed them. */
  lemma {:induction false} SpellingsRoundTrip(r: Role, n: AgentName, i: AgentId)
    ensures ParseRole(RoleName(r)) == Some(r)
    ensures ParseAgentName(AgentNameText(n)) == Some(n)
    ensures ParseAgentId(AgentIdText(i)) == Some(i)
  {
    assert "user" != "assistant";
    assert "TaskManager" != "Research" && "TaskManager" != "Creative" && "Research" != "Creative";
    assert "task_manager" != "research" && "task_manager" != "creative" && "research" != "creative";
  }

  /** Roles parse from exactly two spellings. */
  lemma RoleSpellings(s: string)
    ensures ParseRole(s).Some? <==> s == "user" || s == "assistant"
  {
  }
}
