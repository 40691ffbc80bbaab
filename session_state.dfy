/**
 * Per-client sessions, backend/services/session_state.py. A `SessionState`
 * records the client's conversation history and, once a socket registered
 * it, the connection table it sends through; `SessionManager` creates
 * sessions on demand and drops the ones idle for longer than the timeout.
 * Clock readings (`time.time()` and the millisecond timestamps taken from
 * it) and the outcome of each socket write are inputs. The one-second
 * `asyncio.sleep` in `process_user_message` splits it in two methods, so
 * other handlers may run between them.
 */
module Sessions {
  import opened Types
  import opened WsManager
  import Agents

  /** SESSION_TIMEOUT, in seconds, the default of backend/config.py. */
  const SessionTimeout: real := 3600.0

  datatype HistoryEntry = HistoryEntry(role: Role, content: string, timestamp: int)

  const PlaceholderResponse := "This is a placeholder response. Agent processing will be implemented soon."
  const DirectPrefix := "Received direct message: "

  /** The `user_message` frame that mirrors a history entry. */
  function Mirror(e: HistoryEntry): (f: WebSocketMessage)
    ensures f.UserMessage? && f.role == e.role && f.content == e.content && f.timestamp == e.timestamp
  {
    UserMessage(e.role, e.content, e.timestamp)
  }

  /** The trace's `agent` field: the two known ids, and Creative for anything else. */
  function TraceAgent(agentId: Option<string>): (a: AgentName)
    ensures a == TaskManager <==> agentId == Some("task_manager")
    ensures a == Research <==> agentId == Some("research")
    ensures a == Creative <==> agentId != Some("task_manager") && agentId != Some("research")
  {
    if agentId == Some("task_manager") then TaskManager
    else if agentId == Some("research") then Research
    else Creative
  }

  /** How an f-string renders a string field that may be missing (`None`). */
  function Render(v: Option<string>): string
  {
    match v
    case None => "None"
    case Some(s) => s
  }

  /** The `agent_trace` frame `send_direct_agent_message` answers with. */
  function DirectTrace(agentId: Option<string>, message: Option<string>, stamp: int): (f: WebSocketMessage)
    ensures f.AgentTraceMessage? && f.agent == TraceAgent(agentId) && f.timestamp == stamp
    ensures |f.content| == |DirectPrefix| + |Render(message)|
    ensures f.content[..|DirectPrefix|] == DirectPrefix && f.content[|DirectPrefix|..] == Render(message)
  {
    var content := DirectPrefix + Render(message);
    assert content[..|DirectPrefix|] == DirectPrefix;
    AgentTraceMessage(TraceAgent(agentId), content, stamp)
  }

  /** A direct message to any id lands on one of the three agent names, each id on its own. */
  lemma DirectIdsMapToTraceAgents(stamp: int, message: Option<string>)
    ensures DirectTrace(Some(AgentIdText(TaskManagerId)), message, stamp).agent == TaskManager
    ensures DirectTrace(Some(AgentIdText(ResearchId)), message, stamp).agent == Research
    ensures DirectTrace(Some(AgentIdText(CreativeId)), message, stamp).agent == Creative
    ensures DirectTrace(None, message, stamp).agent == Creative
  {
    assert "creative" != "task_manager" && "creative" != "research";
  }

  /**
   * The two writes of `process_user_message` go to the same client: when
   * both succeed, the user frame and then the assistant frame reach the
   * client's socket; when the first fails the client is removed and the
   * second is not written at all.
   */
  lemma ProcessWrites(t: Table, clientId: string, user: HistoryEntry, reply: HistoryEntry, ok1: bool, ok2: bool)
    requires WellFormed(t) && clientId in t.connections
    ensures ok1 && ok2 ==>
      Personal(Personal(t, Mirror(user), clientId, ok1), Mirror(reply), clientId, ok2).sent
        == t.sent + [Delivery(t.connections[clientId], Mirror(user)), Delivery(t.connections[clientId], Mirror(reply))]
    ensures !ok1 ==> Personal(Personal(t, Mirror(user), clientId, ok1), Mirror(reply), clientId, ok2).sent == t.sent
    ensures !ok1 ==> clientId !in Personal(Personal(t, Mirror(user), clientId, ok1), Mirror(reply), clientId, ok2).connections
  {
  }

  class SessionState {
    const clientId: string
    var lastActivity: real
    var websocketManager: WebSocketManager?
    /** Per-session agents; `init_agents` is an empty stub, so this stays empty. */
    var agents: map<string, Agents.Agent>
    var conversationHistory: seq<HistoryEntry>
    /** `process_user_message` calls suspended at their sleep. */
    ghost var sleeping: nat

    /** A suspended call resumes with the manager it started with (it is only ever set, never cleared). */
    ghost predicate Valid()
      reads this
    {
      sleeping > 0 ==> websocketManager != null
    }

    /** `__init__`; `now` is `time.time()`. */
    constructor (clientId: string, now: real)
      ensures this.clientId == clientId && lastActivity == now
      ensures websocketManager == null && agents == map[] && conversationHistory == []
      ensures sleeping == 0 && Valid()
    {
      this.clientId := clientId;
      lastActivity := now;
      websocketManager := null;
      agents := map[];
      conversationHistory := [];
      sleeping := 0;
    }

    method SetWebSocketManager(manager: WebSocketManager)
      requires Valid()
      modifies this
      ensures websocketManager == manager && Valid()
      ensures lastActivity == old(lastActivity) && conversationHistory == old(conversationHistory)
      ensures agents == old(agents) && sleeping == old(sleeping)
    {
      websocketManager := manager;
    }

    /**
     * `process_user_message` up to its sleep. Without a manager only the
     * activity time moves; otherwise the user entry is recorded, its frame
     * is sent, and the call suspends (`suspended`).
     */
    method BeginUserMessage(message: string, now: real, stamp: int, sendOk: bool) returns (suspended: bool)
      requires Valid() && (websocketManager != null ==> websocketManager.Valid())
      modifies this, websocketManager
      ensures Valid() && lastActivity == now && agents == old(agents)
      ensures websocketManager == old(websocketManager) && suspended == (websocketManager != null)
      ensures !suspended ==> conversationHistory == old(conversationHistory) && sleeping == old(sleeping)
      ensures suspended ==>
        && conversationHistory == old(conversationHistory) + [HistoryEntry(User, message, stamp)]
        && websocketManager.Snapshot() == Personal(old(websocketManager.Snapshot()), Mirror(HistoryEntry(User, message, stamp)), clientId, sendOk)
        && websocketManager.Valid()
        && sleeping == old(sleeping) + 1
    {
      lastActivity := now;
      if websocketManager == null {
        return false;
      }
      var entry := HistoryEntry(User, message, stamp);
      conversationHistory := conversationHistory + [entry];
      websocketManager.SendPersonalMessage(Mirror(entry), clientId, sendOk);
      sleeping := sleeping + 1;
      suspended := true;
    }

    /** `process_user_message` after its sleep: the placeholder answer is recorded and sent. */
    method FinishUserMessage(stamp: int, sendOk: bool)
      requires Valid() && sleeping > 0 && websocketManager != null && websocketManager.Valid()
      modifies this, websocketManager
      ensures Valid() && websocketManager == old(websocketManager) && websocketManager.Valid()
      ensures conversationHistory == old(conversationHistory) + [HistoryEntry(Assistant, PlaceholderResponse, stamp)]
      ensures websocketManager.Snapshot() == Personal(old(websocketManager.Snapshot()), Mirror(HistoryEntry(Assistant, PlaceholderResponse, stamp)), clientId, sendOk)
      ensures lastActivity == old(lastActivity) && agents == old(agents) && sleeping == old(sleeping) - 1
    {
      var entry := HistoryEntry(Assistant, PlaceholderResponse, stamp);
      conversationHistory := conversationHistory + [entry];
      websocketManager.SendPersonalMessage(Mirror(entry), clientId, sendOk);
      sleeping := sleeping - 1;
    }

    /**
     * `process_user_message` run without anything else happening during the
     * sleep: with a manager, exactly two history entries, user then
     * assistant, each sent as the frame that mirrors it.
     */
    method ProcessUserMessage(message: string, now: real, userStamp: int, replyStamp: int, userOk: bool, replyOk: bool)
      requires Valid() && (websocketManager != null ==> websocketManager.Valid())
      modifies this, websocketManager
      ensures Valid() && lastActivity == now && agents == old(agents) && sleeping == old(sleeping)
      ensures websocketManager == old(websocketManager)
      ensures websocketManager == null ==> conversationHistory == old(conversationHistory)
      ensures websocketManager != null ==>
        && conversationHistory == old(conversationHistory) + [HistoryEntry(User, message, userStamp), HistoryEntry(Assistant, PlaceholderResponse, replyStamp)]
        && websocketManager.Snapshot() == Personal(Personal(old(websocketManager.Snapshot()),
             Mirror(HistoryEntry(User, message, userStamp)), clientId, userOk),
             Mirror(HistoryEntry(Assistant, PlaceholderResponse, replyStamp)), clientId, replyOk)
        && websocketManager.Valid()
    {
      var suspended := BeginUserMessage(message, now, userStamp, userOk);
      if suspended {
        FinishUserMessage(replyStamp, replyOk);
      }
    }

    /**
     * `send_direct_agent_message`: the activity time moves and, with a
     * manager, one `agent_trace` frame is sent; the history never changes.
     */
    method SendDirectAgentMessage(agentId: Option<string>, message: Option<string>, now: real, stamp: int, sendOk: bool)
      requires Valid() && (websocketManager != null ==> websocketManager.Valid())
      modifies this, websocketManager
      ensures Valid() && lastActivity == now && sleeping == old(sleeping)
      ensures conversationHistory == old(conversationHistory) && agents == old(agents)
      ensures websocketManager == old(websocketManager)
      ensures websocketManager != null ==>
        && websocketManager.Snapshot() == Personal(old(websocketManager.Snapshot()), DirectTrace(agentId, message, stamp), clientId, sendOk)
        && websocketManager.Valid()
    {
      lastActivity := now;
      if websocketManager != null {
        websocketManager.SendPersonalMessage(DirectTrace(agentId, message, stamp), clientId, sendOk);
      }
    }
  }

  /** Idle for strictly longer than the interval. */
  predicate Expired(now: real, lastActivity: real, interval: real)
  {
    now - lastActivity > interval
  }

  class SessionManager {
    var sessions: map<string, SessionState>
    const cleanupInterval: real

    /** Each session is stored under its own client id. */
    ghost predicate Valid()
      reads this
    {
      forall k :: k in sessions ==> sessions[k].clientId == k
    }

    constructor ()
      ensures sessions == map[] && cleanupInterval == SessionTimeout && Valid()
    {
      sessions := map[];
      cleanupInterval := SessionTimeout;
    }

    /**
     * `get_or_create_session`: a known id returns its session and leaves the
     * map alone; an unknown one gets exactly one new session under it.
     */
    method GetOrCreateSession(clientId: string, now: real) returns (session: SessionState)
      requires Valid()
      modifies this
      ensures Valid() && clientId in sessions && sessions[clientId] == session && session.clientId == clientId
      ensures clientId in old(sessions) ==> session == old(sessions[clientId]) && sessions == old(sessions)
      ensures clientId !in old(sessions) ==>
        && fresh(session) && sessions == old(sessions)[clientId := session]
        && session.conversationHistory == [] && session.websocketManager == null
        && session.agents == map[] && session.lastActivity == now && session.sleeping == 0
    {
      if clientId !in sessions {
        var created := new SessionState(clientId, now);
        sessions := sessions[clientId := created];
      }
      session := sessions[clientId];
    }

    /**
     * `cleanup_expired_sessions`: collect the sessions idle for longer than
     * the interval, then delete them; returns the ids deleted. The sessions
     * themselves are not touched.
     */
    method CleanupExpiredSessions(now: real) returns (expired: set<string>)
      requires Valid()
      modifies this
      ensures Valid()
      ensures forall k :: k in expired <==> k in old(sessions) && Expired(now, old(sessions[k].lastActivity), cleanupInterval)
      ensures forall k :: k in sessions <==> k in old(sessions) && k !in expired
      ensures forall k :: k in sessions ==> sessions[k] == old(sessions[k])
    {
      expired := {};
      var unseen := sessions.Keys;
      while unseen != {}
        invariant unseen <= sessions.Keys && sessions == old(sessions)
        invariant forall k :: k in expired <==> k in sessions.Keys - unseen && Expired(now, sessions[k].lastActivity, cleanupInterval)
        decreases unseen
      {
        var clientId :| clientId in unseen;
        if Expired(now, sessions[clientId].lastActivity, cleanupInterval) {
          expired := expired + {clientId};
        }
        unseen := unseen - {clientId};
      }
      var doomed := expired;
      while doomed != {}
        invariant doomed <= expired
        invariant forall k :: k in sessions <==> k in old(sessions) && (k !in expired || k in doomed)
        invariant forall k :: k in sessions ==> sessions[k] == old(sessions[k])
        decreases doomed
      {
        var clientId :| clientId in doomed;
        sessions := sessions - {clientId};
        doomed := doomed - {clientId};
      }
    }
  }
}
