/**
 * The server entry points of backend/main.py: the module-level connection
 * table and session manager, `process_request` (POST /process) and the
 * receive loop of `websocket_endpoint` (/ws/{client_id}). Request bodies
 * and received frames arrive already decoded; what `json.loads` made of a
 * frame is part of the input, as are clock readings and socket outcomes.
 */
module Server {
  import opened Types
  import opened WsManager
  import opened Sessions
  import Form

  const MissingFields := "Missing client_id or prompt"
  /**
   * `str()` of the HTTPException raised for a bad request: status code, colon,
   * detail. This is Starlette's `HTTPException.__str__`, which main.py relies on
   * but does not define.
   */
  const MissingFieldsText := "400: " + MissingFields
  const ErrorPrefix := "Error processing request: "
  const Accepted := "Request is being processed"

  /** The two fields `process_request` reads from the body; None when absent. */
  datatype Request = Request(clientId: Option<string>, prompt: Option<string>)

  /** Python truthiness of a string field. */
  predicate Truthy(v: Option<string>)
  {
    v.Some? && v.value != ""
  }

  predicate WellFormedRequest(r: Request)
  {
    Truthy(r.clientId) && Truthy(r.prompt)
  }

  /**
   * The reply of `process_request`. The HTTPException raised for a missing
   * field is caught by the handler's own `except Exception`, so a bad
   * request is answered with status 'error', never with an HTTP 400.
   */
  function ProcessReply(r: Request): (resp: ProcessResponse)
    ensures resp.status == Success <==> WellFormedRequest(r)
    ensures resp.status == Success ==> resp.message == Accepted && resp.sessionId == r.clientId
    ensures resp.status == Failure ==> resp.message == ErrorPrefix + MissingFieldsText && resp.sessionId.None?
  {
    if !WellFormedRequest(r) then ProcessResponse(Failure, ErrorPrefix + MissingFieldsText, None)
    else ProcessResponse(Success, Accepted, r.clientId)
  }

  /**
   * Every prompt the request form lets through is accepted: the form refuses
   * blank prompts, which is stricter than the server's empty-string check.
   */
  lemma FormRequestsAccepted(clientId: string, prompt: string, connection: ConnectionState)
    requires clientId != "" && Form.Guard(prompt, connection) == Form.Proceed
    ensures ProcessReply(Request(Some(clientId), Some(prompt))).status == Success
    ensures ProcessReply(Request(Some(clientId), Some(prompt))).sessionId == Some(clientId)
  {
  }

  /** Whitespace-only prompts pass the server's check though the form never sends them. */
  lemma WhitespacePromptAccepted(clientId: string)
    requires clientId != ""
    ensures ProcessReply(Request(Some(clientId), Some(" "))).status == Success
    ensures Form.Guard(" ", ConnectionState(true, true, None)) == Form.RejectBlank
  {
  }

  /** What `json.loads` made of a received text frame. */
  datatype Json =
    | Malformed
    /** A JSON object, with the three string fields the loop reads (None when absent). */
    | Object(kind: Option<string>, agentId: Option<string>, content: Option<string>)
    /** Valid JSON that is not an object: its `.get` raises AttributeError. */
    | NotAnObject

  /** One event on the socket: a text frame (with the clock and the outcome of the reply's write) or the disconnect. */
  datatype Incoming = Text(json: Json, now: real, stamp: int, sendOk: bool) | Disconnect

  /** How `websocket_endpoint` ends. */
  datatype Ending = ClientLeft | HandlerCrashed | StillOpen

  /** Frames that end the loop: the disconnect, and valid JSON that is not an object. */
  predicate Stops(x: Incoming)
  {
    x.Disconnect? || x.json.NotAnObject?
  }

  predicate Dispatched(x: Incoming)
  {
    x.Text? && x.json.Object? && x.json.kind == Some(DirectAgentTag)
  }

  /** Where the loop stops: the first stopping event, or the end of the input. */
  function FirstStop(xs: seq<Incoming>): (r: nat)
    ensures r <= |xs|
    ensures forall i :: 0 <= i < r ==> !Stops(xs[i])
    ensures r < |xs| ==> Stops(xs[r])
  {
    if xs == [] || Stops(xs[0]) then 0
    else
      var rest := FirstStop(xs[1..]);
      assert forall i :: 1 <= i < rest + 1 ==> xs[i] == xs[1..][i - 1];
      1 + rest
  }

  function EndingOf(xs: seq<Incoming>): Ending
  {
    var r := FirstStop(xs);
    if r == |xs| then StillOpen
    else if xs[r].Disconnect? then ClientLeft
    else HandlerCrashed
  }

  /** The `(agent_id, content)` pairs passed to `send_direct_agent_message`, in receipt order. */
  function Dispatches(xs: seq<Incoming>): seq<(Option<string>, Option<string>)>
  {
    if xs == [] then []
    else
      var last := xs[|xs| - 1];
      Dispatches(xs[..|xs| - 1]) + (if Dispatched(last) then [(last.json.agentId, last.json.content)] else [])
  }

  /** The connection table after the replies to the frames in `xs`. */
  function TableAfter(t: Table, clientId: string, xs: seq<Incoming>): Table
  {
    if xs == [] then t
    else
      var last := xs[|xs| - 1];
      var before := TableAfter(t, clientId, xs[..|xs| - 1]);
      if Dispatched(last)
      then Personal(before, DirectTrace(last.json.agentId, last.json.content, last.stamp), clientId, last.sendOk)
      else before
  }

  /** The session's activity time after the frames in `xs`: the arrival time of the last dispatched one. */
  function ActivityAfter(t: real, xs: seq<Incoming>): real
  {
    if xs == [] then t
    else
      var last := xs[|xs| - 1];
      if Dispatched(last) then last.now else ActivityAfter(t, xs[..|xs| - 1])
  }

  /**
   * Frames of other types never refresh the activity time, so a client that
   * only sends those can expire while still connected.
   */
  lemma {:induction false} OnlyDirectFramesRefresh(t: real, xs: seq<Incoming>)
    ensures (forall i :: 0 <= i < |xs| ==> !Dispatched(xs[i])) ==> ActivityAfter(t, xs) == t
    ensures (exists i :: 0 <= i < |xs| && Dispatched(xs[i])) ==>
      exists i :: 0 <= i < |xs| && Dispatched(xs[i]) && ActivityAfter(t, xs) == xs[i].now
  {
    if xs != [] {
      var init := xs[..|xs| - 1];
      OnlyDirectFramesRefresh(t, init);
      assert forall i :: 0 <= i < |init| ==> init[i] == xs[i];
      if !Dispatched(xs[|xs| - 1]) && exists i :: 0 <= i < |xs| && Dispatched(xs[i]) {
        var i :| 0 <= i < |xs| && Dispatched(xs[i]);
        assert i < |init| && Dispatched(init[i]);
      }
    }
  }

  /** Only direct-agent frames are dispatched; any other frame changes nothing. */
  lemma {:induction false} OnlyDirectFramesDispatched(t: Table, clientId: string, xs: seq<Incoming>)
    requires forall i :: 0 <= i < |xs| ==> !Dispatched(xs[i])
    ensures Dispatches(xs) == [] && TableAfter(t, clientId, xs) == t
  {
    if xs != [] {
      OnlyDirectFramesDispatched(t, clientId, xs[..|xs| - 1]);
    }
  }

  /** While every reply is written, the client stays in the table. */
  lemma {:induction false} StaysRegistered(t: Table, clientId: string, xs: seq<Incoming>)
    requires clientId in t.connections
    requires forall i :: 0 <= i < |xs| ==> xs[i].Text? && xs[i].sendOk
    ensures clientId in TableAfter(t, clientId, xs).connections
  {
    if xs != [] {
      StaysRegistered(t, clientId, xs[..|xs| - 1]);
    }
  }

  /**
   * A frame that is valid JSON but not an object ends the handler without
   * its disconnect branch: the client's entry stays in the table.
   */
  lemma CrashKeepsStaleEntry(t: Table, clientId: string, socket: Socket, xs: seq<Incoming>)
    requires EndingOf(xs) == HandlerCrashed
    requires forall i :: 0 <= i < |xs| ==> xs[i].Text? && xs[i].sendOk
    ensures clientId in TableAfter(Connected(t, clientId, socket), clientId, xs[..FirstStop(xs)]).connections
  {
    StaysRegistered(Connected(t, clientId, socket), clientId, xs[..FirstStop(xs)]);
  }

  class Backend {
    const websocketManager: WebSocketManager
    const sessionManager: SessionManager

    /** Every session sends, if at all, through the one shared connection table. */
    ghost predicate Valid()
      reads this, websocketManager, sessionManager, sessionManager.sessions.Values
    {
      && websocketManager.Valid()
      && sessionManager.Valid()
      && forall s :: s in sessionManager.sessions.Values ==> s.Valid() && (s.websocketManager == null || s.websocketManager == websocketManager)
    }

    /** The two module-level singletons. */
    constructor ()
      ensures Valid() && fresh(websocketManager) && fresh(sessionManager)
      ensures websocketManager.Snapshot() == Empty && sessionManager.sessions == map[]
    {
      websocketManager := new WebSocketManager();
      sessionManager := new SessionManager();
    }

    /**
     * `process_request`, run to completion. A bad request changes nothing;
     * a good one gets or creates the session and processes the prompt,
     * which records and sends something only if a socket registered that
     * session before.
     */
    method ProcessRequest(request: Request, now: real, userStamp: int, replyStamp: int, userOk: bool, replyOk: bool)
      returns (response: ProcessResponse)
      requires Valid()
      modifies websocketManager, sessionManager, sessionManager.sessions.Values
      ensures Valid() && response == ProcessReply(request)
      ensures !WellFormedRequest(request) ==>
        sessionManager.sessions == old(sessionManager.sessions) && websocketManager.Snapshot() == old(websocketManager.Snapshot())
      ensures WellFormedRequest(request) ==>
        var cid := request.clientId.value;
        && cid in sessionManager.sessions
        && (cid !in old(sessionManager.sessions) ==>
             && sessionManager.sessions[cid].conversationHistory == []
             && websocketManager.Snapshot() == old(websocketManager.Snapshot()))
        && (cid in old(sessionManager.sessions) ==> sessionManager.sessions == old(sessionManager.sessions))
        && (cid !in old(sessionManager.sessions) ==>
             && sessionManager.sessions == old(sessionManager.sessions)[cid := sessionManager.sessions[cid]]
             && fresh(sessionManager.sessions[cid]) && sessionManager.sessions[cid].websocketManager == null)
        && (cid in old(sessionManager.sessions) ==>
             sessionManager.sessions[cid].websocketManager == old(sessionManager.sessions[cid].websocketManager))
        && sessionManager.sessions[cid].lastActivity == now
    ensures forall k :: k in old(sessionManager.sessions) && !(WellFormedRequest(request) && k == request.clientId.value) ==>
        unchanged(old(sessionManager.sessions[k]))
    ensures WellFormedRequest(request) && request.clientId.value in old(sessionManager.sessions) ==>
        var cid := request.clientId.value;
        var user := HistoryEntry(User, request.prompt.value, userStamp);
        var reply := HistoryEntry(Assistant, PlaceholderResponse, replyStamp);
        if old(sessionManager.sessions[cid].websocketManager) == null then
          && sessionManager.sessions[cid].conversationHistory == old(sessionManager.sessions[cid].conversationHistory)
          && websocketManager.Snapshot() == old(websocketManager.Snapshot())
        else
          && sessionManager.sessions[cid].conversationHistory == old(sessionManager.sessions[cid].conversationHistory) + [user, reply]
          && websocketManager.Snapshot() == Personal(Personal(old(websocketManager.Snapshot()), Mirror(user), cid, userOk), Mirror(reply), cid, replyOk)
    {
      if !Truthy(request.clientId) || !Truthy(request.prompt) {
        return ProcessReply(request);
      }
      var cid := request.clientId.value;
      var session := sessionManager.GetOrCreateSession(cid, now);
      session.ProcessUserMessage(request.prompt.value, now, userStamp, replyStamp, userOk, replyOk);
      response := ProcessResponse(Success, Accepted, request.clientId);
    }

    /**
     * `websocket_endpoint`: register the socket, get the session and hand it
     * the table, then handle frames in order until the client leaves or a
     * frame ends the handler. Returns the dispatched `(agent_id, content)`
     * pairs and how the handler ended.
     */
    method WebSocketEndpoint(clientId: string, socket: Socket, openedAt: real, incoming: seq<Incoming>)
      returns (dispatched: seq<(Option<string>, Option<string>)>, ending: Ending)
      requires Valid()
      modifies websocketManager, sessionManager, sessionManager.sessions.Values
      ensures Valid() && ending == EndingOf(incoming)
      ensures dispatched == Dispatches(incoming[..FirstStop(incoming)])
      ensures var mid := TableAfter(Connected(old(websocketManager.Snapshot()), clientId, socket), clientId, incoming[..FirstStop(incoming)]);
        websocketManager.Snapshot() == if ending == ClientLeft then Disconnected(mid, clientId) else mid
      ensures clientId in sessionManager.sessions
      ensures clientId in old(sessionManager.sessions) ==> sessionManager.sessions == old(sessionManager.sessions)
      ensures clientId !in old(sessionManager.sessions) ==>
        && sessionManager.sessions == old(sessionManager.sessions)[clientId := sessionManager.sessions[clientId]]
        && fresh(sessionManager.sessions[clientId]) && sessionManager.sessions[clientId].conversationHistory == []
      ensures forall k :: k in old(sessionManager.sessions) && k != clientId ==> unchanged(old(sessionManager.sessions[k]))
      ensures sessionManager.sessions[clientId].websocketManager == websocketManager
      ensures clientId in old(sessionManager.sessions) ==>
        sessionManager.sessions[clientId].conversationHistory == old(sessionManager.sessions[clientId].conversationHistory)
      ensures sessionManager.sessions[clientId].lastActivity == ActivityAfter(
        if clientId in old(sessionManager.sessions) then old(sessionManager.sessions[clientId].lastActivity) else openedAt,
        incoming[..FirstStop(incoming)])
    {
      websocketManager.Connect(socket, clientId);
      var session := sessionManager.GetOrCreateSession(clientId, openedAt);
      session.SetWebSocketManager(websocketManager);
      var stop;
      dispatched, stop := ServeFrames(session, websocketManager, incoming);
      if stop == |incoming| {
        ending := StillOpen;
      } else if incoming[stop].Disconnect? {
        websocketManager.Disconnect(clientId);
        ending := ClientLeft;
      } else {
        ending := HandlerCrashed;
      }
    }
  }

  /**
   * The receive loop of `websocket_endpoint`: frames are handled in order up
   * to the first one that ends the loop, which is returned as `stop`.
   * Unparsable frames are skipped after the error is logged; objects of any
   * other type are ignored.
   */
  method ServeFrames(session: SessionState, manager: WebSocketManager, incoming: seq<Incoming>)
    returns (dispatched: seq<(Option<string>, Option<string>)>, stop: nat)
    requires session.Valid() && manager.Valid() && session.websocketManager == manager
    modifies session, manager
    ensures session.Valid() && manager.Valid() && session.websocketManager == manager
    ensures stop == FirstStop(incoming)
    ensures dispatched == Dispatches(incoming[..stop])
    ensures manager.Snapshot() == TableAfter(old(manager.Snapshot()), session.clientId, incoming[..stop])
    ensures session.conversationHistory == old(session.conversationHistory)
    ensures session.lastActivity == ActivityAfter(old(session.lastActivity), incoming[..stop])
  {
    ghost var t0 := manager.Snapshot();
    dispatched := [];
    stop := 0;
    while stop < |incoming| && !Stops(incoming[stop])
      invariant stop <= FirstStop(incoming)
      invariant session.Valid() && manager.Valid() && session.websocketManager == manager
      invariant session.conversationHistory == old(session.conversationHistory)
      invariant session.lastActivity == ActivityAfter(old(session.lastActivity), incoming[..stop])
      invariant manager.Snapshot() == TableAfter(t0, session.clientId, incoming[..stop])
      invariant dispatched == Dispatches(incoming[..stop])
    {
      var x := incoming[stop];
      assert incoming[..stop + 1][..stop] == incoming[..stop];
      if Dispatched(x) {
        session.SendDirectAgentMessage(x.json.agentId, x.json.content, x.now, x.stamp, x.sendOk);
        dispatched := dispatched + [(x.json.agentId, x.json.content)];
      }
      stop := stop + 1;
    }
  }
}
