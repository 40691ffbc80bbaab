/**
 * The control-channel provider of src/contexts/WebSocketContext.tsx: the
 * React state it keeps (connection badge, three append-only logs, the
 * `isSubmitting` flag and the socket it owns) and every handler that changes
 * that state. Socket callbacks, the 3000 ms reconnect timer and the /process
 * and /status fetches arrive as explicit events whose outcomes are inputs.
 *
 * The state changes are specified by the pure `Step`, `Submit`, `Settle`,
 * `Reset` and `StatusChecked` functions over a `State` snapshot; the class
 * `WebSocketProvider` holds the same state in fields and each of its methods
 * is proved to perform exactly the corresponding function.
 */
module Context {
  import opened Types

  /** localStorage key of the persisted client identity. */
  const ClientIdKey := "clientId"
  /** connectionError text written by onerror and by a failed constructor. */
  const ConnectFailure := "Failed to connect to server"
  /** The text of the error entry a thrown /process call produces. */
  const SendFailure := "Failed to send message"
  /** Delay before onclose's reconnect attempt; time itself is not modelled. */
  const ReconnectDelayMs := 3000

  /** The stored identity is used when it is truthy (present and non-empty). */
  predicate HasStoredId(storage: map<string, string>)
  {
    ClientIdKey in storage && storage[ClientIdKey] != ""
  }

  /**
   * The lazy initialiser of `clientId`: the stored id when there is one,
   * otherwise the freshly generated id, which is also written to storage.
   * Returns the id and the storage afterwards.
   */
  function LoadClientId(storage: map<string, string>, generated: string): (r: (string, map<string, string>))
    ensures HasStoredId(storage) ==> r == (storage[ClientIdKey], storage)
    ensures !HasStoredId(storage) ==> r.0 == generated && ClientIdKey in r.1 && r.1[ClientIdKey] == generated
    ensures r.1.Keys == storage.Keys + {ClientIdKey} || r.1 == storage
    ensures forall k :: k in storage && k != ClientIdKey ==> k in r.1 && r.1[k] == storage[k]
  {
    if HasStoredId(storage) then (storage[ClientIdKey], storage)
    else (generated, storage[ClientIdKey := generated])
  }

  /** A second load, after the first one's write, finds and keeps the same id. */
  lemma ClientIdStable(storage: map<string, string>, first: string, second: string)
    requires first != ""
    ensures LoadClientId(LoadClientId(storage, first).1, second) == LoadClientId(storage, first)
  {
  }

  /** The provider's state: what the context exposes, plus the socket bookkeeping. */
  datatype State = State(
    connection: ConnectionState,
    messages: seq<Message>,
    agentTraces: seq<AgentTrace>,
    internalComms: seq<InternalComm>,
    isSubmitting: bool,
    /** WebSocket objects constructed so far. */
    socketsOpened: nat,
    /** Reconnect timers scheduled by onclose that have not fired yet. */
    pendingReconnects: nat)

  /** The state before the mount effect runs; `autogenConnected` starts false here. */
  const Initial := State(ConnectionState(false, false, None), [], [], [], false, 0, 0)

  /** Socket-side events. `now` is Date.now() while the handler runs. */
  datatype Event =
    | OnOpen
    | OnClose
    | OnError
    | OnMessage(frame: Inbound, now: int)
    /** The timer set by onclose fires; `stillClosed` is `ws.readyState === CLOSED`,
        `constructOk` whether `new WebSocket(...)` returned instead of throwing.
        The tested `ws` is the socket whose onclose armed the timer, and a
        CLOSED socket stays CLOSED, so in a real run `stillClosed` is always
        true; the false case mirrors the test only. */
    | ReconnectTimer(stillClosed: bool, constructOk: bool)

  /** `connectWebSocket()`: a new socket, or the constructor threw and the error is recorded. */
  function Connect(s: State, constructOk: bool): (r: State)
    ensures r.messages == s.messages && r.agentTraces == s.agentTraces && r.internalComms == s.internalComms
    ensures r.isSubmitting == s.isSubmitting && r.pendingReconnects == s.pendingReconnects
    ensures r.connection.isConnected == s.connection.isConnected
    ensures r.connection.autogenConnected == s.connection.autogenConnected
    ensures constructOk ==> r.connection.connectionError == s.connection.connectionError
    ensures !constructOk ==> r.connection.connectionError == Some(ConnectFailure)
    ensures r.socketsOpened == s.socketsOpened + (if constructOk then 1 else 0)
  {
    if constructOk then s.(socketsOpened := s.socketsOpened + 1)
    else s.(connection := s.connection.(connectionError := Some(ConnectFailure)))
  }

  /** The assistant entry shown for a failed request. */
  function ErrorEntry(message: string, now: int): (m: Message)
    ensures m.role == Assistant && m.timestamp == now
  {
    Message(Assistant, "Error: " + message + ". Unable to retrieve response from Autogen.", now)
  }

  /** What one event appends to the conversation log. */
  function NewMessages(e: Event): seq<Message>
  {
    match e
    case OnMessage(Frame(UserMessage(role, content, timestamp)), _) => [Message(role, content, timestamp)]
    case OnMessage(Frame(ErrorMessage(message)), now) => [ErrorEntry(message, now)]
    case _ => []
  }

  /** What one event appends to the trace log. */
  function NewTraces(e: Event): seq<AgentTrace>
  {
    match e
    case OnMessage(Frame(AgentTraceMessage(agent, content, timestamp)), _) => [AgentTrace(agent, content, timestamp)]
    case _ => []
  }

  /** What one event appends to the internal-communication log. */
  function NewComms(e: Event): seq<InternalComm>
  {
    match e
    case OnMessage(Frame(InternalCommMessage(from, to, content, timestamp)), _) => [InternalComm(from, to, content, timestamp)]
    case _ => []
  }

  /** Terminal frames: an assistant message or an error. */
  predicate Releases(e: Event)
  {
    match e
    case OnMessage(Frame(UserMessage(role, _, _)), _) => role == Assistant
    case OnMessage(Frame(ErrorMessage(_)), _) => true
    case _ => false
  }

  /** The handlers: onopen, onclose, onerror, onmessage and the reconnect timer. */
  function Step(s: State, e: Event): (r: State)
    ensures r.messages == s.messages + NewMessages(e)
    ensures r.agentTraces == s.agentTraces + NewTraces(e)
    ensures r.internalComms == s.internalComms + NewComms(e)
    ensures r.isSubmitting == (s.isSubmitting && !Releases(e))
  {
    match e
    case OnOpen =>
      s.(connection := s.connection.(isConnected := true, connectionError := None))
    case OnClose =>
      s.(connection := s.connection.(isConnected := false), pendingReconnects := s.pendingReconnects + 1)
    case OnError =>
      s.(connection := s.connection.(connectionError := Some(ConnectFailure)))
    case ReconnectTimer(stillClosed, constructOk) =>
      if s.pendingReconnects == 0 then s
      else
        var fired := s.(pendingReconnects := s.pendingReconnects - 1);
        if stillClosed then Connect(fired, constructOk) else fired
    case OnMessage(frame, now) =>
      match frame
      case Frame(AgentTraceMessage(agent, content, timestamp)) =>
        s.(agentTraces := s.agentTraces + [AgentTrace(agent, content, timestamp)])
      case Frame(InternalCommMessage(from, to, content, timestamp)) =>
        s.(internalComms := s.internalComms + [InternalComm(from, to, content, timestamp)])
      case Frame(UserMessage(role, content, timestamp)) =>
        s.(messages := s.messages + [Message(role, content, timestamp)],
           isSubmitting := if role == Assistant then false else s.isSubmitting)
      case Frame(ErrorMessage(message)) =>
        s.(isSubmitting := false, messages := s.messages + [ErrorEntry(message, now)])
      case _ => s
  }

  /** Events handled in receipt order. */
  function Replay(s: State, es: seq<Event>): State
  {
    if es == [] then s else Step(Replay(s, es[..|es| - 1]), es[|es| - 1])
  }

  function MessagesOf(es: seq<Event>): seq<Message>
  {
    if es == [] then [] else MessagesOf(es[..|es| - 1]) + NewMessages(es[|es| - 1])
  }

  function TracesOf(es: seq<Event>): seq<AgentTrace>
  {
    if es == [] then [] else TracesOf(es[..|es| - 1]) + NewTraces(es[|es| - 1])
  }

  function CommsOf(es: seq<Event>): seq<InternalComm>
  {
    if es == [] then [] else CommsOf(es[..|es| - 1]) + NewComms(es[|es| - 1])
  }

  /**
   * The three logs are append-only and in receipt order: after any run of
   * events each log is its old contents followed by the entries the events
   * contribute, in the order they arrived; no event touches another event's log.
   */
  lemma {:induction false} ReplayLogs(s: State, es: seq<Event>)
    ensures Replay(s, es).messages == s.messages + MessagesOf(es)
    ensures Replay(s, es).agentTraces == s.agentTraces + TracesOf(es)
    ensures Replay(s, es).internalComms == s.internalComms + CommsOf(es)
  {
    if es != [] {
      ReplayLogs(s, es[..|es| - 1]);
    }
  }

  /**
   * Frames only ever clear the flag: after a run of events `isSubmitting`
   * holds exactly when it held before and no terminal frame arrived.
   */
  lemma {:induction false} ReplayGate(s: State, es: seq<Event>)
    ensures Replay(s, es).isSubmitting <==> s.isSubmitting && forall i :: 0 <= i < |es| ==> !Releases(es[i])
  {
    if es != [] {
      var init := es[..|es| - 1];
      ReplayGate(s, init);
      assert forall i :: 0 <= i < |init| ==> init[i] == es[i];
    }
  }

  /** Handling `a` and then `b` is handling `a + b`. */
  lemma {:induction false} ReplayAppend(s: State, a: seq<Event>, b: seq<Event>)
    ensures Replay(s, a + b) == Replay(Replay(s, a), b)
  {
    if b == [] {
      assert a + b == a;
    } else {
      assert (a + b)[..|a + b| - 1] == a + b[..|b| - 1];
      assert (a + b)[|a + b| - 1] == b[|b| - 1];
      ReplayAppend(s, a, b[..|b| - 1]);
    }
  }

  /** `k` rounds of a socket closing and its reconnect timer finding it closed. */
  function Storm(k: nat): seq<Event>
  {
    if k == 0 then [] else Storm(k - 1) + [OnClose, ReconnectTimer(true, true)]
  }

  /**
   * There is no attempt cap: every close followed by its timer constructs a
   * new socket, however many times it happens, and leaves no timer behind.
   */
  lemma {:induction false} NoAttemptCap(s: State, k: nat)
    ensures Replay(s, Storm(k)).socketsOpened == s.socketsOpened + k
    ensures Replay(s, Storm(k)).pendingReconnects == s.pendingReconnects
    ensures !Replay(s, Storm(k)).connection.isConnected || k == 0
  {
    if k > 0 {
      NoAttemptCap(s, k - 1);
      ReplayAppend(s, Storm(k - 1), [OnClose, ReconnectTimer(true, true)]);
      CloseThenTimer(Replay(s, Storm(k - 1)));
    }
  }

  /** One round: the close schedules a timer, and the timer opens one socket and retires. */
  lemma CloseThenTimer(m: State)
    ensures Replay(m, [OnClose, ReconnectTimer(true, true)]).socketsOpened == m.socketsOpened + 1
    ensures Replay(m, [OnClose, ReconnectTimer(true, true)]).pendingReconnects == m.pendingReconnects
    ensures !Replay(m, [OnClose, ReconnectTimer(true, true)]).connection.isConnected
  {
    var two := [OnClose, ReconnectTimer(true, true)];
    assert two[..1] == [OnClose] && [OnClose][..0] == [];
    var closed := Step(m, OnClose);
    assert Replay(m, [OnClose]) == closed;
    assert Replay(m, two) == Step(closed, ReconnectTimer(true, true));
  }

  /**
   * Connection events: open connects and clears the error, an error only
   * records its text, a close disconnects, keeps the error and schedules one
   * reconnect; none of them touches the logs or the flag.
   */
  lemma ConnectionEvents(s: State)
    ensures Step(s, OnOpen).connection == s.connection.(isConnected := true, connectionError := None)
    ensures Step(s, OnError).connection == s.connection.(connectionError := Some(ConnectFailure))
    ensures Step(s, OnClose).connection == s.connection.(isConnected := false)
    ensures Step(s, OnClose).pendingReconnects == s.pendingReconnects + 1
    ensures Step(s, OnClose).socketsOpened == s.socketsOpened
  {
  }

  /**
   * The readyState test of the timer: when it fails, the timer only retires
   * itself. The test cannot fail in a real run (a closed socket never reopens),
   * so this states what the guard would do, not a path the provider takes.
   */
  lemma ReconnectOnlyWhenClosed(s: State, constructOk: bool)
    requires s.pendingReconnects > 0
    ensures Step(s, ReconnectTimer(false, constructOk)) == s.(pendingReconnects := s.pendingReconnects - 1)
  {
  }

  /** Unknown types, direct-agent replies and unparsable payloads change nothing at all. */
  lemma IgnoredFrames(s: State, tag: string, reply: DirectAgentMessage, now: int)
    requires WellTagged(OtherType(tag))
    ensures Step(s, OnMessage(OtherType(tag), now)) == s
    ensures Step(s, OnMessage(Direct(reply), now)) == s
    ensures Step(s, OnMessage(Unparsable, now)) == s
  {
  }

  /** `sendUserMessage`, up to the `await fetch`: echo the prompt and raise the flag. */
  function Submit(s: State, content: string, now: int): (r: State)
    ensures !s.connection.isConnected ==> r == s
    ensures r.isSubmitting == (s.isSubmitting || s.connection.isConnected)
    ensures |r.messages| == |s.messages| + (if s.connection.isConnected then 1 else 0)
    ensures r.messages[..|s.messages|] == s.messages
    ensures s.connection.isConnected ==> r.messages[|s.messages|] == Message(User, content, now)
    ensures r.connection == s.connection && r.agentTraces == s.agentTraces && r.internalComms == s.internalComms
    ensures r.socketsOpened == s.socketsOpened && r.pendingReconnects == s.pendingReconnects
  {
    if !s.connection.isConnected then s
    else s.(isSubmitting := true, messages := s.messages + [Message(User, content, now)])
  }

  /** How the awaited /process call ended. */
  datatype ProcessOutcome = Replied(response: ProcessResponse) | Threw

  /** `sendUserMessage` after the await: an error reply or a throw adds one error entry. */
  function Settle(s: State, outcome: ProcessOutcome, now: int): State
  {
    match outcome
    case Replied(response) =>
      if response.status == Failure
      then s.(isSubmitting := false, messages := s.messages + [ErrorEntry(response.message, now)])
      else s
    case Threw =>
      s.(isSubmitting := false, messages := s.messages + [ErrorEntry(SendFailure, now)])
  }

  /**
   * A failed request keeps the optimistic echo, appends exactly one assistant
   * error entry after it and clears the flag; a successful reply leaves the
   * flag to the socket frames.
   */
  lemma SubmitThenSettle(s: State, content: string, t0: int, outcome: ProcessOutcome, t1: int)
    requires s.connection.isConnected
    ensures var r := Settle(Submit(s, content, t0), outcome, t1);
      if outcome.Threw? || outcome.response.status == Failure then
        && r.messages == s.messages + [Message(User, content, t0), ErrorEntry(if outcome.Threw? then SendFailure else outcome.response.message, t1)]
        && !r.isSubmitting
      else
        r.messages == s.messages + [Message(User, content, t0)] && r.isSubmitting
    ensures Settle(Submit(s, content, t0), outcome, t1).connection == s.connection
  {
  }

  /**
   * `sendUserMessage` never refuses a second call while the first is in
   * flight: both prompts are echoed, in call order.
   */
  lemma SecondSubmitNotRejected(s: State, first: string, second: string, t0: int, t1: int)
    requires s.connection.isConnected
    ensures Submit(Submit(s, first, t0), second, t1).messages == s.messages + [Message(User, first, t0), Message(User, second, t1)]
    ensures Submit(Submit(s, first, t0), second, t1).isSubmitting
  {
  }

  /** `resetConversation`: the three logs emptied, nothing else. */
  function Reset(s: State): (r: State)
    ensures r.messages == [] && r.agentTraces == [] && r.internalComms == []
    ensures r.connection == s.connection && r.isSubmitting == s.isSubmitting
    ensures r.socketsOpened == s.socketsOpened && r.pendingReconnects == s.pendingReconnects
  {
    s.(messages := [], agentTraces := [], internalComms := [])
  }

  /** `checkSystemStatus`'s state update: only `autogenConnected`, and only on success. */
  function StatusChecked(s: State, probe: Option<StatusResponse>): (r: State)
    ensures probe.None? ==> r == s
    ensures r.connection.autogenConnected == if probe.Some? then probe.value.autogenInstalled else s.connection.autogenConnected
    ensures r.connection.isConnected == s.connection.isConnected && r.connection.connectionError == s.connection.connectionError
    ensures r.messages == s.messages && r.agentTraces == s.agentTraces && r.internalComms == s.internalComms
    ensures r.isSubmitting == s.isSubmitting && r.socketsOpened == s.socketsOpened && r.pendingReconnects == s.pendingReconnects
  {
    match probe
    case None => s
    case Some(data) => s.(connection := s.connection.(autogenConnected := data.autogenInstalled))
  }

  /** After a reset the logs hold exactly what later events contribute: no earlier entry survives. */
  lemma ResetForgetsHistory(s: State, es: seq<Event>)
    ensures Replay(Reset(s), es).messages == MessagesOf(es)
    ensures Replay(Reset(s), es).agentTraces == TracesOf(es)
    ensures Replay(Reset(s), es).internalComms == CommsOf(es)
  {
    ReplayLogs(Reset(s), es);
  }

  /** No socket event writes `autogenConnected`. */
  lemma {:induction false} ReplayKeepsAutogen(s: State, es: seq<Event>)
    ensures Replay(s, es).connection.autogenConnected == s.connection.autogenConnected
  {
    if es != [] {
      ReplayKeepsAutogen(s, es[..|es| - 1]);
    }
  }

  /**
   * The status probe is the only writer of `autogenConnected`: whatever
   * socket events follow, the flag is what the last probe reported, or what
   * it was before when the probe failed.
   */
  lemma ProbeDecidesAutogen(s: State, probe: Option<StatusResponse>, es: seq<Event>)
    ensures Replay(StatusChecked(s, probe), es).connection.autogenConnected
      == if probe.Some? then probe.value.autogenInstalled else s.connection.autogenConnected
  {
    ReplayKeepsAutogen(StatusChecked(s, probe), es);
  }

  /** The reply `checkSystemStatus` resolves to when the probe fails. */
  const StatusUnreachable := StatusResponse(Unavailable, false, false)

  class WebSocketProvider {
    /** The identity used in the socket URL and in every request. */
    const clientId: string
    /** localStorage after the identity was loaded (written at most once). */
    const persisted: map<string, string>

    var connectionState: ConnectionState
    var messages: seq<Message>
    var agentTraces: seq<AgentTrace>
    var internalComms: seq<InternalComm>
    var isSubmitting: bool
    var socketsOpened: nat
    var pendingReconnects: nat
    /** /process calls awaiting their reply. */
    ghost var pendingFetches: nat

    function Snapshot(): State
      reads this
    {
      State(connectionState, messages, agentTraces, internalComms, isSubmitting, socketsOpened, pendingReconnects)
    }

    /** Mounting: load or create the identity, then the effect's first `connectWebSocket()`. */
    constructor (storage: map<string, string>, generated: string, constructOk: bool)
      ensures (clientId, persisted) == LoadClientId(storage, generated)
      ensures Snapshot() == Connect(Initial, constructOk)
      ensures pendingFetches == 0
    {
      var loaded := LoadClientId(storage, generated);
      clientId, persisted := loaded.0, loaded.1;
      connectionState := ConnectionState(false, false, if constructOk then None else Some(ConnectFailure));
      messages, agentTraces, internalComms := [], [], [];
      isSubmitting := false;
      socketsOpened := if constructOk then 1 else 0;
      pendingReconnects := 0;
      pendingFetches := 0;
    }

    /** ws.onopen */
    method HandleOpen()
      modifies this
      ensures Snapshot() == Step(old(Snapshot()), OnOpen)
      ensures pendingFetches == old(pendingFetches)
    {
      connectionState := connectionState.(isConnected := true, connectionError := None);
    }

    /** ws.onclose: disconnect and schedule one reconnect after ReconnectDelayMs. */
    method HandleClose()
      modifies this
      ensures Snapshot() == Step(old(Snapshot()), OnClose)
      ensures pendingFetches == old(pendingFetches)
    {
      connectionState := connectionState.(isConnected := false);
      pendingReconnects := pendingReconnects + 1;
    }

    /** ws.onerror */
    method HandleError()
      modifies this
      ensures Snapshot() == Step(old(Snapshot()), OnError)
      ensures pendingFetches == old(pendingFetches)
    {
      connectionState := connectionState.(connectionError := Some(ConnectFailure));
    }

    /** The timer scheduled by onclose: reconnect if that socket is still CLOSED. */
    method ReconnectTimerFired(stillClosed: bool, constructOk: bool)
      requires pendingReconnects > 0
      modifies this
      ensures Snapshot() == Step(old(Snapshot()), ReconnectTimer(stillClosed, constructOk))
      ensures pendingFetches == old(pendingFetches)
    {
      pendingReconnects := pendingReconnects - 1;
      if stillClosed {
        if constructOk {
          socketsOpened := socketsOpened + 1;
        } else {
          connectionState := connectionState.(connectionError := Some(ConnectFailure));
        }
      }
    }

    /** ws.onmessage, given the outcome of JSON.parse. */
    method HandleMessage(frame: Inbound, now: int)
      modifies this
      ensures Snapshot() == Step(old(Snapshot()), OnMessage(frame, now))
      ensures pendingFetches == old(pendingFetches)
    {
      match frame {
        case Frame(AgentTraceMessage(agent, content, timestamp)) =>
          agentTraces := agentTraces + [AgentTrace(agent, content, timestamp)];
        case Frame(InternalCommMessage(from, to, content, timestamp)) =>
          internalComms := internalComms + [InternalComm(from, to, content, timestamp)];
        case Frame(UserMessage(role, content, timestamp)) =>
          messages := messages + [Message(role, content, timestamp)];
          if role == Assistant {
            isSubmitting := false;
          }
        case Frame(ErrorMessage(message)) =>
          isSubmitting := false;
          messages := messages + [ErrorEntry(message, now)];
        case _ =>
      }
    }

    /**
     * `sendUserMessage(content)` up to the await: when connected, raise the
     * flag, echo the prompt and return the /process payload it posts.
     */
    method SendUserMessage(content: string, now: int) returns (request: Option<ProcessRequestPayload>)
      modifies this
      ensures Snapshot() == Submit(old(Snapshot()), content, now)
      ensures request == if old(connectionState.isConnected) then Some(ProcessRequestPayload(clientId, Autogen, content)) else None
      ensures pendingFetches == old(pendingFetches) + (if request.Some? then 1 else 0)
    {
      if !connectionState.isConnected {
        return None;
      }
      isSubmitting := true;
      messages := messages + [Message(User, content, now)];
      request := Some(ProcessRequestPayload(clientId, Autogen, content));
      pendingFetches := pendingFetches + 1;
    }

    /** The continuation of `sendUserMessage` once /process replied or threw. */
    method SettleSend(outcome: ProcessOutcome, now: int)
      requires pendingFetches > 0
      modifies this
      ensures Snapshot() == Settle(old(Snapshot()), outcome, now)
      ensures pendingFetches == old(pendingFetches) - 1
    {
      pendingFetches := pendingFetches - 1;
      match outcome {
        case Replied(response) =>
          if response.status == Failure {
            isSubmitting := false;
            messages := messages + [ErrorEntry(response.message, now)];
          }
        case Threw =>
          isSubmitting := false;
          messages := messages + [ErrorEntry(SendFailure, now)];
      }
    }

    /** `checkSystemStatus()`, given the parsed /status reply or None when it failed. */
    method CheckSystemStatus(probe: Option<StatusResponse>) returns (result: StatusResponse)
      modifies this
      ensures Snapshot() == StatusChecked(old(Snapshot()), probe)
      ensures result == if probe.Some? then probe.value else StatusUnreachable
      ensures pendingFetches == old(pendingFetches)
    {
      match probe {
        case None =>
          result := StatusUnreachable;
        case Some(data) =>
          connectionState := connectionState.(autogenConnected := data.autogenInstalled);
          result := data;
      }
    }

    /** `resetConversation()` */
    method ResetConversation()
      modifies this
      ensures Snapshot() == Reset(old(Snapshot()))
      ensures pendingFetches == old(pendingFetches)
    {
      messages, agentTraces, internalComms := [], [], [];
    }
  }
}
