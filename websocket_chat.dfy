/**
 * The agent-channel hook of src/chatUI/hooks/useWebSocketChat.ts: its React
 * state (messages, `isSubmitting`, the connection badge and the socket it
 * holds), the handlers of the socket created by the mount effect, the
 * one-shot reconnect timer and `sendMessage`.
 *
 * Only the socket made by the mount effect carries handlers; the socket made
 * by the reconnect timer has none, so its events change nothing here and it
 * never schedules a reconnect of its own. React ignores state updates after
 * unmount, but the effect's timer still runs and still constructs a socket.
 */
module ChatHook {
  import opened Types

  const ConnectFailure := "Failed to connect to server"
  const ReconnectDelayMs := 3000

  /** WebSocket.readyState */
  datatype ReadyState = Connecting | Open | Closing | Closed

  /** Which socket the `socket` state variable refers to. */
  datatype SocketSlot = Original | Replacement

  /** The outbound `{type: 'user_message', content, timestamp}` frame. */
  datatype ChatRequest = ChatRequest(content: string, timestamp: int)

  const ChatRequestTag := "user_message"

  datatype State = State(
    connection: ConnectionState,
    messages: seq<Message>,
    isSubmitting: bool,
    socket: SocketSlot,
    /** readyState of the socket the mount effect created. */
    original: ReadyState,
    /** The timer scheduled by the original socket's onclose has not fired yet. */
    timerPending: bool,
    /** Sockets constructed by that timer. */
    replacementsCreated: nat,
    mounted: bool)

  /** The state after the first render and the mount effect. */
  const Mounted := State(ConnectionState(false, true, None), [], false, Original, Connecting, false, 0, true)

  /** Events of the original socket, its reconnect timer and the effect cleanup. */
  datatype Event =
    | OnOpen
    | OnClose
    | OnError
    | OnMessage(frame: Inbound)
    | ReconnectTimer
    | Cleanup

  /** onmessage's reducer: assistant messages and errors clear the flag, only user_message frames append. */
  function Receive(s: State, frame: Inbound): (r: State)
    ensures r.connection == s.connection && r.socket == s.socket && r.original == s.original
  {
    match frame
    case Frame(UserMessage(role, content, timestamp)) =>
      s.(messages := s.messages + [Message(role, content, timestamp)],
         isSubmitting := if role == Assistant then false else s.isSubmitting)
    case Frame(ErrorMessage(_)) => s.(isSubmitting := false)
    case _ => s
  }

  /** What effect cleanup does to the original socket: close it if OPEN or CONNECTING. */
  function CloseOnCleanup(st: ReadyState): ReadyState
  {
    if st == Open || st == Connecting then Closing else st
  }

  /** One event. State updates of the handlers take effect only while mounted. */
  function Step(s: State, e: Event): State
  {
    match e
    case OnOpen =>
      var t := s.(original := Open);
      if s.mounted then t.(connection := t.connection.(isConnected := true, connectionError := None)) else t
    case OnClose =>
      var t := s.(original := Closed, timerPending := true);
      if s.mounted then t.(connection := t.connection.(isConnected := false)) else t
    case OnError =>
      if s.mounted then s.(connection := s.connection.(connectionError := Some(ConnectFailure))) else s
    case OnMessage(frame) =>
      if s.mounted then Receive(s, frame) else s
    case ReconnectTimer =>
      if !s.timerPending then s
      else if s.original != Closed then s.(timerPending := false)
      else
        var t := s.(timerPending := false, replacementsCreated := s.replacementsCreated + 1);
        if s.mounted then t.(socket := Replacement) else t
    case Cleanup =>
      s.(original := CloseOnCleanup(s.original), mounted := false)
  }

  /** What the browser can deliver next: open only from CONNECTING, close once, cleanup once. */
  predicate Admissible(s: State, e: Event)
  {
    match e
    case OnOpen => s.original == Connecting
    case OnClose => s.original != Closed
    case ReconnectTimer => s.timerPending
    case Cleanup => s.mounted
    case _ => true
  }

  function Replay(s: State, es: seq<Event>): State
  {
    if es == [] then s else Step(Replay(s, es[..|es| - 1]), es[|es| - 1])
  }

  /** Every event of the run was deliverable in the state it met. */
  predicate AdmissibleRun(s: State, es: seq<Event>)
  {
    es == [] || (AdmissibleRun(s, es[..|es| - 1]) && Admissible(Replay(s, es[..|es| - 1]), es[|es| - 1]))
  }

  /** The reconnect bookkeeping stays one-shot. */
  predicate OneShot(s: State)
  {
    && s.replacementsCreated <= 1
    && (s.timerPending ==> s.original == Closed && s.replacementsCreated == 0)
    && (s.replacementsCreated == 1 ==> s.original == Closed)
    && (s.socket == Replacement ==> s.replacementsCreated == 1)
  }

  lemma StepOneShot(s: State, e: Event)
    requires OneShot(s) && Admissible(s, e)
    ensures OneShot(Step(s, e))
  {
  }

  /**
   * At most one reconnect per mount: whatever the original socket, its timer
   * and the cleanup deliver, at most one replacement socket is ever created.
   */
  lemma {:induction false} AtMostOneReconnect(es: seq<Event>)
    requires AdmissibleRun(Mounted, es)
    ensures Replay(Mounted, es).replacementsCreated <= 1
    ensures OneShot(Replay(Mounted, es))
  {
    if es != [] {
      AtMostOneReconnect(es[..|es| - 1]);
      StepOneShot(Replay(Mounted, es[..|es| - 1]), es[|es| - 1]);
    }
  }

  /** Closing and the timer firing yield the one replacement, and no timer is left behind. */
  lemma ReconnectOnce(s: State)
    requires OneShot(s) && s.original != Closed && s.mounted
    ensures var r := Step(Step(s, OnClose), ReconnectTimer);
      r.replacementsCreated == 1 && r.socket == Replacement && !r.connection.isConnected && !r.timerPending
  {
  }

  /**
   * Cleanup does not cancel the reconnect: a socket closed by the cleanup
   * still fires onclose, and its timer still constructs a replacement, although
   * no state of the unmounted hook changes.
   */
  lemma UnmountDoesNotCancelReconnect(s: State)
    requires OneShot(s) && s.mounted && s.original == Open
    ensures var r := Step(Step(Step(s, Cleanup), OnClose), ReconnectTimer);
      r.replacementsCreated == s.replacementsCreated + 1 && r.connection == s.connection && r.socket == s.socket
  {
  }

  /** Open clears the error, error sets it, close only disconnects (while mounted). */
  lemma ConnectionEvents(s: State)
    requires s.mounted
    ensures Step(s, OnOpen).connection == s.connection.(isConnected := true, connectionError := None)
    ensures Step(s, OnError).connection == s.connection.(connectionError := Some(ConnectFailure))
    ensures Step(s, OnClose).connection == s.connection.(isConnected := false)
    ensures Step(s, OnClose).messages == s.messages && Step(s, OnClose).isSubmitting == s.isSubmitting
  {
  }

  /** Frames handled in receipt order. */
  function ReceiveAll(s: State, fs: seq<Inbound>): State
  {
    if fs == [] then s else Receive(ReceiveAll(s, fs[..|fs| - 1]), fs[|fs| - 1])
  }

  /** The entry a frame appends, if any. */
  function Entry(f: Inbound): seq<Message>
  {
    match f
    case Frame(UserMessage(role, content, timestamp)) => [Message(role, content, timestamp)]
    case _ => []
  }

  function EntriesOf(fs: seq<Inbound>): seq<Message>
  {
    if fs == [] then [] else EntriesOf(fs[..|fs| - 1]) + Entry(fs[|fs| - 1])
  }

  /** Frames that end a request: an assistant message or an error. */
  predicate Releases(f: Inbound)
  {
    (f.Frame? && f.msg.UserMessage? && f.msg.role == Assistant) || (f.Frame? && f.msg.ErrorMessage?)
  }

  /**
   * Only user_message frames reach the log, in receipt order; errors append
   * nothing; and the flag survives a run of frames exactly when it was set
   * and no terminal frame arrived.
   */
  lemma {:induction false} ReceiveAllSpec(s: State, fs: seq<Inbound>)
    ensures ReceiveAll(s, fs).messages == s.messages + EntriesOf(fs)
    ensures ReceiveAll(s, fs).isSubmitting <==> s.isSubmitting && forall i :: 0 <= i < |fs| ==> !Releases(fs[i])
    ensures ReceiveAll(s, fs).connection == s.connection
  {
    if fs != [] {
      var init := fs[..|fs| - 1];
      ReceiveAllSpec(s, init);
      assert forall i :: 0 <= i < |init| ==> init[i] == fs[i];
    }
  }

  /** Agent traces, internal communications, unknown types and parse failures change nothing. */
  lemma IgnoredFrames(s: State, f: Inbound)
    requires WellTagged(f)
    requires !f.Frame? || f.msg.AgentTraceMessage? || f.msg.InternalCommMessage?
    ensures Receive(s, f) == s
  {
  }

  /** Whether `socket.readyState === OPEN` for the socket the state refers to. */
  function SocketOpen(s: State, replacementOpen: bool): bool
  {
    match s.socket
    case Original => s.original == Open
    case Replacement => replacementOpen
  }

  /**
   * `sendMessage(content)`: nothing unless the socket is OPEN; then raise the
   * flag and echo the message, and clear the flag again if `send` threw.
   */
  function Send(s: State, content: string, echoTime: int, open: bool, sendOk: bool): (r: State)
    ensures r.connection == s.connection && r.socket == s.socket && r.original == s.original
    ensures r.mounted == s.mounted && r.timerPending == s.timerPending
  {
    if !open then s
    else s.(isSubmitting := sendOk, messages := s.messages + [Message(User, content, echoTime)])
  }

  /**
   * A send on a socket that is not OPEN changes nothing; otherwise exactly the
   * user echo is appended, and it survives a throwing `send`, which only
   * clears the flag again.
   */
  lemma SendSpec(s: State, content: string, echoTime: int, sendOk: bool)
    ensures Send(s, content, echoTime, false, sendOk) == s
    ensures Send(s, content, echoTime, true, sendOk).messages == s.messages + [Message(User, content, echoTime)]
    ensures Send(s, content, echoTime, true, sendOk).isSubmitting == sendOk
  {
  }

  class WebSocketChat {
    var connectionState: ConnectionState
    var messages: seq<Message>
    var isSubmitting: bool
    var socket: SocketSlot
    var original: ReadyState
    var timerPending: bool
    var replacementsCreated: nat
    var mounted: bool

    function Snapshot(): State
      reads this
    {
      State(connectionState, messages, isSubmitting, socket, original, timerPending, replacementsCreated, mounted)
    }

    ghost predicate Valid()
      reads this
    {
      OneShot(Snapshot())
    }

    /** First render and the mount effect: the socket is constructed, CONNECTING. */
    constructor ()
      ensures Snapshot() == Mounted && Valid()
    {
      connectionState := ConnectionState(false, true, None);
      messages := [];
      isSubmitting := false;
      socket := Original;
      original := Connecting;
      timerPending := false;
      replacementsCreated := 0;
      mounted := true;
    }

    /** ws.onopen */
    method HandleOpen()
      requires Valid() && original == Connecting
      modifies this
      ensures Snapshot() == Step(old(Snapshot()), OnOpen) && Valid()
    {
      original := Open;
      if mounted {
        connectionState := connectionState.(isConnected := true, connectionError := None);
      }
    }

    /** ws.onclose: disconnect and schedule the one reconnect. */
    method HandleClose()
      requires Valid() && original != Closed
      modifies this
      ensures Snapshot() == Step(old(Snapshot()), OnClose) && Valid()
    {
      original := Closed;
      timerPending := true;
      if mounted {
        connectionState := connectionState.(isConnected := false);
      }
    }

    /** ws.onerror */
    method HandleError()
      requires Valid()
      modifies this
      ensures Snapshot() == Step(old(Snapshot()), OnError) && Valid()
    {
      if mounted {
        connectionState := connectionState.(connectionError := Some(ConnectFailure));
      }
    }

    /** ws.onmessage, given the outcome of JSON.parse. */
    method HandleMessage(frame: Inbound)
      requires Valid()
      modifies this
      ensures Snapshot() == Step(old(Snapshot()), OnMessage(frame)) && Valid()
    {
      if mounted {
        match frame {
          case Frame(UserMessage(role, content, timestamp)) =>
            messages := messages + [Message(role, content, timestamp)];
            if role == Assistant {
              isSubmitting := false;
            }
          case Frame(ErrorMessage(_)) =>
            isSubmitting := false;
          case _ =>
        }
      }
    }

    /** The timer set by onclose: construct a replacement if the original is CLOSED. */
    method ReconnectTimerFired()
      requires Valid() && timerPending
      modifies this
      ensures Snapshot() == Step(old(Snapshot()), ReconnectTimer) && Valid()
    {
      timerPending := false;
      if original == Closed {
        replacementsCreated := replacementsCreated + 1;
        if mounted {
          socket := Replacement;
        }
      }
    }

    /** Effect cleanup: close the original socket if OPEN or CONNECTING. */
    method Unmount() returns (closeCalled: bool)
      requires Valid() && mounted
      modifies this
      ensures Snapshot() == Step(old(Snapshot()), Cleanup) && Valid()
      ensures closeCalled == (old(original) == Open || old(original) == Connecting)
    {
      closeCalled := original == Open || original == Connecting;
      if closeCalled {
        original := Closing;
      }
      mounted := false;
    }

    /**
     * `sendMessage(content)`. `replacementOpen` is the readyState of a
     * replacement socket, which no handler tracks; `sendOk` says whether
     * `socket.send` returned. Returns the frame handed to `send`, if any.
     */
    method SendMessage(content: string, echoTime: int, sendTime: int, replacementOpen: bool, sendOk: bool)
      returns (sent: Option<ChatRequest>)
      requires Valid() && mounted
      modifies this
      ensures Snapshot() == Send(old(Snapshot()), content, echoTime, SocketOpen(old(Snapshot()), replacementOpen), sendOk)
      ensures Valid()
      ensures sent == if SocketOpen(old(Snapshot()), replacementOpen) then Some(ChatRequest(content, sendTime)) else None
    {
      var open := match socket
        case Original => original == Open
        case Replacement => replacementOpen;
      if !open {
        return None;
      }
      isSubmitting := true;
      messages := messages + [Message(User, content, echoTime)];
      sent := Some(ChatRequest(content, sendTime));
      if !sendOk {
        isSubmitting := false;
      }
    }
  }
}
