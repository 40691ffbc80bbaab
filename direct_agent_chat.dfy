/**
 * The per-agent chat pane of src/components/direct-agent-chat.tsx: its React
 * state (local messages, the input box, `isConnected`, `isLoading`), the
 * handlers of the socket its mount effect opens, and `handleSend`. There is
 * no reconnect; cleanup closes the socket, and React ignores the state
 * updates of handlers that run after unmount.
 */
module DirectChat {
  import opened Types
  import opened Text

  /** A local chat entry; `isUser` tells the user's own lines from the agent's. */
  datatype Entry = Entry(content: string, isUser: bool, timestamp: int)

  datatype State = State(
    messages: seq<Entry>,
    input: string,
    isConnected: bool,
    isLoading: bool,
    mounted: bool)

  const Mounted := State([], "", false, false, true)

  /** Socket events and cleanup; `now` is Date.now() while onmessage runs. */
  datatype Event =
    | OnOpen
    | OnClose
    | OnError
    | OnMessage(frame: Inbound, now: int)
    | Cleanup

  /** onmessage's reducer: replies append an agent entry and stop loading, errors only stop loading. */
  function Receive(s: State, frame: Inbound, now: int): (r: State)
    ensures r.input == s.input && r.isConnected == s.isConnected && r.mounted == s.mounted
  {
    match frame
    case Direct(reply) => s.(messages := s.messages + [Entry(reply.content, false, now)], isLoading := false)
    case Frame(ErrorMessage(_)) => s.(isLoading := false)
    case _ => s
  }

  function Step(s: State, e: Event): State
  {
    if !s.mounted then s
    else
      match e
      case OnOpen => s.(isConnected := true)
      case OnClose => s.(isConnected := false)
      case OnError => s
      case OnMessage(frame, now) => Receive(s, frame, now)
      case Cleanup => s.(mounted := false)
  }

  /** Events handled in the order they happen. */
  function Run(s: State, es: seq<Event>): State
  {
    if es == [] then s else Step(Run(s, es[..|es| - 1]), es[|es| - 1])
  }

  /** Once unmounted, no run of later events changes the state again. */
  lemma {:induction false} AfterCleanupNothingChanges(s: State, es: seq<Event>)
    ensures Run(Step(s, Cleanup), es) == Step(s, Cleanup)
  {
    if es != [] {
      AfterCleanupNothingChanges(s, es[..|es| - 1]);
    }
  }

  /** Open and close only flip `isConnected`; an error changes nothing. */
  lemma ConnectionEvents(s: State)
    requires s.mounted
    ensures Step(s, OnOpen) == s.(isConnected := true)
    ensures Step(s, OnClose) == s.(isConnected := false)
    ensures Step(s, OnError) == s
  {
  }

  /** Frames with their arrival times, handled in receipt order. */
  datatype Arrival = Arrival(frame: Inbound, now: int)

  function ReceiveAll(s: State, fs: seq<Arrival>): State
  {
    if fs == [] then s else
      var last := fs[|fs| - 1];
      Receive(ReceiveAll(s, fs[..|fs| - 1]), last.frame, last.now)
  }

  function RepliesOf(fs: seq<Arrival>): seq<Entry>
  {
    if fs == [] then [] else
      var last := fs[|fs| - 1];
      RepliesOf(fs[..|fs| - 1]) + (if last.frame.Direct? then [Entry(last.frame.reply.content, false, last.now)] else [])
  }

  predicate StopsLoading(f: Inbound)
  {
    f.Direct? || (f.Frame? && f.msg.ErrorMessage?)
  }

  /**
   * Only direct-agent replies reach the log, as agent entries in receipt
   * order; loading survives a run of frames exactly when it was on and no
   * reply or error arrived; the input and the connection flag are untouched.
   */
  lemma {:induction false} ReceiveAllSpec(s: State, fs: seq<Arrival>)
    ensures ReceiveAll(s, fs).messages == s.messages + RepliesOf(fs)
    ensures ReceiveAll(s, fs).isLoading <==> s.isLoading && forall i :: 0 <= i < |fs| ==> !StopsLoading(fs[i].frame)
    ensures ReceiveAll(s, fs).input == s.input && ReceiveAll(s, fs).isConnected == s.isConnected
  {
    if fs != [] {
      var init := fs[..|fs| - 1];
      ReceiveAllSpec(s, init);
      assert forall i :: 0 <= i < |init| ==> init[i] == fs[i];
    }
  }

  /** Frames of any other type, and payloads that do not parse, change nothing. */
  lemma IgnoredFrames(s: State, f: Inbound, now: int)
    requires WellTagged(f) && !StopsLoading(f)
    ensures Receive(s, f, now) == s
  {
  }

  /** Whether `handleSend` gets past its two guards. */
  predicate SendAllowed(s: State)
  {
    Trim(s.input) != [] && s.isConnected
  }

  /**
   * `handleSend`: nothing for a blank input or while disconnected; otherwise
   * the input is sent untrimmed and, if `send` returned, echoed as a user
   * entry, then the box is cleared and loading starts. A throwing `send`
   * changes nothing. `mounted` is not consulted: a click or key handler only
   * runs on a rendered pane, so no send can follow the unmount; only socket
   * callbacks outlive it.
   */
  function Send(s: State, sendOk: bool, now: int): State
  {
    if !SendAllowed(s) || !sendOk then s
    else s.(messages := s.messages + [Entry(s.input, true, now)], input := "", isLoading := true)
  }

  /** A blank input (only whitespace, or empty) is never sent. */
  lemma BlankNeverSent(s: State, sendOk: bool, now: int)
    requires IsBlank(s.input)
    ensures !SendAllowed(s) && Send(s, sendOk, now) == s
  {
    TrimEmptyIffBlank(s.input);
  }

  /**
   * A send followed by the agent's reply leaves the user line and the reply
   * in that order, an empty box and loading off.
   */
  lemma SendThenReply(s: State, reply: DirectAgentMessage, t0: int, t1: int)
    requires SendAllowed(s)
    ensures var r := Receive(Send(s, true, t0), Direct(reply), t1);
      r.messages == s.messages + [Entry(s.input, true, t0), Entry(reply.content, false, t1)]
      && r.input == "" && !r.isLoading
  {
  }

  /** The send button's `disabled`: disconnected, loading, or a blank input. */
  predicate SendButtonDisabled(s: State)
  {
    !s.isConnected || s.isLoading || Trim(s.input) == []
  }

  /** The textarea's `disabled`; a disabled textarea receives no key presses. */
  predicate InputDisabled(s: State)
  {
    !s.isConnected || s.isLoading
  }

  /**
   * `handleSend` has no loading guard of its own: only the two `disabled`
   * attributes keep a second message from going out while a reply is
   * pending. An enabled button means the guards pass and nothing is loading.
   */
  lemma DisabledStatesGuardLoading(s: State, now: int)
    ensures !SendButtonDisabled(s) <==> SendAllowed(s) && !s.isLoading
    ensures !InputDisabled(s) ==> (SendAllowed(s) <==> !IsBlank(s.input))
    ensures s.isLoading && SendAllowed(s) ==> Send(s, true, now).messages == s.messages + [Entry(s.input, true, now)]
  {
    TrimEmptyIffBlank(s.input);
  }

  /** After a send both controls are disabled until a reply or an error frame arrives. */
  lemma SendDisablesControls(s: State, now: int)
    requires SendAllowed(s)
    ensures SendButtonDisabled(Send(s, true, now)) && InputDisabled(Send(s, true, now))
  {
  }

  class DirectAgentChat {
    const agentId: AgentId
    var messages: seq<Entry>
    var input: string
    var isConnected: bool
    var isLoading: bool
    var mounted: bool

    function Snapshot(): State
      reads this
    {
      State(messages, input, isConnected, isLoading, mounted)
    }

    /** First render and the mount effect that opens the agent socket. */
    constructor (agentId: AgentId)
      ensures this.agentId == agentId && Snapshot() == Mounted
    {
      this.agentId := agentId;
      messages, input := [], "";
      isConnected, isLoading, mounted := false, false, true;
    }

    /** The textarea's onChange. */
    method SetInput(text: string)
      modifies this
      ensures Snapshot() == if old(mounted) then old(Snapshot()).(input := text) else old(Snapshot())
    {
      if mounted {
        input := text;
      }
    }

    /** ws.onopen, ws.onclose, ws.onerror, ws.onmessage and the effect cleanup. */
    /**
     * One event. The cleanup returned by the mount effect calls `ws.close()`
     * without looking at `readyState`; `closeCalled` reports that call.
     */
    method Handle(e: Event) returns (closeCalled: bool)
      modifies this
      ensures Snapshot() == Step(old(Snapshot()), e)
      ensures closeCalled <==> e.Cleanup? && old(mounted)
    {
      closeCalled := false;
      if !mounted {
        return;
      }
      match e {
        case OnOpen => isConnected := true;
        case OnClose => isConnected := false;
        case OnError =>
        case OnMessage(frame, now) =>
          match frame {
            case Direct(reply) =>
              messages := messages + [Entry(reply.content, false, now)];
              isLoading := false;
            case Frame(ErrorMessage(_)) =>
              isLoading := false;
            case _ =>
          }
        case Cleanup =>
          mounted := false;
          closeCalled := true;
      }
    }

    /**
     * `handleSend()`; `sendOk` says whether `socket.send` returned. Returns
     * the frame handed to `send`, if the guards let one through. Like every
     * UI handler it is only reachable while the pane is mounted.
     */
    method HandleSend(sendOk: bool, now: int) returns (sent: Option<DirectAgentMessage>)
      modifies this
      ensures Snapshot() == Send(old(Snapshot()), sendOk, now)
      ensures sent == if SendAllowed(old(Snapshot())) then Some(DirectAgentMessage(agentId, old(input))) else None
    {
      if Trim(input) == [] {
        return None;
      }
      if !isConnected {
        return None;
      }
      sent := Some(DirectAgentMessage(agentId, input));
      if sendOk {
        messages := messages + [Entry(input, true, now)];
        input := "";
        isLoading := true;
      }
    }

    /** The textarea's onKeyDown: Enter without Shift is taken over and sends. */
    method HandleKeyDown(key: string, shiftKey: bool, sendOk: bool, now: int) returns (prevented: bool, sent: Option<DirectAgentMessage>)
      modifies this
      ensures prevented == (key == "Enter" && !shiftKey)
      ensures Snapshot() == if prevented then Send(old(Snapshot()), sendOk, now) else old(Snapshot())
      ensures sent == if prevented && SendAllowed(old(Snapshot())) then Some(DirectAgentMessage(agentId, old(input))) else None
    {
      prevented := key == "Enter" && !shiftKey;
      if prevented {
        sent := HandleSend(sendOk, now);
      } else {
        sent := None;
      }
    }
  }
}
