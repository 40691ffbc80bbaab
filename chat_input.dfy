/**
 * The message box of src/chatUI/components/ChatInput.tsx: its `message`
 * text, the guard of `handleSubmit`, the Enter-key shortcut and the two
 * disabled conditions. `isSubmitting`, `isConnected` and `onSendMessage`
 * are props; the promise `onSendMessage` returns is split into the call and
 * its settlement.
 */
module Input {
  import opened Types
  import opened Text
  import ChatHook

  /** The guard of `handleSubmit`: a non-blank message, nothing in flight, connected. */
  predicate ShouldSend(message: string, isSubmitting: bool, isConnected: bool)
  {
    !(Trim(message) == [] || isSubmitting || !isConnected)
  }

  /** The send button's `disabled`. */
  predicate SendDisabled(message: string, isSubmitting: bool, isConnected: bool)
  {
    isSubmitting || !isConnected || Trim(message) == []
  }

  /** The textarea's `disabled`. */
  predicate BoxDisabled(isSubmitting: bool, isConnected: bool)
  {
    isSubmitting || !isConnected
  }

  /**
   * Submitting does something exactly when the message has a non-blank
   * character, nothing is in flight and the socket is connected, which is
   * exactly when the button is enabled.
   */
  lemma GuardMatchesButton(message: string, isSubmitting: bool, isConnected: bool)
    ensures ShouldSend(message, isSubmitting, isConnected) <==> !IsBlank(message) && !isSubmitting && isConnected
    ensures ShouldSend(message, isSubmitting, isConnected) <==> !SendDisabled(message, isSubmitting, isConnected)
  {
    TrimEmptyIffBlank(message);
  }

  /** Whether a key press submits: Enter without Shift. */
  predicate SubmitsOnKey(key: string, shiftKey: bool)
  {
    key == "Enter" && !shiftKey
  }

  /**
   * Fed by the chat hook of ChatWindow, the guard is what stops a double
   * send: once a message went out, the hook's `isSubmitting` is set and a
   * second message is refused until a terminal frame clears it.
   */
  lemma SecondSendRefused(s: ChatHook.State, first: string, second: string, echoTime: int, fs: seq<Inbound>)
    requires forall i :: 0 <= i < |fs| ==> !ChatHook.Releases(fs[i])
    ensures
      var later := ChatHook.ReceiveAll(ChatHook.Send(s, first, echoTime, true, true), fs);
      !ShouldSend(second, later.isSubmitting, later.connection.isConnected)
  {
    ChatHook.ReceiveAllSpec(ChatHook.Send(s, first, echoTime, true, true), fs);
  }

  class ChatInput {
    var message: string
    /** Calls of `onSendMessage` whose promise has not settled. */
    ghost var awaiting: nat

    constructor ()
      ensures message == "" && awaiting == 0
    {
      message := "";
      awaiting := 0;
    }

    /** The textarea's onChange. */
    method SetMessage(text: string)
      modifies this
      ensures message == text && awaiting == old(awaiting)
    {
      message := text;
    }

    /**
     * `handleSubmit` up to its await: returns the untrimmed message handed to
     * `onSendMessage` when the guard lets it through; the box keeps its text.
     */
    method HandleSubmit(isSubmitting: bool, isConnected: bool) returns (sent: Option<string>)
      modifies this
      ensures sent == if ShouldSend(old(message), isSubmitting, isConnected) then Some(old(message)) else None
      ensures message == old(message)
      ensures awaiting == old(awaiting) + (if sent.Some? then 1 else 0)
    {
      if Trim(message) == [] || isSubmitting || !isConnected {
        return None;
      }
      sent := Some(message);
      awaiting := awaiting + 1;
    }

    /** The rest of `handleSubmit`: a resolved send clears the box, a rejected one keeps the text. */
    method SendSettled(resolved: bool)
      requires awaiting > 0
      modifies this
      ensures message == if resolved then "" else old(message)
      ensures awaiting == old(awaiting) - 1
    {
      if resolved {
        message := "";
      }
      awaiting := awaiting - 1;
    }

    /**
     * `handleKeyDown`: Enter without Shift prevents the newline and submits;
     * any other key is left to the textarea. Returns whether the default was
     * prevented and what was sent.
     */
    method HandleKeyDown(key: string, shiftKey: bool, isSubmitting: bool, isConnected: bool) returns (prevented: bool, sent: Option<string>)
      modifies this
      ensures prevented == SubmitsOnKey(key, shiftKey)
      ensures sent == if prevented && ShouldSend(old(message), isSubmitting, isConnected) then Some(old(message)) else None
      ensures message == old(message)
      ensures awaiting == old(awaiting) + (if sent.Some? then 1 else 0)
    {
      prevented := key == "Enter" && !shiftKey;
      if prevented {
        sent := HandleSubmit(isSubmitting, isConnected);
      } else {
        sent := None;
      }
    }
  }
}
