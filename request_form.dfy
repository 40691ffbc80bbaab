/**
 * The prompt form of src/components/request-form.tsx: its `prompt` text box,
 * the guard chain of `handleSubmit`, `handleReset`, and the two disabled
 * conditions. It drives the provider of the Context module, whose
 * `sendUserMessage` catches every failure, so the form's own `catch` branch
 * is never taken and the prompt is cleared once the call has settled,
 * whatever the /process reply was.
 */
module Form {
  import opened Types
  import opened Text
  import opened Context

  /** How `handleSubmit` ends; the first three show a toast and return. */
  datatype Verdict = RejectBlank | RejectDisconnected | RejectAutogen | Proceed

  /** The toast text of each rejection. */
  function Notice(v: Verdict): string
  {
    match v
    case RejectBlank => "Please enter a prompt"
    case RejectDisconnected => "Not connected to server"
    case RejectAutogen => "Autogen is not available. Please check server configuration."
    case Proceed => ""
  }

  /**
   * The guard chain: a blank prompt is refused first, then a missing
   * connection, then an unavailable Autogen; exactly one verdict applies.
   */
  function Guard(prompt: string, connection: ConnectionState): (v: Verdict)
    ensures v == RejectBlank <==> IsBlank(prompt)
    ensures v == RejectDisconnected <==> !IsBlank(prompt) && !connection.isConnected
    ensures v == RejectAutogen <==> !IsBlank(prompt) && connection.isConnected && !connection.autogenConnected
    ensures v == Proceed <==> !IsBlank(prompt) && connection.isConnected && connection.autogenConnected
  {
    TrimEmptyIffBlank(prompt);
    if Trim(prompt) == [] then RejectBlank
    else if !connection.isConnected then RejectDisconnected
    else if !connection.autogenConnected then RejectAutogen
    else Proceed
  }

  /** The submit button's `disabled`. */
  predicate SubmitDisabled(isSubmitting: bool, connection: ConnectionState)
  {
    isSubmitting || !connection.isConnected || !connection.autogenConnected
  }

  /** The textarea's `disabled`. */
  predicate PromptDisabled(isSubmitting: bool, connection: ConnectionState)
  {
    isSubmitting || !connection.isConnected
  }

  /**
   * `handleSubmit` itself never looks at `isSubmitting`: the guard chain
   * lets a non-blank prompt through while a request is in flight, and only
   * the disabled button keeps it from being pressed. An enabled button
   * means nothing is in flight, and then the guard blocks only blank prompts.
   */
  lemma ButtonIsTheOnlyBusyGuard(prompt: string, s: State)
    ensures !SubmitDisabled(s.isSubmitting, s.connection) ==> !s.isSubmitting && (Guard(prompt, s.connection) == Proceed <==> !IsBlank(prompt))
    ensures s.isSubmitting && s.connection.isConnected && s.connection.autogenConnected && !IsBlank(prompt) ==> Guard(prompt, s.connection) == Proceed
  {
  }

  /**
   * After a submit goes through, the button stays disabled through any run
   * of socket events until one of them is an assistant message or an error.
   */
  lemma {:induction false} DisabledUntilReleased(s: State, prompt: string, now: int, es: seq<Event>)
    requires Guard(prompt, s.connection) == Proceed
    requires forall i :: 0 <= i < |es| ==> !Releases(es[i])
    ensures SubmitDisabled(Replay(Submit(s, prompt, now), es).isSubmitting, Replay(Submit(s, prompt, now), es).connection)
  {
    ReplayGate(Submit(s, prompt, now), es);
  }

  class RequestForm {
    /** The provider this component reads through `useWebSocket()`. */
    const ctx: WebSocketProvider
    var prompt: string
    /** Submits whose `await sendUserMessage(...)` has not resumed yet. */
    ghost var awaiting: nat

    /** Each awaited submit is one of the provider's pending /process calls. */
    ghost predicate Valid()
      reads this, ctx
    {
      awaiting <= ctx.pendingFetches
    }

    constructor (ctx: WebSocketProvider)
      ensures this.ctx == ctx && prompt == "" && awaiting == 0
      ensures Valid()
    {
      this.ctx := ctx;
      prompt := "";
      awaiting := 0;
    }

    /** The textarea's onChange. */
    method SetPrompt(text: string)
      modifies this
      ensures prompt == text && awaiting == old(awaiting)
    {
      prompt := text;
    }

    /**
     * `handleSubmit` up to its await: the guard chain, then
     * `sendUserMessage(prompt)`; the prompt is kept until the call settles.
     * Returns the verdict and the /process payload posted, if any.
     */
    method HandleSubmit(now: int) returns (verdict: Verdict, request: Option<ProcessRequestPayload>)
      requires Valid()
      modifies this, ctx
      ensures verdict == Guard(old(prompt), old(ctx.connectionState))
      ensures verdict == Proceed ==>
        && ctx.Snapshot() == Submit(old(ctx.Snapshot()), old(prompt), now)
        && request == Some(ProcessRequestPayload(ctx.clientId, Autogen, old(prompt)))
        && awaiting == old(awaiting) + 1
      ensures verdict != Proceed ==> ctx.Snapshot() == old(ctx.Snapshot()) && request.None? && awaiting == old(awaiting)
      ensures prompt == old(prompt) && Valid()
    {
      verdict := Guard(prompt, ctx.connectionState);
      if verdict != Proceed {
        return verdict, None;
      }
      request := ctx.SendUserMessage(prompt, now);
      awaiting := awaiting + 1;
    }

    /**
     * The rest of `handleSubmit` once the /process call replied or threw:
     * the provider settles the request and the prompt is cleared.
     */
    method SubmitResolved(outcome: ProcessOutcome, now: int)
      requires Valid() && awaiting > 0
      modifies this, ctx
      ensures ctx.Snapshot() == Settle(old(ctx.Snapshot()), outcome, now)
      ensures prompt == "" && awaiting == old(awaiting) - 1 && Valid()
    {
      ctx.SettleSend(outcome, now);
      prompt := "";
      awaiting := awaiting - 1;
    }

    /** `handleReset`: the provider's logs are emptied and the prompt cleared. */
    method HandleReset()
      modifies this, ctx
      ensures ctx.Snapshot() == Reset(old(ctx.Snapshot()))
      ensures prompt == "" && awaiting == old(awaiting)
      ensures ctx.pendingFetches == old(ctx.pendingFetches)
    {
      ctx.ResetConversation();
      prompt := "";
    }
  }
}
