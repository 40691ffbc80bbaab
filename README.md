# Agent collaboration flow — a verified Dafny model

This project models the session layer of the agent-collaboration-flow chat
system. The browser side, in TypeScript, has:

- the `WebSocketProvider` context, with its conversation logs, request flag
  and connection state;
- the pop-out chat hook `useWebSocketChat` and the per-agent `DirectAgentChat`
  pane;
- the submit guards of the request form and the chat input;
- the direct-agent picker;
- the formatter helpers and the shared message types.

The server side, in Python, has:

- the `WebSocketManager` connection table;
- `SessionState` and `SessionManager`;
- the `/process` and `/ws/{client_id}` handlers of `main.py`;
- the placeholder message-history agents.

The model follows each source file's form:

- State a handler changes in place is a Dafny `class` whose fields are that
  state. Each handler is a method proved to perform exactly a pure spec
  function on a snapshot datatype (`Step`, `Submit`, `Send`, `Connected`,
  `Personal`, …).
- What the code promises is proved as lemmas about those functions: append
  order, which frames release the request flag, no-op frames, one-shot
  reconnect, the absence of an attempt cap, and exact pruning of failed
  sends.
- Loops stay loops: broadcast's send pass and removal pass, session expiry,
  and the server's receive loop. Each carries its invariants.
- Await points are split into a begin method and a settle method, so that
  other events can interleave: `sendUserMessage`'s fetch, the request form's
  prompt clear, and `process_user_message`'s sleep. A ghost counter of
  outstanding awaits ties each begin to its settle.
- React ignores setState after unmount. The hook and the direct chat carry a
  `mounted` flag, and their handlers do nothing once it is false.

Facts about the provider's code that the model keeps:

- Reconnection retries on every close, with no attempt counter and no terminal state (`Context.NoAttemptCap`).
- The reconnect timer tests only `readyState`. It does not look at page visibility, and it has no guard against a connect already in progress.
- A toast is raised on each open, close and error, with no rate limit.
- A second `sendUserMessage` while one is in flight goes ahead (`Context.SecondSubmitNotRejected`).
- The inline error entry reads `"Error: " + message + ". Unable to retrieve response from Autogen."`.

Environment inputs are parameters of the handlers:

- the outcome of `JSON.parse` / `json.loads` (`Inbound`, `Server.Json`);
- whether a `send` threw and whether a fetch resolved (`ProcessOutcome`);
- clock readings and the generated uuid;
- whether the old socket is still CLOSED when a reconnect timer fires. It always is, because the timer tests the socket whose `onclose` armed it and a closed socket never reopens. The model keeps the test but does not rely on it.

## Model

| member | source | states |
|---|---|---|
| Types.ParseRole | src/types/index.ts:10-14 | a role spelling parses only to the role whose name it is |
| Types.RoleSpellings | src/types/index.ts:11 | exactly 'user' and 'assistant' parse as roles |
| Types.ParseAgentName | src/types/index.ts:16-20 | an agent-name spelling parses only to the name whose text it is |
| Types.ParseAgentId | src/types/index.ts:64-68 | an agent-id spelling parses only to the id whose text it is |
| Types.SpellingsRoundTrip | src/types/index.ts:10-68 | roles, trace agent names and direct-agent ids all round-trip through their spellings |
| Types.TypeTagDiscriminates | src/types/index.ts:57-61 | the frame union has four `type` tags, and two frames share a tag exactly when they are the same variant |
| Types.DirectTagOutsideUnion | src/types/index.ts:63-68 | 'direct_agent_message' is none of the four frame tags |
| Text.TrimStart | src/components/request-form.tsx:23 | JS `trim` start: removes a whitespace prefix exactly, and the result does not start with whitespace |
| Text.TrimEnd | src/components/request-form.tsx:23 | JS `trim` end: removes a whitespace suffix exactly, and the result does not end with whitespace |
| Text.TrimEmptyIffBlank | src/chatUI/components/ChatInput.tsx:22 | `!s.trim()` holds exactly when every character of s is JS whitespace |
| Text.LowerChar | src/lib/formatters.ts:13 | a lowercased character is never an ASCII capital |
| Text.ToLower | src/lib/formatters.ts:13 | `toLowerCase` keeps the length and lowercases each character |
| Text.ToLowerIdempotent | src/lib/formatters.ts:13 | lowercasing twice is lowercasing once |
| Formatters.SliceEnd | src/lib/formatters.ts:9 | the end index `slice(0, maxLength)` uses: never past the length, and exactly maxLength when that is in range |
| Formatters.TruncateText | src/lib/formatters.ts:7-10 | text of length at most maxLength is returned unchanged; longer text becomes its prefix followed by '...' |
| Formatters.TruncateBounded | src/lib/formatters.ts:7-10 | for maxLength ≥ 0 the result is the text itself or exactly maxLength+3 long |
| Formatters.TruncateStable | src/lib/formatters.ts:7-10 | truncating a truncated text again at maxLength+3 changes nothing |
| Formatters.AgentNameToColor | src/lib/formatters.ts:12-25 | each badge class is returned exactly when the lowercased name is one of its spellings; the grey default exactly for every other name |
| Formatters.AgentNameToClass | src/lib/formatters.ts:27-40 | same name sets as the badge switch, with '' for unknown names |
| Formatters.ColorAndClassAgree | src/lib/formatters.ts:12-40 | a non-default badge exactly when a non-empty class, and the task-manager outcomes coincide |
| Formatters.CaseInsensitive | src/lib/formatters.ts:13 | a name and its lowercase get the same badge and the same class |
| Context.LoadClientId | src/contexts/WebSocketContext.tsx:44-52 | a stored id is returned with storage unchanged; otherwise the generated id is returned and stored under 'clientId'; other keys are untouched |
| Context.ClientIdStable | src/contexts/WebSocketContext.tsx:44-52 | after a first load, a second load returns the same id and the same storage |
| Context.Connect | src/contexts/WebSocketContext.tsx:158-169 | a successful constructor opens one more socket and keeps the whole connection state; a throwing one sets connectionError to 'Failed to connect to server' and keeps isConnected and autogenConnected; no log, flag or pending timer is touched |
| Context.ErrorEntry | src/contexts/WebSocketContext.tsx:143-147 | an inline error line is an assistant entry stamped with the current time |
| Context.Step | src/contexts/WebSocketContext.tsx:70-156 | every event appends to the three logs exactly its own entries, and the flag stays raised only if the event does not release it |
| Context.ReplayLogs | src/contexts/WebSocketContext.tsx:108-136 | over any event run, each log is its old contents followed by that run's entries in receipt order |
| Context.ReplayGate | src/contexts/WebSocketContext.tsx:132-140 | after any run the flag is raised exactly when it was raised before and no event of the run released it |
| Context.ReplayAppend | src/contexts/WebSocketContext.tsx:70-156 | replaying two runs one after the other is replaying their concatenation |
| Context.NoAttemptCap | src/contexts/WebSocketContext.tsx:79-92 | k close-then-timer cycles on a closed socket open exactly k new sockets, with no ceiling |
| Context.ConnectionEvents | src/contexts/WebSocketContext.tsx:70-101 | open connects and clears the error; error sets it and leaves isConnected; close disconnects, keeps the error and schedules one timer |
| Context.ReconnectOnlyWhenClosed | src/contexts/WebSocketContext.tsx:87-91 | a timer whose readyState test fails only retires itself; the test cannot fail in a real run, since a closed socket stays closed |
| Context.IgnoredFrames | src/contexts/WebSocketContext.tsx:150-155 | unknown types, direct-agent frames and unparsable payloads change nothing |
| Context.Submit | src/contexts/WebSocketContext.tsx:185-207 | disconnected: no change; connected: the flag is raised and exactly one user entry with the prompt is appended after the kept log, before the request; the connection and the other logs are untouched |
| Context.SubmitThenSettle | src/contexts/WebSocketContext.tsx:186-241 | an error reply or a throwing fetch keeps the echo, appends exactly one assistant error entry and lowers the flag; a success leaves the flag to the socket |
| Context.SecondSubmitNotRejected | src/contexts/WebSocketContext.tsx:185-200 | a second call while the first is in flight is not refused: both prompts are echoed in call order |
| Context.Reset | src/contexts/WebSocketContext.tsx:268-272 | all three logs emptied; connection state, flag and socket bookkeeping untouched |
| Context.StatusChecked | src/contexts/WebSocketContext.tsx:245-264 | a status reply sets autogenConnected to the reply's autogen_installed and keeps isConnected, connectionError, the logs and the flag; an unreachable server writes nothing |
| Context.ResetForgetsHistory | src/contexts/WebSocketContext.tsx:268-272 | after a reset, each log holds exactly the entries of the events that followed it |
| Context.ReplayKeepsAutogen | src/contexts/WebSocketContext.tsx:70-169 | no socket event changes autogenConnected |
| Context.ProbeDecidesAutogen | src/contexts/WebSocketContext.tsx:245-264 | whatever socket events follow a probe, autogenConnected is what the probe reported, or unchanged if the probe failed |
| Context.WebSocketProvider.constructor | src/contexts/WebSocketContext.tsx:44-63 | id loaded or generated as LoadClientId says, empty state, then the mount effect's first connect |
| Context.WebSocketProvider.HandleOpen | src/contexts/WebSocketContext.tsx:70-77 | the new state is Step on OnOpen |
| Context.WebSocketProvider.HandleClose | src/contexts/WebSocketContext.tsx:79-92 | the new state is Step on OnClose |
| Context.WebSocketProvider.HandleError | src/contexts/WebSocketContext.tsx:94-101 | the new state is Step on OnError |
| Context.WebSocketProvider.ReconnectTimerFired | src/contexts/WebSocketContext.tsx:87-91 | the new state is Step on the timer event: reconnect only if the socket is still CLOSED |
| Context.WebSocketProvider.HandleMessage | src/contexts/WebSocketContext.tsx:103-156 | the new state is Step on the parsed frame |
| Context.WebSocketProvider.SendUserMessage | src/contexts/WebSocketContext.tsx:185-217 | the new state is Submit; the payload `{client_id, 'autogen', content}` is issued only when connected |
| Context.WebSocketProvider.SettleSend | src/contexts/WebSocketContext.tsx:217-241 | the new state is Settle on the fetch outcome |
| Context.WebSocketProvider.CheckSystemStatus | src/contexts/WebSocketContext.tsx:245-264 | the new state is StatusChecked; returns the reply, or the all-false error status |
| Context.WebSocketProvider.ResetConversation | src/contexts/WebSocketContext.tsx:268-272 | the new state is Reset |
| ChatHook.Receive | src/chatUI/hooks/useWebSocketChat.ts:50-71 | frames never touch the connection state or the socket bookkeeping |
| ChatHook.ReceiveAllSpec | src/chatUI/hooks/useWebSocketChat.ts:50-71 | over any frame run, messages gain exactly the user_message entries in order (nothing for error frames), and the flag stays raised unless an assistant or error frame arrived |
| ChatHook.IgnoredFrames | src/chatUI/hooks/useWebSocketChat.ts:50-70 | trace, internal-comm and other-type frames and parse failures change nothing |
| ChatHook.ConnectionEvents | src/chatUI/hooks/useWebSocketChat.ts:20-48 | open connects and clears the error, error sets it, close only disconnects |
| ChatHook.StepOneShot | src/chatUI/hooks/useWebSocketChat.ts:28-41 | every deliverable event preserves the one-shot reconnect invariant |
| ChatHook.AtMostOneReconnect | src/chatUI/hooks/useWebSocketChat.ts:28-41 | over any run from mount, at most one replacement socket is ever created |
| ChatHook.ReconnectOnce | src/chatUI/hooks/useWebSocketChat.ts:28-41 | close and then the timer create the one replacement and leave no timer pending |
| ChatHook.UnmountDoesNotCancelReconnect | src/chatUI/hooks/useWebSocketChat.ts:28-79 | a socket closed by cleanup still fires onclose, and its timer still builds a replacement, with no state change |
| ChatHook.Send | src/chatUI/hooks/useWebSocketChat.ts:83-113 | sending never touches connection state, socket, timer or mount |
| ChatHook.SendSpec | src/chatUI/hooks/useWebSocketChat.ts:84-112 | not OPEN: no change; OPEN: exactly the echo appended, and the flag ends raised unless send threw |
| ChatHook.WebSocketChat.constructor | src/chatUI/hooks/useWebSocketChat.ts:7-14 | initial state `{false, true, null}`, no messages, flag down, original socket connecting |
| ChatHook.WebSocketChat.HandleOpen | src/chatUI/hooks/useWebSocketChat.ts:20-26 | the new state is Step on OnOpen, invariant kept |
| ChatHook.WebSocketChat.HandleClose | src/chatUI/hooks/useWebSocketChat.ts:28-41 | the new state is Step on OnClose, invariant kept |
| ChatHook.WebSocketChat.HandleError | src/chatUI/hooks/useWebSocketChat.ts:43-48 | the new state is Step on OnError, invariant kept |
| ChatHook.WebSocketChat.HandleMessage | src/chatUI/hooks/useWebSocketChat.ts:50-71 | the new state is Step on the frame, invariant kept |
| ChatHook.WebSocketChat.ReconnectTimerFired | src/chatUI/hooks/useWebSocketChat.ts:35-40 | the new state is Step on the timer, invariant kept |
| ChatHook.WebSocketChat.Unmount | src/chatUI/hooks/useWebSocketChat.ts:75-79 | close is called exactly when the socket was OPEN or CONNECTING |
| ChatHook.WebSocketChat.SendMessage | src/chatUI/hooks/useWebSocketChat.ts:83-113 | the new state is Send; `{user_message, content, timestamp}` is handed to send only on an OPEN socket |
| DirectChat.Receive | src/components/direct-agent-chat.tsx:50-68 | frames never change input, isConnected or mount |
| DirectChat.ReceiveAllSpec | src/components/direct-agent-chat.tsx:50-68 | over any frame run, messages gain exactly the agent replies in order; loading stays on only if no reply or error arrived |
| DirectChat.IgnoredFrames | src/components/direct-agent-chat.tsx:50-67 | any frame other than a reply or an error changes nothing |
| DirectChat.ConnectionEvents | src/components/direct-agent-chat.tsx:36-48 | open sets isConnected, close clears it, error changes nothing |
| DirectChat.AfterCleanupNothingChanges | src/components/direct-agent-chat.tsx:72-74 | after cleanup no sequence of later events changes the pane state |
| DirectChat.BlankNeverSent | src/components/direct-agent-chat.tsx:85 | a whitespace-only input is never sent and changes nothing |
| DirectChat.SendThenReply | src/components/direct-agent-chat.tsx:84-113 | a send and then the reply leave the user line and then the reply, an empty box, and loading off |
| DirectChat.DisabledStatesGuardLoading | src/components/direct-agent-chat.tsx:164-174 | the button is enabled exactly when the send guards pass and nothing is loading; handleSend by itself would still send while loading |
| DirectChat.SendDisablesControls | src/components/direct-agent-chat.tsx:164-174 | after a send, both the textarea and the button are disabled |
| DirectChat.DirectAgentChat.constructor | src/components/direct-agent-chat.tsx:25-28 | empty messages and input, disconnected, not loading |
| DirectChat.DirectAgentChat.SetInput | src/components/direct-agent-chat.tsx:161 | the box takes the typed text (while mounted) |
| DirectChat.DirectAgentChat.Handle | src/components/direct-agent-chat.tsx:36-74 | the new state is Step on the event; `ws.close()` is called exactly on the cleanup of a mounted pane, with no readyState test |
| DirectChat.DirectAgentChat.HandleSend | src/components/direct-agent-chat.tsx:84-113 | the new state is Send; the untrimmed `{direct_agent_message, agent_id, input}` goes out only when not blank and connected |
| DirectChat.DirectAgentChat.HandleKeyDown | src/components/direct-agent-chat.tsx:165-170 | Enter without Shift is prevented and performs handleSend; any other key changes nothing |
| Form.Guard | src/components/request-form.tsx:20-36 | exactly one verdict, in source order: blank prompt, then disconnected, then autogen unavailable, else proceed |
| Form.ButtonIsTheOnlyBusyGuard | src/components/request-form.tsx:95-103 | handleSubmit ignores isSubmitting: only the disabled button stands between a busy form and a second submit |
| Form.DisabledUntilReleased | src/components/request-form.tsx:103 | after a submit, the button stays disabled through any run of events that release nothing |
| Form.RequestForm.constructor | src/components/request-form.tsx:18 | empty prompt, nothing awaited |
| Form.RequestForm.SetPrompt | src/components/request-form.tsx:92 | the prompt takes the typed text |
| Form.RequestForm.HandleSubmit | src/components/request-form.tsx:20-39 | verdict is Guard; only Proceed calls sendUserMessage, and the prompt is not cleared yet |
| Form.RequestForm.SubmitResolved | src/components/request-form.tsx:38-44 | when sendUserMessage settles, the context settles and the prompt is cleared |
| Form.RequestForm.HandleReset | src/components/request-form.tsx:47-51 | the context is Reset and the prompt cleared |
| Input.GuardMatchesButton | src/chatUI/components/ChatInput.tsx:22-52 | submit proceeds exactly when the message is not blank, not submitting and connected, which is exactly when the button is enabled |
| Input.SecondSendRefused | src/chatUI/components/ChatInput.tsx:22 | once the hook's send raised its flag, a second submit is refused through any run of frames that contains no assistant message and no error |
| Input.ChatInput.constructor | src/chatUI/components/ChatInput.tsx:18 | empty message, nothing awaited |
| Input.ChatInput.SetMessage | src/chatUI/components/ChatInput.tsx:43 | the box takes the typed text |
| Input.ChatInput.HandleSubmit | src/chatUI/components/ChatInput.tsx:20-25 | the untrimmed message is passed on exactly when the guard passes; the box is not cleared yet |
| Input.ChatInput.SendSettled | src/chatUI/components/ChatInput.tsx:24-29 | a resolved send clears the box; a rejected one keeps the text |
| Input.ChatInput.HandleKeyDown | src/chatUI/components/ChatInput.tsx:32-37 | Enter without Shift is prevented and submits; Shift+Enter and other keys do nothing |
| Selection.AgentsAreTheDirectAgents | src/components/agent-selection.tsx:22-44 | three cards whose ids are task_manager, research and creative, all distinct |
| Selection.CardColorsMatchFormatter | src/components/agent-selection.tsx:22-44 | each card's badge class is what agentNameToColor gives for its name |
| Selection.Find | src/components/agent-selection.tsx:95 | finds a card exactly when one has the id, and the card found has that id |
| Selection.NameOf | src/components/agent-selection.tsx:95 | '' exactly when no card has the id; otherwise the name of a card with that id |
| Selection.NamesOfTheAgents | src/components/agent-selection.tsx:22-44 | the three ids name 'Task Manager', 'Research' and 'Creative' |
| Selection.AgentSelection.constructor | src/components/agent-selection.tsx:19-20 | no active agent, card view |
| Selection.AgentSelection.Select | src/components/agent-selection.tsx:46-49 | moves to (id, chat); the pane shows exactly when the id is non-empty |
| Selection.AgentSelection.Close | src/components/agent-selection.tsx:51-54 | from any state moves to (null, cards), and no pane shows |
| Selection.AgentSelection.PaneName | src/components/agent-selection.tsx:92-95 | in the chat view with a non-empty id the pane is shown, and its name is '' exactly when no card has the id, else that card's name |
| WsManager.WebSocketManager.constructor | backend/services/websocket_manager.py:11-12 | the table starts empty |
| WsManager.WebSocketManager.Connect | backend/services/websocket_manager.py:14-18 | the new table is Connected: the entry is inserted or overwritten |
| WsManager.WebSocketManager.Disconnect | backend/services/websocket_manager.py:20-24 | the new table is Disconnected: that key only, a no-op when absent |
| WsManager.WebSocketManager.SendPersonalMessage | backend/services/websocket_manager.py:26-36 | the new table is Personal: sent, dropped after a failure, or unchanged when unregistered |
| WsManager.WebSocketManager.Broadcast | backend/services/websocket_manager.py:38-50 | the new table is Broadcasted; returns the failing clients in table order |
| WsManager.WebSocketManager.SendToAll | backend/services/websocket_manager.py:40-46 | one write per registered client in table order, failures collected, the table unchanged |
| WsManager.WebSocketManager.DisconnectAll | backend/services/websocket_manager.py:48-50 | removes exactly the collected clients after the iteration |
| WsManager.ConnectDisconnect | backend/services/websocket_manager.py:14-24 | connect sets one key, disconnect removes one key, their composition removes it |
| WsManager.PersonalOutcomes | backend/services/websocket_manager.py:26-36 | unregistered: no change; success: one delivery and the table unchanged; failure: exactly that client removed |
| WsManager.DeliveriesCount | backend/services/websocket_manager.py:41-43 | with no failures, the i-th write goes to the i-th registered client |
| WsManager.BroadcastAllSucceed | backend/services/websocket_manager.py:38-50 | a fully successful broadcast keeps the table and writes once to every client in order |
| WsManager.BroadcastRemovesExactlyTheFailing | backend/services/websocket_manager.py:38-50 | after a broadcast, the clients left are exactly those whose write did not fail, with their sockets |
| WsManager.ConnectedWellFormed | backend/services/websocket_manager.py:14-18 | connect keeps the table consistent (distinct order, same keys as the map) |
| WsManager.DisconnectedWellFormed | backend/services/websocket_manager.py:20-24 | disconnect keeps the table consistent |
| WsManager.PersonalWellFormed | backend/services/websocket_manager.py:26-36 | a personal send keeps the table consistent |
| WsManager.BroadcastedWellFormed | backend/services/websocket_manager.py:38-50 | a broadcast keeps the table consistent |
| Sessions.Mirror | backend/services/session_state.py:51-56 | the frame sent for a history entry is a user_message with its role, content and timestamp |
| Sessions.TraceAgent | backend/services/session_state.py:92-93 | task_manager gives TaskManager, research gives Research, every other id gives Creative |
| Sessions.DirectTrace | backend/services/session_state.py:90-95 | an agent_trace for that agent whose content is 'Received direct message: ' followed by the message |
| Sessions.DirectIdsMapToTraceAgents | backend/services/session_state.py:92-93 | each direct-agent id reaches its own trace agent, and a missing id reaches Creative |
| Sessions.ProcessWrites | backend/services/session_state.py:51-78 | both writes succeed: user then assistant frames to the client's socket; a failed first write drops the client, so the second is not written |
| Sessions.SessionState.constructor | backend/services/session_state.py:14-23 | empty history, no agents, no manager, activity time now |
| Sessions.SessionState.SetWebSocketManager | backend/services/session_state.py:25-27 | only the manager reference changes |
| Sessions.SessionState.BeginUserMessage | backend/services/session_state.py:34-60 | activity time set; without a manager nothing else; with one, the user entry recorded and sent before the sleep |
| Sessions.SessionState.FinishUserMessage | backend/services/session_state.py:60-78 | after the sleep, the placeholder answer recorded and sent |
| Sessions.SessionState.ProcessUserMessage | backend/services/session_state.py:34-78 | without a manager the history is unchanged; with one, exactly user then assistant entries, each sent as its mirror frame |
| Sessions.SessionState.SendDirectAgentMessage | backend/services/session_state.py:80-96 | activity time set, history never changed, one trace frame sent when there is a manager |
| Sessions.SessionManager.constructor | backend/services/session_state.py:99-105 | no sessions; the interval is the one-hour session timeout |
| Sessions.SessionManager.GetOrCreateSession | backend/services/session_state.py:107-112 | a hit returns the same session with the map unchanged; a miss inserts exactly one fresh session for that key |
| Sessions.SessionManager.CleanupExpiredSessions | backend/services/session_state.py:114-125 | removes exactly the sessions idle for strictly longer than the interval, keeps every other unchanged |
| Agents.SystemPrompt | backend/agents/research_agent.py:19-29 | the system prompt opens with 'You are the ' and the agent's name (same shape in all three agent files) |
| Agents.Response | backend/agents/creative_agent.py:38 | the answer starts with the agent's name and ends with the closing quote (same shape in all three agent files) |
| Agents.QuotedResponse | backend/agents/creative_agent.py:38 | the message can be read back out of the answer |
| Agents.ResponseInjective | backend/agents/task_manager_agent.py:38 | distinct messages get distinct answers |
| Agents.PromptAndAnswerNameTheAgent | backend/agents/research_agent.py:14-38 | the system prompt and every answer name the agent |
| Agents.KindsDistinct | backend/agents/creative_agent.py:14-18 | the three agents have distinct ids and names |
| Agents.Agent.Base | backend/agents/base_agent.py:11-15 | stores id and name, empty history |
| Agents.Agent.Specialised | backend/agents/task_manager_agent.py:14-29 | a subclass's fixed id and name, and the system prompt as the only entry |
| Agents.Agent.AddMessage | backend/agents/base_agent.py:30-38 | exactly one entry appended, earlier ones unchanged |
| Agents.Agent.ProcessMessage | backend/agents/task_manager_agent.py:31-43 | base kind: NotImplementedError and no change; subclass: user then assistant appended, and the answer is the last entry |
| Server.ProcessReply | backend/main.py:63-89 | for string fields, success exactly when client_id and prompt are present and non-empty, with session_id = client_id; otherwise an error status carrying the caught 400 text |
| Server.FormRequestsAccepted | backend/main.py:70 | any prompt the request form lets through passes the server check |
| Server.WhitespacePromptAccepted | backend/main.py:70-71 | a whitespace-only prompt passes the server check although the form refuses it |
| Server.FirstStop | backend/main.py:103-113 | the loop ends at the first disconnect or non-object frame, or at the end of the input |
| Server.OnlyDirectFramesDispatched | backend/main.py:106-111 | frames of any other type dispatch nothing and send nothing |
| Server.StaysRegistered | backend/main.py:103-111 | while every reply write succeeds, the client stays registered |
| Server.CrashKeepsStaleEntry | backend/main.py:105-116 | a non-object frame ends the handler without its disconnect branch, leaving the client's entry in the table |
| Server.Backend.constructor | backend/main.py:38-39 | the two singletons, empty |
| Server.Backend.ProcessRequest | backend/main.py:63-89 | reply is ProcessReply; a bad request changes nothing; a good one gets or creates the session and runs process_user_message on it, and the session's activity time becomes the request time; a miss inserts exactly one fresh session with no manager, a hit keeps the map and the session's manager, and every other session is left untouched |
| Server.Backend.WebSocketEndpoint | backend/main.py:91-116 | connect, session and manager link, frames served up to the stop; disconnect removes the client, a crash or open end leaves it; the session's activity time is that of the last direct-agent frame served, else its creation or earlier value; a new session is the one key added, with an empty history, and every other session is left untouched |
| Server.ServeFrames | backend/main.py:103-113 | dispatches exactly the direct-agent frames before the stop, in order, each writing its trace frame and stamping the activity time; JSON errors are skipped |
| Server.OnlyDirectFramesRefresh | backend/main.py:106-111 | only direct-agent frames, which reach `send_direct_agent_message` and its stamp at backend/services/session_state.py:80-82, refresh the activity time: with none it is unchanged, otherwise it is the arrival time of one of them |

## Left out

- Real I/O is not modelled: sockets, `fetch`, `localStorage`, `uuidv4`, toasts and logging. Their outcomes are handler parameters; toasts and log lines have no state effect.
- Timers are not modelled as time. The 3000 ms reconnect timers and `asyncio.sleep(1)` are explicit "fired" events; `ReconnectDelayMs` only records the constant.
- `formatTimestamp` depends on the locale and on `Date`.
- Excluded as framework plumbing: the `/health` and `/status` handlers, `check_status`'s import and environment probing, CORS and uvicorn setup, and `config.py` (only `SESSION_TIMEOUT = 3600` is kept).
- Status polling in `system-status.tsx` and the rendering-only components are not modelled.
- The agent channel end to end: the clients open `/ws/{id}/agent/{agent}`, which the server does not define. Client and server are therefore not composed for that channel.
- Concurrency between requests during `process_user_message`'s sleep is not modelled at the server level. `BeginUserMessage` and `FinishUserMessage` allow it on a single session, but `Server.Backend.ProcessRequest` runs it to completion.
- In `broadcast`, a dictionary changed during its own iteration by a concurrent coroutine is not modelled.
- Overlapping socket handlers are not modelled. `Server.Backend.WebSocketEndpoint` runs a whole connection's lifetime as one call, so two live sockets under one `client_id` cannot be expressed. That happens with a second tab sharing the stored id, or a reconnect that lands before the old handler's disconnect. In the source, the old handler's late `disconnect(client_id)` then removes the newer socket's entry from the table.
- `cleanup_expired_sessions`'s deletion order survives only in log lines, so the expired ids are returned as a set.
- `SessionState.init_agents` is an empty stub. `created_at` and `config` are never read.
- `process_message`'s `context` argument is ignored by every agent and has no parameter here.
- On the clients, frames whose fields have other values or types than `WebSocketMessage` declares are not modelled. Examples are a `user_message` with a role other than `user` or `assistant`, or with no role. The source casts without checking, so it would append such a frame and leave `isSubmitting` set. A frame whose `type` is one of the handled discriminators is always the matching variant, never `OtherType`.
- JSON values of non-string types in `client_id`, `prompt`, `agent_id`, `content` or `type` are not modelled; the server model treats these fields as optional strings. This drops two behaviours of `process_request`, whose body is an untyped `Dict[str, Any]` (backend/main.py:64). A truthy unhashable `client_id`, such as a list or an object, makes `get_or_create_session` raise `TypeError`, which the handler's `except Exception` turns into status 'error' with "Error processing request: unhashable type: …". A truthy non-string hashable `client_id`, such as `5`, creates a session under a key that the string `client_id` of `/ws/{client_id}` never matches.
- `Server.ProcessReply`: success exactly when both fields are present and non-empty holds for string fields only; the `TypeError` reply for an unhashable `client_id` described above is not modelled.
- `Text.ToLower`: exact on ASCII letters and on the Kelvin sign only. Its purpose is to decide whether a lowercased name equals an ASCII literal, and on that it agrees with `toLowerCase`.
- `Formatters.TruncateText`: `maxLength` is an integer, not a float. Length and slicing count code points, not UTF-16 code units as `text.length` and `slice` do. So text outside the Basic Multilingual Plane truncates differently: for `truncateText("😀😀", 2)` the source sees length 4 and slices through a surrogate pair, while the model returns the text unchanged.
- React closures that capture stale state, and StrictMode's double mount, are not modelled. Handlers see the current fields.
- The hook's effect re-runs when `clientId` or `agentId` changes (useWebSocketChat.ts:80). It closes the old socket and opens a new one for the new pair. Only one mount with fixed props is modelled; a change of props would have to be an unmount followed by a fresh `ChatHook.WebSocketChat`.
- `Server.ProcessReply`'s failure text assumes Starlette's `HTTPException.__str__` renders as `"<status_code>: <detail>"`. That method is not part of this model.
- `ChatWindow.tsx` derives its own client id and passes an argument the hook ignores. It is not part of this model.
