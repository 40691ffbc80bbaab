/**
 * The message-history agents of backend/agents/: `BaseAgent` and its three
 * subclasses. Each agent keeps an append-only `messages` list of role and
 * content pairs; the subclasses seed it with a system prompt and answer
 * `process_message` with a fixed placeholder that quotes the message. The
 * class hierarchy is one class with a `kind`; the base kind's
 * `process_message` raises NotImplementedError, modelled as an error result.
 */
module Agents {

  datatype AgentMessage = AgentMessage(role: string, content: string)

  /** Which class the agent is an instance of. */
  datatype Kind = BaseKind | TaskManagerKind | ResearchKind | CreativeKind

  /** What `process_message` returns, or that it raised NotImplementedError. */
  datatype Reply = Answer(text: string) | NotImplemented

  const NotImplementedText := "Subclasses must implement this method"

  function AgentIdOf(k: Kind): string
    requires k != BaseKind
  {
    match k
    case TaskManagerKind => "task_manager"
    case ResearchKind => "research"
    case CreativeKind => "creative"
  }

  function NameOf(k: Kind): string
    requires k != BaseKind
  {
    match k
    case TaskManagerKind => "Task Manager"
    case ResearchKind => "Research Agent"
    case CreativeKind => "Creative Agent"
  }

  /** The numbered duties each system prompt lists, and its closing instruction. */
  const TaskManagerDuties := "1. Breaking down complex user requests into subtasks\n2. Assigning tasks to appropriate agents (Research Agent and Creative Agent)\n3. Coordinating the workflow between agents\n4. Synthesizing the final response based on input from other agents\n5. Ensuring the request is fully addressed\n"
  const TaskManagerClosing := "Always begin by analyzing the user's request and creating a plan."
  const ResearchDuties := "1. Gathering facts and information relevant to the user's request\n2. Verifying information provided by other agents\n3. Adding depth and context to creative content\n4. Suggesting relevant references or sources\n5. Thinking critically about problems and offering analytical insights\n"
  const ResearchClosing := "Focus on providing accurate, well-researched information."
  const CreativeDuties := "1. Generating creative ideas and content\n2. Suggesting novel approaches to problems\n3. Adding engaging elements to factual content\n4. Improving the style, tone, and presentation of content\n5. Thinking outside the box to address user requests\n"
  const CreativeClosing := "Focus on creativity, engagement, and innovative thinking."

  function Duties(k: Kind): string
    requires k != BaseKind
  {
    match k
    case TaskManagerKind => TaskManagerDuties
    case ResearchKind => ResearchDuties
    case CreativeKind => CreativeDuties
  }

  function Closing(k: Kind): string
    requires k != BaseKind
  {
    match k
    case TaskManagerKind => TaskManagerClosing
    case ResearchKind => ResearchClosing
    case CreativeKind => CreativeClosing
  }

  const PromptOpening := "\nYou are the "
  const PromptIntroTail := " in a multi-agent system. Your responsibilities include:\n"
  /** The newline and indentation before the closing triple quotes. */
  const PromptEnd := "\n        "

  /**
   * The triple-quoted system prompt, character for character: a leading
   * newline, the introduction, the duties, a blank line, the closing line,
   * and the newline and eight spaces before the closing quotes.
   */
  function SystemPrompt(k: Kind): (p: string)
    requires k != BaseKind
    ensures |p| > |PromptOpening| + |NameOf(k)|
    ensures p[..|PromptOpening| + |NameOf(k)|] == PromptOpening + NameOf(k)
  {
    var intro := PromptOpening + NameOf(k);
    var rest := PromptIntroTail + Duties(k) + "\n" + Closing(k) + PromptEnd;
    assert (intro + rest)[..|intro|] == intro;
    intro + rest
  }

  /** The text between the agent's name and the quoted message in its reply. */
  function Lead(k: Kind): string
    requires k != BaseKind
  {
    match k
    case TaskManagerKind => ": I'll help coordinate a response to: '"
    case ResearchKind => ": I've gathered this information about: '"
    case CreativeKind => ": Here's a creative approach to: '"
  }

  /** The placeholder answer: the agent's name, its lead-in, and the message in single quotes. */
  function Response(k: Kind, message: string): (r: string)
    requires k != BaseKind
    ensures |r| == |NameOf(k)| + |Lead(k)| + |message| + 1
    ensures r[..|NameOf(k)|] == NameOf(k) && r[|r| - 1] == '\''
  {
    var head := NameOf(k) + Lead(k);
    assert (head + message + "'")[..|NameOf(k)|] == head[..|NameOf(k)|];
    head + message + "'"
  }

  /** The message quoted in an answer: what lies between the lead-in and the closing quote. */
  function Quoted(k: Kind, r: string): string
    requires k != BaseKind && |r| >= |NameOf(k)| + |Lead(k)| + 1
  {
    r[|NameOf(k)| + |Lead(k)|..|r| - 1]
  }

  /** The answer quotes the message verbatim: it can be read back out, so distinct messages get distinct answers. */
  lemma QuotedResponse(k: Kind, message: string)
    requires k != BaseKind
    ensures Quoted(k, Response(k, message)) == message
  {
    var head := NameOf(k) + Lead(k);
    assert Response(k, message) == head + message + "'";
    assert (head + message + "'")[|head|..|head| + |message|] == message;
  }

  lemma ResponseInjective(k: Kind, m1: string, m2: string)
    requires k != BaseKind && Response(k, m1) == Response(k, m2)
    ensures m1 == m2
  {
    QuotedResponse(k, m1);
    QuotedResponse(k, m2);
  }

  class Agent {
    const kind: Kind
    const agentId: string
    const name: string
    var messages: seq<AgentMessage>

    /** `BaseAgent.__init__`: the two names, an empty history. */
    constructor Base(agentId: string, name: string)
      ensures kind == BaseKind && this.agentId == agentId && this.name == name && messages == []
    {
      kind := BaseKind;
      this.agentId := agentId;
      this.name := name;
      messages := [];
    }

    /** A subclass `__init__`: the base initialiser, then the system prompt as the only entry. */
    constructor Specialised(k: Kind)
      requires k != BaseKind
      ensures kind == k && agentId == AgentIdOf(k) && name == NameOf(k)
      ensures messages == [AgentMessage("system", SystemPrompt(k))]
    {
      kind := k;
      agentId := AgentIdOf(k);
      name := NameOf(k);
      messages := [];
      new;
      var prompt := SystemPrompt(k);
      AddMessage("system", prompt);
    }

    /** `add_message`: one entry at the end, earlier ones untouched. */
    method AddMessage(role: string, content: string)
      modifies this
      ensures messages == old(messages) + [AgentMessage(role, content)]
      ensures |messages| == |old(messages)| + 1 && messages[..|old(messages)|] == old(messages)
    {
      messages := messages + [AgentMessage(role, content)];
    }

    /**
     * `process_message` (the context argument is ignored by every agent): the
     * base class raises before touching the history; a subclass records the
     * message and its answer, in that order, and returns the answer.
     */
    method ProcessMessage(message: string) returns (reply: Reply)
      modifies this
      ensures kind == BaseKind ==> reply == NotImplemented && messages == old(messages)
      ensures kind != BaseKind ==>
        && reply == Answer(Response(kind, message))
        && messages == old(messages) + [AgentMessage("user", message), AgentMessage("assistant", reply.text)]
        && messages[|messages| - 1].content == reply.text
    {
      if kind == BaseKind {
        return NotImplemented;
      }
      AddMessage("user", message);
      var response := Response(kind, message);
      AddMessage("assistant", response);
      reply := Answer(response);
    }
  }

  /** The system prompt names the agent, and every answer starts with that name. */
  lemma PromptAndAnswerNameTheAgent(k: Kind, message: string)
    requires k != BaseKind
    ensures SystemPrompt(k)[|PromptOpening|..|PromptOpening| + |NameOf(k)|] == NameOf(k)
    ensures Response(k, message)[..|NameOf(k)|] == NameOf(k)
  {
    var p := SystemPrompt(k);
    assert p[..|PromptOpening| + |NameOf(k)|] == PromptOpening + NameOf(k);
    assert p[|PromptOpening|..|PromptOpening| + |NameOf(k)|] == (PromptOpening + NameOf(k))[|PromptOpening|..];
  }

  /** The three subclasses have distinct ids and names. */
  lemma KindsDistinct(a: Kind, b: Kind)
    requires a != BaseKind && b != BaseKind && a != b
    ensures AgentIdOf(a) != AgentIdOf(b) && NameOf(a) != NameOf(b)
  {
    assert "task_manager" != "research" && "task_manager" != "creative" && "research" != "creative";
    assert "Task Manager" != "Research Agent" && "Task Manager" != "Creative Agent" && "Research Agent" != "Creative Agent";
  }
}
