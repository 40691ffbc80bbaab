/**
 * The pure display helpers of src/lib/formatters.ts: shortening a text with an
 * ellipsis and mapping an agent name to its badge and its CSS class.
 */
module Formatters {
  import opened Text

  const Ellipsis := "..."

  /**
   * Where `text.slice(0, maxLength)` stops: a negative end counts back from the
   * end of the text, and the result is clamped to the text.
   */
  function SliceEnd(len: nat, maxLength: int): (e: nat)
    ensures e <= len
    ensures 0 <= maxLength <= len ==> e == maxLength
  {
    if maxLength >= 0 then (if maxLength <= len then maxLength else len)
    else if len + maxLength >= 0 then len + maxLength
    else 0
  }

  /**
   * `truncateText`: the text itself when it fits in `maxLength` characters,
   * otherwise its first characters followed by an ellipsis.
   */
  function TruncateText(text: string, maxLength: int): (r: string)
    ensures |text| <= maxLength ==> r == text
    ensures |text| > maxLength ==> |r| == SliceEnd(|text|, maxLength) + 3
    ensures |text| > maxLength ==> r[..|r| - 3] == text[..|r| - 3] && r[|r| - 3..] == Ellipsis
  {
    if |text| <= maxLength then text
    else text[..SliceEnd(|text|, maxLength)] + Ellipsis
  }

  /** With a non-negative bound the result never exceeds the bound by more than the ellipsis. */
  lemma TruncateBounded(text: string, maxLength: nat)
    ensures |TruncateText(text, maxLength)| <= maxLength + 3
    ensures |TruncateText(text, maxLength)| == if |text| <= maxLength then |text| else maxLength + 3
  {
  }

  /** Truncating the result again to a bound it already fits leaves it alone. */
  lemma TruncateStable(text: string, maxLength: nat)
    ensures TruncateText(TruncateText(text, maxLength), maxLength + 3) == TruncateText(text, maxLength)
  {
  }

  /** The lowercased spellings the two switches treat as the Task Manager. */
  const TaskManagerSpellings: set<string> := {"taskmanager", "task_manager", "task manager"}

  /** Every lowercased name the two switches recognise. */
  const KnownNames: set<string> := TaskManagerSpellings + {"research", "creative"}

  const DefaultBadge := "bg-gray-100 text-gray-800"

  /** `agentNameToColor`: badge classes chosen on the lowercased name. */
  function AgentNameToColor(agent: string): (r: string)
    ensures r == "agent-badge-task-manager" <==> ToLower(agent) in TaskManagerSpellings
    ensures r == "agent-badge-research" <==> ToLower(agent) == "research"
    ensures r == "agent-badge-creative" <==> ToLower(agent) == "creative"
    ensures r == DefaultBadge <==> ToLower(agent) !in KnownNames
  {
    match ToLower(agent)
    case "taskmanager" => "agent-badge-task-manager"
    case "task_manager" => "agent-badge-task-manager"
    case "task manager" => "agent-badge-task-manager"
    case "research" => "agent-badge-research"
    case "creative" => "agent-badge-creative"
    case _ => DefaultBadge
  }

  /** `agentNameToClass`: agent classes chosen on the lowercased name, '' otherwise. */
  function AgentNameToClass(agent: string): (r: string)
    ensures r == "agent-task-manager" <==> ToLower(agent) in TaskManagerSpellings
    ensures r == "agent-research" <==> ToLower(agent) == "research"
    ensures r == "agent-creative" <==> ToLower(agent) == "creative"
    ensures r == "" <==> ToLower(agent) !in KnownNames
  {
    match ToLower(agent)
    case "taskmanager" => "agent-task-manager"
    case "task_manager" => "agent-task-manager"
    case "task manager" => "agent-task-manager"
    case "research" => "agent-research"
    case "creative" => "agent-creative"
    case _ => ""
  }

  /** The two switches recognise the same names: a real badge exactly when a non-empty class. */
  lemma ColorAndClassAgree(agent: string)
    ensures AgentNameToColor(agent) != DefaultBadge <==> AgentNameToClass(agent) != ""
    ensures AgentNameToColor(agent) == "agent-badge-task-manager" <==> AgentNameToClass(agent) == "agent-task-manager"
  {
  }

  /** Matching ignores case: an already lowercased name gets the same badge and class. */
  lemma CaseInsensitive(agent: string)
    ensures AgentNameToColor(ToLower(agent)) == AgentNameToColor(agent)
    ensures AgentNameToClass(ToLower(agent)) == AgentNameToClass(agent)
  {
    ToLowerIdempotent(agent);
  }
}
