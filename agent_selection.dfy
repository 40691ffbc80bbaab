/**
 * The direct-agent picker of src/components/agent-selection.tsx: the fixed
 * list of three agent cards, the (`activeAgent`, `view`) state the cards
 * and the chat pane's close button change, and what the pane is given.
 */
module Selection {
  import opened Types
  import Formatters
  import Text

  datatype AgentCard = AgentCard(id: string, name: string, color: string)

  /** The `agents` array, in display order. */
  const Agents: seq<AgentCard> := [
    AgentCard("task_manager", "Task Manager", "agent-badge-task-manager"),
    AgentCard("research", "Research", "agent-badge-research"),
    AgentCard("creative", "Creative", "agent-badge-creative")
  ]

  /** The ids are the three direct-agent ids, in the order of the `AgentId` type, and no two cards share one. */
  lemma AgentsAreTheDirectAgents()
    ensures |Agents| == 3
    ensures Agents[0].id == AgentIdText(TaskManagerId)
    ensures Agents[1].id == AgentIdText(ResearchId)
    ensures Agents[2].id == AgentIdText(CreativeId)
    ensures forall i, j :: 0 <= i < j < |Agents| ==> Agents[i].id != Agents[j].id
  {
    assert "task_manager" != "research" && "task_manager" != "creative" && "research" != "creative";
  }

  /** Lowercasing a literal, one character at a time. */
  lemma LowersTo(s: string, t: string)
    requires |s| == |t| && forall i :: 0 <= i < |s| ==> Text.LowerChar(s[i]) == t[i]
    ensures Text.ToLower(s) == t
  {
  }

  lemma TaskManagerBadge()
    ensures Formatters.AgentNameToColor("Task Manager") == "agent-badge-task-manager"
  {
    LowersTo("Task Manager", "task manager");
  }

  lemma ResearchBadge()
    ensures Formatters.AgentNameToColor("Research") == "agent-badge-research"
  {
    LowersTo("Research", "research");
  }

  lemma CreativeBadge()
    ensures Formatters.AgentNameToColor("Creative") == "agent-badge-creative"
  {
    LowersTo("Creative", "creative");
  }

  /** A card's badge class is also what the formatter gives for its name. */
  lemma CardColorsMatchFormatter()
    ensures Formatters.AgentNameToColor(Agents[0].name) == Agents[0].color
    ensures Formatters.AgentNameToColor(Agents[1].name) == Agents[1].color
    ensures Formatters.AgentNameToColor(Agents[2].name) == Agents[2].color
  {
    TaskManagerBadge();
    ResearchBadge();
    CreativeBadge();
  }

  /** `agents.find(a => a.id === id)`: the first card with that id. */
  function Find(cards: seq<AgentCard>, id: string): (r: Option<AgentCard>)
    ensures r.Some? <==> exists i :: 0 <= i < |cards| && cards[i].id == id
    ensures r.Some? ==> r.value in cards && r.value.id == id
    ensures r.Some? ==> exists i :: 0 <= i < |cards| && cards[i] == r.value && forall j :: 0 <= j < i ==> cards[j].id != id
  {
    if cards == [] then None
    else if cards[0].id == id then Some(cards[0])
    else
      var rest := Find(cards[1..], id);
      assert forall i :: 1 <= i < |cards| ==> cards[i] == cards[1..][i - 1];
      assert rest.Some? ==> exists i :: 0 <= i < |cards| && cards[i] == rest.value && forall j :: 0 <= j < i ==> cards[j].id != id by {
        if rest.Some? {
          var k :| 0 <= k < |cards| - 1 && cards[1..][k] == rest.value && forall j :: 0 <= j < k ==> cards[1..][j].id != id;
          assert cards[k + 1] == rest.value;
          assert forall j :: 0 <= j < k + 1 ==> cards[j].id != id;
        }
      }
      rest
  }

  /** `agents.find(...)?.name || ''`: the matching card's name, or '' when none matches. */
  function NameOf(id: string): (name: string)
    ensures name == "" <==> forall i :: 0 <= i < |Agents| ==> Agents[i].id != id
    ensures name != "" ==> exists i :: 0 <= i < |Agents| && Agents[i].id == id && Agents[i].name == name
  {
    match Find(Agents, id)
    case None => ""
    case Some(card) => card.name
  }

  lemma NamesOfTheAgents()
    ensures NameOf("task_manager") == "Task Manager"
    ensures NameOf("research") == "Research"
    ensures NameOf("creative") == "Creative"
  {
    assert Agents[0].id == "task_manager";
  }

  datatype View = Cards | Chat

  /** The chat pane is rendered when the view is 'chat' and `activeAgent` is truthy. */
  predicate ShowsChat(activeAgent: Option<string>, view: View)
  {
    view == Chat && activeAgent.Some? && activeAgent.value != ""
  }

  class AgentSelection {
    var activeAgent: Option<string>
    var view: View

    /** Cards are shown exactly when no agent is selected. */
    ghost predicate Valid()
      reads this
    {
      view == Chat <==> activeAgent.Some?
    }

    constructor ()
      ensures activeAgent.None? && view == Cards && Valid()
    {
      activeAgent := None;
      view := Cards;
    }

    /** `handleAgentSelect(agentId)` from a card's button. */
    method Select(agentId: string)
      modifies this
      ensures activeAgent == Some(agentId) && view == Chat && Valid()
      ensures ShowsChat(activeAgent, view) <==> agentId != ""
    {
      activeAgent := Some(agentId);
      view := Chat;
    }

    /** `handleClose` from the chat pane. */
    method Close()
      modifies this
      ensures activeAgent.None? && view == Cards && Valid()
      ensures !ShowsChat(activeAgent, view)
    {
      activeAgent := None;
      view := Cards;
    }

    /**
     * The name passed to the chat pane, which is rendered in the chat view
     * for a non-empty active id. The view and the selection move together,
     * so the chat view always has an active agent.
     */
    method PaneName() returns (name: string)
      requires Valid() && view == Chat && activeAgent.value != ""
      ensures ShowsChat(activeAgent, view)
      ensures name == "" <==> forall i :: 0 <= i < |Agents| ==> Agents[i].id != activeAgent.value
      ensures name != "" ==> exists i :: 0 <= i < |Agents| && Agents[i].id == activeAgent.value && Agents[i].name == name
    {
      name := NameOf(activeAgent.value);
    }
  }
}
