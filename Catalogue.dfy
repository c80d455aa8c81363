/** The fixed agent library listed in the dashboard's left pane. */
module Catalogue {
  import opened Text

  datatype Status = Online | Offline

  datatype LibraryAgent = LibraryAgent(
    id: string,
    name: string,
    role: string,
    status: Status,
    updatedAt: string,
    tags: seq<string>)

  /** The three library entries, in display order. */
  const Agents: seq<LibraryAgent> := [
    LibraryAgent("a-1", "CX Orchestrator", "Support", Online, "2h ago", ["routing", "handoff"]),
    LibraryAgent("a-2", "Sales Qualifier", "Sales", Online, "1d ago", ["leads", "scoring"]),
    LibraryAgent("a-3", "Research Synthesizer", "Ops", Offline, "3d ago", ["web", "papers"])
  ]

  /** A position in the library: the page can only pick one of its entries. */
  type LibraryIndex = i: nat | i < |Agents|

  /** The description a library agent gives the draft when picked:
      its role, the words " agent for ", then its tags joined by ", ". */
  function Describe(a: LibraryAgent): string
  {
    a.role + " agent for " + Join(a.tags, ", ")
  }

  /** Every library agent has exactly two tags, so its description names both. */
  lemma DescribeCatalogue(i: nat)
    requires i < |Agents|
    ensures |Agents[i].tags| == 2
    ensures Describe(Agents[i]) == Agents[i].role + " agent for " + Agents[i].tags[0] + ", " + Agents[i].tags[1]
  {
  }

  /** The description picking library entry 0 produces. */
  lemma SupportDescription()
    ensures Describe(Agents[0]) == "Support agent for routing, handoff"
  {
    assert Join(Agents[0].tags, ", ") == "routing" + ", " + "handoff";
    assert "Support" + " agent for " == "Support agent for ";
    assert "routing" + ", " + "handoff" == "routing, handoff";
  }

  /** The description picking library entry 1 produces. */
  lemma SalesDescription()
    ensures Describe(Agents[1]) == "Sales agent for leads, scoring"
  {
    assert Join(Agents[1].tags, ", ") == "leads" + ", " + "scoring";
    assert "Sales" + " agent for " == "Sales agent for ";
    assert "leads" + ", " + "scoring" == "leads, scoring";
  }

  /** The description picking library entry 2 produces. */
  lemma OpsDescription()
    ensures Describe(Agents[2]) == "Ops agent for web, papers"
  {
    assert Join(Agents[2].tags, ", ") == "web" + ", " + "papers";
    assert "Ops" + " agent for " == "Ops agent for ";
    assert "web" + ", " + "papers" == "web, papers";
  }

  /** Identifiers are distinct, so the highlighted entry (`selectedAgentId === a.id`)
      is at most one agent. */
  lemma IdsDistinct(i: nat, j: nat)
    requires i < |Agents| && j < |Agents|
    ensures Agents[i].id == Agents[j].id <==> i == j
  {
  }
}
