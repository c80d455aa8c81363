/** The dashboard component's state variables as the fields of one object, and
    its click and change handlers as methods that update them in place. Each
    handler is proved to leave the object in the state the matching function of
    AgentConsole describes, so the lemmas proved there about single steps and
    whole sessions apply to the page. */
module DashboardPage {
  import opened Text
  import opened Catalogue
  import opened AgentConsole

  class Dashboard {
    var agentName: string
    var agentDescription: string
    var knowledgeBase: string
    var chatMessage: string
    var chatHistory: seq<Entry>
    var agentCreated: bool
    var selectedAgentId: Option<string>

    /** The current values of the modelled state variables. */
    function Snapshot(): State
      reads this
    {
      State(agentName, agentDescription, knowledgeBase, chatMessage, chatHistory, agentCreated, selectedAgentId)
    }

    /** The transcript holds whole user/assistant pairs, and the highlighted
        agent, if any, is a library entry. */
    ghost predicate Valid()
      reads this
    {
      WellPaired(chatHistory) && HighlightInCatalogue(selectedAgentId)
    }

    /** The page as first rendered: every `useState` initial value. */
    constructor ()
      ensures Valid()
      ensures Snapshot() == Initial
    {
      agentName := [];
      agentDescription := [];
      knowledgeBase := [];
      chatMessage := [];
      chatHistory := [];
      agentCreated := false;
      selectedAgentId := None;
    }

    /** `handleCreateAgent`: refuses an empty name or description with the
        destructive notice; otherwise raises the created flag and announces it. */
    method CreateAgent() returns (notice: Notification)
      requires Valid()
      modifies this
      ensures Valid()
      ensures old(agentName) == [] || old(agentDescription) == [] ==>
        Snapshot() == old(Snapshot()) && notice == MissingInformation
      ensures old(agentName) != [] && old(agentDescription) != [] ==>
        Snapshot() == old(Snapshot()).(agentCreated := true) &&
        notice == Notification("Agent Created Successfully!", old(agentName) + " is ready for testing.", Default)
      ensures old(agentCreated) ==> agentCreated
      ensures Snapshot() == Step(old(Snapshot()), Create) && notice == HandleCreate(old(Snapshot())).notice
    {
      if agentName == [] || agentDescription == [] {
        notice := MissingInformation;
        return;
      }
      agentCreated := true;
      notice := CreatedNotice(agentName);
    }

    /** `handleSendMessage`: ignores input that trims to nothing; otherwise appends
        the input as typed and the canned reply, then clears the input. */
    method SendMessage()
      requires Valid()
      modifies this
      ensures Valid()
      ensures AllWhitespace(old(chatMessage)) ==> Snapshot() == old(Snapshot())
      ensures !AllWhitespace(old(chatMessage)) ==>
        chatHistory == old(chatHistory) + [Entry(User, old(chatMessage)),
                                           Entry(Assistant, Reply(old(agentName), old(agentDescription)))] &&
        chatMessage == [] &&
        Snapshot() == old(Snapshot()).(chatHistory := chatHistory, chatMessage := [])
      ensures Snapshot() == Step(old(Snapshot()), Send)
    {
      ghost var before := Snapshot();
      BlankIffAllWhitespace(chatMessage);
      StepKeepsPairs(before, Send);
      if IsBlank(chatMessage) {
        return;
      }
      chatHistory := chatHistory + [Entry(User, chatMessage), Entry(Assistant, Reply(agentName, agentDescription))];
      chatMessage := [];
    }

    /** The test console's reset button: empties the transcript. */
    method ClearHistory()
      requires Valid()
      modifies this
      ensures Valid()
      ensures chatHistory == []
      ensures Snapshot() == old(Snapshot()).(chatHistory := [])
      ensures Snapshot() == Step(old(Snapshot()), Reset)
    {
      chatHistory := [];
    }

    /** A library entry's click handler: highlights it and copies its name and its
        tag-joined description into the draft. */
    method PickLibraryAgent(i: LibraryIndex)
      requires Valid()
      modifies this
      ensures Valid()
      ensures selectedAgentId == Some(Agents[i].id) && agentName == Agents[i].name
      ensures agentDescription == Agents[i].role + " agent for " + Join(Agents[i].tags, ", ")
      ensures chatHistory == old(chatHistory) && agentCreated == old(agentCreated)
      ensures chatMessage == old(chatMessage) && knowledgeBase == old(knowledgeBase)
      ensures Snapshot() == Step(old(Snapshot()), Select(i))
    {
      var a := Agents[i];
      selectedAgentId := Some(a.id);
      agentName := a.name;
      agentDescription := Describe(a);
    }

    /** The name input's change handler. */
    method TypeName(text: string)
      requires Valid()
      modifies this
      ensures Valid()
      ensures Snapshot() == old(Snapshot()).(agentName := text)
      ensures Snapshot() == Step(old(Snapshot()), EditName(text))
    {
      agentName := text;
    }

    /** The description input's change handler. */
    method TypeDescription(text: string)
      requires Valid()
      modifies this
      ensures Valid()
      ensures Snapshot() == old(Snapshot()).(agentDescription := text)
      ensures Snapshot() == Step(old(Snapshot()), EditDescription(text))
    {
      agentDescription := text;
    }

    /** The knowledge-base text area's change handler. */
    method TypeKnowledge(text: string)
      requires Valid()
      modifies this
      ensures Valid()
      ensures Snapshot() == old(Snapshot()).(knowledgeBase := text)
      ensures Snapshot() == Step(old(Snapshot()), EditKnowledge(text))
    {
      knowledgeBase := text;
    }

    /** The message input's change handler. */
    method TypeMessage(text: string)
      requires Valid()
      modifies this
      ensures Valid()
      ensures Snapshot() == old(Snapshot()).(chatMessage := text)
      ensures Snapshot() == Step(old(Snapshot()), EditMessage(text))
    {
      chatMessage := text;
    }

    /** The figures the page renders from this state: the header's active agents,
        conversations and knowledge items, and the console's token count. */
    method Stats() returns (active: nat, conversations: real, knowledgeItems: nat, tokens: nat)
      requires Valid()
      ensures active == 1 <==> agentCreated
      ensures active <= 1
      ensures conversations == (|chatHistory| / 2) as real
      ensures knowledgeItems == if knowledgeBase == [] then 0 else Occurrences(knowledgeBase, '\n') + 1
      ensures tokens == 100 * (|chatHistory| / 2)
    {
      active := ActiveAgents(agentCreated);
      conversations := ConversationsShown(chatHistory);
      WholeConversations(chatHistory);
      knowledgeItems := KnowledgeItems(knowledgeBase);
      tokens := TokensShown(chatHistory);
    }
  }
}
