/** The dashboard's agent draft and test console as values: the state the page
    keeps, one function per event handler, and the figures the page derives
    from that state. The class in DashboardPage is proved against these
    functions; the lemmas here state what the handlers guarantee, alone and
    over any sequence of user actions. */
module AgentConsole {
  import opened Text
  import opened Catalogue

  datatype Option<T> = None | Some(value: T)

  datatype Role = User | Assistant

  /** One transcript line: `{role, content}`. */
  datatype Entry = Entry(role: Role, content: string)

  datatype Variant = Default | Destructive

  /** The payload handed to the page's toast. */
  datatype Notification = Notification(title: string, description: string, variant: Variant)

  /** The page state the handlers read and write. */
  datatype State = State(
    agentName: string,
    agentDescription: string,
    knowledgeBase: string,
    chatMessage: string,
    chatHistory: seq<Entry>,
    agentCreated: bool,
    selectedAgentId: Option<string>)

  /** Everything empty, nothing created, no library agent highlighted. */
  const Initial := State([], [], [], [], [], false, None)

  /** The user actions that change the modelled state. The four `Edit` events are
      the text inputs' change handlers, which overwrite one field with what was typed. */
  datatype Event =
    | EditName(name: string)
    | EditDescription(description: string)
    | EditKnowledge(text: string)
    | EditMessage(text: string)
    | Create
    | Send
    | Reset
    | Select(index: LibraryIndex)

  const MissingInformation :=
    Notification("Missing Information", "Please fill in agent name and description.", Destructive)

  function CreatedNotice(name: string): Notification
  {
    Notification("Agent Created Successfully!", name + " is ready for testing.", Default)
  }

  datatype CreateResult = CreateResult(next: State, notice: Notification)

  /** Create agent: both required fields must be non-empty (not trimmed). */
  function HandleCreate(s: State): CreateResult
  {
    if s.agentName == [] || s.agentDescription == [] then CreateResult(s, MissingInformation)
    else CreateResult(s.(agentCreated := true), CreatedNotice(s.agentName))
  }

  /** The canned assistant reply, built from the draft as it is at send time. */
  function Reply(name: string, description: string): string
  {
    "Hello! I'm " + name + ". " + description + " How can I help you today?"
  }

  /** Send message: ignored when the input trims to nothing; otherwise the untrimmed
      input and the canned reply are appended and the input is cleared. */
  function HandleSend(s: State): State
  {
    if IsBlank(s.chatMessage) then s
    else s.(chatHistory := s.chatHistory + [Entry(User, s.chatMessage),
                                            Entry(Assistant, Reply(s.agentName, s.agentDescription))],
            chatMessage := [])
  }

  /** Reset console: the transcript becomes empty. */
  function ResetHistory(s: State): State
  {
    s.(chatHistory := [])
  }

  /** Pick library entry `i`: it is highlighted and overwrites name and description. */
  function SelectAgent(s: State, i: LibraryIndex): State
  {
    s.(selectedAgentId := Some(Agents[i].id), agentName := Agents[i].name, agentDescription := Describe(Agents[i]))
  }

  function Step(s: State, e: Event): State
  {
    match e
    case EditName(n) => s.(agentName := n)
    case EditDescription(d) => s.(agentDescription := d)
    case EditKnowledge(t) => s.(knowledgeBase := t)
    case EditMessage(t) => s.(chatMessage := t)
    case Create => HandleCreate(s).next
    case Send => HandleSend(s)
    case Reset => ResetHistory(s)
    case Select(i) => SelectAgent(s, i)
  }

  /** The state after the user performs `es` in order. */
  function Run(s: State, es: seq<Event>): State
    decreases |es|
  {
    if es == [] then s else Run(Step(s, es[0]), es[1..])
  }

  /** The transcript is whole user/assistant pairs: even length, users at even
      positions, assistants at odd ones. */
  ghost predicate WellPaired(h: seq<Entry>)
  {
    |h| % 2 == 0 &&
    forall i :: 0 <= i < |h| ==> h[i].role == (if i % 2 == 0 then User else Assistant)
  }

  /** The highlighted agent, if any, is one of the library's entries. */
  ghost predicate HighlightInCatalogue(id: Option<string>)
  {
    id == None || exists i :: 0 <= i < |Agents| && id == Some(Agents[i].id)
  }

  // ---------------------------------------------------------------- derived displays

  /** "Active Agents": one once the draft has been created. */
  function ActiveAgents(created: bool): nat
  {
    if created then 1 else 0
  }

  /** "Conversations" / "convos": `chatHistory.length / 2`, a JavaScript number division. */
  function ConversationsShown(h: seq<Entry>): real
  {
    |h| as real / 2.0
  }

  /** "Tokens": `chatHistory.length * 50`. */
  function TokensShown(h: seq<Entry>): nat
  {
    |h| * 50
  }

  /** "Knowledge Items": zero for an empty knowledge base, otherwise the number of
      pieces `split('\n')` gives, which is one more than the number of line feeds. */
  function KnowledgeItems(kb: string): (n: nat)
    ensures kb == [] ==> n == 0
    ensures kb != [] ==> n == Occurrences(kb, '\n') + 1
  {
    SplitLength(kb, '\n');
    if kb == [] then 0 else |Split(kb, '\n')|
  }

  // ---------------------------------------------------------------- create agent

  /** A missing name or description changes nothing and yields the destructive notice. */
  lemma CreateRejectsMissing(s: State)
    requires s.agentName == [] || s.agentDescription == []
    ensures HandleCreate(s).next == s
    ensures HandleCreate(s).notice == MissingInformation
    ensures HandleCreate(s).notice.variant == Destructive
  {
  }

  /** With both fields present, only the created flag changes, and the notice
      names the agent. */
  lemma CreateAccepts(s: State)
    requires s.agentName != [] && s.agentDescription != []
    ensures HandleCreate(s).next == s.(agentCreated := true)
    ensures HandleCreate(s).notice.title == "Agent Created Successfully!"
    ensures HandleCreate(s).notice.description == s.agentName + " is ready for testing."
    ensures HandleCreate(s).notice.variant == Default
  {
  }

  /** The creation check does not trim: a whitespace-only name and description
      create the agent, although the same text would be ignored as a message. */
  lemma CreateAcceptsBlankName(s: State)
    requires s.agentName != [] && AllWhitespace(s.agentName)
    requires s.agentDescription != [] && AllWhitespace(s.agentDescription)
    ensures HandleCreate(s).next.agentCreated
    ensures IsBlank(s.agentName) && IsBlank(s.agentDescription)
  {
    BlankIffAllWhitespace(s.agentName);
    BlankIffAllWhitespace(s.agentDescription);
  }

  // ---------------------------------------------------------------- send and reset

  /** Blank input (whitespace only, or empty) leaves the whole state as it was. */
  lemma SendIgnoresBlank(s: State)
    requires AllWhitespace(s.chatMessage)
    ensures HandleSend(s) == s
  {
    BlankIffAllWhitespace(s.chatMessage);
  }

  /** Non-blank input appends exactly the user entry (untrimmed) and the reply built
      from the current name and description, keeps every earlier entry, clears the
      input and changes nothing else. */
  lemma SendAppendsPair(s: State)
    requires !AllWhitespace(s.chatMessage)
    ensures var t := HandleSend(s);
      |t.chatHistory| == |s.chatHistory| + 2 &&
      t.chatHistory[..|s.chatHistory|] == s.chatHistory &&
      t.chatHistory[|s.chatHistory|] == Entry(User, s.chatMessage) &&
      t.chatHistory[|s.chatHistory| + 1] == Entry(Assistant, Reply(s.agentName, s.agentDescription)) &&
      t.chatMessage == [] &&
      t == s.(chatHistory := t.chatHistory, chatMessage := [])
  {
    BlankIffAllWhitespace(s.chatMessage);
    var t := HandleSend(s);
    assert t.chatHistory[..|s.chatHistory|] == s.chatHistory;
  }

  /** Reset empties the transcript whatever its length and touches nothing else. */
  lemma ResetEmpties(s: State)
    ensures ResetHistory(s).chatHistory == []
    ensures ResetHistory(s) == s.(chatHistory := [])
    ensures ConversationsShown(ResetHistory(s).chatHistory) == 0.0
    ensures TokensShown(ResetHistory(s).chatHistory) == 0
  {
  }

  // ---------------------------------------------------------------- library select

  /** Picking a library agent sets the highlight, the name and the tag-joined
      description, and leaves the transcript and the created flag alone. */
  lemma SelectOverwritesDraft(s: State, i: LibraryIndex)
    ensures var t := SelectAgent(s, i);
      t.selectedAgentId == Some(Agents[i].id) &&
      t.agentName == Agents[i].name &&
      t.agentDescription == Agents[i].role + " agent for " + Agents[i].tags[0] + ", " + Agents[i].tags[1] &&
      t.chatHistory == s.chatHistory && t.agentCreated == s.agentCreated &&
      t.chatMessage == s.chatMessage && t.knowledgeBase == s.knowledgeBase
  {
    DescribeCatalogue(i);
  }

  // ---------------------------------------------------------------- invariants over traces

  /** Running two actions is stepping twice. */
  lemma RunPair(s: State, e1: Event, e2: Event)
    ensures Run(s, [e1, e2]) == Step(Step(s, e1), e2)
  {
    assert [e1, e2][1..] == [e2];
    assert [e2][1..] == [];
    assert Run(s, [e1, e2]) == Run(Step(s, e1), [e2]);
    assert Run(Step(s, e1), [e2]) == Run(Step(Step(s, e1), e2), []);
  }

  /** No action clears the created flag, so "Active Agents" never drops. */
  lemma {:induction false} CreatedMonotone(s: State, es: seq<Event>)
    requires s.agentCreated
    ensures Run(s, es).agentCreated
    ensures ActiveAgents(Run(s, es).agentCreated) == 1
    decreases |es|
  {
    if es != [] {
      CreatedMonotone(Step(s, es[0]), es[1..]);
    }
  }

  /** The flag is only ever raised by a create action. */
  lemma {:induction false} CreatedOnlyByCreate(s: State, es: seq<Event>)
    requires !s.agentCreated && Create !in es
    ensures !Run(s, es).agentCreated
    decreases |es|
  {
    if es != [] {
      assert es[0] != Create;
      assert Create !in es[1..];
      CreatedOnlyByCreate(Step(s, es[0]), es[1..]);
    }
  }

  /** One action keeps the transcript in whole pairs. */
  lemma StepKeepsPairs(s: State, e: Event)
    requires WellPaired(s.chatHistory)
    ensures WellPaired(Step(s, e).chatHistory)
  {
    if e == Send && !IsBlank(s.chatMessage) {
      var h := s.chatHistory;
      var h' := HandleSend(s).chatHistory;
      forall i | 0 <= i < |h'|
        ensures h'[i].role == (if i % 2 == 0 then User else Assistant)
      {
        if i < |h| {
          assert h'[i] == h[i];
        }
      }
    }
  }

  /** Any sequence of actions keeps the transcript in whole user/assistant pairs. */
  lemma {:induction false} RunKeepsPairs(s: State, es: seq<Event>)
    requires WellPaired(s.chatHistory)
    ensures WellPaired(Run(s, es).chatHistory)
    decreases |es|
  {
    if es != [] {
      StepKeepsPairs(s, es[0]);
      RunKeepsPairs(Step(s, es[0]), es[1..]);
    }
  }

  /** Any sequence of actions leaves the highlight empty or on a library entry. */
  lemma {:induction false} RunKeepsHighlight(s: State, es: seq<Event>)
    requires HighlightInCatalogue(s.selectedAgentId)
    ensures HighlightInCatalogue(Run(s, es).selectedAgentId)
    decreases |es|
  {
    if es != [] {
      var t := Step(s, es[0]);
      if es[0].Select? {
        var i := es[0].index;
        assert t.selectedAgentId == Some(Agents[i].id);
      }
      RunKeepsHighlight(t, es[1..]);
    }
  }

  /** Without a reset the transcript only grows: earlier entries stay as they were,
      even when the name or description is edited in between. */
  lemma {:induction false} HistoryGrowsWithoutReset(s: State, es: seq<Event>)
    requires Reset !in es
    ensures s.chatHistory <= Run(s, es).chatHistory
    decreases |es|
  {
    if es != [] {
      assert es[0] != Reset;
      assert Reset !in es[1..];
      HistoryGrowsWithoutReset(Step(s, es[0]), es[1..]);
    }
  }

  /** Editing the name after messages exist leaves the old replies alone, and the
      next send replies with the new name. */
  lemma RenameThenSend(s: State, name: string)
    requires !AllWhitespace(s.chatMessage)
    ensures var t := Run(s, [EditName(name), Send]);
      s.chatHistory <= t.chatHistory && |t.chatHistory| == |s.chatHistory| + 2 &&
      t.chatHistory[|t.chatHistory| - 1] == Entry(Assistant, Reply(name, s.agentDescription))
  {
    var s1 := s.(agentName := name);
    RunPair(s, EditName(name), Send);
    SendAppendsPair(s1);
  }

  // ---------------------------------------------------------------- displayed counts

  /** Over a well-paired transcript the conversation count is a whole number. */
  lemma WholeConversations(h: seq<Entry>)
    requires WellPaired(h)
    ensures ConversationsShown(h) == (|h| / 2) as real
  {
    var k := |h| / 2;
    assert |h| == 2 * k;
    assert |h| as real == 2.0 * k as real;
  }

  /** A successful send adds exactly one conversation and a hundred tokens. */
  lemma SendCountsOneConversation(s: State)
    requires !AllWhitespace(s.chatMessage)
    ensures ConversationsShown(HandleSend(s).chatHistory) == ConversationsShown(s.chatHistory) + 1.0
    ensures TokensShown(HandleSend(s).chatHistory) == TokensShown(s.chatHistory) + 100
  {
    SendAppendsPair(s);
  }

  /** The token figure is a hundred per conversation. */
  lemma TokensPerConversation(h: seq<Entry>)
    requires WellPaired(h)
    ensures TokensShown(h) as real == 100.0 * ConversationsShown(h)
  {
    WholeConversations(h);
  }

  /** From the initial state, after any actions, the conversation count is whole. */
  lemma ConversationsAlwaysWhole(es: seq<Event>)
    ensures ConversationsShown(Run(Initial, es).chatHistory) == (|Run(Initial, es).chatHistory| / 2) as real
  {
    RunKeepsPairs(Initial, es);
    WholeConversations(Run(Initial, es).chatHistory);
  }
}
