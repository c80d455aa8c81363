/** A first exchange in the test console of a freshly opened page. */
module ConsoleExamples {
  import opened Text
  import opened AgentConsole

  /** Type a name, a description and a non-blank message into a fresh page, then
      send: the transcript is exactly that message and the reply built from that
      name and description, the input is cleared and one conversation is shown.
      The console answers whether or not the agent was created. */
  lemma FirstExchange(name: string, description: string, message: string)
    requires !AllWhitespace(message)
    ensures var s := Run(Initial, [EditName(name), EditDescription(description), EditMessage(message), Send]);
      s.chatHistory == [Entry(User, message), Entry(Assistant, Reply(name, description))] &&
      s.chatMessage == [] && !s.agentCreated &&
      ConversationsShown(s.chatHistory) == 1.0 && TokensShown(s.chatHistory) == 100
  {
    var es := [EditName(name), EditDescription(description), EditMessage(message), Send];
    var s1 := Initial.(agentName := name);
    var s2 := s1.(agentDescription := description);
    var s3 := s2.(chatMessage := message);
    assert es[1..] == [EditDescription(description), EditMessage(message), Send];
    assert es[1..][1..] == [EditMessage(message), Send];
    assert Run(Initial, es) == Run(s1, es[1..]);
    assert Run(s1, es[1..]) == Run(s2, [EditMessage(message), Send]);
    RunPair(s2, EditMessage(message), Send);
    SendAppendsPair(s3);
  }
}
