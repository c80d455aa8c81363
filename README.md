# Agent dashboard: draft and test console

A model of the state logic behind the agent-builder dashboard page
(`src/pages/Dashboard.tsx`). The page keeps an agent draft (name, description,
knowledge-base text), a "created" flag, the highlighted library agent, and a test
console made of an input buffer and a transcript of `{role, content}` entries.
Four handlers change that state:

- **create agent** refuses an empty name or description with a destructive
  "Missing Information" notice, otherwise raises the created flag and announces
  "`<name>` is ready for testing.";
- **send message** ignores input whose `trim()` is empty, otherwise appends the
  input as typed and a canned reply built from the current name and description,
  then clears the input;
- **reset** empties the transcript;
- **pick a library agent** copies the agent's name, and its role and tags, into
  the draft and highlights the agent.

The text inputs' change handlers overwrite their field. The page also shows four
figures derived from the state: active agents, conversations, knowledge items
and tokens.

Layout:

- `Text.dfy` (module `Text`): the JavaScript string routines the page uses:
  `trim` over the ECMAScript whitespace and line-terminator code points,
  `split` on one character and `join`.
- `Catalogue.dfy` (module `Catalogue`): the fixed three-entry agent library and
  the description a pick produces.
- `AgentConsole.dfy` (module `AgentConsole`): the page state as a value, one
  function per handler (`HandleCreate`, `HandleSend`, `ResetHistory`,
  `SelectAgent`), the dispatcher `Step` and the session runner `Run`. It also
  holds the derived figures and the lemmas. Some lemmas cover one handler. Others
  cover any sequence of actions: the created flag never drops, and the transcript
  stays in user/assistant pairs and only grows between resets.
- `Examples.dfy` (module `ConsoleExamples`): the first exchange on a fresh page.
- `DashboardPage.dfy` (module `DashboardPage`): class `Dashboard`. Its fields are
  the component's state variables and its methods are the handlers, which update
  the fields in place. Each method is proved to leave the object exactly in
  the state that `Step` gives for its event. So every lemma about `Step` and
  `Run` applies to the page object.

Details of the code the model keeps as written:

- The create check at src/pages/Dashboard.tsx:68 tests plain emptiness, so a
  whitespace-only name creates the agent (`CreateAcceptsBlankName`). The send
  check at src/pages/Dashboard.tsx:85 does trim.
- The conversation figure at src/pages/Dashboard.tsx:174 and :553 is the
  JavaScript number division `chatHistory.length / 2`. The model uses a `real`,
  and the pairing invariant makes it a whole number (`WholeConversations`,
  `ConversationsAlwaysWhole`).
- `handleCreateAgent` does not read the created flag. Only the button's
  `disabled` attribute at src/pages/Dashboard.tsx:361 stops a second create. The
  model keeps the handler as written, and the flag stays monotonic either way.
- A library pick is named by its position in the fixed catalogue, because the
  page only offers those three entries (src/pages/Dashboard.tsx:252-259).

## Model

| member | source | states |
|---|---|---|
| `Text.TrimStart` | src/pages/Dashboard.tsx:85 | the result is the suffix of the input that starts at its first non-whitespace character; everything dropped is whitespace |
| `Text.TrimEnd` | src/pages/Dashboard.tsx:85 | the result is the prefix of the input that ends at its last non-whitespace character; everything dropped is whitespace |
| `Text.Trim` | src/pages/Dashboard.tsx:85 | `trim()` returns the slice of its input between a whitespace-only prefix and a whitespace-only suffix, and that slice neither starts nor ends with whitespace |
| `Text.BlankIffAllWhitespace` | src/pages/Dashboard.tsx:85 | `!s.trim()` holds exactly when every character of `s` is whitespace, in both directions |
| `Text.TrimIdempotent` | src/pages/Dashboard.tsx:85 | trimming an already trimmed string changes nothing |
| `Text.Split` | src/pages/Dashboard.tsx:194 | `split` always yields at least one piece (`"".split(c)` is `[""]`) |
| `Text.SplitLength` | src/pages/Dashboard.tsx:194 | `split(c)` yields one piece more than the number of occurrences of `c` |
| `Text.SplitPiecesFree` | src/pages/Dashboard.tsx:194 | no piece of a split contains the separator |
| `Text.JoinSplit` | src/pages/Dashboard.tsx:194 | joining the pieces of a split with the separator gives back the original text |
| `Catalogue.DescribeCatalogue` | src/pages/Dashboard.tsx:47-51 | every library agent has two tags, and its description is its role, " agent for ", then both tags separated by ", " |
| `Catalogue.SupportDescription` | src/pages/Dashboard.tsx:48 | picking "CX Orchestrator" gives the description "Support agent for routing, handoff" |
| `Catalogue.SalesDescription` | src/pages/Dashboard.tsx:49 | picking "Sales Qualifier" gives the description "Sales agent for leads, scoring" |
| `Catalogue.OpsDescription` | src/pages/Dashboard.tsx:50 | picking "Research Synthesizer" gives the description "Ops agent for web, papers" |
| `Catalogue.IdsDistinct` | src/pages/Dashboard.tsx:261 | library ids are pairwise distinct, so `selectedAgentId === a.id` highlights at most one entry |
| `AgentConsole.KnowledgeItems` | src/pages/Dashboard.tsx:194 | the knowledge-item figure is 0 for an empty knowledge base, otherwise the number of line feeds plus one |
| `AgentConsole.CreateRejectsMissing` | src/pages/Dashboard.tsx:68-75 | with an empty name or description, create changes no state and yields the destructive "Missing Information" notice |
| `AgentConsole.CreateAccepts` | src/pages/Dashboard.tsx:77-81 | with both fields non-empty, create changes only the created flag, to true, and the notice reads `name + " is ready for testing."` |
| `AgentConsole.CreateAcceptsBlankName` | src/pages/Dashboard.tsx:68 | the create check does not trim: a whitespace-only name and description create the agent, although both are blank by `trim()` |
| `AgentConsole.SendIgnoresBlank` | src/pages/Dashboard.tsx:85 | sending input that is empty or whitespace only leaves the whole state unchanged |
| `AgentConsole.SendAppendsPair` | src/pages/Dashboard.tsx:87-91 | sending non-blank input appends exactly the untrimmed user entry and the reply from the current name and description. Earlier entries are kept, the input is cleared, and nothing else changes |
| `AgentConsole.ResetEmpties` | src/pages/Dashboard.tsx:554 | reset empties the transcript whatever its length, touches nothing else, and brings the conversation and token figures to 0 |
| `AgentConsole.SelectOverwritesDraft` | src/pages/Dashboard.tsx:255-258 | picking library agent i highlights its id and sets the draft's name and tag-joined description. The transcript, the created flag, the input and the knowledge base are unchanged |
| `AgentConsole.CreatedMonotone` | src/pages/Dashboard.tsx:77 | once the created flag is up, no sequence of actions lowers it, and "Active Agents" stays 1 |
| `AgentConsole.CreatedOnlyByCreate` | src/pages/Dashboard.tsx:27 | from a draft not yet created, no sequence of actions without a create action raises the flag |
| `AgentConsole.StepKeepsPairs` | src/pages/Dashboard.tsx:87-90 | every single action keeps the transcript in whole user/assistant pairs |
| `AgentConsole.RunKeepsPairs` | src/pages/Dashboard.tsx:87-90 | any sequence of actions keeps the transcript at even length with users at even and assistants at odd positions |
| `AgentConsole.RunKeepsHighlight` | src/pages/Dashboard.tsx:256 | after any sequence of actions the highlighted id is either unset or the id of one of the three library entries |
| `AgentConsole.HistoryGrowsWithoutReset` | src/pages/Dashboard.tsx:87 | without a reset, the old transcript is a prefix of the new one, even when the draft is edited in between |
| `AgentConsole.RenameThenSend` | src/pages/Dashboard.tsx:89 | renaming after messages exist leaves old entries alone, and the next reply uses the new name |
| `AgentConsole.WholeConversations` | src/pages/Dashboard.tsx:174 | over a well-paired transcript the conversation figure `length / 2` is a whole number |
| `AgentConsole.SendCountsOneConversation` | src/pages/Dashboard.tsx:553 | a successful send raises the conversation figure by exactly 1 and the token figure by exactly 100 |
| `AgentConsole.TokensPerConversation` | src/pages/Dashboard.tsx:592 | over a well-paired transcript the token figure `length * 50` is 100 per conversation |
| `AgentConsole.ConversationsAlwaysWhole` | src/pages/Dashboard.tsx:553 | after any actions from the initial page, the conversation figure is a whole number |
| `ConsoleExamples.FirstExchange` | src/pages/Dashboard.tsx:84-92 | on a fresh page, typing a name, a description and a non-blank message, then sending, yields exactly that message and its reply, an empty input, one conversation and 100 tokens. The agent need not be created first |
| `DashboardPage.Dashboard.constructor` | src/pages/Dashboard.tsx:21-46 | the page starts with empty texts, an empty transcript, the flag down and no agent highlighted |
| `DashboardPage.Dashboard.CreateAgent` | src/pages/Dashboard.tsx:67-82 | updates the object as `HandleCreate` does and returns its notice: missing field means no change and "Missing Information", otherwise the flag goes up and the success notice names the agent |
| `DashboardPage.Dashboard.SendMessage` | src/pages/Dashboard.tsx:84-92 | updates the object as `HandleSend` does. Blank input changes nothing. Otherwise the user entry and the reply are appended and the input is cleared. The pairing invariant is kept |
| `DashboardPage.Dashboard.ClearHistory` | src/pages/Dashboard.tsx:554 | only the transcript changes, and it becomes empty |
| `DashboardPage.Dashboard.PickLibraryAgent` | src/pages/Dashboard.tsx:255-258 | picking library entry i sets the highlight to its id, the name and the role-and-tags description; nothing else changes, and the highlight stays a catalogue id |
| `DashboardPage.Dashboard.TypeName` | src/pages/Dashboard.tsx:318 | only the name changes, to what was typed |
| `DashboardPage.Dashboard.TypeDescription` | src/pages/Dashboard.tsx:343 | only the description changes, to what was typed |
| `DashboardPage.Dashboard.TypeKnowledge` | src/pages/Dashboard.tsx:444 | only the knowledge-base text changes, to what was typed |
| `DashboardPage.Dashboard.TypeMessage` | src/pages/Dashboard.tsx:582 | only the message input changes, to what was typed |
| `DashboardPage.Dashboard.Stats` | src/pages/Dashboard.tsx:153-194 | the rendered figures: active agents is 1 exactly when created, conversations is half the transcript as a whole number, knowledge items is 0 or line feeds plus one, tokens is 100 per conversation (line 592) |

## Left out

- The toast calls themselves. Create returns the notification payload (title, description, variant) instead of showing it.
- `copyCurl` (src/pages/Dashboard.tsx:94-110): it writes to the clipboard and resets `copied` with a timer.
- The random display id and the sample endpoint string (src/pages/Dashboard.tsx:64-65): they come from `Math.random` and change on every render.
- The document title, meta description and canonical-link effect (src/pages/Dashboard.tsx:53-62): they only change the browser document.
- The setters of category, system prompt, avatar URL, model, temperature, max tokens, the three feature switches and timezone (src/pages/Dashboard.tsx:324-495). Each is an unchecked overwrite of a field that no modelled handler reads, and the slider clamping happens inside UI library components that are not part of this model.
- The state variables security mode, languages, webhook URL, training progress and active tab (src/pages/Dashboard.tsx:38-44). Their setters are declared but never called in the file, so these values never change.
- The buttons' `disabled` attributes (create disabled once created, send disabled while the input is blank) and the Enter key binding. They only decide when a handler can be invoked. The handlers guard themselves (send), or behave the same either way as far as the flag is concerned (create).
- The constant "API Calls Today" figure and all markup, styling, animation and panel layout.
- JavaScript strings are UTF-16 code-unit sequences, while the model's strings are sequences of Unicode scalar values. Only lengths of texts containing characters outside the Basic Multilingual Plane would differ, and no modelled figure depends on such a length.
- src/pages/SignIn.tsx (a loading flag reset by a timer) and src/components/TestimonialsSection.tsx (a static list rendered as a marquee) are not part of this model.
