# ENS agent portal: directory search, onboarding wizard and chat log

This project models the three components of the ENS agent portal that hold
decision logic, and proves properties of them in Dafny.

- **Agent directory** (`AgentsDirectory.tsx`). A fixed list of six agent records
  is filtered by a free-text query and a role button. The query matches, ignoring
  case, as a substring of the name, the ENS name or any badge. The role matches
  when it is `"all"` or equals the agent's role. Modules `AgentsDirectory` and
  `SeedScenarios`.
- **Onboarding wizard** (`OnboardingFlow.tsx`). Five steps, walked with Next and
  Previous. The ENS subname is typed at step 2 and a role card is picked at
  step 3. The Next button is hidden on the last step. It is disabled on step 2
  while the name is empty, and on step 3 while no role is chosen. Its caption
  reads "Deploy" on step 4. Module `OnboardingFlow`: the pure functions of the
  page, plus a class `Onboarding` whose three fields are the component's state.
- **Chat** (`ChatInterface.tsx`). An append-only message log and an input box
  with four quick-action presets. Sending blank input does nothing. Otherwise the
  untrimmed input is logged as a user message and the box is cleared. A canned
  AI reply is appended later. Module `ChatInterface`: the display functions (the
  transaction-hash abbreviation and the status badge), a pure state machine, and
  a class `Chat` whose fields are the log, the input and the replies still due.

Two support modules model the JavaScript built-ins these components call:

- `Text`: ASCII `toLowerCase`, `includes` and `trim`. `trim` uses the ECMAScript
  whitespace and line-terminator set.
- `Lists`: `Array.prototype.filter` and `find`.

Where the component's state changes in place, the model is a class with those
fields. Its methods are proved against pure transition functions such as
`NextState`, `PressNext`, `SendState` and `Apply`. The properties are proved about
those functions: a whole sequence of user events, folded by `Run`, keeps a
reachability invariant (onboarding) or a log-consistency invariant (chat).

Two details of the code shape the model:

- `nextStep` only checks the upper bound (OnboardingFlow.tsx:56-60); the forward
  guard is the Next button's `disabled` expression (line 308). The model has
  both: `NextState` is the bare handler and `PressNext` is a click on the
  rendered button.
- An unset role is the empty string, which is falsy in the guard and matches no
  role card.

## Model

| member | source | states |
|---|---|---|
| Text.LowerOfUpper | src/components/AgentsDirectory.tsx:84-86 | lower-casing an upper-cased string gives the string's own lower-cased form, so a query and its upper-cased form compare alike |
| Text.LowerIdempotent | src/components/AgentsDirectory.tsx:84-86 | lower-casing twice is lower-casing once |
| Text.LowerOmits | src/components/AgentsDirectory.tsx:84-86 | a letter missing from a string in both cases is missing from its lower-cased form |
| Text.ContainsEmpty | src/components/AgentsDirectory.tsx:84-86 | the empty query is included in every field, so an empty search rules nothing out |
| Text.ContainsChars | src/components/AgentsDirectory.tsx:84-86 | every character of an included string occurs in the string that includes it |
| Text.TrimStart | src/components/ChatInterface.tsx:66 | the result is a suffix of the input, everything dropped is whitespace, and the result does not start with whitespace |
| Text.TrimEnd | src/components/ChatInterface.tsx:66 | the result is a prefix of the input, everything dropped is whitespace, and the result does not end with whitespace |
| Text.TrimEmptyIff | src/components/ChatInterface.tsx:66 | `trim` yields the empty string exactly when every character of the input is whitespace |
| Text.TrimIsTrimmedSlice | src/components/ChatInterface.tsx:66 | the trimmed string is a contiguous slice of the input that neither starts nor ends with whitespace |
| Lists.Filter | src/components/AgentsDirectory.tsx:83-89 | the result is no longer than the list, and every kept element is in the list and admitted |
| Lists.FilterSelectsFrom | src/components/AgentsDirectory.tsx:83-89 | filtering a suffix keeps exactly the admitted positions of that suffix, in increasing order |
| Lists.FilterMembership | src/components/AgentsDirectory.tsx:83-89 | an element is kept if and only if it is in the list and admitted |
| Lists.FilterIdempotent | src/components/AgentsDirectory.tsx:83-89 | filtering a filtered list again with the same predicate changes nothing |
| Lists.FilterConcat | src/components/AgentsDirectory.tsx:83-89 | filtering a concatenation is the concatenation of the filtered parts |
| Lists.FilterKeepsAll | src/components/AgentsDirectory.tsx:83-89 | a predicate that admits every element keeps the whole list |
| Lists.FilterCongruent | src/components/AgentsDirectory.tsx:83-89 | two predicates that agree on the list's elements keep the same elements |
| Lists.FilterPrefix | src/components/OnboardingFlow.tsx:269-288 | a predicate that admits exactly the positions below n keeps exactly the first n elements |
| Lists.Find | src/components/OnboardingFlow.tsx:244 | a found element is in the list and admitted; nothing is found exactly when no element is admitted |
| Lists.FindFirst | src/components/OnboardingFlow.tsx:244 | the element found is the earliest admitted one: every element before it is refused |
| AgentsDirectory.FilterAgentsSelectsInOrder | src/components/AgentsDirectory.tsx:83-89 | the shown list is the subsequence of the agents at exactly the matching positions, in list order, and is no longer than the list |
| AgentsDirectory.AgentShownIff | src/components/AgentsDirectory.tsx:88 | an agent is shown if and only if it is in the list and matches both the search and the role |
| AgentsDirectory.MatchesRoleIff | src/components/AgentsDirectory.tsx:87 | role "all" admits every agent; any other role admits exactly the agents with that role |
| AgentsDirectory.FilterNothing | src/components/AgentsDirectory.tsx:83-89 | the initial page (empty query, role "all") shows the whole list |
| AgentsDirectory.FilterIgnoresQueryCase | src/components/AgentsDirectory.tsx:84-86 | a query, its upper-cased form and its lower-cased form show the same agents |
| AgentsDirectory.FilterAgentsIdempotent | src/components/AgentsDirectory.tsx:83-89 | filtering the shown list again with the same query and role shows the same list |
| AgentsDirectory.RoleButtonsPartition | src/components/AgentsDirectory.tsx:75-89 | with an empty query, the four concrete role buttons together show each listed agent exactly once |
| AgentsDirectory.SeedRolesListed | src/components/AgentsDirectory.tsx:13-75 | every seed agent has a role with its own button |
| SeedScenarios.FieldMissesByLetter | src/components/AgentsDirectory.tsx:84-86 | a field lacking, in both cases, a letter of the lower-cased query does not match it |
| SeedScenarios.KwameAsanteMatchesKwame | src/components/AgentsDirectory.tsx:23-32 | "kwame" matches Kwame Asante's name |
| SeedScenarios.AlexChenMissesKwame | src/components/AgentsDirectory.tsx:13-22 | "kwame" matches none of Alex Chen's searched fields |
| SeedScenarios.SarahKimMissesKwame | src/components/AgentsDirectory.tsx:33-42 | "kwame" matches none of Sarah Kim's searched fields |
| SeedScenarios.DiegoSantosMissesKwame | src/components/AgentsDirectory.tsx:43-52 | "kwame" matches none of Diego Santos's searched fields |
| SeedScenarios.AmaOseiMissesKwame | src/components/AgentsDirectory.tsx:53-62 | "kwame" matches none of Ama Osei's searched fields |
| SeedScenarios.WeiZhangMissesKwame | src/components/AgentsDirectory.tsx:63-72 | "kwame" matches none of Wei Zhang's searched fields |
| SeedScenarios.SearchKwame | src/components/AgentsDirectory.tsx:13-89 | searching the seed list for "kwame" under role "all" shows exactly the kwame.agent.eth record |
| SeedScenarios.EmptyQueryMatchesRole | src/components/AgentsDirectory.tsx:84-88 | with an empty query, an agent is shown exactly when its role matches |
| SeedScenarios.PaymentAgents | src/components/AgentsDirectory.tsx:13-89 | with an empty query, the "Payment Agent" button shows exactly Alex Chen, then Ama Osei |
| OnboardingFlow.StepTransitions | src/components/OnboardingFlow.tsx:56-66 | `nextStep` and `prevStep` stay within [1, 5], move by exactly one except at the ends, where they do nothing, and keep the name and the role |
| OnboardingFlow.NextPrevInverse | src/components/OnboardingFlow.tsx:56-66 | away from the ends, `prevStep` undoes `nextStep` and `nextStep` undoes `prevStep` |
| OnboardingFlow.PressNextIff | src/components/OnboardingFlow.tsx:304-308 | a click on Next moves exactly when the step is below 5 and the button is enabled; on step 2 exactly when the name is non-empty, so a name of one blank passes; on step 3 exactly when a role is chosen |
| OnboardingFlow.PressPreviousIff | src/components/OnboardingFlow.tsx:62-66 | a click on Previous moves back exactly when the button is shown, with no other guard |
| OnboardingFlow.NextLabelIff | src/components/OnboardingFlow.tsx:310 | the Next button reads "Deploy" exactly on step 4, and "Next" otherwise |
| OnboardingFlow.ProgressIndicator | src/components/OnboardingFlow.tsx:269-288 | on step c exactly the first c circles are highlighted, and exactly the first c-1 circles are checked and their connectors highlighted; the current step is the only highlighted unchecked circle; every circle but the last has a connector |
| OnboardingFlow.NumberedActive | src/components/OnboardingFlow.tsx:272 | for steps numbered 1, 2, ... the highlighted circles on step c are the first c |
| OnboardingFlow.NumberedCompleted | src/components/OnboardingFlow.tsx:276-285 | for steps numbered 1, 2, ... the checked circles and highlighted connectors on step c are the first c-1 |
| OnboardingFlow.RoleIdsDistinct | src/components/OnboardingFlow.tsx:21-54 | the four role cards have distinct ids |
| OnboardingFlow.RoleTitleIff | src/components/OnboardingFlow.tsx:244 | the Deploy screen shows a role title exactly when the selected id is a card's id, and then it is that card's title |
| OnboardingFlow.NoRoleNoTitle | src/components/OnboardingFlow.tsx:244 | before any card is picked, the Deploy screen shows no role title |
| OnboardingFlow.ApplyKeepsReachable | src/components/OnboardingFlow.tsx:56-66 | every user event keeps the reachable-state invariant and moves the step by at most one |
| OnboardingFlow.RunKeepsReachable | src/components/OnboardingFlow.tsx:56-66 | any event sequence keeps the invariant, and the step grows by at most the number of events |
| OnboardingFlow.DeployScreenComplete | src/components/OnboardingFlow.tsx:226-244 | from the first render, the step stays in [1, 5]; reaching step 5 takes at least four events, and there the ENS name is non-empty and the role title is present |
| OnboardingFlow.RunAppend | src/components/OnboardingFlow.tsx:56-66 | running one more event is applying it to the state reached so far |
| OnboardingFlow.WalkThrough | src/components/OnboardingFlow.tsx:9-66 | Next, name, Next, payment card, Next, Next reaches step 5 with that name and "Payment Agent"; Previous then gives step 4 |
| OnboardingFlow.Onboarding.constructor | src/components/OnboardingFlow.tsx:9-11 | the initial state is step 1 with no role and no name |
| OnboardingFlow.Onboarding.NextStep | src/components/OnboardingFlow.tsx:56-60 | the new state is `NextState` of the old one, and the step stays within [1, 5] |
| OnboardingFlow.Onboarding.PrevStep | src/components/OnboardingFlow.tsx:62-66 | the new state is `PrevState` of the old one, and the step stays within [1, 5] |
| OnboardingFlow.Onboarding.SetEnsName | src/components/OnboardingFlow.tsx:112 | only the name changes, to exactly the typed value |
| OnboardingFlow.Onboarding.SelectRole | src/components/OnboardingFlow.tsx:145 | only the role changes, to the clicked card's id |
| OnboardingFlow.Onboarding.ClickNext | src/components/OnboardingFlow.tsx:304-308 | the new state is `PressNext` of the old one |
| OnboardingFlow.Onboarding.ClickPrevious | src/components/OnboardingFlow.tsx:299-300 | the new state is `PressPrevious` of the old one |
| OnboardingFlow.Onboarding.Handle | src/components/OnboardingFlow.tsx:68-310 | an event reaches only the handler its step renders; the new state is `Apply` of the old one, and a reachable state stays reachable |
| ChatInterface.SendEnabledIff | src/components/ChatInterface.tsx:176 | the send button is enabled exactly when the input holds a character other than whitespace |
| ChatInterface.QuickActionsSendable | src/components/ChatInterface.tsx:183-193 | each of the four presets enables the send button as it is |
| ChatInterface.SliceFirst | src/components/ChatInterface.tsx:150 | `slice(0, n)` is a prefix of length n, or the whole of a shorter string |
| ChatInterface.SliceLast | src/components/ChatInterface.tsx:150 | `slice(-n)` for n > 0 (the component uses n = 8) is a suffix of length n, or the whole of a shorter string |
| ChatInterface.AbbreviateShape | src/components/ChatInterface.tsx:150 | a hash of at least 18 characters is shown as its first 10, three dots and its last 8: 21 characters |
| ChatInterface.AbbreviateSameIff | src/components/ChatInterface.tsx:150 | two such hashes are shown alike exactly when their first 10 and last 8 characters agree |
| ChatInterface.AbbreviateShortHash | src/components/ChatInterface.tsx:150 | for an 18-character hash, the two shown ends put back together give the hash back |
| ChatInterface.SeedHashDisplay | src/components/ChatInterface.tsx:44-150 | the 42-character seed hash is shown as "0x742d35Cc...d3e8F9c4", 21 characters |
| ChatInterface.TxDisplayIff | src/components/ChatInterface.tsx:148 | a hash line is shown exactly when the hash is present and non-empty |
| ChatInterface.BadgeVariantInjective | src/components/ChatInterface.tsx:141-144 | each status has its own badge variant; the check icon appears exactly with the default variant; destructive means failed |
| ChatInterface.SendStateIff | src/components/ChatInterface.tsx:65-76 | blank input leaves the state unchanged; otherwise exactly one user message holding the untrimmed input is appended after the unchanged log, and the input is cleared |
| ChatInterface.SendKeepsBlanks | src/components/ChatInterface.tsx:66-76 | sending "  hi " logs "  hi " with its blanks; sending "  " does nothing |
| ChatInterface.StartConsistent | src/components/ChatInterface.tsx:22-63 | the first render satisfies the log invariant |
| ChatInterface.CountAppend | src/components/ChatInterface.tsx:75-86 | appending a message adds one to its sender's count and nothing to the other's |
| ChatInterface.TailAppend | src/components/ChatInterface.tsx:75-86 | appending a sendable user message, or a due canned reply, keeps the log after the seed well formed |
| ChatInterface.AppendKeepsConsistent | src/components/ChatInterface.tsx:75-86 | such an append keeps the seed at the head and the whole state consistent |
| ChatInterface.ApplyKeepsConsistent | src/components/ChatInterface.tsx:65-88 | every event keeps the state consistent, and the old log is a prefix of the new one |
| ChatInterface.RunKeepsConsistent | src/components/ChatInterface.tsx:65-88 | any event sequence keeps the state consistent, and earlier messages never change |
| ChatInterface.RepliesMatchSends | src/components/ChatInterface.tsx:65-88 | once no reply is due, the log after the seed holds exactly as many canned replies as user messages |
| ChatInterface.Chat.constructor | src/components/ChatInterface.tsx:22-63 | the log starts as the five seed messages, with an empty input and no reply due |
| ChatInterface.Chat.SetNewMessage | src/components/ChatInterface.tsx:172 | only the input changes, to exactly the typed value |
| ChatInterface.Chat.PickQuickAction | src/components/ChatInterface.tsx:193 | only the input changes, to exactly the preset's label, which can then be sent |
| ChatInterface.Chat.SendMessage | src/components/ChatInterface.tsx:65-88 | the new state is `SendState` of the old one |
| ChatInterface.Chat.ReceiveReply | src/components/ChatInterface.tsx:79-87 | the canned AI reply is appended after the unchanged log and one fewer reply is due |
| ChatInterface.Chat.Handle | src/components/ChatInterface.tsx:65-193 | the new state is `Apply` of the old one; the old log is a prefix of the new one, and a consistent state stays consistent |

## Left out

- JSX markup, CSS classes, icons and layout are presentation only. So are
  `renderStepContent`'s cards, apart from which step renders the name input and
  the role cards.
- HeroSection, Navigation and the Index page are static markup with no decision
  logic. `AgentCard` and the `@/components/ui/*` primitives are not part of this
  model.
- AgentsDirectory.FilterIgnoresQueryCase: holds for ASCII letters only. The
  model's `toLowerCase` changes only `A`-`Z`, because full Unicode case mapping
  is not modelled.
- ChatInterface.Abbreviate (with SliceFirst and SliceLast): counts Unicode code
  points, while JavaScript's `length` and `slice` count UTF-16 code units. Only
  hashes within the Basic Multilingual Plane, such as hex hashes, are shown
  exactly as the component shows them; a longer character could be split there.
- Agent ratings are kept as `real` and play no part in any property.
- ChatInterface.Chat.SendMessage: the reply timer is modelled as a count of
  replies due plus a separate `ReceiveReply` step. The one-second delay and its
  interleaving with other events are modelled only through that count.
- Message ids (`Date.now()`), timestamps and `formatTime` depend on the clock
  and the locale. They are left out of `Message`.
- The wallet buttons, the uncontrolled step-4 inputs and the "Deploy Agent"
  button have no behaviour.
- The search input's and role buttons' setters in AgentsDirectory only replace
  `searchQuery` and `selectedRole`. They are modelled as the parameters of
  `FilterAgents`.
