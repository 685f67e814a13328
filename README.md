# Complaint-intake agent: a Dafny model of the dialogue step

The modelled system is a chat agent that collects a customer complaint and a
mobile number. It then has a language model summarise them, asks the
customer to confirm the summary, and marks the complaint submitted once the
customer agrees. This project models one turn of that dialogue:

- `process_conversation` runs the guarded extraction steps for the
  complaint, the number and the summary. It classifies a confirmation by
  keywords, merges the updates into the state, picks the next instruction
  from a priority chain and appends exactly one assistant reply.
- `should_continue` routes the graph.
- `submit_complaint` is the submission node.
- `process_user_message` wraps one turn for the HTTP and chat front ends.
  It rebuilds the state from the session dictionary and appends the user's
  message. It handles a failing run, picks the reply and keeps the last ten
  messages.

Every call to the language model is an oracle `llm: Prompt -> Completion`.
The oracle returns the completion text or the exception the call raised.
A `Prompt` records only the values the source interpolates into its
template. The model's outputs are therefore inputs to the model, and
everything else is deterministic.

Files:

- `wrappers.dfy`: `Option` and `Result` (an exception's text in `Err`).
- `text.dfy`: Python's `strip`, `lower`, the digit filter and the substring
  test, with their properties.
- `complaint_agent.dfy`: `AgentState` and the dialogue step. It holds
  `ProcessConversation`, a method that follows the source statement by
  statement and is proved equal to the function `Process`. It also holds
  `ShouldContinue`, `SubmitComplaint`, the routing map `NextNode`, and the
  graph run (`RunAgent` and the method `InvokeAgent`).
- `agent_properties.dfy`: what one step and one graph run guarantee.
- `utils.dfy`: `process_user_message`. The method `ProcessUserMessage` is
  proved equal to the function `Turn`.
- `turn_properties.dfy`: what a turn guarantees. It also proves an
  invariant kept by every turn of a conversation in which each returned
  state is handed back in, as both front ends do.

Some consequences of the source that the proofs make explicit:

- The complaint's "none" marker test never decides anything. The marker has
  four characters, and the length test already demands more than ten
  (`AcceptComplaint`).
- Stripping before the digit filter changes nothing (`Text.DigitsOnlyOfStrip`).
- "not correct" confirms, because an affirmative word is searched first and
  "correct" occurs in it (`NegatedAffirmativeConfirms`).
- A declined summary is final. The answer is read only while it is
  undecided, and nothing clears it. Every later turn therefore offers to
  start over, and the complaint can never be submitted (`DeclineIsFinal`).
- After a successful turn the stored history holds at most ten messages.
  After a failing turn it is returned untruncated, with the user's message
  appended (`TurnFailure`).

## Model

| member | source | states |
|---|---|---|
| `Text.IsSpace` | src/agent/complaint_agent.py:59 | the character set `str.strip()` removes, Python's `str.isspace`: it includes tab to carriage return and the blank, and no digit |
| `Text.Strip` | src/agent/complaint_agent.py:59 | `str.strip()`: the result is the infix of the input left after dropping only whitespace at both ends, and it neither starts nor ends with whitespace |
| `Text.StripIdempotent` | src/agent/complaint_agent.py:59 | stripping a stripped text changes nothing |
| `Text.Lower` | src/agent/complaint_agent.py:91 | `str.lower()` on ASCII: same length, each letter lower-cased, every other character kept |
| `Text.LowerIdempotent` | src/agent/complaint_agent.py:91 | lower-casing twice equals lower-casing once |
| `Text.DigitsOnly` | src/agent/complaint_agent.py:72 | the digit filter returns only digits and is never longer than its input |
| `Text.DigitsOnlyOfStrip` | src/agent/complaint_agent.py:70-72 | filtering the stripped output gives the same digits as filtering the raw output |
| `Text.Contains` | src/agent/complaint_agent.py:92 | the substring test `w in s`: the empty word is in every text, and a word longer than the text is never in it; `ContainsIff` characterises it fully |
| `Text.ContainsIff` | src/agent/complaint_agent.py:92 | the substring test `w in s` holds exactly when `w` occurs at some position of `s` |
| `Text.ContainsAny` | src/agent/complaint_agent.py:92 | `any(w in s for w in words)`: false for an empty list, and for one word it is that word's test; `ContainsAnyIff` characterises it fully |
| `Text.ContainsAnyIff` | src/agent/complaint_agent.py:92 | `any(w in s for w in words)` holds exactly when some listed word occurs in `s` |
| `ComplaintAgent.LastUserMessage` | src/agent/complaint_agent.py:43-48 | none exactly when no user message exists; otherwise the content of a user message after which no user message follows |
| `ComplaintAgent.FindLastUserMessage` | src/agent/complaint_agent.py:43-48 | the reverse scan with `break` returns the last user message's content |
| `ComplaintAgent.AcceptComplaint` | src/agent/complaint_agent.py:59-61 | a complaint is accepted exactly when the stripped output is longer than 10 characters; it is then the stripped output, and it is never the marker "none" in any case |
| `ComplaintAgent.AcceptMobile` | src/agent/complaint_agent.py:70-74 | a number is accepted exactly when the output holds at least 10 digits; it is then those digits in order, and nothing else |
| `ComplaintAgent.ClassifyConfirmation` | src/agent/complaint_agent.py:91-95 | true exactly when an affirmative word occurs in the lower-cased message; false exactly when no affirmative word and some negative word occurs; undecided exactly when neither occurs |
| `ComplaintAgent.Present` | src/agent/complaint_agent.py:53 | Python truthiness of an optional string (`not complaint`, `if last_user_message`): a truthy value is present and non-empty |
| `ComplaintAgent.Or` | src/agent/complaint_agent.py:77-78 | `a or b`: the first operand when it is truthy, otherwise the second; the result is truthy exactly when one operand is |
| `ComplaintAgent.ComplaintUpdate` | src/agent/complaint_agent.py:52-61 | without a complaint and with a user message: fails exactly when the extraction call raised, with that exception, and inserts a complaint exactly when the stripped output is longer than 10 characters, as that stripped output; otherwise inserts nothing; its effect on the step is `AgentProperties.ComplaintRule` |
| `ComplaintAgent.MobileUpdate` | src/agent/complaint_agent.py:63-74 | without a number and with a user message: fails exactly when the extraction call raised, and inserts a number exactly when the output has at least 10 digits, as those digits; otherwise inserts nothing; its effect on the step is `AgentProperties.MobileRule` |
| `ComplaintAgent.SummaryUpdate` | src/agent/complaint_agent.py:76-87 | without a summary and with both facts: fails exactly when the summary call raised, and otherwise inserts the stripped output, even an empty one; otherwise inserts nothing; its effect on the step is `AgentProperties.SummaryRule` |
| `ComplaintAgent.ConfirmationUpdate` | src/agent/complaint_agent.py:89-95 | an answer is inserted only with an earlier summary, no recorded answer and a user message; then it is true exactly when an affirmative word occurs, and nothing is inserted exactly when no keyword of either list occurs; its effect on the step is `AgentProperties.ConfirmationRule` |
| `ComplaintAgent.Merge` | src/agent/complaint_agent.py:98 | `{**state, **updates}`: each inserted key replaces the state's value, every other field is kept, and no updates leave the state unchanged |
| `ComplaintAgent.SelectInstruction` | src/agent/complaint_agent.py:107-120 | the priority chain: no complaint asks for it whatever the other fields hold; then no number; then no summary; then each answer (undecided, declined, confirmed before or after submission) selects its own instruction, each in both directions |
| `ComplaintAgent.History` | src/agent/complaint_agent.py:124 | the context is one line per message among the last five, oldest first |
| `ComplaintAgent.RenderHistory` | src/agent/complaint_agent.py:123-128 | the loop builds exactly those context lines |
| `ComplaintAgent.ReplyText` | src/agent/complaint_agent.py:139-147 | the reply is never empty: it is the stripped completion when that is non-empty, a fixed text when it is empty, and another fixed text when the call raised |
| `ComplaintAgent.Process` | src/agent/complaint_agent.py:35-155 | the step as a function: a successful step appends one message and leaves `submitted` alone; its full behaviour is stated by the `AgentProperties` lemmas |
| `ComplaintAgent.ProcessConversation` | src/agent/complaint_agent.py:35-155 | the imperative step equals the step function `Process`, whose properties are the `AgentProperties` lemmas |
| `ComplaintAgent.ShouldContinue` | src/agent/complaint_agent.py:158-181 | a submitted state ends; otherwise a missing complaint or number collects info, then a missing summary summarises, an undecided answer asks for confirmation, a confirmation submits and a decline ends |
| `ComplaintAgent.NextNode` | src/agent/complaint_agent.py:214-225 | only the `submit` route leads to the submission node; every other route ends the turn |
| `ComplaintAgent.SubmitComplaint` | src/agent/complaint_agent.py:184-199 | sets `submitted` and leaves every other field as it was |
| `ComplaintAgent.RunAgent` | src/agent/complaint_agent.py:203-229 | one graph run: it fails exactly when the step fails, with the step's exception; what it submits is proved in `AgentProperties.SubmitOnlyWhenConfirmed` |
| `ComplaintAgent.InvokeAgent` | src/agent/complaint_agent.py:203-229 | `agent.invoke` as called from `process_user_message`: running the nodes in graph order equals `RunAgent`, about which the graph's properties (`AgentProperties.SubmitOnlyWhenConfirmed`) are proved |
| `AgentProperties.ProcessAppendsOneReply` | src/agent/complaint_agent.py:149-155 | the step keeps the old history and appends exactly one non-empty assistant reply, generated for the instruction chosen from the merged state; `submitted` is untouched |
| `AgentProperties.ProcessErrorComesFromExtraction` | src/agent/complaint_agent.py:53-87 | a step fails only with the exception of a call it sent: the complaint or number extraction from the last user message, or the summary of the facts known after both; the reply call never makes it fail |
| `AgentProperties.ComplaintRule` | src/agent/complaint_agent.py:52-61 | an existing complaint is never overwritten; a new one appears only without a complaint, with a user message and with a stripped output that is not "none" and is longer than 10 characters; such an output is always taken |
| `AgentProperties.MobileRule` | src/agent/complaint_agent.py:63-74 | an existing number is never re-extracted; a new one appears only without a number and with a user message, holds only digits and has at least 10 of them; such an output is always taken |
| `AgentProperties.CurrentFacts` | src/agent/complaint_agent.py:77-78 | `updates.get(...) or old` gives the same complaint and number as the merged state |
| `AgentProperties.SummaryRule` | src/agent/complaint_agent.py:76-87 | a summary is generated exactly when none (or an empty one) exists and both facts are known, counting those found in this step; otherwise the old summary stays |
| `AgentProperties.ConfirmationRule` | src/agent/complaint_agent.py:89-95 | the answer is classified only when a summary existed before this step, no answer was recorded and a user message exists; a summary made in this step is never confirmed by the same message; a recorded answer never changes |
| `AgentProperties.ClassifyIgnoresCase` | src/agent/complaint_agent.py:91 | classification gives the same answer for a message and its lower-cased form |
| `AgentProperties.AffirmativeTakesPrecedence` | src/agent/complaint_agent.py:92-95 | a message with both an affirmative and a negative word confirms |
| `AgentProperties.NegatedAffirmativeConfirms` | src/agent/complaint_agent.py:92 | "not correct" is classified as a confirmation |
| `AgentProperties.RouteAgreesWithInstruction` | src/agent/complaint_agent.py:158-181 | before submission, `should_continue` takes exactly the route that matches the chosen instruction; after it, the route is the end |
| `AgentProperties.SubmitOnlyWhenConfirmed` | src/agent/complaint_agent.py:214-227 | a graph run marks the state submitted exactly when it already was, or when the processed state is complete and confirmed; nothing else differs from the processed state |
| `AgentProperties.ConfirmationSubmitsInSameRun` | src/agent/complaint_agent.py:117-118 | a step that records a confirmation on complete facts announces the submission, and the same run submits |
| `Utils.LastAssistantReply` | src/agent/utils.py:57-63 | the default text when no assistant message has content; otherwise the content of a non-empty assistant message after which none follows |
| `Utils.SelectReply` | src/agent/utils.py:57-63 | the reverse scan with `break` returns exactly that reply |
| `Utils.KeepRecent` | src/agent/utils.py:72 | the kept history has at most ten entries and is a suffix of the agent's history; a history of at most ten entries is kept whole |
| `Utils.InitialState` | src/agent/utils.py:23-42 | no dictionary, or one without messages, gives empty messages, no facts, no answer and `submitted` false; otherwise exactly the six known keys are copied, and a missing `submitted` reads as false |
| `Utils.WithUserMessage` | src/agent/utils.py:44-46 | exactly one user message carrying the input is appended at the end, and nothing else changes |
| `Utils.Turn` | src/agent/utils.py:10-73 | one turn as a function: the reply is never empty, and the stored history is non-empty and grows by at most the user message and the reply; its full behaviour is `TurnProperties.TurnFailure` and `TurnProperties.TurnTranscript` |
| `Utils.ProcessUserMessage` | src/agent/utils.py:10-73 | the imperative turn equals the turn function `Turn`, whose properties are the `TurnProperties` lemmas |
| `TurnProperties.UnknownKeysIgnored` | src/agent/utils.py:33-42 | keys the agent does not know, such as `customer_data` or `is_registered`, never change a turn's outcome |
| `TurnProperties.SessionRoundTrip` | src/agent/utils.py:66-73 | a returned state handed back in is rebuilt unchanged |
| `TurnProperties.TurnFailure` | src/agent/utils.py:50-55 | a failing run returns a reply that starts with the fixed error prefix, and the copied state with only the user message added; the failure came from an extraction call |
| `TurnProperties.TurnTranscript` | src/agent/utils.py:57-73 | a successful turn returns the non-empty generated reply; the stored history is the last ten entries of the old history plus the user message and that reply; the other fields are the run's |
| `TurnProperties.ProcessKeepsConsistent` | src/agent/complaint_agent.py:50-98 | the step keeps the dialogue invariant: a complaint is stripped and has more than 10 characters, a number has only digits and at least 10 of them, a summary needs both facts, an answer needs a summary, and submission needs a confirmation |
| `TurnProperties.RunAgentKeepsConsistent` | src/agent/complaint_agent.py:203-229 | a graph run keeps the dialogue invariant |
| `TurnProperties.TurnKeepsConsistent` | src/agent/utils.py:10-73 | a turn keeps the dialogue invariant, on success and on failure |
| `TurnProperties.TurnWriteOnce` | src/agent/utils.py:33-73 | a turn never replaces a recorded complaint, number, summary or answer, and never resets `submitted` |
| `TurnProperties.FreshStateConsistent` | src/agent/utils.py:24-32 | the fresh state satisfies the dialogue invariant |
| `TurnProperties.ConversationKeepsConsistent` | src/agent/utils.py:10-73 | every state of a conversation that starts consistent is consistent |
| `TurnProperties.ConversationWriteOnce` | src/agent/utils.py:10-73 | over any number of turns, recorded facts stay and submission is never undone |
| `TurnProperties.DeclineIsFinal` | src/agent/complaint_agent.py:89-120 | after a decline, every later state keeps the decline, is not submitted and selects the start-over instruction |
| `TurnProperties.FirstTurnAsksForMobile` | src/agent/complaint_agent.py:107-110 | a first message with an accepted complaint and too few digits records the complaint and generates the reply that asks for the number |
| `TurnProperties.ConfirmingReplySubmits` | src/agent/complaint_agent.py:89-118 | once the summary was shown, a reply with an affirmative word confirms and submits in the same turn, whatever the model answers |

## Left out

- Language-model calls (`ChatOpenAI`, `llm.invoke`, prompt wording, temperature, API keys and `load_dotenv`) are the oracle `llm`. Each turn takes its own oracle, so answers may differ between turns. Within one turn no prompt is sent twice.
- LangGraph mechanics (`StateGraph`, `compile`, the `add_messages` reducer, `recursion_limit`) are modelled by their net effect: one appended reply, then a route chosen by `should_continue`.
- The `print` calls in `submit_complaint` and in the reply's error path are output only.
- `Text.Lower` and `Text.DigitsOnly`: only ASCII letters are lower-cased and only ASCII digits count as digits. Python's `str.lower` and `str.isdigit` also act on other Unicode characters.
- Message kinds other than user and assistant messages are not modelled. The source only ever stores these two.
- A session dictionary is modelled with well-typed values, one per key (`None` means the key is absent). A key that is present but holds `None`, such as `submitted`, is treated as absent. Unknown keys are kept in an opaque map.
- Exceptions other than the model's (for example, content that is not a string) are not modelled.
- `backend/main.py`, `streamlit_app.py` and the React front end are HTTP and UI plumbing around `process_user_message` and are not part of this model.
