/** The complaint agent's dialogue step (`process_conversation`), its routing
    function (`should_continue`), the submission node (`submit_complaint`) and
    the two-node graph that wires them together.

    Every call to the language model is a call of the oracle `llm`, which
    maps a prompt to the completion text or to the exception it raised. The
    prompt records only what the source interpolates into its template. */
module ComplaintAgent {
  import opened Wrappers
  import opened Text

  datatype Role = User | Assistant

  /** A `HumanMessage` (role `User`) or an `AIMessage` (role `Assistant`). */
  datatype Message = Message(role: Role, content: string)

  /** `AgentState`: the message history and the five dialogue fields. */
  datatype AgentState = AgentState(
    messages: seq<Message>,
    complaint: Option<string>,
    mobileNumber: Option<string>,
    summary: Option<string>,
    confirmation: Option<bool>,
    submitted: bool)

  /** Python truthiness of an `Optional[str]`: neither `None` nor `""`. */
  predicate Present(o: Option<string>)
    ensures Present(o) ==> o.Some? && |o.value| > 0
  {
    o.Some? && o.value != ""
  }

  /** Python's `a or b` on two `Optional[str]` values: the first operand when
      it is truthy, otherwise the second; so the result is truthy exactly
      when one of the operands is. */
  function Or(a: Option<string>, b: Option<string>): (r: Option<string>)
    ensures Present(a) ==> r == a
    ensures !Present(a) ==> r == b
    ensures Present(r) <==> Present(a) || Present(b)
  {
    if Present(a) then a else b
  }

  /** The goal handed to the model for the reply, one per branch of the
      instruction chain. */
  datatype Instruction =
    | AskForComplaint
    | AskForMobile
    | GenerateSummary
    | PresentSummary(summary: string)
    | OfferStartOver
    | ThankAndAnnounceSubmission
    | ThankForPatience

  /** The four prompts the step sends, with the values they interpolate. */
  datatype Prompt =
    | ExtractComplaint(message: string)
    | ExtractMobile(message: string)
    | SummarizeComplaint(complaint: string, mobileNumber: string)
    | Respond(instruction: Instruction, history: seq<string>)

  /** What `llm.invoke` gives back: the response content, or the exception. */
  datatype Completion = Completion(content: string) | Raised(error: string)

  /** Results of `should_continue`. */
  datatype Route = CollectInfo | Summarize | GetConfirmation | Submit | End

  /** The graph's nodes reachable after `process`. */
  datatype Node = SubmitNode | EndNode

  const AffirmativeWords: seq<string> := ["yes", "confirm", "correct", "right", "submit"]
  const NegativeWords: seq<string> := ["no", "not", "wrong", "incorrect", "cancel"]

  const ReplyWhenEmpty: string := "I'm here to help you submit your complaint. How can I assist you today?"
  const ReplyWhenRaised: string := "I'm here to help you submit your complaint. Could you please describe your issue?"

  // ---------------------------------------------------------------------
  // Finding the latest user message
  // ---------------------------------------------------------------------

  /** Content of the last user message, if there is one. */
  function LastUserMessage(messages: seq<Message>): (r: Option<string>)
    ensures r.None? <==> forall k :: 0 <= k < |messages| ==> messages[k].role != User
    ensures r.Some? ==> exists k :: 0 <= k < |messages| && messages[k] == Message(User, r.value)
                                    && forall j :: k < j < |messages| ==> messages[j].role != User
  {
    if messages == [] then None
    else if messages[|messages| - 1].role == User then Some(messages[|messages| - 1].content)
    else
      var prefix := messages[..|messages| - 1];
      assert forall k :: 0 <= k < |prefix| ==> prefix[k] == messages[k];
      var r := LastUserMessage(prefix);
      assert (exists k :: 0 <= k < |messages| && messages[k].role == User) ==>
               exists k :: 0 <= k < |prefix| && prefix[k].role == User;
      r
  }

  /** The reverse scan with `break` that finds the last user message. */
  method FindLastUserMessage(messages: seq<Message>) returns (last: Option<string>)
    ensures last == LastUserMessage(messages)
  {
    last := None;
    var i := |messages|;
    while i > 0
      invariant 0 <= i <= |messages|
      invariant LastUserMessage(messages[..i]) == LastUserMessage(messages)
      invariant last == None
    {
      assert messages[..i][..i - 1] == messages[..i - 1];
      i := i - 1;
      if messages[i].role == User {
        last := Some(messages[i].content);
        break;
      }
    }
    if last.None? {
      assert messages[..i] == [];
    }
  }

  // ---------------------------------------------------------------------
  // Acceptance rules applied to the model's extraction output
  // ---------------------------------------------------------------------

  /** A complaint is the stripped output when it is not the marker "none"
      (in any case) and is longer than 10 characters. Since the marker has
      only 4 characters, the length test alone decides. */
  function AcceptComplaint(output: string): (r: Option<string>)
    ensures r.Some? <==> |Strip(output)| > 10
    ensures r.Some? ==> r.value == Strip(output) && Lower(r.value) != "none"
  {
    var extracted := Strip(output);
    if Lower(extracted) != "none" && |extracted| > 10 then Some(extracted) else None
  }

  /** A mobile number is the digits of the output when there are at least 10
      of them; whitespace stripping has no effect on that digit string. */
  function AcceptMobile(output: string): (r: Option<string>)
    ensures r.Some? <==> |DigitsOnly(output)| >= 10
    ensures r.Some? ==> r.value == DigitsOnly(output) && AllDigits(r.value)
  {
    DigitsOnlyOfStrip(output);
    var digits := DigitsOnly(Strip(output));
    if digits != [] && |digits| >= 10 then Some(digits) else None
  }

  /** Keyword classification of a reply to the summary: an affirmative word
      anywhere in the lower-cased message confirms, even when a negative word
      is present too; otherwise a negative word declines; otherwise the
      answer stays undecided. */
  function ClassifyConfirmation(message: string): (r: Option<bool>)
    ensures r == Some(true) <==>
      exists k :: 0 <= k < |AffirmativeWords| && Contains(Lower(message), AffirmativeWords[k])
    ensures r == Some(false) <==>
      (forall k :: 0 <= k < |AffirmativeWords| ==> !Contains(Lower(message), AffirmativeWords[k]))
      && exists k :: 0 <= k < |NegativeWords| && Contains(Lower(message), NegativeWords[k])
    ensures r.None? <==>
      (forall k :: 0 <= k < |AffirmativeWords| ==> !Contains(Lower(message), AffirmativeWords[k]))
      && (forall k :: 0 <= k < |NegativeWords| ==> !Contains(Lower(message), NegativeWords[k]))
  {
    var lowered := Lower(message);
    ContainsAnyIff(lowered, AffirmativeWords);
    ContainsAnyIff(lowered, NegativeWords);
    if ContainsAny(lowered, AffirmativeWords) then Some(true)
    else if ContainsAny(lowered, NegativeWords) then Some(false)
    else None
  }

  // ---------------------------------------------------------------------
  // The guarded steps that fill the `updates` dictionary
  // ---------------------------------------------------------------------

  /** The complaint step: runs only without a complaint and with a user
      message; an exception from the model escapes the step. */
  function ComplaintUpdate(complaint: Option<string>, lastUser: Option<string>, llm: Prompt -> Completion)
    : (r: Result<Option<string>>)
    ensures !Present(complaint) && Present(lastUser) ==>
      && (r.Err? <==> llm(ExtractComplaint(lastUser.value)).Raised?)
      && (r.Err? ==> llm(ExtractComplaint(lastUser.value)) == Raised(r.error))
      && (r.Ok? && r.value.Some? <==>
            llm(ExtractComplaint(lastUser.value)).Completion?
            && |Strip(llm(ExtractComplaint(lastUser.value)).content)| > 10)
      && (r.Ok? && r.value.Some? ==> r.value.value == Strip(llm(ExtractComplaint(lastUser.value)).content))
    ensures Present(complaint) || !Present(lastUser) ==> r == Ok(None)
  {
    if !Present(complaint) && Present(lastUser) then
      match llm(ExtractComplaint(lastUser.value))
      case Raised(e) => Err(e)
      case Completion(output) => Ok(AcceptComplaint(output))
    else Ok(None)
  }

  /** The mobile-number step: runs only without a number and with a user
      message. */
  function MobileUpdate(mobileNumber: Option<string>, lastUser: Option<string>, llm: Prompt -> Completion)
    : (r: Result<Option<string>>)
    ensures !Present(mobileNumber) && Present(lastUser) ==>
      && (r.Err? <==> llm(ExtractMobile(lastUser.value)).Raised?)
      && (r.Err? ==> llm(ExtractMobile(lastUser.value)) == Raised(r.error))
      && (r.Ok? && r.value.Some? <==>
            llm(ExtractMobile(lastUser.value)).Completion?
            && |DigitsOnly(llm(ExtractMobile(lastUser.value)).content)| >= 10)
      && (r.Ok? && r.value.Some? ==>
            r.value.value == DigitsOnly(llm(ExtractMobile(lastUser.value)).content) && AllDigits(r.value.value))
    ensures Present(mobileNumber) || !Present(lastUser) ==> r == Ok(None)
  {
    if !Present(mobileNumber) && Present(lastUser) then
      match llm(ExtractMobile(lastUser.value))
      case Raised(e) => Err(e)
      case Completion(output) => Ok(AcceptMobile(output))
    else Ok(None)
  }

  /** The summary step: runs only without a summary and once both facts are
      known; the stripped output is stored whatever it is, even empty. */
  function SummaryUpdate(summary: Option<string>, complaint: Option<string>, mobileNumber: Option<string>,
                         llm: Prompt -> Completion): (r: Result<Option<string>>)
    ensures !Present(summary) && Present(complaint) && Present(mobileNumber) ==>
      && (r.Err? <==> llm(SummarizeComplaint(complaint.value, mobileNumber.value)).Raised?)
      && (r.Err? ==> llm(SummarizeComplaint(complaint.value, mobileNumber.value)) == Raised(r.error))
      && (r.Ok? ==> r.value == Some(Strip(llm(SummarizeComplaint(complaint.value, mobileNumber.value)).content)))
    ensures Present(summary) || !Present(complaint) || !Present(mobileNumber) ==> r == Ok(None)
  {
    if !Present(summary) && Present(complaint) && Present(mobileNumber) then
      match llm(SummarizeComplaint(complaint.value, mobileNumber.value))
      case Raised(e) => Err(e)
      case Completion(output) => Ok(Some(Strip(output)))
    else Ok(None)
  }

  /** The confirmation step: decided from the user message only when a
      summary existed before this turn and no answer was recorded yet. */
  function ConfirmationUpdate(summary: Option<string>, confirmation: Option<bool>, lastUser: Option<string>)
    : (r: Option<bool>)
    ensures r.Some? ==> Present(summary) && confirmation.None? && Present(lastUser)
    ensures Present(summary) && confirmation.None? && Present(lastUser) ==>
      && (r == Some(true) <==>
            exists k :: 0 <= k < |AffirmativeWords| && Contains(Lower(lastUser.value), AffirmativeWords[k]))
      && (r.None? <==>
            (forall k :: 0 <= k < |AffirmativeWords| ==> !Contains(Lower(lastUser.value), AffirmativeWords[k]))
            && (forall k :: 0 <= k < |NegativeWords| ==> !Contains(Lower(lastUser.value), NegativeWords[k])))
  {
    if Present(summary) && confirmation.None? && Present(lastUser) then ClassifyConfirmation(lastUser.value)
    else None
  }

  /** The `updates` dictionary: `None` means the key was not inserted. */
  datatype Updates = Updates(
    complaint: Option<string>,
    mobileNumber: Option<string>,
    summary: Option<string>,
    confirmation: Option<bool>)

  function Override<T>(update: Option<T>, current: Option<T>): Option<T> {
    if update.Some? then update else current
  }

  /** `{**state, **updates}`: an inserted key replaces the state's value,
      every other key, `messages` and `submitted` included, is kept. */
  function Merge(s: AgentState, u: Updates): (r: AgentState)
    ensures r.messages == s.messages && r.submitted == s.submitted
    ensures u.complaint.Some? ==> r.complaint == u.complaint
    ensures u.complaint.None? ==> r.complaint == s.complaint
    ensures u.mobileNumber.Some? ==> r.mobileNumber == u.mobileNumber
    ensures u.mobileNumber.None? ==> r.mobileNumber == s.mobileNumber
    ensures u.summary.Some? ==> r.summary == u.summary
    ensures u.summary.None? ==> r.summary == s.summary
    ensures u.confirmation.Some? ==> r.confirmation == u.confirmation
    ensures u.confirmation.None? ==> r.confirmation == s.confirmation
    ensures u == Updates(None, None, None, None) ==> r == s
  {
    s.(complaint := Override(u.complaint, s.complaint),
       mobileNumber := Override(u.mobileNumber, s.mobileNumber),
       summary := Override(u.summary, s.summary),
       confirmation := Override(u.confirmation, s.confirmation))
  }

  // ---------------------------------------------------------------------
  // Choosing the instruction and producing the reply
  // ---------------------------------------------------------------------

  /** The three facts collected before confirmation is asked for. */
  predicate FactsCollected(s: AgentState) {
    Present(s.complaint) && Present(s.mobileNumber) && Present(s.summary)
  }

  /** The instruction chain: the first missing fact is asked for; once all
      are there, the confirmation answer and `submitted` decide. */
  function SelectInstruction(s: AgentState): (r: Instruction)
    ensures !Present(s.complaint) ==> r == AskForComplaint
    ensures r == AskForMobile <==> Present(s.complaint) && !Present(s.mobileNumber)
    ensures r == GenerateSummary <==> Present(s.complaint) && Present(s.mobileNumber) && !Present(s.summary)
    ensures r.PresentSummary? <==> FactsCollected(s) && s.confirmation.None?
    ensures r.PresentSummary? ==> r.summary == s.summary.value
    ensures r == OfferStartOver <==> FactsCollected(s) && s.confirmation == Some(false)
    ensures r == ThankAndAnnounceSubmission <==> FactsCollected(s) && s.confirmation == Some(true) && !s.submitted
    ensures r == ThankForPatience <==> FactsCollected(s) && s.confirmation == Some(true) && s.submitted
  {
    if !Present(s.complaint) then AskForComplaint
    else if !Present(s.mobileNumber) then AskForMobile
    else if !Present(s.summary) then GenerateSummary
    else
      match s.confirmation
      case None => PresentSummary(s.summary.value)
      case Some(false) => OfferStartOver
      case Some(true) => if !s.submitted then ThankAndAnnounceSubmission else ThankForPatience
  }

  /** `messages[-5:]` */
  function RecentWindow(messages: seq<Message>): seq<Message> {
    if |messages| > 5 then messages[|messages| - 5..] else messages
  }

  function HistoryLine(m: Message): string {
    (if m.role == User then "User: " else "Assistant: ") + m.content
  }

  /** The context lines given to the model: one line per message among the
      last five, oldest first. */
  function History(messages: seq<Message>): (lines: seq<string>)
    ensures |lines| == if |messages| > 5 then 5 else |messages|
    ensures forall i :: 0 <= i < |lines| ==> lines[i] == HistoryLine(messages[|messages| - |lines| + i])
  {
    var window := RecentWindow(messages);
    seq(|window|, i requires 0 <= i < |window| => HistoryLine(window[i]))
  }

  /** The loop that renders the context lines. */
  method RenderHistory(messages: seq<Message>) returns (lines: seq<string>)
    ensures lines == History(messages)
  {
    var window := if |messages| > 5 then messages[|messages| - 5..] else messages;
    lines := [];
    for i := 0 to |window|
      invariant |lines| == i
      invariant forall k :: 0 <= k < i ==> lines[k] == HistoryLine(window[k])
    {
      if window[i].role == User {
        lines := lines + ["User: " + window[i].content];
      } else {
        lines := lines + ["Assistant: " + window[i].content];
      }
    }
  }

  /** The reply text: the stripped completion, or a fixed fallback when it is
      empty or the call raised. Never empty. */
  function ReplyText(c: Completion): (r: string)
    ensures r != ""
    ensures c.Completion? && Strip(c.content) != "" ==> r == Strip(c.content)
    ensures c.Completion? && Strip(c.content) == "" ==> r == ReplyWhenEmpty
    ensures c.Raised? ==> r == ReplyWhenRaised
  {
    match c
    case Raised(_) => ReplyWhenRaised
    case Completion(content) =>
      var text := Strip(content);
      if text == "" then ReplyWhenEmpty else text
  }

  // ---------------------------------------------------------------------
  // process_conversation
  // ---------------------------------------------------------------------

  /** The dialogue step as a function of the state and the model. */
  function Process(s: AgentState, llm: Prompt -> Completion): (r: Result<AgentState>)
    ensures r.Ok? ==> |r.value.messages| == |s.messages| + 1 && r.value.submitted == s.submitted
  {
    var lastUser := LastUserMessage(s.messages);
    var complaintU :- ComplaintUpdate(s.complaint, lastUser, llm);
    var mobileU :- MobileUpdate(s.mobileNumber, lastUser, llm);
    var summaryU :- SummaryUpdate(s.summary, Or(complaintU, s.complaint), Or(mobileU, s.mobileNumber), llm);
    var updates := Updates(complaintU, mobileU, summaryU, ConfirmationUpdate(s.summary, s.confirmation, lastUser));
    var current := Merge(s, updates);
    var reply := ReplyText(llm(Respond(SelectInstruction(current), History(s.messages))));
    Ok(current.(messages := s.messages + [Message(Assistant, reply)]))
  }

  /** `process_conversation`, statement by statement. */
  method ProcessConversation(s: AgentState, llm: Prompt -> Completion) returns (r: Result<AgentState>)
    ensures r == Process(s, llm)
  {
    var lastUserMessage := FindLastUserMessage(s.messages);
    var updates := Updates(None, None, None, None);
    ghost var complaintU := ComplaintUpdate(s.complaint, lastUserMessage, llm);

    if !Present(s.complaint) && Present(lastUserMessage) {
      var response := llm(ExtractComplaint(lastUserMessage.value));
      if response.Raised? {
        return Err(response.error);
      }
      var extracted := Strip(response.content);
      if Lower(extracted) != "none" && |extracted| > 10 {
        updates := updates.(complaint := Some(extracted));
      }
    }
    assert complaintU == Ok(updates.complaint);
    ghost var mobileU := MobileUpdate(s.mobileNumber, lastUserMessage, llm);

    if !Present(s.mobileNumber) && Present(lastUserMessage) {
      var response := llm(ExtractMobile(lastUserMessage.value));
      if response.Raised? {
        return Err(response.error);
      }
      var digits := DigitsOnly(Strip(response.content));
      if digits != [] && |digits| >= 10 {
        updates := updates.(mobileNumber := Some(digits));
      }
    }
    assert mobileU == Ok(updates.mobileNumber);

    var currentComplaint := Or(updates.complaint, s.complaint);
    var currentMobile := Or(updates.mobileNumber, s.mobileNumber);
    ghost var summaryU := SummaryUpdate(s.summary, currentComplaint, currentMobile, llm);
    if !Present(s.summary) && Present(currentComplaint) && Present(currentMobile) {
      var response := llm(SummarizeComplaint(currentComplaint.value, currentMobile.value));
      if response.Raised? {
        return Err(response.error);
      }
      updates := updates.(summary := Some(Strip(response.content)));
    }
    assert summaryU == Ok(updates.summary);

    if Present(s.summary) && s.confirmation.None? && Present(lastUserMessage) {
      var lowered := Lower(lastUserMessage.value);
      if ContainsAny(lowered, AffirmativeWords) {
        updates := updates.(confirmation := Some(true));
      } else if ContainsAny(lowered, NegativeWords) {
        updates := updates.(confirmation := Some(false));
      }
    }
    assert updates.confirmation == ConfirmationUpdate(s.summary, s.confirmation, lastUserMessage);

    var current := Merge(s, updates);
    var instruction := SelectInstruction(current);
    var history := RenderHistory(s.messages);
    var responseText := ReplyText(llm(Respond(instruction, history)));
    r := Ok(current.(messages := s.messages + [Message(Assistant, responseText)]));
  }

  // ---------------------------------------------------------------------
  // should_continue, submit_complaint and the graph
  // ---------------------------------------------------------------------

  /** `should_continue`: a submitted state always ends; otherwise the first
      missing piece decides, and a recorded answer routes to submission
      (confirmed) or to the end (declined). */
  function ShouldContinue(s: AgentState): (r: Route)
    ensures s.submitted ==> r == End
    ensures !s.submitted ==> (r == CollectInfo <==> !Present(s.complaint) || !Present(s.mobileNumber))
    ensures !s.submitted ==> (r == Summarize <==> Present(s.complaint) && Present(s.mobileNumber) && !Present(s.summary))
    ensures !s.submitted ==> (r == GetConfirmation <==> FactsCollected(s) && s.confirmation.None?)
    ensures r == Submit <==> !s.submitted && FactsCollected(s) && s.confirmation == Some(true)
    ensures !s.submitted ==> (r == End <==> FactsCollected(s) && s.confirmation == Some(false))
  {
    if s.submitted then End
    else if !Present(s.complaint) || !Present(s.mobileNumber) then CollectInfo
    else if !Present(s.summary) then Summarize
    else
      match s.confirmation
      case None => GetConfirmation
      case Some(true) => Submit
      case Some(false) => End
  }

  /** The conditional-edge map of `create_complaint_agent`: only `submit`
      leads to the submission node, every other route ends the turn. */
  function NextNode(route: Route): (n: Node)
    ensures n == SubmitNode <==> route == Submit
  {
    match route
    case CollectInfo => EndNode
    case Summarize => EndNode
    case GetConfirmation => EndNode
    case Submit => SubmitNode
    case End => EndNode
  }

  /** `submit_complaint`: marks the state submitted and changes nothing else
      (the printing is not modelled). */
  function SubmitComplaint(s: AgentState): (r: AgentState)
    ensures r.submitted
    ensures r.(submitted := s.submitted) == s
  {
    s.(submitted := true)
  }

  /** One run of the compiled graph: `process`, then `submit` when the route
      says so, then the end. */
  function RunAgent(s: AgentState, llm: Prompt -> Completion): (r: Result<AgentState>)
    ensures r.Ok? <==> Process(s, llm).Ok?
    ensures r.Err? ==> r == Process(s, llm)
  {
    var processed :- Process(s, llm);
    if NextNode(ShouldContinue(processed)) == SubmitNode then Ok(SubmitComplaint(processed))
    else Ok(processed)
  }

  /** `agent.invoke(state)`: runs the nodes in graph order. */
  method InvokeAgent(s: AgentState, llm: Prompt -> Completion) returns (r: Result<AgentState>)
    ensures r == RunAgent(s, llm)
  {
    r := ProcessConversation(s, llm);
    if r.Ok? {
      var route := ShouldContinue(r.value);
      if NextNode(route) == SubmitNode {
        r := Ok(SubmitComplaint(r.value));
      }
    }
  }
}
