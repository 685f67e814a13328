/** What one dialogue step and one graph run guarantee: the acceptance rules
    of each extraction, the write-once fields, the confirmation rule with its
    stale summary, the one appended reply, where a failure can come from, and
    the agreement between the instruction chain and the routing function. */
module AgentProperties {
  import opened Wrappers
  import opened Text
  import opened ComplaintAgent

  /** The working state just before the reply is generated. */
  function Merged(s: AgentState, llm: Prompt -> Completion): AgentState
    requires Process(s, llm).Ok?
  {
    Process(s, llm).value.(messages := s.messages)
  }

  /** The step appends exactly one assistant message, which is never empty
      and is the reply generated for the instruction chosen from the merged
      state; `submitted` is untouched. */
  lemma ProcessAppendsOneReply(s: AgentState, llm: Prompt -> Completion)
    requires Process(s, llm).Ok?
    ensures var p := Process(s, llm).value;
      && |p.messages| == |s.messages| + 1
      && p.messages[..|s.messages|] == s.messages
      && p.messages[|s.messages|].role == Assistant
      && p.messages[|s.messages|].content != ""
      && p.messages[|s.messages|].content
         == ReplyText(llm(Respond(SelectInstruction(Merged(s, llm)), History(s.messages))))
      && p.submitted == s.submitted
  {
  }

  /** A failing step failed in one of the three extraction calls it sent:
      the complaint or number extraction from the last user message, or the
      summary of the facts known after both; the reply call itself is
      guarded and never makes the step fail. */
  lemma ProcessErrorComesFromExtraction(s: AgentState, llm: Prompt -> Completion)
    requires Process(s, llm).Err?
    ensures var lastUser := LastUserMessage(s.messages);
      var e := Process(s, llm).error;
      || (!Present(s.complaint) && Present(lastUser) && llm(ExtractComplaint(lastUser.value)) == Raised(e))
      || (!Present(s.mobileNumber) && Present(lastUser) && llm(ExtractMobile(lastUser.value)) == Raised(e))
      || (&& ComplaintUpdate(s.complaint, lastUser, llm).Ok? && MobileUpdate(s.mobileNumber, lastUser, llm).Ok?
          && var c := Or(ComplaintUpdate(s.complaint, lastUser, llm).value, s.complaint);
             var m := Or(MobileUpdate(s.mobileNumber, lastUser, llm).value, s.mobileNumber);
             !Present(s.summary) && Present(c) && Present(m) && llm(SummarizeComplaint(c.value, m.value)) == Raised(e))
    ensures exists prompt: Prompt :: !prompt.Respond? && llm(prompt) == Raised(Process(s, llm).error)
  {
    var lastUser := LastUserMessage(s.messages);
    var complaintU := ComplaintUpdate(s.complaint, lastUser, llm);
    if complaintU.Err? {
      assert llm(ExtractComplaint(lastUser.value)) == Raised(Process(s, llm).error);
    } else {
      var mobileU := MobileUpdate(s.mobileNumber, lastUser, llm);
      if mobileU.Err? {
        assert llm(ExtractMobile(lastUser.value)) == Raised(Process(s, llm).error);
      } else {
        var c := Or(complaintU.value, s.complaint);
        var m := Or(mobileU.value, s.mobileNumber);
        assert llm(SummarizeComplaint(c.value, m.value)) == Raised(Process(s, llm).error);
      }
    }
  }

  /** The complaint is written once: an existing complaint is kept; a new one
      appears only when none existed, a user message exists and the model's
      stripped output passed the acceptance rule; and such an output is
      always taken. */
  lemma ComplaintRule(s: AgentState, llm: Prompt -> Completion)
    requires Process(s, llm).Ok?
    ensures var p := Process(s, llm).value;
      var lastUser := LastUserMessage(s.messages);
      && (Present(s.complaint) ==> p.complaint == s.complaint)
      && (p.complaint != s.complaint ==>
            && !Present(s.complaint) && Present(lastUser)
            && llm(ExtractComplaint(lastUser.value)).Completion?
            && var extracted := Strip(llm(ExtractComplaint(lastUser.value)).content);
               p.complaint == Some(extracted) && Lower(extracted) != "none" && |extracted| > 10)
      && (!Present(s.complaint) && Present(lastUser) && llm(ExtractComplaint(lastUser.value)).Completion?
          && |Strip(llm(ExtractComplaint(lastUser.value)).content)| > 10
          ==> p.complaint == Some(Strip(llm(ExtractComplaint(lastUser.value)).content)))
  {
  }

  /** The mobile number is written once, only from at least ten digits of the
      model's output, and holds nothing but digits. */
  lemma MobileRule(s: AgentState, llm: Prompt -> Completion)
    requires Process(s, llm).Ok?
    ensures var p := Process(s, llm).value;
      var lastUser := LastUserMessage(s.messages);
      && (Present(s.mobileNumber) ==> p.mobileNumber == s.mobileNumber)
      && (p.mobileNumber != s.mobileNumber ==>
            && !Present(s.mobileNumber) && Present(lastUser)
            && llm(ExtractMobile(lastUser.value)).Completion?
            && p.mobileNumber == Some(DigitsOnly(llm(ExtractMobile(lastUser.value)).content))
            && AllDigits(p.mobileNumber.value) && |p.mobileNumber.value| >= 10)
      && (!Present(s.mobileNumber) && Present(lastUser) && llm(ExtractMobile(lastUser.value)).Completion?
          && |DigitsOnly(llm(ExtractMobile(lastUser.value)).content)| >= 10
          ==> p.mobileNumber == Some(DigitsOnly(llm(ExtractMobile(lastUser.value)).content)))
  {
  }

  /** A value set by this step's update wins over the old one in `a or b`
      exactly as it does in the merge. */
  lemma CurrentFacts(s: AgentState, llm: Prompt -> Completion)
    requires Process(s, llm).Ok?
    ensures var p := Process(s, llm).value;
      var lastUser := LastUserMessage(s.messages);
      && Or(ComplaintUpdate(s.complaint, lastUser, llm).value, s.complaint) == p.complaint
      && Or(MobileUpdate(s.mobileNumber, lastUser, llm).value, s.mobileNumber) == p.mobileNumber
  {
  }

  /** A summary is generated exactly when none (or an empty one) existed and
      both facts are known after this step's own extractions; otherwise the
      old summary stays. */
  lemma SummaryRule(s: AgentState, llm: Prompt -> Completion)
    requires Process(s, llm).Ok?
    ensures var p := Process(s, llm).value;
      p.summary ==
        if !Present(s.summary) && Present(p.complaint) && Present(p.mobileNumber)
        then Some(Strip(llm(SummarizeComplaint(p.complaint.value, p.mobileNumber.value)).content))
        else s.summary
  {
    CurrentFacts(s, llm);
  }

  /** The answer to the summary is read from the user message only when a
      summary existed BEFORE this step and nothing was recorded yet; a
      summary generated in this very step is never confirmed by the message
      that completed the facts. */
  lemma ConfirmationRule(s: AgentState, llm: Prompt -> Completion)
    requires Process(s, llm).Ok?
    ensures var p := Process(s, llm).value;
      var lastUser := LastUserMessage(s.messages);
      && p.confirmation ==
           (if Present(s.summary) && s.confirmation.None? && Present(lastUser)
            then ClassifyConfirmation(lastUser.value) else s.confirmation)
      && (!Present(s.summary) ==> p.confirmation == s.confirmation)
      && (s.confirmation.Some? ==> p.confirmation == s.confirmation)
  {
  }

  /** Classification does not depend on letter case. */
  lemma {:induction false} ClassifyIgnoresCase(message: string)
    ensures ClassifyConfirmation(Lower(message)) == ClassifyConfirmation(message)
  {
    LowerIdempotent(message);
  }

  /** A message holding both an affirmative and a negative word confirms. */
  lemma AffirmativeTakesPrecedence(message: string, yes: nat, no: nat)
    requires yes < |AffirmativeWords| && Contains(Lower(message), AffirmativeWords[yes])
    requires no < |NegativeWords| && Contains(Lower(message), NegativeWords[no])
    ensures ClassifyConfirmation(message) == Some(true)
  {
  }

  /** A negated affirmative still confirms: "not correct" holds "correct". */
  lemma NegatedAffirmativeConfirms()
    ensures ClassifyConfirmation("not correct") == Some(true)
  {
    var message := "not correct";
    var lowered := Lower(message);
    assert forall i :: 0 <= i < |message| ==> lowered[i] == message[i];
    assert lowered == message;
    assert OccursAt(lowered, AffirmativeWords[2], 4);
    OccursAtContains(lowered, AffirmativeWords[2], 4);
  }

  /** The route the graph takes for each instruction of the chain. */
  function InstructionRoute(i: Instruction): Route {
    match i
    case AskForComplaint => CollectInfo
    case AskForMobile => CollectInfo
    case GenerateSummary => Summarize
    case PresentSummary(_) => GetConfirmation
    case OfferStartOver => End
    case ThankAndAnnounceSubmission => Submit
    case ThankForPatience => End
  }

  /** The two decision chains agree: before submission, `should_continue`
      takes exactly the route that matches the instruction the step chose;
      after it, the route is always the end. */
  lemma RouteAgreesWithInstruction(s: AgentState)
    ensures !s.submitted ==> ShouldContinue(s) == InstructionRoute(SelectInstruction(s))
    ensures s.submitted ==> ShouldContinue(s) == End
  {
  }

  /** A graph run submits exactly when the processed state is complete,
      confirmed and not yet submitted, and submission changes nothing but
      `submitted`. */
  lemma SubmitOnlyWhenConfirmed(s: AgentState, llm: Prompt -> Completion)
    requires RunAgent(s, llm).Ok?
    ensures Process(s, llm).Ok?
    ensures var r := RunAgent(s, llm).value;
      && r.(submitted := s.submitted) == Process(s, llm).value
      && r.submitted == (s.submitted || (FactsCollected(r) && r.confirmation == Some(true)))
  {
  }

  /** The step that reads a confirming answer also submits in the same run,
      after announcing the submission. */
  lemma ConfirmationSubmitsInSameRun(s: AgentState, llm: Prompt -> Completion)
    requires Process(s, llm).Ok? && !s.submitted
    requires Process(s, llm).value.confirmation == Some(true)
    requires FactsCollected(Process(s, llm).value)
    ensures RunAgent(s, llm).Ok? && RunAgent(s, llm).value.submitted
    ensures SelectInstruction(Merged(s, llm)) == ThankAndAnnounceSubmission
  {
  }
}
