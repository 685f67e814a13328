/** What a turn guarantees to its caller, and what holds over a whole
    conversation in which each turn's returned state is handed back to the
    next turn (as the HTTP back end and the chat front end do). */
module TurnProperties {
  import opened Wrappers
  import opened Text
  import opened ComplaintAgent
  import opened AgentProperties
  import opened Utils

  // ---------------------------------------------------------------------
  // Starting a turn
  // ---------------------------------------------------------------------

  /** Keys the agent does not know never influence a turn. */
  lemma UnknownKeysIgnored(userInput: string, d: SessionState, other: map<string, string>,
                           llm: Prompt -> Completion)
    ensures Turn(userInput, Some(d), llm) == Turn(userInput, Some(d.(otherKeys := other)), llm)
  {
  }

  /** Handing a returned state back in reproduces it exactly. */
  lemma SessionRoundTrip(s: AgentState)
    ensures InitialState(Some(ToSession(s))) == s
  {
  }

  // ---------------------------------------------------------------------
  // The two ways a turn ends
  // ---------------------------------------------------------------------

  /** A failing graph run yields the error text and the copied state with
      only the user message added; the failure came from an extraction
      call. */
  lemma TurnFailure(userInput: string, current: Option<SessionState>, llm: Prompt -> Completion)
    requires RunAgent(WithUserMessage(InitialState(current), userInput), llm).Err?
    ensures var out := Turn(userInput, current, llm);
      && |ErrorPrefix| <= |out.reply| && out.reply[..|ErrorPrefix|] == ErrorPrefix
      && out.state == WithUserMessage(InitialState(current), userInput)
    ensures exists prompt: Prompt :: !prompt.Respond? && llm(prompt).Raised?
  {
    var state := WithUserMessage(InitialState(current), userInput);
    assert Process(state, llm).Err?;
    ProcessErrorComesFromExtraction(state, llm);
  }

  /** A successful graph run ends the history with one non-empty assistant
      reply appended to the history it was given. */
  lemma RunAgentAppendsReply(state: AgentState, llm: Prompt -> Completion)
    requires RunAgent(state, llm).Ok?
    ensures var result := RunAgent(state, llm).value;
      && |result.messages| == |state.messages| + 1
      && result.messages == state.messages + [result.messages[|state.messages|]]
      && IsReply(result.messages[|state.messages|])
  {
    ProcessAppendsOneReply(state, llm);
    var result := RunAgent(state, llm).value;
    assert result.messages == Process(state, llm).value.messages;
    assert result.messages == result.messages[..|state.messages|] + [result.messages[|state.messages|]];
  }

  /** A non-empty assistant message at the end is the one picked. */
  lemma ReplyIsLastMessage(messages: seq<Message>, last: Message)
    requires IsReply(last)
    ensures LastAssistantReply(messages + [last]) == last.content
  {
  }

  /** A successful turn adds the user message and one non-empty reply, returns
      that reply (never the default text), and keeps at most the last ten
      messages of the history. */
  lemma TurnTranscript(userInput: string, current: Option<SessionState>, llm: Prompt -> Completion)
    requires RunAgent(WithUserMessage(InitialState(current), userInput), llm).Ok?
    ensures var prev := InitialState(current);
      var out := Turn(userInput, current, llm);
      && out.reply != ""
      && out.state.messages
         == KeepRecent(prev.messages + [Message(User, userInput), Message(Assistant, out.reply)])
      && |out.state.messages| <= HistoryLimit
    ensures var result := RunAgent(WithUserMessage(InitialState(current), userInput), llm).value;
      Turn(userInput, current, llm).state.(messages := result.messages) == result
  {
    var prev := InitialState(current);
    var state := WithUserMessage(prev, userInput);
    RunAgentAppendsReply(state, llm);
    var result := RunAgent(state, llm).value;
    var last := result.messages[|state.messages|];
    ReplyIsLastMessage(state.messages, last);
    assert state.messages + [last] == prev.messages + [Message(User, userInput), last];
    assert Turn(userInput, current, llm)
           == TurnResult(last.content, result.(messages := KeepRecent(result.messages)));
  }

  // ---------------------------------------------------------------------
  // The dialogue invariant
  // ---------------------------------------------------------------------

  /** What every state reachable from a fresh one satisfies: an accepted
      complaint, a digit-only number of at least ten digits, a summary only
      once both facts are known, an answer only once a summary was shown,
      and submission only after a confirming answer. */
  ghost predicate Consistent(s: AgentState) {
    && (s.complaint.Some? ==> |s.complaint.value| > 10 && Strip(s.complaint.value) == s.complaint.value)
    && (s.mobileNumber.Some? ==> AllDigits(s.mobileNumber.value) && |s.mobileNumber.value| >= 10)
    && (s.summary.Some? ==> Present(s.complaint) && Present(s.mobileNumber))
    && (s.confirmation.Some? ==> Present(s.summary))
    && (s.submitted ==> s.confirmation == Some(true))
  }

  /** The dialogue step keeps the invariant. */
  lemma ProcessKeepsConsistent(s: AgentState, llm: Prompt -> Completion)
    requires Consistent(s) && Process(s, llm).Ok?
    ensures Consistent(Process(s, llm).value)
  {
    var p := Process(s, llm).value;
    ComplaintRule(s, llm);
    if p.complaint != s.complaint {
      StripIdempotent(llm(ExtractComplaint(LastUserMessage(s.messages).value)).content);
    }
    assert p.complaint.Some? ==> |p.complaint.value| > 10 && Strip(p.complaint.value) == p.complaint.value;
    MobileRule(s, llm);
    assert p.mobileNumber.Some? ==> AllDigits(p.mobileNumber.value) && |p.mobileNumber.value| >= 10;
    SummaryRule(s, llm);
    assert p.summary.Some? ==> Present(p.complaint) && Present(p.mobileNumber);
    ConfirmationRule(s, llm);
    assert p.confirmation.Some? ==> Present(p.summary);
    assert p.submitted == s.submitted;
  }

  /** A graph run keeps the invariant. */
  lemma RunAgentKeepsConsistent(s: AgentState, llm: Prompt -> Completion)
    requires Consistent(s) && RunAgent(s, llm).Ok?
    ensures Consistent(RunAgent(s, llm).value)
  {
    SubmitOnlyWhenConfirmed(s, llm);
    ProcessKeepsConsistent(s, llm);
  }

  /** A turn keeps the invariant, whether the graph run succeeds or fails. */
  lemma TurnKeepsConsistent(userInput: string, s: AgentState, llm: Prompt -> Completion)
    requires Consistent(s)
    ensures Consistent(Turn(userInput, Some(ToSession(s)), llm).state)
  {
    SessionRoundTrip(s);
    var state := WithUserMessage(s, userInput);
    if RunAgent(state, llm).Ok? {
      RunAgentKeepsConsistent(state, llm);
    }
  }

  /** Facts once recorded survive a turn: a complaint, a number, a summary
      and an answer are never replaced, and `submitted` never goes back to
      false. */
  lemma TurnWriteOnce(userInput: string, s: AgentState, llm: Prompt -> Completion)
    ensures var next := Turn(userInput, Some(ToSession(s)), llm).state;
      && (Present(s.complaint) ==> next.complaint == s.complaint)
      && (Present(s.mobileNumber) ==> next.mobileNumber == s.mobileNumber)
      && (Present(s.summary) ==> next.summary == s.summary)
      && (s.confirmation.Some? ==> next.confirmation == s.confirmation)
      && (s.submitted ==> next.submitted)
  {
    SessionRoundTrip(s);
    var state := WithUserMessage(s, userInput);
    if RunAgent(state, llm).Ok? {
      SubmitOnlyWhenConfirmed(state, llm);
      ComplaintRule(state, llm);
      MobileRule(state, llm);
      SummaryRule(state, llm);
      ConfirmationRule(state, llm);
      ProcessAppendsOneReply(state, llm);
    }
  }

  // ---------------------------------------------------------------------
  // Whole conversations
  // ---------------------------------------------------------------------

  /** The state after feeding the given user messages, one turn each, with the
      model behaving as `llms[i]` on turn `i`. */
  function Conversation(start: AgentState, inputs: seq<string>, llms: seq<Prompt -> Completion>): AgentState
    requires |inputs| == |llms|
    decreases |inputs|
  {
    if inputs == [] then start
    else Conversation(Turn(inputs[0], Some(ToSession(start)), llms[0]).state, inputs[1..], llms[1..])
  }

  /** The state after the first turn of a non-empty conversation, with the
      unfolding of `Conversation` that the inductions need. */
  function NextState(start: AgentState, inputs: seq<string>, llms: seq<Prompt -> Completion>): (next: AgentState)
    requires |inputs| == |llms| && inputs != []
    ensures next == Turn(inputs[0], Some(ToSession(start)), llms[0]).state
    ensures Conversation(start, inputs, llms) == Conversation(next, inputs[1..], llms[1..])
  {
    Turn(inputs[0], Some(ToSession(start)), llms[0]).state
  }

  /** Every state of a conversation that starts fresh satisfies the
      invariant. */
  lemma {:induction false} ConversationKeepsConsistent(start: AgentState, inputs: seq<string>,
                                                        llms: seq<Prompt -> Completion>)
    requires |inputs| == |llms| && Consistent(start)
    ensures Consistent(Conversation(start, inputs, llms))
    decreases |inputs|
  {
    if inputs != [] {
      var next := NextState(start, inputs, llms);
      TurnKeepsConsistent(inputs[0], start, llms[0]);
      ConversationKeepsConsistent(next, inputs[1..], llms[1..]);
    }
  }

  /** The fresh state satisfies the invariant. */
  lemma FreshStateConsistent()
    ensures Consistent(InitialState(None))
  {
  }

  /** Over any number of turns, recorded facts are never replaced and
      submission is never undone. */
  lemma {:induction false} ConversationWriteOnce(start: AgentState, inputs: seq<string>,
                                                 llms: seq<Prompt -> Completion>)
    requires |inputs| == |llms|
    ensures var last := Conversation(start, inputs, llms);
      && (Present(start.complaint) ==> last.complaint == start.complaint)
      && (Present(start.mobileNumber) ==> last.mobileNumber == start.mobileNumber)
      && (Present(start.summary) ==> last.summary == start.summary)
      && (start.confirmation.Some? ==> last.confirmation == start.confirmation)
      && (start.submitted ==> last.submitted)
    decreases |inputs|
  {
    if inputs != [] {
      var next := NextState(start, inputs, llms);
      TurnWriteOnce(inputs[0], start, llms[0]);
      ConversationWriteOnce(next, inputs[1..], llms[1..]);
    }
  }

  /** A declined summary can never be submitted later: no turn clears the
      answer, so the declined state repeats until the session is cleared. */
  lemma {:induction false} DeclineIsFinal(start: AgentState, inputs: seq<string>,
                                          llms: seq<Prompt -> Completion>)
    requires |inputs| == |llms| && Consistent(start)
    requires start.confirmation == Some(false)
    ensures var last := Conversation(start, inputs, llms);
      && last.confirmation == Some(false)
      && !last.submitted
      && SelectInstruction(last) == OfferStartOver
  {
    ConversationWriteOnce(start, inputs, llms);
    ConversationKeepsConsistent(start, inputs, llms);
  }

  // ---------------------------------------------------------------------
  // Two turns of the intended dialogue
  // ---------------------------------------------------------------------

  /** The step behind `FirstTurnAsksForMobile`. */
  lemma FirstStepAsksForMobile(userInput: string, llm: Prompt -> Completion)
    requires userInput != ""
    requires llm(ExtractComplaint(userInput)).Completion?
    requires |Strip(llm(ExtractComplaint(userInput)).content)| > 10
    requires llm(ExtractMobile(userInput)).Completion?
    requires |DigitsOnly(llm(ExtractMobile(userInput)).content)| < 10
    ensures var state := WithUserMessage(InitialState(None), userInput);
      && Process(state, llm).Ok?
      && var p := Process(state, llm).value;
      && p.complaint == Some(Strip(llm(ExtractComplaint(userInput)).content))
      && p.mobileNumber.None? && p.summary.None? && p.confirmation.None? && !p.submitted
      && p.messages == state.messages + [Message(Assistant, ReplyText(llm(Respond(AskForMobile, ["User: " + userInput]))))]
  {
    var state := WithUserMessage(InitialState(None), userInput);
    assert state.messages == [Message(User, userInput)];
    var lastUser := LastUserMessage(state.messages);
    assert lastUser == Some(userInput);
    var complaint := AcceptComplaint(llm(ExtractComplaint(userInput)).content);
    assert ComplaintUpdate(None, lastUser, llm) == Ok(complaint);
    assert MobileUpdate(None, lastUser, llm) == Ok(None);
    assert SummaryUpdate(None, Or(complaint, None), Or(None, None), llm) == Ok(None);
    assert ConfirmationUpdate(None, None, lastUser) == None;
    var current := Merge(state, Updates(complaint, None, None, None));
    assert current == state.(complaint := complaint);
    assert SelectInstruction(current) == AskForMobile;
    assert History(state.messages) == ["User: " + userInput];
  }

  /** The first message of a fresh conversation that states a complaint but
      no number records the complaint and asks for the number. */
  lemma FirstTurnAsksForMobile(userInput: string, llm: Prompt -> Completion)
    requires userInput != ""
    requires llm(ExtractComplaint(userInput)).Completion?
    requires |Strip(llm(ExtractComplaint(userInput)).content)| > 10
    requires llm(ExtractMobile(userInput)).Completion?
    requires |DigitsOnly(llm(ExtractMobile(userInput)).content)| < 10
    ensures var out := Turn(userInput, None, llm);
      && out.state.complaint == Some(Strip(llm(ExtractComplaint(userInput)).content))
      && out.state.mobileNumber.None? && out.state.summary.None?
      && out.state.confirmation.None? && !out.state.submitted
      && out.reply == ReplyText(llm(Respond(AskForMobile, ["User: " + userInput])))
  {
    var state := WithUserMessage(InitialState(None), userInput);
    FirstStepAsksForMobile(userInput, llm);
    var p := Process(state, llm).value;
    assert ShouldContinue(p) == CollectInfo;
    assert RunAgent(state, llm) == Ok(p);
    var reply := Message(Assistant, ReplyText(llm(Respond(AskForMobile, ["User: " + userInput]))));
    assert IsReply(reply);
    assert p.messages[|p.messages| - 1] == reply;
    assert LastAssistantReply(p.messages) == reply.content;
  }

  /** Once the summary has been shown, a reply holding an affirmative word
      confirms and submits in that same turn, whatever the model does: no
      extraction call is made, so the turn cannot fail. */
  lemma ConfirmingReplySubmits(userInput: string, s: AgentState, llm: Prompt -> Completion)
    requires Consistent(s) && FactsCollected(s) && s.confirmation.None? && !s.submitted
    requires userInput != ""
    requires exists k :: 0 <= k < |AffirmativeWords| && Contains(Lower(userInput), AffirmativeWords[k])
    ensures var next := Turn(userInput, Some(ToSession(s)), llm).state;
      && next.submitted && next.confirmation == Some(true)
      && next.complaint == s.complaint && next.mobileNumber == s.mobileNumber && next.summary == s.summary
  {
    SessionRoundTrip(s);
    var state := WithUserMessage(s, userInput);
    assert LastUserMessage(state.messages) == Some(userInput);
    assert Process(state, llm).Ok?;
    ConfirmationRule(state, llm);
    ComplaintRule(state, llm);
    MobileRule(state, llm);
    SummaryRule(state, llm);
    ProcessAppendsOneReply(state, llm);
    SubmitOnlyWhenConfirmed(state, llm);
  }
}
