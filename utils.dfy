/** `process_user_message`: one conversational turn as seen by the HTTP and
    chat front ends. It rebuilds the agent state from the session dictionary,
    appends the user's message, runs the agent graph, picks the reply and
    keeps only the last ten messages. */
module Utils {
  import opened Wrappers
  import opened ComplaintAgent

  /** The session dictionary a caller passes in. Each `None` stands for an
      absent key; `otherKeys` holds every key the agent does not know
      (`customer_data`, `is_registered`, the address flags, ...). */
  datatype SessionState = SessionState(
    messages: Option<seq<Message>>,
    complaint: Option<string>,
    mobileNumber: Option<string>,
    summary: Option<string>,
    confirmation: Option<bool>,
    submitted: Option<bool>,
    otherKeys: map<string, string>)

  /** What a turn gives back: the reply text and the state to store. */
  datatype TurnResult = TurnResult(reply: string, state: AgentState)

  const DefaultReply: string := "I'm here to help you submit your complaint."
  const ErrorPrefix: string := "I encountered an error processing your message. Please try again. Error: "
  const HistoryLimit: nat := 10

  /** The state a new conversation starts from. */
  const FreshState: AgentState := AgentState([], None, None, None, None, false)

  /** A fresh state when there is no dictionary or it has no messages;
      otherwise a copy of the six known keys, `submitted` defaulting to
      false. */
  function InitialState(current: Option<SessionState>): (s: AgentState)
    ensures current.None? || current.value.messages.None? ==> s == AgentState([], None, None, None, None, false)
    ensures current.Some? && current.value.messages.Some? ==>
      var d := current.value;
      && s.messages == d.messages.value
      && s.complaint == d.complaint && s.mobileNumber == d.mobileNumber
      && s.summary == d.summary && s.confirmation == d.confirmation
      && (d.submitted.None? ==> !s.submitted)
      && (d.submitted.Some? ==> s.submitted == d.submitted.value)
  {
    if current.None? || current.value.messages.None? then FreshState
    else
      var d := current.value;
      AgentState(d.messages.value, d.complaint, d.mobileNumber, d.summary, d.confirmation,
                 d.submitted == Some(true))
  }

  /** Exactly one user message carrying the input is appended, at the end;
      nothing else changes. */
  function WithUserMessage(s: AgentState, userInput: string): (t: AgentState)
    ensures |t.messages| == |s.messages| + 1
    ensures t.messages[..|s.messages|] == s.messages
    ensures t.messages[|s.messages|] == Message(User, userInput)
    ensures t.(messages := s.messages) == s
  {
    s.(messages := s.messages + [Message(User, userInput)])
  }

  /** An assistant message that can serve as the reply. */
  predicate IsReply(m: Message) {
    m.role == Assistant && m.content != ""
  }

  /** The content of the last non-empty assistant message, or the default
      text when there is none. */
  function LastAssistantReply(messages: seq<Message>): (r: string)
    ensures (forall k :: 0 <= k < |messages| ==> !IsReply(messages[k])) ==> r == DefaultReply
    ensures (exists k :: 0 <= k < |messages| && IsReply(messages[k])) ==>
      exists k :: 0 <= k < |messages| && IsReply(messages[k]) && messages[k].content == r
                  && forall j :: k < j < |messages| ==> !IsReply(messages[j])
  {
    if messages == [] then DefaultReply
    else if IsReply(messages[|messages| - 1]) then messages[|messages| - 1].content
    else
      var prefix := messages[..|messages| - 1];
      assert forall k :: 0 <= k < |prefix| ==> prefix[k] == messages[k];
      var r := LastAssistantReply(prefix);
      assert (exists k :: 0 <= k < |messages| && IsReply(messages[k])) ==>
               exists k :: 0 <= k < |prefix| && IsReply(prefix[k]);
      r
  }

  /** The reverse scan with `break` that picks the reply. */
  method SelectReply(messages: seq<Message>) returns (responseText: string)
    ensures responseText == LastAssistantReply(messages)
  {
    responseText := DefaultReply;
    var i := |messages|;
    var found := false;
    while i > 0
      invariant 0 <= i <= |messages|
      invariant LastAssistantReply(messages[..i]) == LastAssistantReply(messages)
      invariant responseText == DefaultReply
    {
      assert messages[..i][..i - 1] == messages[..i - 1];
      i := i - 1;
      if messages[i].role == Assistant && messages[i].content != "" {
        responseText := messages[i].content;
        found := true;
        break;
      }
    }
    if !found {
      assert messages[..i] == [];
    }
  }

  /** `messages[-10:] if len(messages) > 10 else messages`: the last (at most)
      ten messages, in order. */
  function KeepRecent(messages: seq<Message>): (r: seq<Message>)
    ensures |r| == if |messages| > HistoryLimit then HistoryLimit else |messages|
    ensures r == messages[|messages| - |r|..]
    ensures |messages| <= HistoryLimit ==> r == messages
  {
    if |messages| > HistoryLimit then messages[|messages| - HistoryLimit..] else messages
  }

  /** One turn as a function of the user's text, the session dictionary and
      the model. A failing graph run returns the error text and the copied
      state with the user message appended. */
  function Turn(userInput: string, current: Option<SessionState>, llm: Prompt -> Completion): (r: TurnResult)
    ensures r.reply != ""
    ensures r.state.messages != []
    ensures |r.state.messages| <= |InitialState(current).messages| + 2
  {
    var state := WithUserMessage(InitialState(current), userInput);
    match RunAgent(state, llm)
    case Err(e) => TurnResult(ErrorPrefix + e, state)
    case Ok(result) =>
      TurnResult(LastAssistantReply(result.messages), result.(messages := KeepRecent(result.messages)))
  }

  /** `process_user_message`, statement by statement. */
  method ProcessUserMessage(userInput: string, current: Option<SessionState>, llm: Prompt -> Completion)
    returns (responseText: string, updated: AgentState)
    ensures TurnResult(responseText, updated) == Turn(userInput, current, llm)
  {
    var state := InitialState(current);
    state := state.(messages := state.messages + [Message(User, userInput)]);
    var result := InvokeAgent(state, llm);
    if result.Err? {
      return ErrorPrefix + result.error, state;
    }
    responseText := SelectReply(result.value.messages);
    var messages := result.value.messages;
    updated := result.value.(messages := if |messages| > 10 then messages[|messages| - 10..] else messages);
  }

  /** The session dictionary a caller stores: the returned state itself. */
  function ToSession(s: AgentState): SessionState {
    SessionState(Some(s.messages), s.complaint, s.mobileNumber, s.summary, s.confirmation, Some(s.submitted), map[])
  }
}
