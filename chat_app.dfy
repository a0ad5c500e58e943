/** The chat entry point of `app.py`: the chat widget's history turned into the
    messages the agent takes, and the agent's answer read off its final state. */
module ChatApp {
  import opened Wrappers
  import opened Messages

  /** One history entry as the chat widget hands it over: a dictionary whose `role` and
      `content` keys may be missing (`entry.get` then gives `None`). Content is text. */
  datatype Entry = Entry(role: Option<string>, content: Option<string>)

  /** Python's `str` of the content value: the text itself, or `"None"`. */
  function Str(content: Option<string>): (r: string)
    ensures content.Some? ==> r == content.value
    ensures content.None? ==> r == "None"
  {
    match content
    case Some(s) => s
    case None => "None"
  }

  /** One entry as the loop converts it. A user or assistant entry keeps its content, and a
      message cannot be built from a missing one; any other role, or none, gives a human
      message holding the content's text. */
  function ConvertEntry(e: Entry): (r: Result<Message, AgentError>)
    ensures r.Failure? <==> (e.role == Some("user") || e.role == Some("assistant")) && e.content.None?
    ensures r.Failure? ==> r.error == ValidationError
    ensures r.Success? ==> r.value.role == (if e.role == Some("assistant") then AIRole else HumanRole)
    ensures r.Success? ==> !HasToolCalls(r.value)
    ensures r.Success? && e.content.Some? ==> r.value.content == e.content.value
    ensures r.Success? && e.content.None? ==> r.value.content == "None"
  {
    if e.role == Some("user") then
      if e.content.Some? then Success(HumanMessage(e.content.value)) else Failure(ValidationError)
    else if e.role == Some("assistant") then
      if e.content.Some? then Success(AIMessage(e.content.value)) else Failure(ValidationError)
    else
      Success(HumanMessage(Str(e.content)))
  }

  /** An entry with a role other than user or assistant is never dropped and never raises. */
  lemma UnknownRoleFallsBack(e: Entry)
    requires e.role != Some("user") && e.role != Some("assistant")
    ensures ConvertEntry(e) == Success(HumanMessage(Str(e.content)))
  {
  }

  /** The history converted entry by entry; the conversion stops at the first entry that
      raises. */
  function ConvertEntries(history: seq<Entry>): (r: Result<seq<Message>, AgentError>)
    ensures r.Success? <==> forall i :: 0 <= i < |history| ==> ConvertEntry(history[i]).Success?
    ensures r.Failure? ==> r.error == ValidationError
    ensures r.Success? ==> |r.value| == |history|
    ensures r.Success? ==> forall i :: 0 <= i < |history| ==> r.value[i] == ConvertEntry(history[i]).value
  {
    if history == [] then Success([])
    else
      match ConvertEntry(history[0])
      case Failure(e) => Failure(e)
      case Success(m) =>
        match ConvertEntries(history[1..])
        case Failure(e) => Failure(e)
        case Success(ms) => Success([m] + ms)
  }

  /** The messages `agent_response` hands to the agent: the converted history, then the
      current utterance as a human message. */
  function FormattedHistory(current: string, history: seq<Entry>): (r: Result<seq<Message>, AgentError>)
    ensures r.Success? <==> ConvertEntries(history).Success?
    ensures r.Failure? ==> r.error == ValidationError
    ensures r.Success? ==> |r.value| == |history| + 1
    ensures r.Success? ==> r.value[..|history|] == ConvertEntries(history).value
    ensures r.Success? ==> r.value[|history|] == HumanMessage(current)
  {
    match ConvertEntries(history)
    case Failure(e) => Failure(e)
    case Success(ms) => Success(ms + [HumanMessage(current)])
  }

  /** The loop of `agent_response`, appending one message per history entry and then the
      current utterance. */
  method FormatHistory(current: string, history: seq<Entry>) returns (r: Result<seq<Message>, AgentError>)
    ensures r == FormattedHistory(current, history)
  {
    var formatted: seq<Message> := [];
    var i := 0;
    while i < |history|
      invariant 0 <= i <= |history|
      invariant |formatted| == i
      invariant forall k :: 0 <= k < i ==> ConvertEntry(history[k]).Success?
      invariant forall k :: 0 <= k < i ==> formatted[k] == ConvertEntry(history[k]).value
    {
      var m := ConvertEntry(history[i]);
      if m.Failure? {
        return Failure(m.error);
      }
      formatted := formatted + [m.value];
      i := i + 1;
    }
    assert formatted == ConvertEntries(history).value;
    formatted := formatted + [HumanMessage(current)];
    r := Success(formatted);
  }

  /** `BasicAgent.__call__`: the conversation passed to the compiled graph, and the
      content of the last message of the state it returns. An exception the graph raises
      (a node's, the model's, or the engine's step limit) is not caught. */
  function CallAgent(graph: seq<Message> -> Result<seq<Message>, AgentError>, conversation: seq<Message>): (r: Result<string, AgentError>)
    ensures graph(conversation).Failure? ==> r == Failure(graph(conversation).error)
    ensures graph(conversation).Success? ==>
      var state := graph(conversation).value;
      && (r.Failure? <==> state == [])
      && (r.Failure? ==> r.error == IndexError)
      && (r.Success? ==> r.value == state[|state| - 1].content)
  {
    match graph(conversation)
    case Failure(e) => Failure(e)
    case Success(state) => LastContent(state)
  }

  /** `agent_response`: the history formatted, the agent called on it, its answer returned. */
  method AgentResponse(current: string, history: seq<Entry>, graph: seq<Message> -> Result<seq<Message>, AgentError>)
    returns (r: Result<string, AgentError>)
    ensures FormattedHistory(current, history).Failure? ==> r == Failure(ValidationError)
    ensures FormattedHistory(current, history).Success? ==>
      r == CallAgent(graph, FormattedHistory(current, history).value)
  {
    var formatted := FormatHistory(current, history);
    if formatted.Failure? {
      return Failure(formatted.error);
    }
    r := CallAgent(graph, formatted.value);
  }
}
