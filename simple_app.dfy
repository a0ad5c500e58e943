/** The question-answering entry point of `simple_app.py`: the agent's last message with a
    fixed-length prefix cut off, and the final answer taken from behind the marker. */
module SimpleApp {
  import opened Wrappers
  import opened Messages
  import PyStr
  import AgentNodes

  /** The marker the system prompt asks the model to put before its answer. */
  const Marker: string := "FINAL ANSWER:"

  /** The number of leading characters `BasicAgent.__call__` drops from the answer. */
  const DroppedPrefix: nat := 14

  /** `BasicAgent.__call__`: the question sent to the graph as a single human message, and
      the content of the last message of the resulting state with its first 14 characters
      removed (nothing is left of a shorter one). An exception the graph raises is not
      caught. */
  function CallAgent(graph: seq<Message> -> Result<seq<Message>, AgentError>, question: string): (r: Result<string, AgentError>)
    ensures graph([HumanMessage(question)]).Failure? ==> r == Failure(graph([HumanMessage(question)]).error)
    ensures graph([HumanMessage(question)]).Success? ==>
      var state := graph([HumanMessage(question)]).value;
      && (r.Failure? <==> state == [])
      && (r.Failure? ==> r.error == IndexError)
      && (r.Success? ==>
            var answer := state[|state| - 1].content;
            && (|answer| <= DroppedPrefix ==> r.value == "")
            && (DroppedPrefix < |answer| ==> |r.value| == |answer| - DroppedPrefix && answer == answer[..DroppedPrefix] + r.value))
  {
    match graph([HumanMessage(question)])
    case Failure(e) => Failure(e)
    case Success(state) =>
      match LastContent(state)
      case Failure(e) => Failure(e)
      case Success(answer) => Success(PyStr.SliceFrom(answer, DroppedPrefix))
  }

  /** The reply of `agent_response`: segment 1 of the text split on the marker, or the
      whole text when the marker does not occur and indexing that segment raises. */
  function Reply(response: string): (r: string)
    ensures !PyStr.Contains(r, Marker)
    ensures |r| <= |response|
    ensures match PyStr.Find(response, Marker)
      case None => r == response
      case Some(i) =>
        var rest := response[i + |Marker|..];
        r == match PyStr.Find(rest, Marker) case None => rest case Some(j) => rest[..j]
  {
    var parts := PyStr.Split(response, Marker);
    PyStr.SplitPieces(response, Marker);
    if |parts| >= 2 then
      var i :| PyStr.Find(response, Marker) == Some(i);
      PyStr.SplitSecondPiece(response, Marker, i);
      parts[1]
    else
      response
  }

  /** The reply is a contiguous piece of the text it was cut from. */
  lemma ReplyIsSlice(response: string) returns (lo: nat, hi: nat)
    ensures lo <= hi <= |response| && Reply(response) == response[lo..hi]
  {
    match PyStr.Find(response, Marker)
    case None =>
      lo, hi := 0, |response|;
    case Some(i) =>
      var rest := response[i + |Marker|..];
      lo := i + |Marker|;
      match PyStr.Find(rest, Marker)
      case None =>
        hi := |response|;
      case Some(j) =>
        hi := lo + j;
        assert rest[..j] == response[lo..hi];
  }

  /** Text that follows the only occurrence of the marker is the reply, leading whitespace
      included. */
  lemma ReplyKeepsTextAfterMarker(before: string, after: string)
    requires PyStr.Find(before + Marker + after, Marker) == Some(|before|)
    requires !PyStr.Contains(after, Marker)
    ensures Reply(before + Marker + after) == after
  {
    assert (before + Marker + after)[|before| + |Marker|..] == after;
  }

  lemma ReplyExample()
    ensures Reply("FINAL ANSWER: 5") == " 5"
  {
    assert "FINAL ANSWER: 5"[..13] == Marker;
    assert PyStr.Find("FINAL ANSWER: 5", Marker) == Some(0);
    assert "FINAL ANSWER: 5"[13..] == " 5";
  }

  /** `agent_response`: the agent's trimmed answer, reduced to the reply. Only the
      indexing of the split is guarded, so an exception of the agent call itself, the
      graph's included, is not caught. */
  function AgentResponse(graph: seq<Message> -> Result<seq<Message>, AgentError>, message: string): (r: Result<string, AgentError>)
    ensures graph([HumanMessage(message)]).Failure? ==> r == Failure(graph([HumanMessage(message)]).error)
    ensures r.Failure? <==> CallAgent(graph, message).Failure?
    ensures r.Failure? ==> r.error == CallAgent(graph, message).error
    ensures r.Success? ==> r.value == Reply(CallAgent(graph, message).value)
    ensures r.Success? ==> !PyStr.Contains(r.value, Marker)
  {
    match CallAgent(graph, message)
    case Failure(e) => Failure(e)
    case Success(response) => Success(Reply(response))
  }

  /** The system prompt teaches the model the very marker the reply is cut at. */
  lemma PromptTeachesMarker()
    ensures PyStr.Contains(AgentNodes.SystemPrompt, Marker)
  {
    var k := |AgentNodes.PromptInstructions|;
    assert AgentNodes.SystemPrompt[k..k + |Marker|] == Marker;
    assert PyStr.OccursAt(AgentNodes.SystemPrompt, Marker, k);
  }
}
