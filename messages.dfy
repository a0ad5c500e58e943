/** Chat messages as the agent passes them around, and the exceptions the model raises. */
module Messages {
  import opened Wrappers

  datatype Role = SystemRole | HumanRole | AIRole | ToolRole

  /** A tool-call request carried by a reply of the model. */
  datatype ToolCall = ToolCall(name: string, id: string)

  datatype Message = Message(role: Role, content: string, toolCalls: seq<ToolCall>)

  /** The exceptions that reach the entry points: an index out of range, a message built
      from a value that is not text, a run that exceeds the graph engine's step limit
      (`GraphRecursionError`), and an exception raised inside the language model or the
      vector store. */
  datatype AgentError = IndexError | ValidationError | RecursionLimitError | ForeignError

  function SystemMessage(content: string): Message { Message(SystemRole, content, []) }
  function HumanMessage(content: string): Message { Message(HumanRole, content, []) }
  function AIMessage(content: string): Message { Message(AIRole, content, []) }

  predicate HasToolCalls(m: Message) { |m.toolCalls| > 0 }

  /** `messages[-1].content`, which raises on an empty list. */
  function LastContent(messages: seq<Message>): (r: Result<string, AgentError>)
    ensures r.Failure? <==> messages == []
    ensures r.Failure? ==> r.error == IndexError
    ensures r.Success? ==> r.value == messages[|messages| - 1].content
  {
    if messages == [] then Failure(IndexError) else Success(messages[|messages| - 1].content)
  }

  /** Whatever came before, the last message appended is the one whose content is read. */
  lemma LastContentOfAppended(messages: seq<Message>, m: Message)
    ensures LastContent(messages + [m]) == Success(m.content)
  {
  }
}
