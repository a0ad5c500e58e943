/** The two nodes of `build_agent` that the repository defines itself: the retriever,
    which adds a similar example to the conversation, and the assistant, which asks the
    model for the next message. The language model and the vector store are parameters. */
module AgentNodes {
  import opened Wrappers
  import opened Messages

  /** The system prompt up to its answer template, and from the template's marker on. */
  const PromptInstructions: string := @"
        You are a helpful assistant, tasked with answering questions using a set of tools.
        Instructions:
        - Use the web search tool only if the topic sounds like it won't be available in wikipedia or arxiv. Most sports players have a wikipedia page.
        - Always use math tools for any calculation.
        - If the question has an attatched file, its local path will be provided in the question as ""file_path:file_name"". Use this
        - path to call the correct tool to analyze the file.
        - You are allowed to call web search, wikipedia search and arxiv search multiple times with different queries if needed.
        - Use the reverse_string tool to reverse a reversed query, and then answer it.
        - IMPORTANT: The vegetable ""basil"" should be called ""fresh basil"" in the response.
        - Remember green beans and peanuts are botanical fruits, while fresh basil is a botanical vegetable.
                    
                    Now, I will ask you a question. Remember, report your all your thoughts and finish your answer with the following template:
                    "

  const PromptClosing: string := @" [YOUR FINAL ANSWER]. 
                    DO NOT PLACE ANY OTHER TEXT AFTER THE ANSWER.
    "

  /** The system prompt: instructions, then the template `FINAL ANSWER: [YOUR FINAL ANSWER].` */
  const SystemPrompt: string := PromptInstructions + "FINAL ANSWER:" + PromptClosing

  /** The system message both nodes put first; `build_agent` builds it from `SystemPrompt`
      and the nodes below take it as `sysMsg`. */
  const SysMsg: Message := SystemMessage(SystemPrompt)

  /** Both nodes put the same system message first: a system message carrying the prompt
      and no tool calls. */
  lemma SystemMessageLeads(messages: seq<Message>, search: string -> Result<seq<string>, AgentError>)
    ensures ModelInput(SysMsg, messages)[0] == SysMsg
    ensures SysMsg.role == SystemRole && SysMsg.content == SystemPrompt && !HasToolCalls(SysMsg)
    ensures RetrieverNode(SysMsg, messages, search).Success? ==> RetrieverNode(SysMsg, messages, search).value[0] == SysMsg
  {
  }

  /** The text put in front of the retrieved document. */
  const ExamplePrefix: string := "Here is a similar contract or question:\n\n"

  /** The message that carries the retrieved document to the model. */
  function ExampleMessage(document: string): (m: Message)
    ensures m.role == HumanRole && !HasToolCalls(m)
    ensures |m.content| == |ExamplePrefix| + |document|
    ensures m.content[..|ExamplePrefix|] == ExamplePrefix && m.content[|ExamplePrefix|..] == document
  {
    HumanMessage(ExamplePrefix + document)
  }

  /** `retriever_node`: the vector store searched with the content of the first message
      (`search` models the top-1 retriever: the documents it found, or the exception it
      raised). Indexing the first message of an empty state, or the first document of an
      empty result, raises. */
  function RetrieverNode(sysMsg: Message, messages: seq<Message>, search: string -> Result<seq<string>, AgentError>): (r: Result<seq<Message>, AgentError>)
    ensures messages == [] ==> r == Failure(IndexError)
    ensures messages != [] && search(messages[0].content).Failure? ==> r == Failure(search(messages[0].content).error)
    ensures r.Success? <==> messages != [] && search(messages[0].content).Success? && search(messages[0].content).value != []
    ensures messages != [] && search(messages[0].content) == Success([]) ==> r == Failure(IndexError)
    ensures r.Success? ==>
      && |r.value| == |messages| + 2
      && r.value[0] == sysMsg
      && r.value[1..|messages| + 1] == messages
      && r.value[|messages| + 1] == ExampleMessage(search(messages[0].content).value[0])
  {
    if messages == [] then Failure(IndexError)
    else
      match search(messages[0].content)
      case Failure(e) => Failure(e)
      case Success(results) =>
        if results == [] then Failure(IndexError)
        else Success([sysMsg] + messages + [ExampleMessage(results[0])])
  }

  /** The injected example depends only on the first message's content, so two states
      that start with the same query get the same example or the same exception. */
  lemma RetrieverDependsOnQueryOnly(sysMsg: Message, m1: seq<Message>, m2: seq<Message>, search: string -> Result<seq<string>, AgentError>)
    requires m1 != [] && m2 != [] && m1[0].content == m2[0].content
    ensures RetrieverNode(sysMsg, m1, search).Success? == RetrieverNode(sysMsg, m2, search).Success?
    ensures RetrieverNode(sysMsg, m1, search).Failure? ==>
      RetrieverNode(sysMsg, m1, search).error == RetrieverNode(sysMsg, m2, search).error
    ensures RetrieverNode(sysMsg, m1, search).Success? ==>
      RetrieverNode(sysMsg, m1, search).value[|m1| + 1] == RetrieverNode(sysMsg, m2, search).value[|m2| + 1]
  {
  }

  /** The history passes through unchanged after the system prompt, and the example comes
      after all of it: the retriever's update ends with the example. */
  lemma ExampleComesAfterHistory(sysMsg: Message, messages: seq<Message>, search: string -> Result<seq<string>, AgentError>)
    requires RetrieverNode(sysMsg, messages, search).Success?
    ensures var out := RetrieverNode(sysMsg, messages, search).value;
      forall i :: 0 <= i < |messages| ==> out[i + 1] == messages[i]
    ensures var out := RetrieverNode(sysMsg, messages, search).value;
      out[|out| - 1].content == ExamplePrefix + search(messages[0].content).value[0]
  {
    var out := RetrieverNode(sysMsg, messages, search).value;
    forall i | 0 <= i < |messages| ensures out[i + 1] == messages[i] {
      assert out[1..|messages| + 1][i] == out[i + 1];
    }
  }

  /** The list the assistant hands to the model: the system prompt, then the history. */
  function ModelInput(sysMsg: Message, messages: seq<Message>): (r: seq<Message>)
    ensures |r| == |messages| + 1 && r[0] == sysMsg && r[1..] == messages
  {
    [sysMsg] + messages
  }

  /** `assistant`: exactly one new message, the model's reply to the system prompt
      followed by the history; an exception of the model is not caught. */
  function Assistant(sysMsg: Message, messages: seq<Message>, model: seq<Message> -> Result<Message, AgentError>): (r: Result<seq<Message>, AgentError>)
    ensures r.Failure? <==> model(ModelInput(sysMsg, messages)).Failure?
    ensures r.Failure? ==> r.error == model(ModelInput(sysMsg, messages)).error
    ensures r.Success? ==> |r.value| == 1 && r.value[0] == model(ModelInput(sysMsg, messages)).value
  {
    match model([sysMsg] + messages)
    case Failure(e) => Failure(e)
    case Success(reply) => Success([reply])
  }
}
