# Figaro agent core in Dafny

A model of the deterministic core of the Figaro question-answering agent: the
arithmetic and string tools and the static tool registry of `my_agent.py`, the two
nodes the agent defines itself (the retriever, which adds a similar example to the
conversation, and the assistant, which asks the language model for the next message),
the graph that `build_agent` wires from them, and the two chat entry points: the
history conversion of `app.py` and the final-answer extraction of `simple_app.py`.

The language model, the vector store's top-1 search and the compiled graph are
function parameters (`model`, `search`, `graph`), each returning either its result or
the exception it raised: what is proved holds for every such behaviour of them. Python semantics that differ from Dafny's are written out:
floor division and floor modulo (`PyInt`), slicing, reversal, `find`, `split` and
`join` (`PyStr`). A raised exception is a `Failure` of a `Result`.

Modules, by file:

- `wrappers.dfy` — `Option` and `Result`.
- `py_builtins.dfy` — `PyInt` (Python's `//` and `%`) and `PyStr` (Python string operations).
- `tools.dfy` — `Tools`: `add`, `subtract`, `multiply`, `divide`, `modulus`, `reverse_string`.
- `registry.dfy` — `ToolRegistry`: the list `tools`, each tool's description and parameters, lookup by name.
- `messages.dfy` — `Messages`: roles, messages, tool-call requests, reading the last message.
- `agent_graph.dfy` — `AgentGraph`: the graph object `build_agent` fills in, its transition relation, the tool-call router, and the shape of every run.
- `agent_nodes.dfy` — `AgentNodes`: the system prompt, `retriever_node` and `assistant`.
- `chat_app.dfy` — `ChatApp`: `agent_response` and `BasicAgent.__call__` of `app.py`.
- `simple_app.dfy` — `SimpleApp`: `BasicAgent.__call__` and `agent_response` of `simple_app.py`.

`retriever_node` appends the retrieved example after the whole history, with the text
`Here is a similar contract or question:\n\n` in front of the document
(`my_agent.py:415-420`). The code sets no cap of its own on assistant/tool round trips;
the only bound is LangGraph's default recursion limit, whose `GraphRecursionError`
appears here only as one of the exceptions the `graph` parameter may return.

## Model

| member | source | states |
|---|---|---|
| `PyInt.FloorDiv` | my_agent.py:71 | Python's `a // b`: `b*q <= a < b*q + b` for a positive divisor, `b*q + b < a <= b*q` for a negative one |
| `PyInt.FloorMod` | my_agent.py:71 | Python's `a % b`: `a == b * (a // b) + r`, with `0 <= r < b` or `b < r <= 0` |
| `PyInt.FloorPairUnique` | my_agent.py:71 | any quotient and remainder with a remainder in Python's range are the floor ones |
| `PyStr.SliceFrom` | simple_app.py:20 | `s[k:]` is empty when `k >= len(s)`, and otherwise `s` is its first `k` characters followed by the result |
| `PyStr.Reverse` | my_agent.py:104 | `s[::-1]` has the length of `s`, and character `i` is character `len-1-i` of `s` |
| `PyStr.ReverseInvolutive` | my_agent.py:104 | reversing twice gives the text back |
| `PyStr.FindFrom` | simple_app.py:27 | the search `split` relies on: the first occurrence at or after a position, or none at all |
| `PyStr.Find` | simple_app.py:27 | no occurrence exactly when the separator does not occur; otherwise the first one |
| `PyStr.NoEarlierOccurrence` | simple_app.py:27 | the text before the first occurrence holds no occurrence |
| `PyStr.Split` | simple_app.py:27 | `s.split(sep)` always has at least one piece |
| `PyStr.SplitPieces` | simple_app.py:27 | no piece contains the separator, and there is one piece exactly when the separator does not occur |
| `PyStr.SplitFirstPiece` | simple_app.py:27 | piece 0 is the text up to the first occurrence, or all of it |
| `PyStr.SplitAtFirst` | simple_app.py:27 | the split is the part before the first occurrence followed by the split of the rest |
| `PyStr.SplitSecondPiece` | simple_app.py:27 | when the separator occurs, piece 1 exists and is the text after its first occurrence, up to the next occurrence or the end |
| `PyStr.Join` | simple_app.py:27 | `sep.join(parts)` of no pieces is empty and of one piece is that piece; otherwise it starts with the first piece, followed by `sep` and the join of the rest when there are more |
| `PyStr.JoinSplit` | simple_app.py:27 | joining the pieces with the separator gives the text back |
| `Tools.AddEmpty` | my_agent.py:24-31 | `add` of the empty list is 0 |
| `Tools.AddPair` | my_agent.py:24-31 | `add([a, b])` is `a + b` |
| `Tools.AddConcat` | my_agent.py:24-31 | `Tools.Add`, the `add` tool (Python's `sum`): `add` of a concatenation is the sum of `add` of the parts |
| `Tools.Subtract` | my_agent.py:33-40 | `subtract(a, b)` is the number that `add` with `b` takes back to `a` |
| `Tools.MultiplyIsRepeatedAddition` | my_agent.py:42-49 | `Tools.Multiply`, the `multiply` tool: `multiply(a, n)` is `add` of `n` copies of `a`, and `multiply(a, -n)` is that subtracted from 0 |
| `Tools.Divide` | my_agent.py:51-61 | a zero divisor always raises `ValueError("Cannot divide by zero.")` and gives no result; otherwise the quotient times `b` is `a` (the float range, beyond which Python raises `OverflowError`, is not modelled) |
| `Tools.Modulus` | my_agent.py:63-71 | a zero divisor raises; otherwise `a == b*floor(a/b) + r`, `r` is 0 or has the sign of `b`, and `abs(r) < abs(b)` |
| `Tools.ModulusUnique` | my_agent.py:63-71 | any remainder with those three properties is the one `modulus` returns |
| `Tools.ModulusOfNegatives` | my_agent.py:71 | `modulus(7, -2) == -1` where Dafny's `7 % -2 == 1`; `modulus(-7, 2) == 1`; `modulus(-7, -2) == -1` |
| `Tools.ReverseString` | my_agent.py:97-104 | the output has the input's length and character `i` is input character `len-1-i` |
| `Tools.ReverseStringTwice` | my_agent.py:97-104 | reversing twice gives the original string |
| `Tools.ReverseOlleh` | my_agent.py:97-104 | `reverse_string("olleh") == "hello"` |
| `ToolRegistry.Names` | my_agent.py:346-367 | the names of a tool list, one per tool, in order |
| `ToolRegistry.Declared` | my_agent.py:24-344 | each tool defined in the module is described under its own name |
| `ToolRegistry.Lookup` | my_agent.py:426 | a call by name reaches a registered tool of that name, and reaches nothing exactly when no tool has that name |
| `ToolRegistry.LookupFindsEachTool` | my_agent.py:426 | with distinct names, looking up a tool's name finds that very tool |
| `ToolRegistry.RegistryNamesListed` | my_agent.py:346-367 | the names of `Registry`, the list `tools`, are `RegistryNames`, the seventeen names of the list, in order |
| `ToolRegistry.RegistryNamesDiffer` | my_agent.py:346-367 | the seventeen names are pairwise distinct and do not include the commented-out tools |
| `ToolRegistry.RegistryShape` | my_agent.py:346-367 | `Registry`, the list `tools`, has 17 entries with pairwise distinct names |
| `ToolRegistry.RegistryOmitsDisabledTools` | my_agent.py:357-362 | `extract_text_from_image`, `execute_code_multilang` and `analyze_image` are not registered |
| `ToolRegistry.RegistryLookup` | my_agent.py:346-367 | every registered tool is found by its name |
| `Messages.LastContent` | app.py:25 | `messages[-1].content` raises `IndexError` exactly on an empty list and otherwise is the last message's content |
| `Messages.LastContentOfAppended` | app.py:25 | the content read is that of the message appended last |
| `AgentGraph.StateGraph.constructor` | my_agent.py:423 | a new graph has no nodes and no edges |
| `AgentGraph.StateGraph.AddNode` | my_agent.py:424-426 | adds one node and changes nothing else |
| `AgentGraph.StateGraph.AddEdge` | my_agent.py:428-429 | adds one unconditional edge and changes nothing else |
| `AgentGraph.StateGraph.AddConditionalEdges` | my_agent.py:430-433 | gives the source the router's targets and changes nothing else |
| `AgentGraph.BuildAgent` | my_agent.py:423-434 | the calls of `build_agent` leave a graph with nodes retriever, assistant and tools, the three unconditional edges, and the router on the assistant |
| `AgentGraph.Next` | my_agent.py:428-434 | the transition relation: a node's successors are the targets of its unconditional edges, plus the router's two targets for the assistant |
| `AgentGraph.Topology` | my_agent.py:428-434 | the entry leads only to the retriever, the retriever and the tools only to the assistant, the assistant to the tools or the exit, the exit nowhere |
| `AgentGraph.OnlyAssistantBranches` | my_agent.py:428-434 | the assistant is the only node with more than one successor and the only one that leads to the exit |
| `AgentGraph.Route` | my_agent.py:430-433 | the router goes to the tools exactly when the last message carries tool calls, and otherwise ends the run |
| `AgentGraph.Step` | my_agent.py:428-434 | every step of a run follows an edge of the graph |
| `AgentGraph.StepTakesEveryEdge` | my_agent.py:428-434 | every edge of the graph is taken by some step |
| `AgentGraph.EndIsLast` | my_agent.py:428-434 | nothing follows the exit |
| `AgentGraph.PathFromAssistant` | my_agent.py:428-434 | a path from the assistant to the exit has the shape `(assistant tools)* assistant` |
| `AgentGraph.LoopShapeIsPath` | my_agent.py:428-434 | every sequence of that shape followed by the exit is a path |
| `AgentGraph.RunsHaveLoopShape` | my_agent.py:428-434 | a node sequence is a run exactly when it is `retriever (assistant tools)* assistant` between the entry and the exit |
| `AgentGraph.LoopShapeNodes` | my_agent.py:428-434 | the loop part holds only assistant and tools, each tools followed by the assistant, and ends with the assistant |
| `AgentGraph.RunProperties` | my_agent.py:428-434 | in every run the retriever runs exactly once and first, the tools always return to the assistant, and the run leaves from the assistant |
| `AgentGraph.Loop` | my_agent.py:430-434 | the assistant/tools part driven by `n` replies has `2n - 1` nodes, starts and ends with the assistant, holds the assistant exactly at the even positions, and after the k-th assistant step takes the router's choice for reply k; only replies that ask for tools until the final one (`LoopIsShaped`) make it part of a run |
| `AgentGraph.LoopIsShaped` | my_agent.py:430-434 | replies that ask for tools until a final one drive the assistant/tools loop in the loop shape |
| `AgentGraph.RunTrace` | my_agent.py:428-434 | the nodes visited for a sequence of assistant replies form a run of length `2 * replies + 2` |
| `AgentGraph.DirectAnswer` | my_agent.py:430-433 | a first reply without tool calls ends the run after one assistant step |
| `AgentNodes.SystemMessageLeads` | my_agent.py:379-400 | `SysMsg` is a system message carrying `SystemPrompt` and no tool calls, and it is first in what both nodes produce |
| `AgentNodes.ExampleMessage` | my_agent.py:415-417 | the example is a human message: the fixed prefix followed by the document text |
| `AgentNodes.RetrieverNode` | my_agent.py:409-421 | an empty state or an empty search result raises `IndexError`, an exception of the search passes through; otherwise the update is the system message, the unchanged history, and one example built from the top document for the first message's content |
| `AgentNodes.RetrieverDependsOnQueryOnly` | my_agent.py:411-416 | two states with the same first-message content get the same example, or the same exception |
| `AgentNodes.ExampleComesAfterHistory` | my_agent.py:420 | each history message keeps its place after the system message and the example is the last message |
| `AgentNodes.ModelInput` | my_agent.py:400 | the model sees the system message first, followed by the history |
| `AgentNodes.Assistant` | my_agent.py:397-406 | the update is exactly one message, the model's reply to the system message and the history; an exception of the model passes through |
| `ChatApp.ConvertEntry` | app.py:33-41 | role `user` gives a human and `assistant` an AI message with the same content; any other or missing role gives a human message with `str(content)`; only a known role with no content raises |
| `ChatApp.Str` | app.py:41 | `str(content)` is the text itself, or `"None"` when the key is missing |
| `ChatApp.UnknownRoleFallsBack` | app.py:39-41 | an entry with another or no role is never dropped and never raises |
| `ChatApp.ConvertEntries` | app.py:32-41 | the conversion succeeds exactly when every entry converts, keeps the length, and puts entry `i`'s message at position `i` |
| `ChatApp.FormattedHistory` | app.py:31-44 | the converted history followed by one human message holding the current utterance, of length `len(history) + 1` |
| `ChatApp.FormatHistory` | app.py:31-44 | the loop produces exactly the formatted history, or the exception of the first entry that raises |
| `ChatApp.CallAgent` | app.py:12-26 | the conversation goes to the graph unchanged; an exception of the graph passes through, an empty final state raises `IndexError`, and otherwise the answer is the content of its last message |
| `ChatApp.AgentResponse` | app.py:28-47 | the answer of the agent for the formatted history, or the conversion's exception |
| `SimpleApp.CallAgent` | simple_app.py:12-20 | the question goes to the graph as one human message; an exception of the graph passes through; otherwise the answer is the last message's content less its first 14 characters, or empty when it is shorter |
| `SimpleApp.Reply` | simple_app.py:26-29 | the reply never contains `FINAL ANSWER:`, is never longer than the text, is the text unchanged without the marker, and is otherwise what follows the first marker up to the next or the end |
| `SimpleApp.ReplyIsSlice` | simple_app.py:26-29 | the reply is a contiguous piece of the trimmed text |
| `SimpleApp.ReplyKeepsTextAfterMarker` | simple_app.py:27 | text after a single marker is the reply, leading whitespace kept |
| `SimpleApp.ReplyExample` | simple_app.py:27 | the reply for `FINAL ANSWER: 5` is ` 5` |
| `SimpleApp.AgentResponse` | simple_app.py:22-29 | the reply of the trimmed answer; an exception of the agent call (the graph's, or the `IndexError` of an empty final state) is not caught and reaches the caller unchanged |
| `SimpleApp.PromptTeachesMarker` | my_agent.py:379-394 | `SystemPrompt`, the system prompt, contains the very marker the reply is cut at |

## Left out

- The language model (`ChatGroq`), the embedding model and the FAISS store (my_agent.py:369-378, 412-413) are foreign calls: they are the parameters `model` and `search`, which return a reply or document list, or an exception. Which exceptions they raise, and when, is not modelled. The choice of model by `provider` is left out with them.
- LangGraph itself: how `MessagesState` merges a node's update into the state (`add_messages`), the engine that runs the compiled graph, its default recursion limit (25 steps, past which `GraphRecursionError` is raised), and the body of `tools_condition`. ChatApp.CallAgent and SimpleApp.CallAgent take the compiled graph as the parameter `graph`, whose final state or exception is arbitrary: the model does not tie it to the nodes, so it does not show that the retriever's `IndexError` or the step limit is what the graph raises. The nodes are modelled by the updates they return, the router by "the last message carries tool calls", and runs by their node sequences.
- `ToolNode` (my_agent.py:426): dispatch of tool calls, argument validation and the conversion of a tool's exception into a tool message are library code. `ToolRegistry.Lookup` models only the lookup by name.
- Tools.Divide: the quotient is the exact rational number, not the float Python's `/` returns; float rounding is not modelled, and Python raises `OverflowError` when the quotient exceeds the float range, whereas the model succeeds for every non-zero divisor.
- `power` and `square_root` (my_agent.py:73-94) compute on floats and complex numbers; they appear only as registry entries.
- The network, file and OS tools (`wiki_search`, `web_search`, `arxiv_search`, `extract_text_from_image`, `analyze_csv_file`, `analyze_excel_file`, `execute_python_script`, `scrape_website`, `scrape_youtube`) and `save_image` only call foreign code; they appear only as registry entries. `chess_to_fen` returns a constant; it appears as a registry entry.
- ToolRegistry.Declared: a tool declared with a bare `@tool` takes its description from its whole docstring; the model keeps only the docstring's summary line.
- Printing and `pretty_print` (app.py:13, 22-23, 40; simple_app.py:13, 17-18) are output only.
- `BasicAgent.__init__` builds a new graph for every request; the compiled graph is the parameter `graph`.
- ChatApp.Entry: history content is text or missing; content of other kinds (files, components) is not modelled.
- PyStr.Split: Python raises `ValueError` for an empty separator; the model requires a non-empty one, and the only separator used is the fixed marker.
- The Gradio wiring (app.py:49-64, simple_app.py:31-46). In simple_app.py:39 a list is indexed with a string, which raises `TypeError` when the module loads; only the two functions of that file are modelled.
- The React front end, its HTTP client and type declarations, and `start.py` are user interface and process launching.
