/** The agent's graph as `build_agent` assembles it: nodes and edges added one by one to a
    graph object, the fixed transition relation they form, the tool-call router, and the
    shape of every run. */
module AgentGraph {
  import opened Messages

  /** The graph's nodes, with the entry and exit pseudo-nodes. */
  datatype Node = Start | Retriever | Assistant | Tools | End

  /** A graph under construction: its nodes, its unconditional edges, and for each
      source of a conditional edge the targets its router may choose. */
  class StateGraph {
    var nodes: set<Node>
    var edges: set<(Node, Node)>
    var branches: map<Node, set<Node>>

    constructor ()
      ensures nodes == {} && edges == {} && branches == map[]
    {
      nodes, edges, branches := {}, {}, map[];
    }

    /* LangGraph refuses a duplicate node, the entry or exit added as a node, and an edge
       out of the exit; `BuildAgent` makes none of these calls, so the model does not check
       for them. */
    method AddNode(n: Node)
      modifies this
      ensures nodes == old(nodes) + {n}
      ensures edges == old(edges) && branches == old(branches)
    {
      nodes := nodes + {n};
    }

    method AddEdge(source: Node, target: Node)
      modifies this
      ensures edges == old(edges) + {(source, target)}
      ensures nodes == old(nodes) && branches == old(branches)
    {
      edges := edges + {(source, target)};
    }

    method AddConditionalEdges(source: Node, targets: set<Node>)
      modifies this
      ensures branches == old(branches)[source := targets]
      ensures nodes == old(nodes) && edges == old(edges)
    {
      branches := branches[source := targets];
    }
  }

  /** The two answers of the tool-call router: run the tools, or finish. */
  const RouterTargets: set<Node> := {Tools, End}

  const AgentNodes: set<Node> := {Retriever, Assistant, Tools}
  const AgentEdges: set<(Node, Node)> := {(Start, Retriever), (Retriever, Assistant), (Tools, Assistant)}
  const AgentBranches: map<Node, set<Node>> := map[Assistant := RouterTargets]

  /** The sequence of calls in `build_agent`, which builds the agent's graph. */
  method BuildAgent() returns (g: StateGraph)
    ensures fresh(g)
    ensures g.nodes == AgentNodes && g.edges == AgentEdges && g.branches == AgentBranches
  {
    g := new StateGraph();
    g.AddNode(Retriever);
    g.AddNode(Assistant);
    g.AddNode(Tools);
    g.AddEdge(Start, Retriever);
    g.AddEdge(Retriever, Assistant);
    g.AddConditionalEdges(Assistant, RouterTargets);
    g.AddEdge(Tools, Assistant);
  }

  /** The nodes that may follow `n` in a graph with these edges and branches. */
  function Successors(edges: set<(Node, Node)>, branches: map<Node, set<Node>>, n: Node): (r: set<Node>)
  {
    (set e | e in edges && e.0 == n :: e.1) + (if n in branches then branches[n] else {})
  }

  /** The agent's transition relation: the unconditional edges out of `n`, and the
      router's choices when `n` is the assistant. */
  function Next(n: Node): (r: set<Node>)
    ensures forall m :: m in r <==> (n, m) in AgentEdges || (n == Assistant && m in RouterTargets)
  {
    Successors(AgentEdges, AgentBranches, n)
  }

  /** Each node's successors: the entry leads only to the retriever, the retriever and the
      tools lead only to the assistant, the assistant to the tools or the exit, and the
      exit nowhere. */
  lemma Topology()
    ensures Next(Start) == {Retriever}
    ensures Next(Retriever) == {Assistant}
    ensures Next(Tools) == {Assistant}
    ensures Next(Assistant) == {Tools, End}
    ensures Next(End) == {}
  {
    assert (Start, Retriever) in AgentEdges;
    assert (Retriever, Assistant) in AgentEdges;
    assert (Tools, Assistant) in AgentEdges;
  }

  /** The assistant is the only node with a choice of successor, and the only way to the exit. */
  lemma OnlyAssistantBranches(n: Node)
    ensures |Next(n)| > 1 <==> n == Assistant
    ensures End in Next(n) <==> n == Assistant
  {
    Topology();
  }

  /** `tools_condition`, abstractly: run the tools if the last message asks for tool calls. */
  function Route(last: Message): (n: Node)
    ensures n in RouterTargets
    ensures n == Tools <==> HasToolCalls(last)
  {
    if HasToolCalls(last) then Tools else End
  }

  /** One step of a run: where the graph goes from `n` once the node has produced `last`. */
  function Step(n: Node, last: Message): (m: Node)
    requires n != End
    ensures m in Next(n)
  {
    Topology();
    match n
    case Start => Retriever
    case Retriever => Assistant
    case Assistant => Route(last)
    case Tools => Assistant
  }

  /** Every edge of the relation is taken by some step. */
  lemma StepTakesEveryEdge(n: Node, m: Node) returns (last: Message)
    requires m in Next(n)
    ensures n != End && Step(n, last) == m
  {
    Topology();
    last := if m == Tools then Message(AIRole, "", [ToolCall("", "")]) else AIMessage("");
  }

  /** Consecutive nodes of `t` are joined by edges. */
  predicate Path(t: seq<Node>)
  {
    forall i :: 0 <= i < |t| - 1 ==> t[i + 1] in Next(t[i])
  }

  /** A complete run, from the entry to the exit along the edges. */
  predicate ValidRun(t: seq<Node>)
  {
    |t| >= 2 && t[0] == Start && t[|t| - 1] == End && Path(t)
  }

  /** The node sequence `(assistant tools)* assistant`. */
  predicate LoopShape(s: seq<Node>)
    decreases |s|
  {
    s == [Assistant] || (|s| >= 3 && s[0] == Assistant && s[1] == Tools && LoopShape(s[2..]))
  }

  /** The entry, then `retriever (assistant tools)* assistant`, then the exit. */
  predicate RunShape(t: seq<Node>)
  {
    |t| >= 4 && t[0] == Start && t[1] == Retriever && t[|t| - 1] == End && LoopShape(t[2..|t| - 1])
  }

  /** Nothing follows the exit on a path. */
  lemma EndIsLast(t: seq<Node>)
    requires Path(t)
    ensures forall j :: 0 <= j < |t| - 1 ==> t[j] != End
  {
    Topology();
    forall j | 0 <= j < |t| - 1 ensures t[j] != End {
      assert t[j + 1] in Next(t[j]);
    }
  }

  lemma {:induction false} PathFromAssistant(s: seq<Node>)
    requires |s| >= 2 && s[0] == Assistant && s[|s| - 1] == End && Path(s)
    decreases |s|
    ensures LoopShape(s[..|s| - 1])
  {
    Topology();
    assert s[1] in Next(Assistant);
    if s[1] == End {
      EndIsLast(s);
      assert s[..|s| - 1] == [Assistant];
    } else {
      assert s[1] == Tools;
      assert s[2] in Next(Tools);
      var rest := s[2..];
      assert Path(rest) by {
        forall i | 0 <= i < |rest| - 1 ensures rest[i + 1] in Next(rest[i]) {
          assert rest[i] == s[i + 2] && rest[i + 1] == s[i + 3];
        }
      }
      PathFromAssistant(rest);
      assert s[..|s| - 1][2..] == rest[..|rest| - 1];
    }
  }

  lemma {:induction false} LoopShapeIsPath(s: seq<Node>)
    requires LoopShape(s)
    decreases |s|
    ensures s[0] == Assistant && Path(s + [End])
  {
    Topology();
    if s != [Assistant] {
      LoopShapeIsPath(s[2..]);
      var t := s + [End];
      forall i | 0 <= i < |t| - 1 ensures t[i + 1] in Next(t[i]) {
        if i >= 2 {
          assert t[i] == (s[2..] + [End])[i - 2] && t[i + 1] == (s[2..] + [End])[i - 1];
        }
      }
    }
  }

  /** A node sequence is a run of the graph exactly when it has the shape
      `retriever (assistant tools)* assistant` between the entry and the exit. */
  lemma RunsHaveLoopShape(t: seq<Node>)
    ensures ValidRun(t) <==> RunShape(t)
  {
    Topology();
    if ValidRun(t) {
      assert t[1] == Retriever;
      assert |t| > 2;
      assert t[2] == Assistant;
      var s := t[2..];
      assert Path(s) by {
        forall i | 0 <= i < |s| - 1 ensures s[i + 1] in Next(s[i]) {
          assert s[i] == t[i + 2] && s[i + 1] == t[i + 3];
        }
      }
      PathFromAssistant(s);
      assert s[..|s| - 1] == t[2..|t| - 1];
    }
    if RunShape(t) {
      var s := t[2..|t| - 1];
      LoopShapeIsPath(s);
      assert t == [Start, Retriever] + (s + [End]);
      forall i | 0 <= i < |t| - 1 ensures t[i + 1] in Next(t[i]) {
        if i >= 2 {
          assert t[i] == (s + [End])[i - 2] && t[i + 1] == (s + [End])[i - 1];
        }
      }
    }
  }

  lemma {:induction false} LoopShapeNodes(s: seq<Node>, i: nat)
    requires LoopShape(s) && i < |s|
    decreases |s|
    ensures s[i] == Assistant || s[i] == Tools
    ensures s[i] == Tools ==> i + 1 < |s| && s[i + 1] == Assistant
    ensures s[|s| - 1] == Assistant
  {
    if s != [Assistant] {
      if i >= 2 {
        LoopShapeNodes(s[2..], i - 2);
      } else {
        LoopShapeNodes(s[2..], 0);
      }
      assert s[|s| - 1] == s[2..][|s| - 3];
    }
  }

  /** In every run the retriever runs exactly once and first, the tools always hand back to
      the assistant, and the run leaves from the assistant. */
  lemma RunProperties(t: seq<Node>)
    requires ValidRun(t)
    ensures forall i :: 0 <= i < |t| && t[i] == Retriever ==> i == 1
    ensures t[1] == Retriever
    ensures forall i :: 0 <= i < |t| && t[i] == Tools ==> i + 1 < |t| && t[i + 1] == Assistant
    ensures t[|t| - 2] == Assistant
  {
    RunsHaveLoopShape(t);
    var s := t[2..|t| - 1];
    forall i | 2 <= i < |t| - 1 ensures t[i] != Retriever && (t[i] == Tools ==> t[i + 1] == Assistant) {
      LoopShapeNodes(s, i - 2);
      assert t[i] == s[i - 2];
      if t[i] == Tools {
        assert t[i + 1] == s[i - 1];
      }
    }
    LoopShapeNodes(s, 0);
    assert t[|t| - 2] == s[|s| - 1];
  }

  /** The node sequence of a run whose assistant replies are `replies`: the run goes on
      while a reply asks for tools and stops at the first one that does not. */
  function RunTrace(replies: seq<Message>): (t: seq<Node>)
    requires |replies| > 0 && !HasToolCalls(replies[|replies| - 1])
    requires forall i :: 0 <= i < |replies| - 1 ==> HasToolCalls(replies[i])
    ensures |t| == 2 * |replies| + 2
    ensures ValidRun(t)
  {
    var loop := Loop(replies);
    LoopIsShaped(replies);
    RunsHaveLoopShape([Start, Retriever] + loop + [End]);
    assert ([Start, Retriever] + loop + [End])[2..2 * |replies| + 1] == loop;
    [Start, Retriever] + loop + [End]
  }

  /** The assistant/tools part of a run: each reply takes the assistant to `Step`'s choice. */
  function Loop(replies: seq<Message>): (t: seq<Node>)
    requires |replies| > 0
    ensures |t| == 2 * |replies| - 1
    ensures t[0] == Assistant && t[|t| - 1] == Assistant
    ensures forall i :: 0 <= i < |t| ==> (t[i] == Assistant <==> i % 2 == 0)
    ensures forall k :: 0 <= k < |replies| - 1 ==> t[2 * k + 1] == Route(replies[k])
  {
    if |replies| == 1 then [Assistant]
    else [Assistant, Step(Assistant, replies[0])] + Loop(replies[1..])
  }

  lemma {:induction false} LoopIsShaped(replies: seq<Message>)
    requires |replies| > 0 && !HasToolCalls(replies[|replies| - 1])
    requires forall i :: 0 <= i < |replies| - 1 ==> HasToolCalls(replies[i])
    ensures |Loop(replies)| == 2 * |replies| - 1 && LoopShape(Loop(replies))
  {
    if |replies| > 1 {
      assert HasToolCalls(replies[0]);
      LoopIsShaped(replies[1..]);
      assert Loop(replies)[2..] == Loop(replies[1..]);
    }
  }

  /** A first reply without tool calls ends the run after a single assistant step. */
  lemma DirectAnswer(reply: Message)
    requires !HasToolCalls(reply)
    ensures RunTrace([reply]) == [Start, Retriever, Assistant, End]
  {
  }
}
