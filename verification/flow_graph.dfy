/**
 * The append-only graph of flow nodes that one pipeline execution grows.
 * Nodes are stored in the order they were appended, and every edge points
 * backwards: a parent always has a smaller index than its child. That order
 * is what makes the backward walks of the resolver terminate.
 */
module FlowGraph {
  import opened Wrappers

  /** Identity of one running execution (the engine's FlowExecution object). */
  type ExecId = nat

  /** The node classes the listener tells apart with `instanceof`. */
  datatype Kind =
    | StepStart              // StepStartNode: opens a step's block
    | StepAtom               // StepAtomNode: a step without a body
    | StepEnd(start: nat)    // StepEndNode, with the index of its StepStartNode
    | FlowEnd                // FlowEndNode: the execution has finished
    | OtherKind              // FlowStartNode and every other node class

  /**
   * One flow node. The engine-computed attributes the listener queries are
   * recorded as fields: `isStage` is the answer of the stage test,
   * `bodyInvocation` says whether the node carries a BodyInvocationAction,
   * and `functionName` is the function name of the node's step descriptor,
   * when it has one.
   */
  datatype Node = Node(
    id: string,
    displayName: string,
    parents: seq<nat>,
    kind: Kind,
    isStage: bool,
    bodyInvocation: bool,
    functionName: Option<string>)

  /** All nodes of one execution, in the order they were appended. */
  datatype Graph = Graph(exec: ExecId, nodes: seq<Node>)

  /**
   * The graph is append-only and therefore acyclic: every edge points to an
   * earlier node, and an end node's start is an earlier StepStartNode.
   */
  predicate WellFormed(g: Graph)
  {
    && (forall i, k | 0 <= i < |g.nodes| && 0 <= k < |g.nodes[i].parents| :: g.nodes[i].parents[k] < i)
    && (forall i | 0 <= i < |g.nodes| && g.nodes[i].kind.StepEnd? ::
          g.nodes[i].kind.start < i && g.nodes[g.nodes[i].kind.start].kind.StepStart?)
  }

  /** The parents of node `i`, in the order the engine lists them. */
  function Parents(g: Graph, i: nat): (ps: seq<nat>)
    requires WellFormed(g) && i < |g.nodes|
    ensures ps == g.nodes[i].parents
    ensures forall k | 0 <= k < |ps| :: ps[k] < i
  {
    g.nodes[i].parents
  }

  /** The index of the StepStartNode that an end node closes. */
  function StartOf(g: Graph, i: nat): (s: nat)
    requires WellFormed(g) && i < |g.nodes| && g.nodes[i].kind.StepEnd?
    ensures s < i && g.nodes[s].kind.StepStart?
  {
    g.nodes[i].kind.start
  }

  /** A StepStartNode carrying a BodyInvocationAction: the start of a nested scope. */
  predicate IsBodyStart(g: Graph, p: nat)
    requires p < |g.nodes|
  {
    g.nodes[p].kind.StepStart? && g.nodes[p].bodyInvocation
  }

  /** A StepEndNode, which closes a scope the resolver must not enter. */
  predicate IsEnd(g: Graph, p: nat)
    requires p < |g.nodes|
  {
    g.nodes[p].kind.StepEnd?
  }

  /** The node classes that implement StepNode and so may expose a step descriptor. */
  predicate IsStepNode(n: Node)
  {
    n.kind.StepStart? || n.kind.StepAtom? || n.kind.StepEnd?
  }
}
