/**
 * A worked execution: a stage "Build", an `sh` step, a parallel branch
 * block holding a second `sh` step, the end of that block and the end of
 * the flow, in a run 5 of job "proj".
 */
module Scenario {
  import opened Wrappers
  import opened FlowGraph
  import opened BlockResolver
  import opened Messages
  import opened StageTracker
  import opened EventListener
  import opened ContextPath

  const Exec: ExecId := 1

  function Graph7(): (g: Graph)
    ensures WellFormed(g) && |g.nodes| == 7
  {
    Graph(Exec, [
      Node("2", "Start of Pipeline", [], OtherKind, false, false, None),
      Node("3", "Build", [0], StepStart, true, false, Some("stage")),
      Node("4", "Shell Script", [1], StepAtom, false, false, Some("sh")),
      Node("5", "Branch: A", [2], StepStart, false, true, Some("parallel")),
      Node("6", "Shell Script", [3], StepAtom, false, false, Some("sh")),
      Node("7", "Branch: A", [4], StepEnd(3), false, true, Some("parallel")),
      Node("8", "End of Pipeline", [5], FlowEnd, false, false, None)
    ])
  }

  const Run: Env := Env(Some(RunRef("proj", "5")), false)

  /** Up to the branch start, no node of the worked graph has a parent block. */
  lemma ScenarioTopLevel()
    ensures ParentBlock(Graph7(), 0) == None && ParentBlock(Graph7(), 1) == None
    ensures ParentBlock(Graph7(), 2) == None && ParentBlock(Graph7(), 3) == None
    ensures Branch(Graph7(), 1) == [] && Branch(Graph7(), 2) == [] && Branch(Graph7(), 3) == []
  {
    var g := Graph7();
    assert ParentBlock(g, 0) == None;
    assert FirstBodyStart(g, g.nodes[1].parents, 1) == None;
    assert ParentBlock(g, 1) == None;
    assert FirstBodyStart(g, g.nodes[2].parents, 1) == None;
    assert ParentBlock(g, 2) == None;
    assert FirstBodyStart(g, g.nodes[3].parents, 1) == None;
  }

  /**
   * The inner step and the branch end have the branch start as parent block;
   * the flow end, reached only through the end node, has none.
   */
  lemma ScenarioInBranch()
    ensures ParentBlock(Graph7(), 4) == Some(3) && ParentBlock(Graph7(), 5) == Some(3)
    ensures ParentBlock(Graph7(), 6) == None
    ensures Branch(Graph7(), 4) == ["5"]
  {
    var g := Graph7();
    ScenarioTopLevel();
    assert ParentBlock(g, 4) == Some(3);
    assert FirstBodyStart(g, g.nodes[5].parents, 1) == None;
    assert SearchParents(g, 5, 0) == Some(3);
    EndParentsHideBlocks(g, 6);
    assert BranchNodes(g, 4) == [3];
  }

  /** `m` is a pipeline message of the run with the given event and context. */
  predicate Shows(m: Option<Message>, event: PipelineEvent, context: string)
  {
    && m.Some? && m.value.channel == PipelineChannel && m.value.event == event
    && Context in m.value.props && m.value.props[Context] == context
    && JobName in m.value.props && m.value.props[JobName] == "proj"
    && RunId in m.value.props && m.value.props[RunId] == "5"
  }

  /** `m` names the stage "Build" (node 3) as its stage. */
  predicate InBuild(m: Option<Message>)
  {
    && m.Some?
    && StageName in m.value.props && m.value.props[StageName] == "Build"
    && StageId in m.value.props && m.value.props[StageId] == "3"
  }

  /** The tracker once the stage node has been seen. */
  const AfterBuild: Tracker := Tracker(map[Exec := "Build"], map[Exec := "3"])

  /** The message of a classified node event, built against the tracker the node leaves behind. */
  lemma NodeMessageOf(t: Tracker, i: nat, event: PipelineEvent, branch: seq<string>)
    requires i < 7 && Classify(Graph7(), i) == NodeEvent(event, branch)
    ensures var r := OnNewHead(t, Graph7(), i, Run);
      MainMessage(r.published) == Some(NodeMessage(event, Graph7(), i, branch, r.tracker, Run))
  {
    var r := OnNewHead(t, Graph7(), i, Run);
    MainMessageOfNodeEvent(event, Graph7(), i, branch, r.tracker, Run);
  }

  /** A node message built against AfterBuild shows its branch, the run and the stage "Build". */
  lemma ShowsInBuild(i: nat, event: PipelineEvent, branch: seq<string>)
    requires i < 7
    ensures var m := Some(NodeMessage(event, Graph7(), i, branch, AfterBuild, Run));
      Shows(m, event, ToPath(branch)) && InBuild(m)
  {
    var g := Graph7();
    var m := NodeMessage(event, g, i, branch, AfterBuild, Run);
    assert NodeProp(Context, g, i, branch, AfterBuild, Run) == Some(ToPath(branch));
    assert NodeProp(StageName, g, i, branch, AfterBuild, Run) == Some("Build");
    assert NodeProp(StageId, g, i, branch, AfterBuild, Run) == Some("3");
    assert NodeProp(JobName, g, i, branch, AfterBuild, Run) == Some("proj");
    assert NodeProp(RunId, g, i, branch, AfterBuild, Run) == Some("5");
  }

  /** The start node is silent; the stage node records "Build" and announces it with context "". */
  lemma ScenarioStage()
    ensures OnNewHead(Empty, Graph7(), 0, Run) == Step(Empty, [])
    ensures OnNewHead(Empty, Graph7(), 1, Run).tracker == AfterBuild
    ensures var m := MainMessage(OnNewHead(Empty, Graph7(), 1, Run).published);
      Shows(m, PipelineStage, "") && InBuild(m)
  {
    ScenarioTopLevel();
    ScenarioInBranch();
    assert Classify(Graph7(), 1) == NodeEvent(PipelineStage, []);
    NodeMessageOf(Empty, 1, PipelineStage, []);
    ShowsInBuild(1, PipelineStage, []);
  }

  /** The first `sh` step: pipeline_step at the top level. */
  lemma ScenarioFirstStep()
    ensures OnNewHead(AfterBuild, Graph7(), 2, Run).tracker == AfterBuild
    ensures var m := MainMessage(OnNewHead(AfterBuild, Graph7(), 2, Run).published);
      Shows(m, PipelineStep, "") && InBuild(m)
  {
    ScenarioTopLevel();
    ScenarioInBranch();
    assert Classify(Graph7(), 2) == NodeEvent(PipelineStep, []);
    NodeMessageOf(AfterBuild, 2, PipelineStep, []);
    ShowsInBuild(2, PipelineStep, []);
  }

  /** The branch start: pipeline_block_start whose context is the branch itself. */
  lemma ScenarioBlockStart()
    ensures var m := MainMessage(OnNewHead(AfterBuild, Graph7(), 3, Run).published);
      Shows(m, PipelineBlockStart, "5") && InBuild(m)
  {
    ScenarioTopLevel();
    ScenarioInBranch();
    ToPathShort("5");
    assert Classify(Graph7(), 3) == NodeEvent(PipelineBlockStart, ["5"]);
    NodeMessageOf(AfterBuild, 3, PipelineBlockStart, ["5"]);
    ShowsInBuild(3, PipelineBlockStart, ["5"]);
  }

  /** The inner `sh` step: pipeline_step inside the branch. */
  lemma ScenarioInnerStep()
    ensures var m := MainMessage(OnNewHead(AfterBuild, Graph7(), 4, Run).published);
      Shows(m, PipelineStep, "5") && InBuild(m)
  {
    ScenarioTopLevel();
    ScenarioInBranch();
    ToPathShort("5");
    assert Classify(Graph7(), 4) == NodeEvent(PipelineStep, ["5"]);
    NodeMessageOf(AfterBuild, 4, PipelineStep, ["5"]);
    ShowsInBuild(4, PipelineStep, ["5"]);
  }

  /** The branch end: pipeline_block_end with the branch start's context. */
  lemma ScenarioBlockEnd()
    ensures var m := MainMessage(OnNewHead(AfterBuild, Graph7(), 5, Run).published);
      Shows(m, PipelineBlockEnd, "5") && InBuild(m)
  {
    ScenarioTopLevel();
    ScenarioInBranch();
    ToPathShort("5");
    assert Classify(Graph7(), 5) == NodeEvent(PipelineBlockEnd, ["5"]);
    NodeMessageOf(AfterBuild, 5, PipelineBlockEnd, ["5"]);
    ShowsInBuild(5, PipelineBlockEnd, ["5"]);
  }

  /** The flow end: pipeline_end carrying the run identity and nothing else. */
  lemma ScenarioEnd()
    ensures OnNewHead(AfterBuild, Graph7(), 6, Run).published
      == [OnPipelineChannel(Message(PipelineChannel, PipelineEnd, map[JobName := "proj", RunId := "5"]))]
  {
    assert Classify(Graph7(), 6) == ExecutionEvent(PipelineEnd);
  }

  /**
   * A second execution: a parallel branch body holding a `dir` step whose
   * body holds an `sh` step, then a second `sh` step after `dir` has ended,
   * while the parallel branch is still open (its end is not in the graph).
   */
  function NestedGraph(): (g: Graph)
    ensures WellFormed(g) && |g.nodes| == 8
  {
    Graph(Exec, [
      Node("2", "Start of Pipeline", [], OtherKind, false, false, None),
      Node("3", "Branch: A", [0], StepStart, false, true, Some("parallel")),
      Node("4", "dir", [1], StepStart, false, false, Some("dir")),
      Node("5", "dir body", [2], StepStart, false, true, Some("dir")),
      Node("6", "Shell Script", [3], StepAtom, false, false, Some("sh")),
      Node("7", "dir body", [4], StepEnd(3), false, true, Some("dir")),
      Node("8", "dir", [5], StepEnd(2), false, false, Some("dir")),
      Node("9", "Shell Script", [6], StepAtom, false, false, Some("sh"))
    ])
  }

  /** `dir` and its body start are attributed to branch A, which is attributed to no block. */
  lemma NestedDirInA()
    ensures ParentBlock(NestedGraph(), 1) == None
    ensures ParentBlock(NestedGraph(), 2) == Some(1)
    ensures ParentBlock(NestedGraph(), 3) == Some(1)
  {
    var g := NestedGraph();
    assert FirstBodyStart(g, g.nodes[1].parents, 1) == None;
    assert SearchParents(g, 1, 1) == None;
    DirectBodyStartWins(g, 2, 0);
    assert FirstBodyStart(g, g.nodes[3].parents, 1) == None;
    assert SearchParents(g, 3, 1) == None;
    assert SearchParents(g, 3, 0) == Some(1);
  }

  /** The inner `sh` step is attributed to `dir`'s body, which is attributed to branch A. */
  lemma NestedInnerNodes()
    ensures BranchNodes(NestedGraph(), 4) == [1, 3]
  {
    var g := NestedGraph();
    NestedDirInA();
    DirectBodyStartWins(g, 4, 0);
    assert BranchNodes(g, 1) == [];
    assert BranchNodes(g, 3) == [1];
  }

  /** The context of a two-block branch. */
  lemma PathOfPair(a: string, b: string)
    requires a != ""
    ensures ToPath([a, b]) == a + "/" + b
  {
    ToPathShort(a);
    ToPathSnoc([a], b);
    assert [a] + [b] == [a, b];
  }

  /** The branch of a node attributed to two nested blocks. */
  lemma BranchOfPair(g: Graph, i: nat, a: nat, b: nat)
    requires WellFormed(g) && i < |g.nodes| && a < i && b < i && BranchNodes(g, i) == [a, b]
    ensures Branch(g, i) == [g.nodes[a].id, g.nodes[b].id]
  {
  }

  /** So its context is "3/5". */
  lemma NestedInnerChain()
    ensures Branch(NestedGraph(), 4) == ["3", "5"] && ToPath(Branch(NestedGraph(), 4)) == "3/5"
  {
    NestedInnerNodes();
    BranchOfPair(NestedGraph(), 4, 1, 3);
    PathOfPair("3", "5");
  }

  /** No node of the nested graph ends branch A. */
  lemma BranchAOpen()
    ensures forall j | 0 <= j < |NestedGraph().nodes| :: NestedGraph().nodes[j].kind != StepEnd(1)
  {
    var g := NestedGraph();
    assert g.nodes[5].kind == StepEnd(3) && g.nodes[6].kind == StepEnd(2);
  }

  /**
   * The resolver's rule of never entering an end node loses the outer
   * block: the `sh` step after `dir` reaches no block and gets context ""
   * although branch A, which holds it, has not ended.
   */
  lemma StepAfterNestedBlock()
    ensures forall b :: !Reaches(NestedGraph(), 7, b)
    ensures var m := MainMessage(OnNewHead(Empty, NestedGraph(), 7, Run).published);
      m.Some? && m.value.event == PipelineStep && m.value.props[Context] == ""
  {
    var g := NestedGraph();
    EndParentsHideBlocks(g, 7);
    ParentBlockNoneIff(g, 7);
    assert Branch(g, 7) == [];
    assert Classify(g, 7) == NodeEvent(PipelineStep, []);
    MainMessageOfNodeEvent(PipelineStep, g, 7, [], Empty, Run);
  }
}
