/**
 * The event classifier: each new head node of an execution's graph becomes
 * at most one pipeline-channel message (preceded by a job-channel pause
 * notice for a paused input step), and stage nodes update the stage tracker.
 * The execution-started and input-resumed notifications are handled here too.
 */
module EventListener {
  import opened Wrappers
  import opened FlowGraph
  import opened BlockResolver
  import opened ContextPath
  import opened Messages
  import opened StageTracker

  /**
   * The engine's answers for one notification: the run the execution
   * belongs to (None when resolving the executable fails or it is not a
   * run), and whether the node is the input step the run is paused on.
   */
  datatype Env = Env(run: Option<RunRef>, pausedForInput: bool)

  /** The tracker after a notification and what was handed to the bus, in order. */
  datatype Step = Step(tracker: Tracker, published: seq<Published>)

  /** Every property key. */
  const AllProps: set<Prop> := {JobName, RunId, FlowNodeId, Context, StageName, StageId, StepName, IsPaused}

  /**
   * The value newMessage(event, node, branch) gives property `p`, or None
   * when it leaves `p` unset: the run identity, the node id, the serialised
   * branch, the execution's current stage, the step function name of a step
   * node, and — for an atomic step of a run — the paused flag.
   */
  function NodeProp(p: Prop, g: Graph, i: nat, branch: seq<string>, t: Tracker, env: Env): Option<string>
    requires i < |g.nodes|
  {
    var n := g.nodes[i];
    match p
    case JobName => if env.run.Some? then Some(env.run.value.jobFullName) else None
    case RunId => if env.run.Some? then Some(env.run.value.runId) else None
    case FlowNodeId => Some(n.id)
    case Context => Some(ToPath(branch))
    case StageName => CurrentName(t, g.exec)
    case StageId => CurrentId(t, g.exec)
    case StepName => if IsStepNode(n) then n.functionName else None
    case IsPaused => if n.kind.StepAtom? && env.run.Some? then Some(BoolString(env.pausedForInput)) else None
  }

  /**
   * newMessage(event, node, branch): the run identity when the execution is
   * a run's, the node id and serialised branch always, the execution's
   * tracked stage when there is one, the step function name of a step node
   * that has a descriptor, and the paused flag of an atomic step of a run.
   */
  function NodeMessage(event: PipelineEvent, g: Graph, i: nat, branch: seq<string>, t: Tracker, env: Env): (m: Message)
    requires i < |g.nodes|
    ensures m.channel == PipelineChannel && m.event == event
    ensures FlowNodeId in m.props && m.props[FlowNodeId] == g.nodes[i].id
    ensures Context in m.props && m.props[Context] == ToPath(branch)
    ensures JobName in m.props <==> env.run.Some?
    ensures RunId in m.props <==> env.run.Some?
    ensures env.run.Some? ==> m.props[JobName] == env.run.value.jobFullName && m.props[RunId] == env.run.value.runId
    ensures StageName in m.props <==> g.exec in t.names
    ensures g.exec in t.names ==> m.props[StageName] == t.names[g.exec]
    ensures StageId in m.props <==> g.exec in t.ids
    ensures g.exec in t.ids ==> m.props[StageId] == t.ids[g.exec]
    ensures StepName in m.props <==> IsStepNode(g.nodes[i]) && g.nodes[i].functionName.Some?
    ensures StepName in m.props ==> m.props[StepName] == g.nodes[i].functionName.value
    ensures IsPaused in m.props <==> g.nodes[i].kind.StepAtom? && env.run.Some?
    ensures IsPaused in m.props ==> m.props[IsPaused] == BoolString(env.pausedForInput)
  {
    var props := map p | p in AllProps && NodeProp(p, g, i, branch, t, env).Some? :: NodeProp(p, g, i, branch, t, env).value;
    Message(PipelineChannel, event, props)
  }

  /**
   * The execution-level part of a node message agrees with newMessage(event,
   * execution), and the node id and context are always present.
   */
  lemma NodeMessageExtendsExecMessage(event: PipelineEvent, g: Graph, i: nat, branch: seq<string>, t: Tracker, env: Env)
    requires i < |g.nodes|
    ensures var m := NodeMessage(event, g, i, branch, t, env); var e := ExecMessage(event, env.run);
      && m.channel == e.channel && m.event == e.event
      && (forall p | p in e.props :: p in m.props && m.props[p] == e.props[p])
      && m.props[FlowNodeId] == g.nodes[i].id
      && m.props[Context] == ToPath(branch)
  {
    var m := NodeMessage(event, g, i, branch, t, env);
    assert NodeProp(FlowNodeId, g, i, branch, t, env).Some?;
    assert NodeProp(Context, g, i, branch, t, env).Some?;
    if env.run.Some? {
      assert NodeProp(JobName, g, i, branch, t, env).Some?;
      assert NodeProp(RunId, g, i, branch, t, env).Some?;
    }
  }

  /** The job_run_paused notice published while building an atomic step's message. */
  function PauseNotice(g: Graph, i: nat, env: Env): seq<Published>
    requires i < |g.nodes|
  {
    if g.nodes[i].kind.StepAtom? && env.run.Some? && env.pausedForInput
    then [OnJobChannel(RunMessage(JobRunPaused, env.run.value))]
    else []
  }

  /** What publishing a node event hands to the bus: the pause notice first, then the event. */
  function PublishNodeEvent(event: PipelineEvent, g: Graph, i: nat, branch: seq<string>, t: Tracker, env: Env): seq<Published>
    requires i < |g.nodes|
  {
    PauseNotice(g, i, env) + [OnPipelineChannel(NodeMessage(event, g, i, branch, t, env))]
  }

  /** The decision onNewHead takes for a node: no event, an execution-level event, or a node event with its branch. */
  datatype Emission =
    | Silent
    | ExecutionEvent(event: PipelineEvent)
    | NodeEvent(event: PipelineEvent, branch: seq<string>)

  /**
   * The dispatch of onNewHead. The stage test comes first; then
   * body-invocation starts (branch plus the node's own id), atomic steps,
   * body-invocation ends (the start node's branch plus the start node's id)
   * and the flow end. Start and end nodes without a body invocation, and
   * every other node class, give no event.
   */
  function Classify(g: Graph, i: nat): Emission
    requires WellFormed(g) && i < |g.nodes|
  {
    var n := g.nodes[i];
    if n.isStage then NodeEvent(PipelineStage, Branch(g, i))
    else if n.kind.StepStart? then
      if n.bodyInvocation then NodeEvent(PipelineBlockStart, Branch(g, i) + [n.id]) else Silent
    else if n.kind.StepAtom? then NodeEvent(PipelineStep, Branch(g, i))
    else if n.kind.StepEnd? then
      if n.bodyInvocation then
        var s := StartOf(g, i);
        NodeEvent(PipelineBlockEnd, Branch(g, s) + [g.nodes[s].id])
      else Silent
    else if n.kind.FlowEnd? then ExecutionEvent(PipelineEnd)
    else Silent
  }

  /**
   * onNewHead: a stage node records itself in the tracker before its message
   * is built; then the classified event is published. Only a stage node
   * touches the tracker, and only its own execution's entry.
   */
  function OnNewHead(t: Tracker, g: Graph, i: nat, env: Env): (r: Step)
    requires WellFormed(g) && i < |g.nodes|
    ensures Valid(t) ==> Valid(r.tracker)
    ensures !g.nodes[i].isStage ==> r.tracker == t
    ensures g.nodes[i].isStage ==>
      CurrentName(r.tracker, g.exec) == Some(g.nodes[i].displayName) && CurrentId(r.tracker, g.exec) == Some(g.nodes[i].id)
    ensures forall e | e != g.exec :: CurrentName(r.tracker, e) == CurrentName(t, e) && CurrentId(r.tracker, e) == CurrentId(t, e)
  {
    var n := g.nodes[i];
    var t' := if n.isStage then Put(t, g.exec, n.displayName, n.id) else t;
    match Classify(g, i)
    case Silent => Step(t', [])
    case ExecutionEvent(event) => Step(t', [OnPipelineChannel(ExecMessage(event, env.run))])
    case NodeEvent(event, branch) => Step(t', PublishNodeEvent(event, g, i, branch, t', env))
  }

  /**
   * onRunning of the start publisher: one pipeline_start message on the
   * pipeline channel, carrying the run's job name and id when the execution
   * is a run's, and nothing else.
   */
  function OnRunning(run: Option<RunRef>): (r: seq<Published>)
    ensures |r| == 1 && r[0].OnPipelineChannel?
    ensures r[0].msg.channel == PipelineChannel && r[0].msg.event == PipelineStart
    ensures r[0].msg.props == if run.Some? then map[JobName := run.value.jobFullName, RunId := run.value.runId] else map[]
  {
    [OnPipelineChannel(ExecMessage(PipelineStart, run))]
  }

  /** onStepContinue of the input-step publisher: one job_run_unpaused message for the run. */
  function OnStepContinue(run: RunRef): (r: seq<Published>)
    ensures |r| == 1 && r[0] == OnJobChannel(RunMessage(JobRunUnpaused, run))
  {
    [OnJobChannel(RunMessage(JobRunUnpaused, run))]
  }

  // ---------------------------------------------------------------------
  // Properties of one node notification
  // ---------------------------------------------------------------------

  /** The pipeline-channel messages among `ps`, in order. */
  function PipelineMessages(ps: seq<Published>): (r: seq<Message>)
    ensures |r| <= |ps|
  {
    if ps == [] then []
    else if ps[0].OnPipelineChannel? then [ps[0].msg] + PipelineMessages(ps[1..])
    else PipelineMessages(ps[1..])
  }

  /** The event names of the pipeline-channel messages among `ps`. */
  function EventsOf(ps: seq<Published>): seq<PipelineEvent>
  {
    var ms := PipelineMessages(ps);
    seq(|ms|, k requires 0 <= k < |ms| => ms[k].event)
  }

  lemma PipelineMessagesOfNodeEvent(event: PipelineEvent, g: Graph, i: nat, branch: seq<string>, t: Tracker, env: Env)
    requires i < |g.nodes|
    ensures PipelineMessages(PublishNodeEvent(event, g, i, branch, t, env)) == [NodeMessage(event, g, i, branch, t, env)]
  {
    var ps := PublishNodeEvent(event, g, i, branch, t, env);
    if PauseNotice(g, i, env) != [] {
      assert ps[1..] == [OnPipelineChannel(NodeMessage(event, g, i, branch, t, env))];
    }
  }

  /**
   * The classification table: at most one pipeline event per node, the
   * stage test taking precedence over the node class, and no event for
   * start and end nodes without a body invocation or for other classes.
   */
  lemma Classification(t: Tracker, g: Graph, i: nat, env: Env)
    requires WellFormed(g) && i < |g.nodes|
    ensures var n := g.nodes[i]; var ev := EventsOf(OnNewHead(t, g, i, env).published);
      && (n.isStage ==> ev == [PipelineStage])
      && (!n.isStage && n.kind.StepStart? ==> ev == if n.bodyInvocation then [PipelineBlockStart] else [])
      && (!n.isStage && n.kind.StepAtom? ==> ev == [PipelineStep])
      && (!n.isStage && n.kind.StepEnd? ==> ev == if n.bodyInvocation then [PipelineBlockEnd] else [])
      && (!n.isStage && n.kind.FlowEnd? ==> ev == [PipelineEnd])
      && (!n.isStage && n.kind.OtherKind? ==> ev == [])
  {
    var r := OnNewHead(t, g, i, env);
    match Classify(g, i)
    case Silent =>
    case ExecutionEvent(event) =>
    case NodeEvent(event, branch) =>
      PipelineMessagesOfNodeEvent(event, g, i, branch, r.tracker, env);
  }

  /** The pipeline-channel message a notification ends with, if it published one. */
  function MainMessage(ps: seq<Published>): Option<Message>
  {
    if ps != [] && ps[|ps| - 1].OnPipelineChannel? then Some(ps[|ps| - 1].msg) else None
  }

  /** Node ids are usable as path segments, as the engine's numeric ids are. */
  predicate SegmentIds(g: Graph)
  {
    forall i | 0 <= i < |g.nodes| :: IsSegment(g.nodes[i].id)
  }

  /**
   * The scopes a node event is located in: the enclosing blocks of a stage
   * or step, outermost first; for a body-invocation start or end node, the
   * enclosing blocks of the start node followed by the start node itself.
   */
  ghost function ScopeOf(g: Graph, i: nat): (r: seq<nat>)
    requires WellFormed(g) && i < |g.nodes|
    ensures AllIn(g, r)
  {
    var n := g.nodes[i];
    if !n.isStage && n.kind.StepStart? && n.bodyInvocation then BranchNodes(g, i) + [i]
    else if !n.isStage && n.kind.StepEnd? && n.bodyInvocation then
      var s := StartOf(g, i);
      BranchNodes(g, s) + [s]
    else BranchNodes(g, i)
  }

  /** A node event's branch is the list of ids of the node's scopes. */
  lemma ClassifiedBranchIsScope(g: Graph, i: nat)
    requires WellFormed(g) && i < |g.nodes|
    ensures Classify(g, i).NodeEvent? ==> Classify(g, i).branch == Ids(g, ScopeOf(g, i))
  {
    var n := g.nodes[i];
    if !n.isStage && n.kind.StepStart? && n.bodyInvocation {
      IdsSnoc(g, BranchNodes(g, i), i);
    } else if !n.isStage && n.kind.StepEnd? && n.bodyInvocation {
      var s := StartOf(g, i);
      IdsSnoc(g, BranchNodes(g, s), s);
    }
  }

  /** The message of a node event is the last thing published, with the node id and context set. */
  lemma MainMessageOfNodeEvent(event: PipelineEvent, g: Graph, i: nat, branch: seq<string>, t: Tracker, env: Env)
    requires i < |g.nodes|
    ensures MainMessage(PublishNodeEvent(event, g, i, branch, t, env)) == Some(NodeMessage(event, g, i, branch, t, env))
    ensures var m := NodeMessage(event, g, i, branch, t, env);
      Context in m.props && m.props[Context] == ToPath(branch) && FlowNodeId in m.props
  {
    NodeMessageExtendsExecMessage(event, g, i, branch, t, env);
  }

  /**
   * The context of every node event, split at its separators, lists the ids
   * of the scopes the node is in, outermost first; for a block start or end
   * the block itself comes last.
   */
  lemma ContextNamesScopes(t: Tracker, g: Graph, i: nat, env: Env)
    requires WellFormed(g) && i < |g.nodes| && SegmentIds(g)
    ensures var m := MainMessage(OnNewHead(t, g, i, env).published);
      m.Some? && m.value.event != PipelineEnd ==>
        Context in m.value.props && Split(m.value.props[Context]) == Ids(g, ScopeOf(g, i))
  {
    var r := OnNewHead(t, g, i, env);
    match Classify(g, i)
    case Silent =>
    case ExecutionEvent(event) =>
    case NodeEvent(event, branch) =>
      ClassifiedBranchIsScope(g, i);
      var ids := Ids(g, ScopeOf(g, i));
      assert forall k | 0 <= k < |ids| :: IsSegment(ids[k]);
      SplitToPath(ids);
      MainMessageOfNodeEvent(event, g, i, branch, r.tracker, env);
  }

  /**
   * A block's end event carries the same context as its start event: the
   * start node's branch followed by the start node's id.
   */
  lemma BlockEndContextMatchesStart(t: Tracker, t': Tracker, g: Graph, i: nat, env: Env, env': Env)
    requires WellFormed(g) && i < |g.nodes|
    requires g.nodes[i].kind.StepEnd? && g.nodes[i].bodyInvocation && !g.nodes[i].isStage
    requires g.nodes[g.nodes[i].kind.start].bodyInvocation && !g.nodes[g.nodes[i].kind.start].isStage
    ensures var s := g.nodes[i].kind.start;
      var endMsg := MainMessage(OnNewHead(t, g, i, env).published);
      var startMsg := MainMessage(OnNewHead(t', g, s, env').published);
      && endMsg.Some? && endMsg.value.event == PipelineBlockEnd
      && startMsg.Some? && startMsg.value.event == PipelineBlockStart
      && Context in endMsg.value.props && Context in startMsg.value.props
      && endMsg.value.props[Context] == startMsg.value.props[Context] == ToPath(Branch(g, s) + [g.nodes[s].id])
  {
    var s := StartOf(g, i);
    var branch := Branch(g, s) + [g.nodes[s].id];
    assert Classify(g, i) == NodeEvent(PipelineBlockEnd, branch);
    assert Classify(g, s) == NodeEvent(PipelineBlockStart, branch);
    MainMessageOfNodeEvent(PipelineBlockEnd, g, i, branch, t, env);
    MainMessageOfNodeEvent(PipelineBlockStart, g, s, branch, t', env');
  }

  /**
   * The paused flag is set exactly on atomic-step messages of a run, with
   * the pause answer as its value; a job_run_paused notice for the run is
   * published, before the node's message, exactly when that answer is true.
   */
  lemma PauseSignal(t: Tracker, g: Graph, i: nat, env: Env)
    requires WellFormed(g) && i < |g.nodes|
    ensures var r := OnNewHead(t, g, i, env); var n := g.nodes[i];
      var m := MainMessage(r.published);
      && (m.Some? && IsPaused in m.value.props <==> n.kind.StepAtom? && env.run.Some?)
      && (m.Some? && IsPaused in m.value.props ==> m.value.props[IsPaused] == BoolString(env.pausedForInput))
      && ((exists k | 0 <= k < |r.published| :: r.published[k].OnJobChannel?) <==>
            n.kind.StepAtom? && env.run.Some? && env.pausedForInput)
      && (forall k | 0 <= k < |r.published| && r.published[k].OnJobChannel? ::
            k == 0 && r.published[k].runMsg == RunMessage(JobRunPaused, env.run.value))
  {
    var r := OnNewHead(t, g, i, env);
    match Classify(g, i)
    case Silent =>
    case ExecutionEvent(event) =>
    case NodeEvent(event, branch) =>
      MainMessageOfNodeEvent(event, g, i, branch, r.tracker, env);
      var m := NodeMessage(event, g, i, branch, r.tracker, env);
      assert IsPaused in m.props <==> NodeProp(IsPaused, g, i, branch, r.tracker, env).Some?;
      if PauseNotice(g, i, env) != [] {
        assert r.published[0].OnJobChannel?;
      }
  }

  /** A flow end node of the graph always classifies as a stage or as pipeline_end. */
  lemma FlowEndClassification(g: Graph, i: nat)
    requires WellFormed(g) && i < |g.nodes| && g.nodes[i].kind.FlowEnd?
    ensures Classify(g, i) == if g.nodes[i].isStage then NodeEvent(PipelineStage, Branch(g, i)) else ExecutionEvent(PipelineEnd)
  {
  }

  /**
   * pipeline_end carries nothing node-specific: only the run identity, when
   * the execution belongs to a run.
   */
  lemma EndIsExecutionLevel(t: Tracker, g: Graph, i: nat, env: Env)
    requires WellFormed(g) && i < |g.nodes|
    requires g.nodes[i].kind.FlowEnd? && !g.nodes[i].isStage
    ensures var r := OnNewHead(t, g, i, env);
      && |r.published| == 1 && r.published[0].OnPipelineChannel?
      && r.published[0].msg.channel == PipelineChannel && r.published[0].msg.event == PipelineEnd
      && r.published[0].msg.props
         == if env.run.Some? then map[JobName := env.run.value.jobFullName, RunId := env.run.value.runId] else map[]
  {
    FlowEndClassification(g, i);
  }

  /**
   * The start and the end of an execution are announced alike: pipeline_start
   * and pipeline_end carry the same properties, so a subscriber can pair
   * them by run identity.
   */
  lemma StartAndEndAgree(t: Tracker, g: Graph, i: nat, env: Env)
    requires WellFormed(g) && i < |g.nodes|
    requires g.nodes[i].kind.FlowEnd? && !g.nodes[i].isStage
    ensures var start := OnRunning(env.run)[0].msg; var ps := OnNewHead(t, g, i, env).published;
      && |ps| == 1 && ps[0].OnPipelineChannel?
      && ps[0].msg.channel == start.channel && ps[0].msg.props == start.props
  {
    EndIsExecutionLevel(t, g, i, env);
  }

  // ---------------------------------------------------------------------
  // A stream of notifications
  // ---------------------------------------------------------------------

  /** A notification from the engine, with the answers of its queries. */
  datatype Notification =
    | NewHead(g: Graph, node: nat, env: Env)    // GraphListener.onNewHead
    | Running(run: Option<RunRef>)             // FlowExecutionListener.onRunning
    | StepContinue(resumed: RunRef)            // PipelineInputStepListener.onStepContinue

  /** A node notification names a node of a well-formed graph. */
  predicate Admissible(note: Notification)
  {
    note.NewHead? ==> WellFormed(note.g) && note.node < |note.g.nodes|
  }

  predicate AllAdmissible(ns: seq<Notification>)
  {
    forall k | 0 <= k < |ns| :: Admissible(ns[k])
  }

  /** The handling of one notification. */
  function Handle(t: Tracker, note: Notification): Step
    requires Admissible(note)
  {
    match note
    case NewHead(g, i, env) => OnNewHead(t, g, i, env)
    case Running(run) => Step(t, OnRunning(run))
    case StepContinue(run) => Step(t, OnStepContinue(run))
  }

  /** Handling the notifications in order from tracker `t`: the final tracker and everything published. */
  function Replay(t: Tracker, ns: seq<Notification>): Step
    requires AllAdmissible(ns)
    decreases |ns|
  {
    if ns == [] then Step(t, [])
    else
      var prev := Replay(t, ns[..|ns| - 1]);
      var last := Handle(prev.tracker, ns[|ns| - 1]);
      Step(last.tracker, prev.published + last.published)
  }

  /** `note` is a stage node of execution `e`. */
  predicate IsStageIn(note: Notification, e: ExecId)
    requires Admissible(note)
  {
    note.NewHead? && note.g.exec == e && note.g.nodes[note.node].isStage
  }

  /** The tracker keeps equal key sets for the two maps through any stream. */
  lemma {:induction false} ReplayKeepsValid(t: Tracker, ns: seq<Notification>)
    requires AllAdmissible(ns) && Valid(t)
    ensures Valid(Replay(t, ns).tracker)
    decreases |ns|
  {
    if ns != [] {
      ReplayKeepsValid(t, ns[..|ns| - 1]);
    }
  }

  /** Without a stage node of execution `e`, its tracker entry is what it was. */
  lemma {:induction false} OtherExecutionsUntouched(t: Tracker, ns: seq<Notification>, e: ExecId)
    requires AllAdmissible(ns)
    requires forall k | 0 <= k < |ns| :: !IsStageIn(ns[k], e)
    ensures CurrentName(Replay(t, ns).tracker, e) == CurrentName(t, e)
    ensures CurrentId(Replay(t, ns).tracker, e) == CurrentId(t, e)
    decreases |ns|
  {
    if ns != [] {
      var prefix := ns[..|ns| - 1];
      assert forall k | 0 <= k < |prefix| :: prefix[k] == ns[k];
      OtherExecutionsUntouched(t, prefix, e);
      assert !IsStageIn(ns[|ns| - 1], e);
    }
  }

  /** After a stage node of `e` and no later one, the tracker holds that stage for `e`. */
  lemma {:induction false} StageCarriedForward(t: Tracker, ns: seq<Notification>, e: ExecId)
    requires AllAdmissible(ns) && |ns| > 0 && IsStageIn(ns[0], e)
    requires forall k | 0 < k < |ns| :: !IsStageIn(ns[k], e)
    ensures var stage := ns[0].g.nodes[ns[0].node];
      CurrentName(Replay(t, ns).tracker, e) == Some(stage.displayName)
      && CurrentId(Replay(t, ns).tracker, e) == Some(stage.id)
    decreases |ns|
  {
    if |ns| > 1 {
      var prefix := ns[..|ns| - 1];
      assert forall k | 0 <= k < |prefix| :: prefix[k] == ns[k];
      StageCarriedForward(t, prefix, e);
      assert !IsStageIn(ns[|ns| - 1], e);
    } else {
      assert ns[..0] == [];
    }
  }

  /** A node message shows the stage its execution's tracker entry holds once the node is handled. */
  lemma MessageShowsTrackedStage(t: Tracker, g: Graph, i: nat, env: Env)
    requires WellFormed(g) && i < |g.nodes|
    ensures var r := OnNewHead(t, g, i, env); var m := MainMessage(r.published);
      m.Some? && m.value.event != PipelineEnd ==>
        && (StageName in m.value.props <==> CurrentName(r.tracker, g.exec).Some?)
        && (StageName in m.value.props ==> m.value.props[StageName] == CurrentName(r.tracker, g.exec).value)
        && (StageId in m.value.props <==> CurrentId(r.tracker, g.exec).Some?)
        && (StageId in m.value.props ==> m.value.props[StageId] == CurrentId(r.tracker, g.exec).value)
  {
    var r := OnNewHead(t, g, i, env);
    match Classify(g, i)
    case Silent =>
    case ExecutionEvent(event) =>
    case NodeEvent(event, branch) =>
      MainMessageOfNodeEvent(event, g, i, branch, r.tracker, env);
      var m := NodeMessage(event, g, i, branch, r.tracker, env);
      assert StageName in m.props <==> NodeProp(StageName, g, i, branch, r.tracker, env).Some?;
      assert StageId in m.props <==> NodeProp(StageId, g, i, branch, r.tracker, env).Some?;
  }

  /** Handling the `k`-th notification of execution `e` leaves the stage of `ns[0]` in the tracker. */
  lemma StageHeldAt(t: Tracker, ns: seq<Notification>, e: ExecId, k: nat)
    requires AllAdmissible(ns) && |ns| > 0 && IsStageIn(ns[0], e)
    requires forall j | 0 < j < |ns| :: !IsStageIn(ns[j], e)
    requires k < |ns| && ns[k].NewHead? && ns[k].g.exec == e
    ensures var stage := ns[0].g.nodes[ns[0].node];
      var after := Handle(Replay(t, ns[..k]).tracker, ns[k]).tracker;
      CurrentName(after, e) == Some(stage.displayName) && CurrentId(after, e) == Some(stage.id)
  {
    if k > 0 {
      var prefix := ns[..k];
      assert forall j | 0 <= j < |prefix| :: prefix[j] == ns[j];
      StageCarriedForward(t, prefix, e);
      assert !IsStageIn(ns[k], e);
    } else {
      assert ns[k] == ns[0];
    }
  }

  /**
   * Every node message of execution `e` from a stage node up to (not
   * including) the next stage node of `e` carries that stage's name and id,
   * whatever notifications of other executions are interleaved.
   */
  lemma StageOnLaterMessages(t: Tracker, ns: seq<Notification>, e: ExecId, k: nat)
    requires AllAdmissible(ns) && |ns| > 0 && IsStageIn(ns[0], e)
    requires forall j | 0 < j < |ns| :: !IsStageIn(ns[j], e)
    requires k < |ns| && ns[k].NewHead? && ns[k].g.exec == e
    ensures var stage := ns[0].g.nodes[ns[0].node];
      var m := MainMessage(Handle(Replay(t, ns[..k]).tracker, ns[k]).published);
      m.Some? && m.value.event != PipelineEnd ==>
        && StageName in m.value.props && m.value.props[StageName] == stage.displayName
        && StageId in m.value.props && m.value.props[StageId] == stage.id
  {
    StageHeldAt(t, ns, e, k);
    var note := ns[k];
    MessageShowsTrackedStage(Replay(t, ns[..k]).tracker, note.g, note.node, note.env);
  }

  /** The number of job-channel messages with event `ev` among `ps`. */
  function CountJob(ps: seq<Published>, ev: JobEvent): nat
    decreases |ps|
  {
    if ps == [] then 0
    else CountJob(ps[..|ps| - 1], ev) + (if ps[|ps| - 1].OnJobChannel? && ps[|ps| - 1].runMsg.event == ev then 1 else 0)
  }

  lemma {:induction false} CountJobAppend(a: seq<Published>, b: seq<Published>, ev: JobEvent)
    ensures CountJob(a + b, ev) == CountJob(a, ev) + CountJob(b, ev)
    decreases |b|
  {
    if b != [] {
      var ab := a + b;
      assert ab[..|ab| - 1] == a + b[..|b| - 1];
      assert ab[|ab| - 1] == b[|b| - 1];
      CountJobAppend(a, b[..|b| - 1], ev);
    } else {
      assert a + b == a;
    }
  }

  /** The notification resumes an input step. */
  predicate IsResume(note: Notification)
  {
    note.StepContinue?
  }

  /** The notification is an atomic step of a run that is paused on it. */
  predicate IsPausedStep(note: Notification)
    requires Admissible(note)
  {
    note.NewHead? && note.g.nodes[note.node].kind.StepAtom? && note.env.run.Some? && note.env.pausedForInput
  }

  function CountResumes(ns: seq<Notification>): nat
    decreases |ns|
  {
    if ns == [] then 0 else CountResumes(ns[..|ns| - 1]) + (if IsResume(ns[|ns| - 1]) then 1 else 0)
  }

  function CountPausedSteps(ns: seq<Notification>): nat
    requires AllAdmissible(ns)
    decreases |ns|
  {
    if ns == [] then 0 else CountPausedSteps(ns[..|ns| - 1]) + (if IsPausedStep(ns[|ns| - 1]) then 1 else 0)
  }

  /** One- and two-element counts. */
  lemma CountJobShort(x: Published, y: Published, ev: JobEvent)
    ensures CountJob([], ev) == 0
    ensures CountJob([x], ev) == if x.OnJobChannel? && x.runMsg.event == ev then 1 else 0
    ensures CountJob([x, y], ev) == CountJob([x], ev) + CountJob([y], ev)
  {
    assert [x][..0] == [];
    assert [x, y][..1] == [x];
  }

  /** What one node notification contributes to the job channel: at most the pause notice. */
  lemma NodeJobCounts(t: Tracker, g: Graph, i: nat, env: Env)
    requires WellFormed(g) && i < |g.nodes|
    ensures CountJob(OnNewHead(t, g, i, env).published, JobRunUnpaused) == 0
    ensures CountJob(OnNewHead(t, g, i, env).published, JobRunPaused)
      == if g.nodes[i].kind.StepAtom? && env.run.Some? && env.pausedForInput then 1 else 0
  {
    var r := OnNewHead(t, g, i, env);
    var ps := r.published;
    var filler := OnPipelineChannel(ExecMessage(PipelineStart, None));
    match Classify(g, i)
    case Silent =>
      CountJobShort(filler, filler, JobRunUnpaused);
      CountJobShort(filler, filler, JobRunPaused);
    case ExecutionEvent(event) =>
      CountJobShort(ps[0], ps[0], JobRunUnpaused);
      CountJobShort(ps[0], ps[0], JobRunPaused);
    case NodeEvent(event, branch) =>
      var last := OnPipelineChannel(NodeMessage(event, g, i, branch, r.tracker, env));
      if PauseNotice(g, i, env) == [] {
        assert ps == [last];
        CountJobShort(last, last, JobRunUnpaused);
        CountJobShort(last, last, JobRunPaused);
      } else {
        assert ps == [ps[0], last];
        CountJobShort(ps[0], last, JobRunUnpaused);
        CountJobShort(ps[0], last, JobRunPaused);
      }
  }

  /** What one notification contributes to the job channel. */
  lemma HandleJobCounts(t: Tracker, note: Notification)
    requires Admissible(note)
    ensures CountJob(Handle(t, note).published, JobRunUnpaused) == if IsResume(note) then 1 else 0
    ensures CountJob(Handle(t, note).published, JobRunPaused) == if IsPausedStep(note) then 1 else 0
  {
    var ps := Handle(t, note).published;
    if note.NewHead? {
      NodeJobCounts(t, note.g, note.node, note.env);
    } else {
      CountJobShort(ps[0], ps[0], JobRunUnpaused);
      CountJobShort(ps[0], ps[0], JobRunPaused);
    }
  }

  /**
   * Over any stream, exactly one job_run_unpaused message is published per
   * resumed input step, and exactly one job_run_paused message per atomic
   * step found paused.
   */
  lemma {:induction false} JobChannelCounts(t: Tracker, ns: seq<Notification>)
    requires AllAdmissible(ns)
    ensures CountJob(Replay(t, ns).published, JobRunUnpaused) == CountResumes(ns)
    ensures CountJob(Replay(t, ns).published, JobRunPaused) == CountPausedSteps(ns)
    decreases |ns|
  {
    if ns != [] {
      var prefix := ns[..|ns| - 1];
      assert forall k | 0 <= k < |prefix| :: prefix[k] == ns[k];
      JobChannelCounts(t, prefix);
      var prev := Replay(t, prefix);
      var last := Handle(prev.tracker, ns[|ns| - 1]);
      HandleJobCounts(prev.tracker, ns[|ns| - 1]);
      CountJobAppend(prev.published, last.published, JobRunUnpaused);
      CountJobAppend(prev.published, last.published, JobRunPaused);
    }
  }
}
