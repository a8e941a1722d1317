# Pipeline event derivation, modelled in Dafny

This project models the event-derivation engine of the Blue Ocean pipeline event listener. The listener watches the flow graph of a running pipeline execution. For each new head node it decides which pipeline event to publish, if any. It rebuilds the node's structural context, meaning the chain of body-invocation blocks it belongs to, by walking the graph backwards. It also keeps, per execution, the name and id of the current stage. Every message is enriched with the run identity, node id, context, stage, step function name and paused flag.

Modules, one per component:

- `FlowGraph` (flow_graph.dfy): flow nodes and the append-only graph. Nodes are a sequence. Every parent index, and an end node's start index, is smaller than the node's own index, so the graph is acyclic by construction. The engine's answers about a node are node fields: the stage test, whether it carries a BodyInvocationAction, and its step descriptor's function name.
- `BlockResolver` (block_resolver.dfy): `getParentBlock` (`ParentBlock`, built from the two loops `FirstBodyStart` and `SearchParents`) and `getBranch` (the loop `GetBranch` and its recursive reference `BranchNodes`/`Branch`). It also defines `Reaches`, a path-based restatement of what the resolver can find: a body-invocation start reachable through parents that are not StepEndNodes. This is the resolver's own search rule, not block nesting; see the notes.
- `ContextPath` (context_path.dfy): `toPath` as the left fold of its StringBuilder loop. `Split` is its inverse on lists of path segments.
- `Messages` (messages.dfy): event names, property keys, pipeline and job-channel messages, and the execution-level `newMessage(event, execution)`.
- `StageTracker` (stage_tracker.dfy): the two per-execution maps `currentStageName` and `currentStageId`.
- `EventListener` (event_listener.dfy): the node-level `newMessage`, the `onNewHead` dispatch (`Classify`, then `OnNewHead`), `StartPublisher.onRunning` and `InputStepPublisher.onStepContinue`. It also models a stream of notifications (`Replay`), used to state tracker properties across nodes and executions.
- `Scenario` (scenario.dfy): a worked seven-node execution (stage, step, parallel branch, inner step, branch end, flow end) with every resulting message. A second execution nests a `dir` block inside an open parallel branch and shows the step after `dir` losing its context.

What the engine would be asked is passed in as values. `Env.run` is the result of `runFor` (None when resolving the executable fails or the executable is not a run). `Env.pausedForInput` is the pause test for the node being handled. Publishing is modelled as the returned list of `Published` items, in the order the source hands them to the bus. The `job_run_paused` notice comes before the node's own message, because the source publishes it while it is still building that message.

## Model

| member | source | states |
|---|---|---|
| BlockResolver.FirstBodyStart | blueocean-events/src/main/java/io/jenkins/blueocean/events/PipelineEventListener.java:99-107 | Returns the position of the first parent, in list order, that is a StepStartNode with a BodyInvocationAction. No earlier parent is one. None means no parent is one. |
| BlockResolver.ParentBlock | blueocean-events/src/main/java/io/jenkins/blueocean/events/PipelineEventListener.java:98-120 | Any block getParentBlock returns is a body-invocation StepStartNode appended strictly before the node. This is the measure under which getBranch's loop terminates. |
| BlockResolver.SearchParents | blueocean-events/src/main/java/io/jenkins/blueocean/events/PipelineEventListener.java:109-119 | Any block found by the recursive phase is a body-invocation start earlier than the node. |
| BlockResolver.DirectBodyStartWins | blueocean-events/src/main/java/io/jenkins/blueocean/events/PipelineEventListener.java:99-107 | If some direct parent is a body-invocation StepStartNode, the result is the first such parent, whatever the other parents would give. |
| BlockResolver.SearchParentsFirstYield | blueocean-events/src/main/java/io/jenkins/blueocean/events/PipelineEventListener.java:109-119 | From any parent position, the recursive phase returns null exactly when no remaining non-end parent has a parent block. Otherwise it returns the parent block of the first such parent. |
| BlockResolver.SearchInParentOrder | blueocean-events/src/main/java/io/jenkins/blueocean/events/PipelineEventListener.java:109-119 | With no direct body-invocation parent, end-node parents are never searched. The result is the first non-null parent block among the remaining parents in list order, and null when there is none. |
| BlockResolver.ParentBlockSound | blueocean-events/src/main/java/io/jenkins/blueocean/events/PipelineEventListener.java:98-120 | A returned block is a body-invocation start reachable from the node through parents that are not StepEndNodes. |
| BlockResolver.SearchParentsSound | blueocean-events/src/main/java/io/jenkins/blueocean/events/PipelineEventListener.java:109-119 | A block found by the recursive phase is reachable from the node in the same sense: through parents that are not StepEndNodes. |
| BlockResolver.ParentBlockComplete | blueocean-events/src/main/java/io/jenkins/blueocean/events/PipelineEventListener.java:98-120 | A node from which some body-invocation start is reachable through parents that are not StepEndNodes gets a non-null result. |
| BlockResolver.ParentBlockNoneIff | blueocean-events/src/main/java/io/jenkins/blueocean/events/PipelineEventListener.java:98-120 | getParentBlock returns null exactly for the nodes from which no body-invocation start is reachable through parents that are not StepEndNodes. |
| BlockResolver.EndParentsHideBlocks | blueocean-events/src/main/java/io/jenkins/blueocean/events/PipelineEventListener.java:98-120 | A node whose parents are all StepEndNodes gets null and an empty branch, however deeply those end nodes are nested, because both loops pass over end nodes. |
| BlockResolver.BranchNodes | blueocean-events/src/main/java/io/jenkins/blueocean/events/PipelineEventListener.java:86-96 | Every element of the branch is a body-invocation start earlier than the node. The elements strictly increase, outermost first. |
| BlockResolver.BranchIsChain | blueocean-events/src/main/java/io/jenkins/blueocean/events/PipelineEventListener.java:86-96 | The branch is empty iff there is no parent block. Otherwise its last element is the node's parent block, each earlier element is the parent block of the next, and the first has none. |
| BlockResolver.ChainIsBranch | blueocean-events/src/main/java/io/jenkins/blueocean/events/PipelineEventListener.java:86-96 | Any sequence with that chain property is the branch, so the branch is the unique such chain. |
| BlockResolver.GetBranch | blueocean-events/src/main/java/io/jenkins/blueocean/events/PipelineEventListener.java:86-96 | The source's loop, which prepends each parent block's id, returns the ids of the recursive chain of parent blocks. |
| BlockResolver.BranchEndsWithParentBlock | blueocean-events/src/main/java/io/jenkins/blueocean/events/PipelineEventListener.java:86-96 | getBranch is empty exactly when the node has no parent block, and otherwise ends with that block's id. |
| ContextPath.ToPath | blueocean-events/src/main/java/io/jenkins/blueocean/events/PipelineEventListener.java:122-131 | The serialised path is empty exactly when every element of the branch is empty. |
| ContextPath.ToPathShort | blueocean-events/src/main/java/io/jenkins/blueocean/events/PipelineEventListener.java:122-131 | toPath maps the empty list to "" and a singleton to its element. |
| ContextPath.ToPathSnoc | blueocean-events/src/main/java/io/jenkins/blueocean/events/PipelineEventListener.java:122-131 | Once the path built so far is non-empty, appending y adds "/" followed by y. |
| ContextPath.SplitToPath | blueocean-events/src/main/java/io/jenkins/blueocean/events/PipelineEventListener.java:122-131 | For non-empty, slash-free ids, splitting the path at "/" gives the branch back. |
| ContextPath.ToPathInjective | blueocean-events/src/main/java/io/jenkins/blueocean/events/PipelineEventListener.java:122-131 | Distinct branches of such ids serialise to distinct paths. |
| Messages.ExecMessage | blueocean-events/src/main/java/io/jenkins/blueocean/events/PipelineEventListener.java:148-158 | An execution-level message carries the channel and event name, plus job full name and run id exactly when the execution resolves to a run. It carries no other property. |
| StageTracker.Put | blueocean-events/src/main/java/io/jenkins/blueocean/events/PipelineEventListener.java:58-60 | A stage node's entry reads back as its display name and id. Every other execution's entry is unchanged, and the two maps keep equal key sets. |
| EventListener.NodeMessage | blueocean-events/src/main/java/io/jenkins/blueocean/events/PipelineEventListener.java:160-197 | Key by key: job name and run id exactly for a run, with its values; the node id and toPath of the branch always; the stage name and id exactly when the tracker has an entry for the execution, with that entry; the step function name exactly for a step node whose descriptor has one, with that name; the paused flag exactly for an atomic step of a run, as "true" or "false" from the pause answer. The channel is the pipeline channel. |
| EventListener.NodeMessageExtendsExecMessage | blueocean-events/src/main/java/io/jenkins/blueocean/events/PipelineEventListener.java:160-164 | A node message starts from the execution-level message and always carries the node id and the context. |
| EventListener.OnNewHead | blueocean-events/src/main/java/io/jenkins/blueocean/events/PipelineEventListener.java:55-84 | Only a stage node writes the tracker, and only its own execution's entry. The entry then holds the stage's name and id. All other executions read back unchanged, and tracker validity is preserved. |
| EventListener.Classification | blueocean-events/src/main/java/io/jenkins/blueocean/events/PipelineEventListener.java:55-84 | At most one pipeline event per node, and the stage test wins over the node class. Body-invocation starts give block_start, atomic steps give step, body-invocation ends give block_end, and flow ends give end. Starts and ends without a body invocation, and other classes, give nothing. |
| EventListener.ClassifiedBranchIsScope | blueocean-events/src/main/java/io/jenkins/blueocean/events/PipelineEventListener.java:62-80 | A block-start event's branch is the node's branch plus its own id. A block-end event's branch is the start node's branch plus the start's id. Stage and step events use the node's branch. |
| EventListener.ContextNamesScopes | blueocean-events/src/main/java/io/jenkins/blueocean/events/PipelineEventListener.java:57-79 | With slash-free ids, the context of every node event, split at "/", lists the ids of the enclosing blocks, outermost first. For a block start or end, the block itself comes last. |
| EventListener.BlockEndContextMatchesStart | blueocean-events/src/main/java/io/jenkins/blueocean/events/PipelineEventListener.java:62-80 | A body-invocation end's event carries the same context as its start's block_start event: the start's branch plus the start's id. |
| EventListener.PauseSignal | blueocean-events/src/main/java/io/jenkins/blueocean/events/PipelineEventListener.java:177-194 | pipeline_step_is_paused is set exactly for atomic-step messages of a run, with the pause answer as its value. A job_run_paused notice for the run is published first, exactly when that answer is true. |
| EventListener.FlowEndClassification | blueocean-events/src/main/java/io/jenkins/blueocean/events/PipelineEventListener.java:81-82 | A flow-end node gives pipeline_end unless the stage test claims it first. |
| EventListener.EndIsExecutionLevel | blueocean-events/src/main/java/io/jenkins/blueocean/events/PipelineEventListener.java:81-82 | A flow end publishes exactly one message: pipeline_end on the pipeline channel, whose properties are the job name and run id for a run and nothing at all otherwise. |
| EventListener.OnRunning | blueocean-events/src/main/java/io/jenkins/blueocean/events/PipelineEventListener.java:211-213 | onRunning publishes exactly one message: pipeline_start on the pipeline channel, whose properties are the job name and run id for a run and nothing at all otherwise. |
| EventListener.StartAndEndAgree | blueocean-events/src/main/java/io/jenkins/blueocean/events/PipelineEventListener.java:81-82 | pipeline_start for an execution and its pipeline_end carry the same channel and the same properties, so both identify the same run. |
| EventListener.OnStepContinue | blueocean-events/src/main/java/io/jenkins/blueocean/events/PipelineEventListener.java:221-230 | A resumed input step gives exactly one job_run_unpaused message for its run. |
| EventListener.ReplayKeepsValid | blueocean-events/src/main/java/io/jenkins/blueocean/events/PipelineEventListener.java:58-60 | Across any stream of notifications, the name map and the id map keep the same keys. |
| EventListener.OtherExecutionsUntouched | blueocean-events/src/main/java/io/jenkins/blueocean/events/PipelineEventListener.java:58-60 | If a stream has no stage node of execution e, the tracker entry for e is what it was before. Other executions never affect it. |
| EventListener.StageCarriedForward | blueocean-events/src/main/java/io/jenkins/blueocean/events/PipelineEventListener.java:58-60 | After a stage node of execution e, and with no later stage node of e, the tracker holds that stage's name and id for e, whatever else is interleaved. |
| EventListener.MessageShowsTrackedStage | blueocean-events/src/main/java/io/jenkins/blueocean/events/PipelineEventListener.java:165-168 | A node message's stage name and id are exactly what the tracker holds for its execution once the node is handled. They are absent when the tracker has no entry. |
| EventListener.StageHeldAt | blueocean-events/src/main/java/io/jenkins/blueocean/events/PipelineEventListener.java:58-60 | When a later node of e up to the next stage node of e is handled, the tracker still holds the earlier stage. |
| EventListener.StageOnLaterMessages | blueocean-events/src/main/java/io/jenkins/blueocean/events/PipelineEventListener.java:165-168 | Every node message of e, from a stage node up to the next stage node of e, carries that stage's name and id. |
| EventListener.NodeJobCounts | blueocean-events/src/main/java/io/jenkins/blueocean/events/PipelineEventListener.java:177-194 | A node notification publishes no job_run_unpaused message. It publishes one job_run_paused exactly for a paused atomic step of a run. |
| EventListener.HandleJobCounts | blueocean-events/src/main/java/io/jenkins/blueocean/events/PipelineEventListener.java:182-229 | One notification publishes one job_run_unpaused iff it is a resumed input step, and one job_run_paused iff it is a paused atomic step. |
| EventListener.JobChannelCounts | blueocean-events/src/main/java/io/jenkins/blueocean/events/PipelineEventListener.java:182-229 | Over any stream, job_run_unpaused messages equal the resumed input steps in number, and job_run_paused messages equal the paused atomic steps of runs. |
| Scenario.ScenarioTopLevel | blueocean-events/src/main/java/io/jenkins/blueocean/events/PipelineEventListener.java:98-120 | In the worked graph, no node up to the branch start has a parent block, and their branches are empty. |
| Scenario.ScenarioInBranch | blueocean-events/src/main/java/io/jenkins/blueocean/events/PipelineEventListener.java:98-120 | The inner step and the branch end have the branch start as parent block, and the inner step's branch is ["5"]. The flow end, reached only through the end node, has none. |
| Scenario.ScenarioStage | blueocean-events/src/main/java/io/jenkins/blueocean/events/PipelineEventListener.java:57-61 | The stage node records "Build"/"3" and publishes pipeline_stage with context "" and its own stage. |
| Scenario.ScenarioFirstStep | blueocean-events/src/main/java/io/jenkins/blueocean/events/PipelineEventListener.java:68-70 | The first step gives pipeline_step with context "" and stage "Build". |
| Scenario.ScenarioBlockStart | blueocean-events/src/main/java/io/jenkins/blueocean/events/PipelineEventListener.java:62-67 | The branch start gives pipeline_block_start with context "5". |
| Scenario.ScenarioInnerStep | blueocean-events/src/main/java/io/jenkins/blueocean/events/PipelineEventListener.java:68-70 | The inner step gives pipeline_step with context "5" and stage "Build". |
| Scenario.ScenarioBlockEnd | blueocean-events/src/main/java/io/jenkins/blueocean/events/PipelineEventListener.java:71-80 | The branch end gives pipeline_block_end with context "5". |
| Scenario.ScenarioEnd | blueocean-events/src/main/java/io/jenkins/blueocean/events/PipelineEventListener.java:81-82 | The flow end gives pipeline_end with only the job name and run id. |
| Scenario.NestedInnerChain | blueocean-events/src/main/java/io/jenkins/blueocean/events/PipelineEventListener.java:86-131 | In the nested graph, the `sh` step inside `dir` has the branch ["3", "5"], that is branch A then dir's body, and the context "3/5". |
| Scenario.StepAfterNestedBlock | blueocean-events/src/main/java/io/jenkins/blueocean/events/PipelineEventListener.java:109-111 | The `sh` step after `dir`, whose only parent is dir's end node, reaches no block and publishes pipeline_step with context "", although branch A has not ended. |

## Left out

- ServerInfoAdditionalAnalyticsProperties: it only reads version strings from the Jenkins singleton and the plugin manager, and has no logic of its own.
- Publishing and its try/catch logging (`publishEvent`, the bus calls for the pause and unpause notices): foreign I/O. A published message is an element of the returned list. A bus failure is only logged by the source and does not change anything else, so it is not modelled.
- `runFor`, including its IOException path and the Queue.Executable check: replaced by the `Env.run` oracle. The source calls `runFor` twice for an atomic step, and the model assumes both calls give the same answer.
- The stage test, the pause test, InputAction and `StepDescriptor.getFunctionName`: these are library code outside this model. They become the node fields `isStage` and `functionName`, and the `Env.pausedForInput` oracle.
- WeakHashMap reclamation and thread safety: the tracker is a plain map keyed by execution identity. Garbage collection and concurrent access are runtime concerns.
- The value of the channel-name constant: the defining class is not part of this model, and the model uses "pipeline".
- Setting a property to null: the source passes `currentStageName.get(...)` straight to `Message.set`, and Message is not part of this model. A missing tracker entry is modelled as an absent property, which is the documented meaning of absence.
- Extension registration (`@Extension`).
- EventListener.ContextNamesScopes: states the context only for ids that are non-empty and contain no "/", as the engine's numeric ids are. For other ids the path need not split back into the branch.
- ContextPath.SplitToPath: same restriction to non-empty, slash-free ids.

## Notes

- A block end's event is decided by the end node's own BodyInvocationAction (line 72), not by its start node's. The model follows the code: `Classify` tests `bodyInvocation` on the end node.
- The guard `currentStageName != null` (line 165) tests a field that is always initialised, so it always holds. The model sets the stage properties unconditionally.
- toPath adds a separator only when the builder is non-empty. An empty first id is therefore followed by no "/": toPath of ["", "a"] is "a". `ToPath` keeps this behaviour. `ToPathSnoc` requires a non-empty element in the prefix, not just a non-empty prefix. Engine ids are never empty, so this does not show in practice.
- The stage-node branch computes getBranch before writing the tracker but builds the message after. A stage message therefore carries its own name and id as the current stage.
- getParentBlock never looks behind a StepEndNode (lines 110-111). A node whose parents are all end nodes therefore gets an empty context, even when an outer body is still open. The typical case is the first step after a nested block step such as `dir`. `EndParentsHideBlocks` states this, and `Scenario.StepAfterNestedBlock` shows it. `Reaches` describes what the resolver can find, so soundness and completeness against it do not cover this case.
