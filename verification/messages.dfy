/**
 * The message schema of the pipeline event channel, and the execution-level
 * message that every event starts from.
 */
module Messages {
  import opened Wrappers

  /** Name of the pipeline event channel (PipelineEventChannel.NAME). */
  const PipelineChannel: string := "pipeline"

  /** The event names of the pipeline channel. */
  datatype PipelineEvent =
    | PipelineStart        // pipeline_start
    | PipelineStage        // pipeline_stage
    | PipelineBlockStart   // pipeline_block_start
    | PipelineStep         // pipeline_step
    | PipelineBlockEnd     // pipeline_block_end
    | PipelineEnd          // pipeline_end

  /** The property keys a pipeline message may carry. */
  datatype Prop =
    | JobName      // pipeline_job_name
    | RunId        // pipeline_run_id
    | FlowNodeId   // pipeline_step_flownode_id
    | Context      // pipeline_context
    | StageName    // pipeline_step_stage_name
    | StageId      // pipeline_step_stage_id
    | StepName     // pipeline_step_name
    | IsPaused     // pipeline_step_is_paused

  /** The job-channel events this listener produces. */
  datatype JobEvent = JobRunPaused | JobRunUnpaused

  /** The identity of a run: its job's full name and its id. */
  datatype RunRef = RunRef(jobFullName: string, runId: string)

  /** A pipeline-channel message; a missing key means the property does not apply. */
  datatype Message = Message(channel: string, event: PipelineEvent, props: map<Prop, string>)

  /** A job-channel message about a run (a RunMessage). */
  datatype RunMessage = RunMessage(event: JobEvent, run: RunRef)

  /** Something handed to the bus, on one of the two channels. */
  datatype Published = OnPipelineChannel(msg: Message) | OnJobChannel(runMsg: RunMessage)

  /** The run-identity properties, present only when the execution belongs to a run. */
  function RunProps(run: Option<RunRef>): map<Prop, string>
  {
    match run
    case None => map[]
    case Some(r) => map[JobName := r.jobFullName, RunId := r.runId]
  }

  /**
   * newMessage(event, execution): the channel, the event name and, when the
   * execution resolves to a run, that run's job name and id — nothing else.
   */
  function ExecMessage(event: PipelineEvent, run: Option<RunRef>): (m: Message)
    ensures m.channel == PipelineChannel && m.event == event
    ensures m.props.Keys <= {JobName, RunId}
    ensures JobName in m.props <==> run.Some?
    ensures RunId in m.props <==> run.Some?
    ensures run.Some? ==> m.props[JobName] == run.value.jobFullName && m.props[RunId] == run.value.runId
  {
    Message(PipelineChannel, event, RunProps(run))
  }

  /** String.valueOf of a boolean. */
  function BoolString(b: bool): string
  {
    if b then "true" else "false"
  }
}
