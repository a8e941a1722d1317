/**
 * The stage tracker: per execution, the display name and id of the most
 * recently seen stage node, held in two maps as the listener holds them.
 */
module StageTracker {
  import opened Wrappers
  import opened FlowGraph

  datatype Tracker = Tracker(names: map<ExecId, string>, ids: map<ExecId, string>)

  /** The two maps are always written together, so they have the same keys. */
  predicate Valid(t: Tracker)
  {
    t.names.Keys == t.ids.Keys
  }

  /** The tracker before any stage node has been seen. */
  const Empty: Tracker := Tracker(map[], map[])

  /** currentStageName.get(execution): absent when no stage was recorded for it. */
  function CurrentName(t: Tracker, e: ExecId): Option<string>
  {
    if e in t.names then Some(t.names[e]) else None
  }

  /** currentStageId.get(execution). */
  function CurrentId(t: Tracker, e: ExecId): Option<string>
  {
    if e in t.ids then Some(t.ids[e]) else None
  }

  /**
   * The two `put` calls of a stage node: the execution's entry now reads
   * back as the new stage, every other execution reads back as before, and
   * the two maps keep the same keys.
   */
  function Put(t: Tracker, e: ExecId, name: string, id: string): (t': Tracker)
    ensures CurrentName(t', e) == Some(name) && CurrentId(t', e) == Some(id)
    ensures forall x | x != e :: CurrentName(t', x) == CurrentName(t, x) && CurrentId(t', x) == CurrentId(t, x)
    ensures Valid(t) ==> Valid(t')
  {
    Tracker(t.names[e := name], t.ids[e := id])
  }
}
