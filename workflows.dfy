/** GBDX workflows as the launching scripts build them: a list of tasks,
    each with named inputs that are literal values or outputs of earlier
    tasks, and one task output saved to a location. */
module Workflows {

  /** A task input. `OutputOf(i, port)` is output `port` of task `i` of the
      same workflow. */
  datatype Value = Text(text: string) | Flag(flag: bool) | OutputOf(task: nat, port: string)

  datatype Task = Task(name: string, inputs: map<string, Value>, impersonationAllowed: bool)

  /** `Workflow(tasks)` followed by `savedata(saved, location=location)`. */
  datatype Workflow = Workflow(tasks: seq<Task>, saved: Value, location: string)

  const DataPort := "data"

  /** Every task reads only outputs of tasks before it. */
  predicate FeedsForward(tasks: seq<Task>)
  {
    forall i, key :: 0 <= i < |tasks| && key in tasks[i].inputs && tasks[i].inputs[key].OutputOf? ==>
      tasks[i].inputs[key].task < i
  }

  /** What is saved is the data output of the last task. */
  predicate SavesLastOutput(w: Workflow)
  {
    |w.tasks| > 0 && w.saved == OutputOf(|w.tasks| - 1, DataPort)
  }

  function Names(tasks: seq<Task>): (r: seq<string>)
    ensures |r| == |tasks|
    ensures forall k :: 0 <= k < |tasks| ==> r[k] == tasks[k].name
  {
    if |tasks| == 0 then [] else [tasks[0].name] + Names(tasks[1..])
  }
}
