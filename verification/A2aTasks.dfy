/** src/a2a/task_manager.py: tasks of the agent-to-agent protocol. process_task waits for the skill or
    model in the middle, so it is two steps, and other calls come between them. */
module A2aTasks {
  import opened Options

  datatype Message = UserMessage(text: string) | AgentMessage(text: string)

  datatype Lifecycle = Submitted | Working | Completed | Failed | Canceled

  datatype Status = Status(state: Lifecycle, message: Option<Message>)

  datatype Task = Task(status: Status, history: seq<Message>, metadata: map<string, string>)

  /** `inflight` holds a task's id once for each process_task between its two steps. */
  datatype State = State(tasks: map<string, Task>, inflight: multiset<string>)

  datatype Step =
    | Create(id: string, message: Message, metadata: map<string, string>)
    | Start(id: string, message: Message, metadata: map<string, string>)  // process_task up to its await
    | Finish(id: string, text: string)  // _process_message returned, or its time was up
    | Fail(id: string, error: string)   // it raised
    | Cancel(id: string)

  const START := State(map[], multiset{})

  function With(s: State, id: string, task: Task): State {
    s.(tasks := s.tasks[id := task])
  }

  predicate Ended(task: Task) {
    task.status.state == Completed || task.status.state == Failed || task.status.state == Canceled
  }

  /** A step that is not possible leaves the state as it is: a fresh id for a new task, a task that
      exists, a process that is in flight. */
  function Next(s: State, step: Step): State {
    match step
    case Create(id, message, metadata) =>
      if id in s.tasks then s else With(s, id, Task(Status(Submitted, None), [message], metadata))
    case Start(id, message, metadata) =>
      if id !in s.tasks then s
      else
        var task := s.tasks[id];
        With(s, id, Task(Status(Working, None), task.history + [message], task.metadata + metadata))
        .(inflight := s.inflight + multiset{id})
    case Finish(id, text) =>
      if id !in s.tasks || id !in s.inflight then s
      else
        var task, reply := s.tasks[id], AgentMessage(text);
        With(s, id, task.(status := Status(Completed, Some(reply)), history := task.history + [reply]))
        .(inflight := s.inflight - multiset{id})
    case Fail(id, error) =>
      if id !in s.tasks || id !in s.inflight then s
      else
        With(s, id, s.tasks[id].(status := Status(Failed, Some(AgentMessage("Error: " + error)))))
        .(inflight := s.inflight - multiset{id})
    case Cancel(id) =>
      if id !in s.tasks || Ended(s.tasks[id]) then s
      else With(s, id, s.tasks[id].(status := Status(Canceled, None)))
  }

  function Exec(s: State, steps: seq<Step>): State {
    if |steps| == 0 then s else Next(Exec(s, steps[..|steps| - 1]), steps[|steps| - 1])
  }

  function Run(steps: seq<Step>): State {
    Exec(START, steps)
  }

  // ----- History -----

  predicate Starts(s: State, step: Step, id: string) {
    step.Start? && step.id == id && id in s.tasks
  }

  predicate Succeeds(s: State, step: Step, id: string) {
    step.Finish? && step.id == id && id in s.tasks && id in s.inflight
  }

  predicate Fails(s: State, step: Step, id: string) {
    step.Fail? && step.id == id && id in s.tasks && id in s.inflight
  }

  /** How many processes of a task have begun, returned a text, and failed. */
  datatype Counts = Counts(starts: nat, successes: nat, failures: nat)

  function Bump(n: Counts, s: State, step: Step, id: string): Counts {
    if Starts(s, step, id) then n.(starts := n.starts + 1)
    else if Succeeds(s, step, id) then n.(successes := n.successes + 1)
    else if Fails(s, step, id) then n.(failures := n.failures + 1)
    else n
  }

  function Count(steps: seq<Step>, id: string): Counts {
    if |steps| == 0 then Counts(0, 0, 0)
    else Bump(Count(steps[..|steps| - 1], id), Run(steps[..|steps| - 1]), steps[|steps| - 1], id)
  }

  /** What holds of a task after these counts of its processes. */
  predicate TaskOk(task: Task, inflight: nat, n: Counts) {
    && |task.history| == 1 + n.starts + n.successes
    && n.starts == n.successes + n.failures + inflight
    && (task.status.state == Submitted <==> n.starts == 0 && task.status.state != Canceled)
    && (task.status.state == Working ==> inflight > 0)
    && (task.status.state == Completed ==> n.successes > 0)
    && (task.status.state == Completed ==> task.status.message == Some(task.history[|task.history| - 1]))
    && (task.status.state == Failed ==> n.failures > 0)
  }

  predicate StateOk(s: State, id: string, n: Counts) {
    if id in s.tasks then TaskOk(s.tasks[id], s.inflight[id], n) else s.inflight[id] == 0 && n == Counts(0, 0, 0)
  }

  /** No step removes a task or changes what is in its history. */
  lemma NextExtends(s: State, step: Step, id: string)
    requires id in s.tasks
    ensures id in Next(s, step).tasks && s.tasks[id].history <= Next(s, step).tasks[id].history
  {
  }

  /** No step touches any task but its own. */
  lemma NextLeavesOthers(s: State, step: Step, id: string)
    requires step.id != id
    ensures id in s.tasks <==> id in Next(s, step).tasks
    ensures id in s.tasks ==> Next(s, step).tasks[id] == s.tasks[id]
    ensures Next(s, step).inflight[id] == s.inflight[id]
  {
  }

  lemma NextKeepsOk(s: State, step: Step, n: Counts)
    requires StateOk(s, step.id, n)
    ensures StateOk(Next(s, step), step.id, Bump(n, s, step, step.id))
  {
  }

  /** Over every interleaving: a task's history has one entry for its first message, each process that
      began and each that succeeded; a completed task's status message is the last of them; a working
      task has a process in flight, and every process that began has ended once or is in flight. */
  lemma {:induction false} TasksOk(steps: seq<Step>, id: string)
    ensures StateOk(Run(steps), id, Count(steps, id))
  {
    if |steps| == 0 {
    } else {
      var front, last := steps[..|steps| - 1], steps[|steps| - 1];
      TasksOk(front, id);
      if last.id == id {
        NextKeepsOk(Run(front), last, Count(front, id));
      } else {
        NextLeavesOthers(Run(front), last, id);
      }
    }
  }

  /** The messages about a task, in the order of the steps that brought them. */
  function Transcript(steps: seq<Step>, id: string): seq<Message> {
    if |steps| == 0 then []
    else
      var front, last := steps[..|steps| - 1], steps[|steps| - 1];
      var s, messages := Run(front), Transcript(front, id);
      if last.Create? && last.id == id && id !in s.tasks then [last.message]
      else if Starts(s, last, id) then messages + [last.message]
      else if Succeeds(s, last, id) then messages + [AgentMessage(last.text)]
      else messages
  }

  /** A task's history is its first message, then the messages it was processed with and the replies of
      the processes that succeeded, in order; failures and cancels leave no entry. */
  lemma {:induction false} HistoryIsTranscript(steps: seq<Step>, id: string)
    requires id in Run(steps).tasks
    ensures Run(steps).tasks[id].history == Transcript(steps, id)
  {
    var front, last := steps[..|steps| - 1], steps[|steps| - 1];
    if last.id != id {
      NextLeavesOthers(Run(front), last, id);
    }
    if id in Run(front).tasks {
      HistoryIsTranscript(front, id);
    }
  }

  lemma {:induction false} HistoryGrows(s: State, steps: seq<Step>, id: string)
    requires id in s.tasks
    ensures id in Exec(s, steps).tasks
    ensures s.tasks[id].history <= Exec(s, steps).tasks[id].history
  {
    if |steps| == 0 {
    } else {
      HistoryGrows(s, steps[..|steps| - 1], id);
      NextExtends(Exec(s, steps[..|steps| - 1]), steps[|steps| - 1], id);
    }
  }

  // ----- Cancelling -----

  predicate StartFree(steps: seq<Step>, id: string) {
    forall i :: 0 <= i < |steps| ==> !(steps[i].Start? && steps[i].id == id)
  }

  predicate CancelFree(steps: seq<Step>, id: string) {
    forall i :: 0 <= i < |steps| ==> !(steps[i].Cancel? && steps[i].id == id)
  }

  predicate IsCanceled(s: State, id: string) {
    id in s.tasks && s.tasks[id].status.state == Canceled
  }

  lemma IdleStep(s: State, step: Step, id: string)
    requires IsCanceled(s, id) && s.inflight[id] == 0 && !(step.Start? && step.id == id)
    ensures IsCanceled(Next(s, step), id) && Next(s, step).inflight[id] == 0
  {
  }

  lemma {:induction false} IdleStaysCanceled(s: State, steps: seq<Step>, id: string)
    requires IsCanceled(s, id) && s.inflight[id] == 0 && StartFree(steps, id)
    ensures IsCanceled(Exec(s, steps), id) && Exec(s, steps).inflight[id] == 0
  {
    if |steps| == 0 {
    } else {
      IdleStaysCanceled(s, steps[..|steps| - 1], id);
      IdleStep(Exec(s, steps[..|steps| - 1]), steps[|steps| - 1], id);
    }
  }

  /** A canceled task stays canceled until it is processed again, if and only if nothing of it is in
      flight: a process that was under way overwrites the status when it ends. */
  lemma CanceledStaysIff(s: State, id: string)
    requires IsCanceled(s, id)
    ensures s.inflight[id] == 0 <==> forall steps :: StartFree(steps, id) ==> IsCanceled(Exec(s, steps), id)
  {
    if s.inflight[id] == 0 {
      forall steps | StartFree(steps, id)
        ensures IsCanceled(Exec(s, steps), id)
      {
        IdleStaysCanceled(s, steps, id);
      }
    } else {
      var steps := [Finish(id, "")];
      assert steps[..0] == [] && Exec(s, steps) == Next(s, steps[0]);
      assert StartFree(steps, id) && !IsCanceled(Exec(s, steps), id);
    }
  }

  /** So a cancel is for good exactly when the task had not been processed at all: cancel_task also
      accepts a working task, whose process is in flight. */
  lemma CancelIsFinalIffSubmitted(steps: seq<Step>, id: string)
    requires id in Run(steps).tasks && !Ended(Run(steps).tasks[id])
    ensures var after := Next(Run(steps), Cancel(id));
            && IsCanceled(after, id)
            && (Run(steps).tasks[id].status.state == Submitted <==>
                forall later :: StartFree(later, id) ==> IsCanceled(Exec(after, later), id))
  {
    var s := Run(steps);
    TasksOk(steps, id);
    CanceledStaysIff(Next(s, Cancel(id)), id);
  }

  lemma RunExtend(steps: seq<Step>, step: Step)
    ensures Run(steps + [step]) == Next(Run(steps), step)
  {
    assert (steps + [step])[..|steps|] == steps;
  }

  lemma StartedTask(id: string, message: Message)
    ensures var s := Run([Create(id, message, map[])] + [Start(id, message, map[])]);
            id in s.tasks && s.tasks[id].status.state == Working && s.inflight == multiset{id}
  {
    assert [] + [Create(id, message, map[])] == [Create(id, message, map[])];
    RunExtend([], Create(id, message, map[]));
    RunExtend([Create(id, message, map[])], Start(id, message, map[]));
  }

  /** A run in which it is not: a task canceled while it is being processed is completed by the reply. */
  lemma CanceledThenCompleted(id: string, message: Message, text: string) returns (steps: seq<Step>)
    ensures IsCanceled(Run(steps), id)
    ensures id in Run(steps + [Finish(id, text)]).tasks
    ensures Run(steps + [Finish(id, text)]).tasks[id].status == Status(Completed, Some(AgentMessage(text)))
  {
    var working := [Create(id, message, map[])] + [Start(id, message, map[])];
    steps := working + [Cancel(id)];
    StartedTask(id, message);
    RunExtend(working, Cancel(id));
    RunExtend(steps, Finish(id, text));
  }

  /** Canceled while `left` processes were in flight: it is still canceled while none of them has
      ended, and after that it is completed or failed. */
  predicate Overwritten(t: State, id: string, left: nat) {
    && id in t.tasks && t.inflight[id] <= left
    && (if t.inflight[id] == left then IsCanceled(t, id) else t.tasks[id].status.state in {Completed, Failed})
  }

  lemma OverwriteStep(t: State, step: Step, id: string, left: nat)
    requires Overwritten(t, id, left) && !((step.Start? || step.Cancel?) && step.id == id)
    ensures Overwritten(Next(t, step), id, left)
  {
  }

  /** A cancel does not survive the first of those processes to end, however it ends. */
  lemma {:induction false} CancelOverwritten(s: State, steps: seq<Step>, id: string)
    requires IsCanceled(s, id) && StartFree(steps, id) && CancelFree(steps, id)
    ensures Overwritten(Exec(s, steps), id, s.inflight[id])
  {
    if |steps| == 0 {
    } else {
      CancelOverwritten(s, steps[..|steps| - 1], id);
      OverwriteStep(Exec(s, steps[..|steps| - 1]), steps[|steps| - 1], id, s.inflight[id]);
    }
  }

  // ----- The code -----

  class TaskManager {
    var tasks: map<string, Task>
    ghost var inflight: multiset<string>

    ghost function Snapshot(): State
      reads this
    {
      State(tasks, inflight)
    }

    constructor ()
      ensures Snapshot() == START
    {
      tasks, inflight := map[], multiset{};
    }

    /** `id` is the new task's uuid. */
    method CreateTask(id: string, message: Message, metadata: map<string, string>) returns (task: Task)
      requires id !in tasks
      modifies this
      ensures Snapshot() == Next(old(Snapshot()), Create(id, message, metadata))
      ensures task == Task(Status(Submitted, None), [message], metadata) && tasks == old(tasks)[id := task]
    {
      task := Task(Status(Submitted, None), [message], metadata);
      tasks := tasks[id := task];
    }

    /** process_task up to the await; false when it raises because there is no such task. */
    method BeginProcess(id: string, message: Message, metadata: map<string, string>) returns (found: bool)
      modifies this
      ensures Snapshot() == Next(old(Snapshot()), Start(id, message, metadata))
      ensures found <==> id in old(tasks)
      ensures !found ==> tasks == old(tasks)
      ensures found ==>
                && tasks == old(tasks)[id := tasks[id]]
                && tasks[id].status == Status(Working, None) && tasks[id].history == old(tasks)[id].history + [message]
                && tasks[id].metadata.Keys == old(tasks)[id].metadata.Keys + metadata.Keys
                && forall key :: key in tasks[id].metadata ==>
                     tasks[id].metadata[key] == if key in metadata then metadata[key] else old(tasks)[id].metadata[key]
    {
      found := id in tasks;
      if !found {
        return;
      }
      var task := tasks[id];
      task := task.(metadata := task.metadata + metadata);
      task := task.(history := task.history + [message]);
      task := task.(status := Status(Working, None));
      tasks := tasks[id := task];
      inflight := inflight + multiset{id};
    }

    /** process_task from the await on: None is an exception in the handler. */
    method EndProcess(id: string, outcome: Option<string>, error: string) returns (task: Task)
      requires id in tasks && id in inflight
      modifies this
      ensures Snapshot() == Next(old(Snapshot()), if outcome.Some? then Finish(id, outcome.value) else Fail(id, error))
      ensures tasks == old(tasks)[id := task] && task.metadata == old(tasks)[id].metadata
      ensures outcome.Some? ==>
                && task.status == Status(Completed, Some(AgentMessage(outcome.value)))
                && task.history == old(tasks)[id].history + [AgentMessage(outcome.value)]
      ensures outcome == None ==>
                && task.status == Status(Failed, Some(AgentMessage("Error: " + error)))
                && task.history == old(tasks)[id].history
    {
      task := tasks[id];
      match outcome {
        case Some(text) =>
          var reply := AgentMessage(text);
          task := task.(history := task.history + [reply]);
          task := task.(status := Status(Completed, Some(reply)));
        case None =>
          task := task.(status := Status(Failed, Some(AgentMessage("Error: " + error))));
      }
      tasks := tasks[id := task];
      inflight := inflight - multiset{id};
    }

    method GetTask(id: string) returns (task: Option<Task>)
      ensures task.Some? <==> id in tasks
      ensures task.Some? ==> task.value == tasks[id]
    {
      task := if id in tasks then Some(tasks[id]) else None;
    }

    method CancelTask(id: string) returns (task: Option<Task>)
      modifies this
      ensures Snapshot() == Next(old(Snapshot()), Cancel(id))
      ensures task.Some? <==> id in old(tasks) && old(tasks)[id].status.state in {Submitted, Working}
      ensures task.Some? ==>
                && task.value == old(tasks)[id].(status := Status(Canceled, None))
                && tasks == old(tasks)[id := task.value]
      ensures task == None ==> tasks == old(tasks)
    {
      if id !in tasks {
        return None;
      }
      var found := tasks[id];
      if found.status.state == Completed || found.status.state == Failed || found.status.state == Canceled {
        return None;
      }
      found := found.(status := Status(Canceled, None));
      tasks := tasks[id := found];
      task := Some(found);
    }
  }
}
