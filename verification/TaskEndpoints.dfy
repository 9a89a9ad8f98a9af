/** src/api/ai_groups.py: the endpoints as methods on the tables. Each one is proved against the step
    of TaskBoards that the lemmas over runs are about. */
module TaskEndpoints {
  import opened Options
  import opened TaskBoards

  datatype VerifyReply = NotFound | Passed | Retry(iteration: nat) | GaveUp(iteration: nat)

  class TaskEngine {
    var groups: set<Id>
    var tasks: map<Id, Task>
    var next: nat
    ghost var issued: set<Id>

    ghost function Tables(): Board
      reads this
    {
      Board(groups, tasks, issued, next)
    }

    constructor ()
      ensures Tables() == EMPTY
    {
      groups, tasks, next, issued := {}, map[], 0, {};
    }

    /** INSERT INTO ai_group_tasks. */
    method InsertRow(group: Id, parent: Option<Id>, status: Status, id: Id, agent: Option<string>)
      requires id !in issued
      modifies this
      ensures Tables() == Insert(old(Tables()), group, parent, status, id, agent)
      ensures tasks == old(tasks)[id := Task(group, parent, status, agent, "", 0, MAX_ITERATIONS, old(next))]
      ensures next == old(next) + 1 && groups == old(groups)
    {
      tasks := tasks[id := Task(group, parent, status, agent, "", 0, MAX_ITERATIONS, next)];
      next := next + 1;
      issued := issued + {id};
    }

    method InsertSubtasks(group: Id, parent: Id, subtasks: seq<Subtask>)
      requires FreshIds(Tables(), subtasks)
      modifies this
      ensures Tables() == InsertChildren(old(Tables()), group, parent, subtasks)
      ensures forall i :: 0 <= i < |subtasks| ==>
                && subtasks[i].id in tasks
                && tasks[subtasks[i].id]
                   == Task(group, Some(parent), Pending, subtasks[i].agent, "", 0, MAX_ITERATIONS, old(next) + i)
      ensures forall id :: (forall i :: 0 <= i < |subtasks| ==> subtasks[i].id != id) ==>
                (id in tasks <==> id in old(tasks)) && (id in tasks ==> tasks[id] == old(tasks)[id])
      ensures next == old(next) + |subtasks| && groups == old(groups)
    {
      ghost var before := Tables();
      for i := 0 to |subtasks|
        invariant Tables() == InsertChildren(before, group, parent, subtasks[..i])
      {
        InsertedIds(before, group, parent, subtasks[..i]);
        assert subtasks[..i + 1][..i] == subtasks[..i];
        InsertRow(group, Some(parent), Pending, subtasks[i].id, subtasks[i].agent);
      }
      assert subtasks[..|subtasks|] == subtasks;
      InsertedIds(before, group, parent, subtasks);
      forall i | 0 <= i < |subtasks|
        ensures subtasks[i].id in tasks
        ensures tasks[subtasks[i].id]
             == Task(group, Some(parent), Pending, subtasks[i].agent, "", 0, MAX_ITERATIONS, before.next + i)
      {
        ChildrenAsGiven(before, group, parent, subtasks, i);
      }
      forall id | forall i :: 0 <= i < |subtasks| ==> subtasks[i].id != id
        ensures (id in tasks <==> id in before.tasks) && (id in tasks ==> tasks[id] == before.tasks[id])
      {
        OthersStay(before, group, parent, subtasks, id);
      }
    }

    method CreateGroup(group: Id)
      modifies this
      ensures Tables() == Apply(old(Tables()), Op.CreateGroup(group))
      ensures groups == old(groups) + {group} && tasks == old(tasks)
    {
      groups := groups + {group};
    }

    method DeleteGroup(group: Id)
      modifies this
      ensures Tables() == Apply(old(Tables()), Op.DeleteGroup(group))
      ensures groups == old(groups) - {group}
      ensures tasks == map id | id in old(tasks) && old(tasks)[id].group != group :: old(tasks)[id]
    {
      tasks := map id | id in tasks && tasks[id].group != group :: tasks[id];
      groups := groups - {group};
    }

    /** submit_task; the subtasks are what the decomposition of the goal yields. */
    method SubmitTask(group: Id, id: Id, subtasks: seq<Subtask>) returns (found: bool)
      requires Fresh(Tables(), Op.SubmitTask(group, id, subtasks))
      modifies this
      ensures found <==> group in old(groups)
      ensures Tables() == Apply(old(Tables()), Op.SubmitTask(group, id, subtasks))
      ensures !found ==> tasks == old(tasks)
      ensures found ==> id in tasks && tasks[id] == Task(group, None, Planning, None, "", 0, MAX_ITERATIONS, old(next))
      ensures found ==>
                forall i :: 0 <= i < |subtasks| ==>
                  && subtasks[i].id in tasks
                  && tasks[subtasks[i].id]
                     == Task(group, Some(id), Pending, subtasks[i].agent, "", 0, MAX_ITERATIONS, old(next) + 1 + i)
    {
      if group !in groups {
        return false;
      }
      InsertRow(group, None, Planning, id, None);
      InsertSubtasks(group, id, subtasks);
      return true;
    }

    method StartDiscussion(group: Id, id: Id) returns (found: bool)
      requires id !in issued
      modifies this
      ensures found <==> group in old(groups)
      ensures Tables() == Apply(old(Tables()), Op.StartDiscussion(group, id))
      ensures tasks == if found then old(tasks)[id := Task(group, None, Discussing, None, "", 0, MAX_ITERATIONS, old(next))]
                       else old(tasks)
    {
      if group !in groups {
        return false;
      }
      InsertRow(group, None, Discussing, id, None);
      return true;
    }

    method DecideDiscussion(group: Id, id: Id, subtasks: seq<Subtask>) returns (found: bool)
      requires FreshIds(Tables(), subtasks)
      modifies this
      ensures found <==> Has(old(Tables()), group, id)
      ensures Tables() == Apply(old(Tables()), Op.DecideDiscussion(group, id, subtasks))
      ensures !found ==> tasks == old(tasks)
      ensures found ==> id in tasks && tasks[id].status == Delegated
      ensures found && (forall i :: 0 <= i < |subtasks| ==> subtasks[i].id != id) ==>
                && tasks[id] == old(tasks)[id].(status := Delegated)
                && forall i :: 0 <= i < |subtasks| ==>
                     && subtasks[i].id in tasks
                     && tasks[subtasks[i].id]
                        == Task(group, Some(id), Pending, subtasks[i].agent, "", 0, MAX_ITERATIONS, old(next) + i)
    {
      if id !in tasks || tasks[id].group != group {
        return false;
      }
      InsertSubtasks(group, id, subtasks);
      if id in tasks {
        tasks := tasks[id := tasks[id].(status := Delegated)];
      }
      return true;
    }

    /** assign_task: an UPDATE that matches no row is not an error. */
    method AssignTask(group: Id, id: Id, agent: string)
      modifies this`tasks
      ensures Tables() == Apply(old(Tables()), Op.AssignTask(group, id, agent))
      ensures tasks == if id in old(tasks) && old(tasks)[id].group == group
                       then old(tasks)[id := old(tasks)[id].(status := Executing, agent := Some(agent))] else old(tasks)
    {
      if id in tasks && tasks[id].group == group {
        tasks := tasks[id := tasks[id].(agent := Some(agent), status := Executing)];
      }
    }

    method CompleteTask(group: Id, id: Id, result: string)
      modifies this`tasks
      ensures Tables() == Apply(old(Tables()), Op.CompleteTask(group, id, result))
      ensures tasks == if id in old(tasks) && old(tasks)[id].group == group
                       then old(tasks)[id := old(tasks)[id].(status := Verifying, result := result)] else old(tasks)
    {
      if id in tasks && tasks[id].group == group {
        tasks := tasks[id := tasks[id].(result := result, status := Verifying)];
      }
    }

    /** verify_task: the count of unfinished siblings is taken after the task itself is completed. */
    method VerifyTask(group: Id, id: Id, passed: bool) returns (reply: VerifyReply)
      modifies this`tasks
      ensures Tables() == Apply(old(Tables()), Op.VerifyTask(group, id, passed))
      ensures reply == NotFound <==> !Has(old(Tables()), group, id)
      ensures reply == Passed <==> Has(old(Tables()), group, id) && passed
      ensures reply.Retry? <==> IsRetry(old(Tables()), Op.VerifyTask(group, id, passed), id)
      ensures reply.Retry? || reply.GaveUp? ==> id in tasks && reply.iteration == tasks[id].iteration
      ensures reply == NotFound ==> tasks == old(tasks)
      ensures reply == Passed ==>
                var done := old(tasks)[id := old(tasks)[id].(status := Completed)];
                var parent := old(tasks)[id].parent;
                tasks == if parent.Some? && parent.value in done
                            && (forall c :: c in done && done[c].parent == parent ==> done[c].status == Completed)
                         then done[parent.value := done[parent.value].(status := Completed)] else done
      ensures reply.Retry? || reply.GaveUp? ==>
                var row := old(tasks)[id];
                tasks == old(tasks)[id :=
                  if row.iteration + 1 < row.maxIterations
                  then row.(status := Executing, iteration := row.iteration + 1, result := "")
                  else row.(status := Failed, iteration := row.iteration + 1)]
    {
      if id !in tasks || tasks[id].group != group {
        return NotFound;
      }
      var task := tasks[id];
      if passed {
        tasks := tasks[id := task.(status := Completed)];
        ghost var done := Tables();
        if task.parent.Some? {
          var parent := task.parent.value;
          var pending := set c | c in tasks && tasks[c].parent == Some(parent) && tasks[c].status != Completed;
          assert |pending| == 0 <==> AllChildrenCompleted(done, parent) by {
            if AllChildrenCompleted(done, parent) {
              assert pending == {};
            } else {
              var c :| c in tasks && tasks[c].parent == Some(parent) && tasks[c].status != Completed;
              assert c in pending;
            }
          }
          if |pending| == 0 && parent in tasks {
            tasks := tasks[parent := tasks[parent].(status := Completed)];
          }
        }
        return Passed;
      }
      var iteration := task.iteration + 1;
      if iteration >= task.maxIterations {
        tasks := tasks[id := task.(status := Failed, iteration := iteration)];
        return GaveUp(iteration);
      }
      tasks := tasks[id := task.(status := Executing, iteration := iteration, result := "")];
      return Retry(iteration);
    }

    /** execute_task up to its await. */
    method StartExecution(group: Id, id: Id, agent: string) returns (found: bool)
      modifies this`tasks
      ensures found <==> Has(old(Tables()), group, id)
      ensures Tables() == Apply(old(Tables()), Op.StartExecution(group, id, agent))
      ensures tasks == if id in old(tasks) && old(tasks)[id].group == group
                       then old(tasks)[id := old(tasks)[id].(status := Executing, agent := Some(agent))] else old(tasks)
    {
      if id !in tasks || tasks[id].group != group {
        return false;
      }
      tasks := tasks[id := tasks[id].(agent := Some(agent), status := Executing)];
      return true;
    }

    /** execute_task after its await: the row may have been deleted meanwhile. */
    method FinishExecution(id: Id, result: string)
      modifies this`tasks
      ensures Tables() == Apply(old(Tables()), Op.FinishExecution(id, result))
      ensures tasks == if id in old(tasks) then old(tasks)[id := old(tasks)[id].(status := Scored, result := result)]
                       else old(tasks)
    {
      if id in tasks {
        tasks := tasks[id := tasks[id].(result := result, status := Reviewing)];
        tasks := tasks[id := tasks[id].(status := Scored)];
      }
    }

    method ReviewTask(group: Id, id: Id, result: string) returns (found: bool)
      modifies this`tasks
      ensures found <==> Has(old(Tables()), group, id)
      ensures Tables() == Apply(old(Tables()), Op.ReviewTask(group, id, result))
      ensures tasks == if id in old(tasks) && old(tasks)[id].group == group
                       then old(tasks)[id := old(tasks)[id].(status := Reviewing, result := result)] else old(tasks)
    {
      if id !in tasks || tasks[id].group != group {
        return false;
      }
      tasks := tasks[id := tasks[id].(result := result, status := Reviewing)];
      return true;
    }
  }
}
