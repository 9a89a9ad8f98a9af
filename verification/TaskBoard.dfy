/** src/api/ai_groups.py: the rows of ai_group_tasks and the endpoints that change them.

    Each endpoint is one atomic step, except execute_task, which awaits the agent between its two
    writes and is two steps. Identifiers come from uuid4 and are assumed never to repeat. */
module TaskBoards {
  import opened Options

  type Id = string

  datatype Status =
    | Planning | Discussing | Delegated | Pending | Executing | Verifying | Reviewing | Scored | Completed | Failed

  /** A row. `born` numbers the rows in the order of their insertion. */
  datatype Task = Task(group: Id, parent: Option<Id>, status: Status, agent: Option<string>, result: string,
                       iteration: nat, maxIterations: nat, born: nat)

  /** The tables, with the task ids ever issued and the number of the next row. */
  datatype Board = Board(groups: set<Id>, tasks: map<Id, Task>, issued: set<Id>, next: nat)

  datatype Subtask = Subtask(id: Id, agent: Option<string>)

  datatype Op =
    | CreateGroup(group: Id)
    | DeleteGroup(group: Id)
    | SubmitTask(group: Id, id: Id, subtasks: seq<Subtask>)
    | StartDiscussion(group: Id, id: Id)
    | DecideDiscussion(group: Id, id: Id, subtasks: seq<Subtask>)
    | AssignTask(group: Id, id: Id, agent: string)
    | CompleteTask(group: Id, id: Id, result: string)
    | VerifyTask(group: Id, id: Id, passed: bool)
    | StartExecution(group: Id, id: Id, agent: string)
    | FinishExecution(id: Id, result: string)
    | ReviewTask(group: Id, id: Id, result: string)
    | ScoreTask(group: Id, id: Id, allScored: bool)
    | AutoEvaluate(group: Id, id: Id)

  type Positive = n: nat | n > 0 witness 1

  /** No INSERT names max_iterations, so every row has the column's default. The schema says 2; nothing
      here depends on which positive number it is. */
  const MAX_ITERATIONS: Positive

  const EMPTY := Board({}, map[], {}, 0)

  // ----- One step -----

  predicate Has(board: Board, group: Id, id: Id) {
    id in board.tasks && board.tasks[id].group == group
  }

  /** An agent has been named; SQL NULL and the empty text are both falsy. */
  predicate HasAgent(task: Task) {
    task.agent.Some? && task.agent.value != ""
  }

  function NewTask(group: Id, parent: Option<Id>, status: Status, agent: Option<string>, born: nat): Task {
    Task(group, parent, status, agent, "", 0, MAX_ITERATIONS, born)
  }

  function Insert(board: Board, group: Id, parent: Option<Id>, status: Status, id: Id, agent: Option<string>): Board {
    board.(tasks := board.tasks[id := NewTask(group, parent, status, agent, board.next)],
           issued := board.issued + {id},
           next := board.next + 1)
  }

  function InsertChildren(board: Board, group: Id, parent: Id, subtasks: seq<Subtask>): Board {
    if |subtasks| == 0 then board
    else
      var last := subtasks[|subtasks| - 1];
      Insert(InsertChildren(board, group, parent, subtasks[..|subtasks| - 1]), group, Some(parent), Pending, last.id, last.agent)
  }

  predicate FreshIds(board: Board, subtasks: seq<Subtask>) {
    && (forall i :: 0 <= i < |subtasks| ==> subtasks[i].id !in board.issued)
    && (forall i, j :: 0 <= i < j < |subtasks| ==> subtasks[i].id != subtasks[j].id)
  }

  /** The ids an operation brings along have never been issued before. */
  predicate Fresh(board: Board, op: Op) {
    match op
    case SubmitTask(_, id, subtasks) =>
      id !in board.issued && FreshIds(board, subtasks) && forall i :: 0 <= i < |subtasks| ==> subtasks[i].id != id
    case StartDiscussion(_, id) => id !in board.issued
    case DecideDiscussion(_, _, subtasks) => FreshIds(board, subtasks)
    case _ => true
  }

  function SetStatus(board: Board, id: Id, status: Status): Board
    requires id in board.tasks
  {
    board.(tasks := board.tasks[id := board.tasks[id].(status := status)])
  }

  ghost predicate AllChildrenCompleted(board: Board, parent: Id) {
    forall c :: c in board.tasks && board.tasks[c].parent == Some(parent) ==> board.tasks[c].status == Completed
  }

  ghost function Pass(board: Board, id: Id): Board
    requires id in board.tasks
  {
    var parent := board.tasks[id].parent;
    var done := SetStatus(board, id, Completed);
    if parent.Some? && parent.value in done.tasks && AllChildrenCompleted(done, parent.value) then
      SetStatus(done, parent.value, Completed)
    else
      done
  }

  function Reject(board: Board, id: Id): Board
    requires id in board.tasks
  {
    var task := board.tasks[id];
    var iteration := task.iteration + 1;
    var next :=
      if iteration >= task.maxIterations then task.(status := Failed, iteration := iteration)
      else task.(status := Executing, iteration := iteration, result := "");
    board.(tasks := board.tasks[id := next])
  }

  function Drop(board: Board, group: Id): Board {
    board.(tasks := map id | id in board.tasks && board.tasks[id].group != group :: board.tasks[id],
           groups := board.groups - {group})
  }

  /** What an operation does to the tables. An operation on a missing row or group changes nothing,
      and neither does one whose ids are not fresh, which uuid4 rules out. */
  ghost function Apply(board: Board, op: Op): Board {
    if !Fresh(board, op) then board
    else
      match op
      case CreateGroup(group) => board.(groups := board.groups + {group})
      case DeleteGroup(group) => Drop(board, group)
      case SubmitTask(group, id, subtasks) =>
        if group !in board.groups then board
        else InsertChildren(Insert(board, group, None, Planning, id, None), group, id, subtasks)
      case StartDiscussion(group, id) =>
        if group !in board.groups then board else Insert(board, group, None, Discussing, id, None)
      case DecideDiscussion(group, id, subtasks) =>
        if !Has(board, group, id) then board
        else
          var filled := InsertChildren(board, group, id, subtasks);
          if id in filled.tasks then SetStatus(filled, id, Delegated) else filled
      case AssignTask(group, id, agent) =>
        if !Has(board, group, id) then board
        else board.(tasks := board.tasks[id := board.tasks[id].(status := Executing, agent := Some(agent))])
      case StartExecution(group, id, agent) =>
        if !Has(board, group, id) then board
        else board.(tasks := board.tasks[id := board.tasks[id].(status := Executing, agent := Some(agent))])
      case FinishExecution(id, result) =>
        if id !in board.tasks then board
        else board.(tasks := board.tasks[id := board.tasks[id].(status := Scored, result := result)])
      case CompleteTask(group, id, result) =>
        if !Has(board, group, id) then board
        else board.(tasks := board.tasks[id := board.tasks[id].(status := Verifying, result := result)])
      case VerifyTask(group, id, passed) =>
        if !Has(board, group, id) then board
        else if passed then Pass(board, id)
        else Reject(board, id)
      case ReviewTask(group, id, result) =>
        if !Has(board, group, id) then board
        else board.(tasks := board.tasks[id := board.tasks[id].(status := Reviewing, result := result)])
      case ScoreTask(group, id, allScored) =>
        if !Has(board, group, id) || !allScored then board else SetStatus(board, id, Scored)
      case AutoEvaluate(group, id) =>
        if !Has(board, group, id) || !HasAgent(board.tasks[id]) then board else SetStatus(board, id, Scored)
  }

  /** The tables after a run of operations from an empty database. */
  ghost function Run(ops: seq<Op>): Board {
    if |ops| == 0 then EMPTY else Apply(Run(ops[..|ops| - 1]), ops[|ops| - 1])
  }

  ghost predicate Names(subtasks: seq<Subtask>, id: Id) {
    exists i :: 0 <= i < |subtasks| && subtasks[i].id == id
  }

  lemma {:induction false} InsertedIds(board: Board, group: Id, parent: Id, subtasks: seq<Subtask>)
    ensures var after := InsertChildren(board, group, parent, subtasks);
            && after.groups == board.groups
            && after.next == board.next + |subtasks|
            && (forall id :: id in after.issued <==> id in board.issued || Names(subtasks, id))
            && (forall id :: id in after.tasks <==> id in board.tasks || Names(subtasks, id))
  {
    if |subtasks| == 0 {
    } else {
      var front, last := subtasks[..|subtasks| - 1], subtasks[|subtasks| - 1];
      InsertedIds(board, group, parent, front);
      assert subtasks == front + [last];
      forall id
        ensures Names(subtasks, id) <==> Names(front, id) || id == last.id
      {
        if Names(front, id) {
          var i :| 0 <= i < |front| && front[i].id == id;
          assert subtasks[i].id == id;
        }
        if id == last.id {
          assert subtasks[|front|].id == id;
        }
      }
    }
  }

  /** Rows that were there stay as they are; the others are pending children of `parent`. */
  lemma {:induction false} InsertedRow(board: Board, group: Id, parent: Id, subtasks: seq<Subtask>, id: Id)
    requires id in InsertChildren(board, group, parent, subtasks).tasks
    ensures var row := InsertChildren(board, group, parent, subtasks).tasks[id];
            if Names(subtasks, id) then
              row == NewTask(group, Some(parent), Pending, row.agent, row.born) && board.next <= row.born < board.next + |subtasks|
            else
              id in board.tasks && row == board.tasks[id]
  {
    InsertedIds(board, group, parent, subtasks);
    if |subtasks| == 0 {
    } else {
      var front, last := subtasks[..|subtasks| - 1], subtasks[|subtasks| - 1];
      InsertedIds(board, group, parent, front);
      if id == last.id {
        assert subtasks[|front|].id == id;
      } else {
        InsertedRow(board, group, parent, front, id);
        if Names(front, id) {
          var i :| 0 <= i < |front| && front[i].id == id;
          assert subtasks[i].id == id;
        }
      }
    }
  }

  /** Each subtask becomes the row that its entry describes, born in the order of the list. */
  lemma {:induction false} ChildrenAsGiven(board: Board, group: Id, parent: Id, subtasks: seq<Subtask>, i: nat)
    requires FreshIds(board, subtasks) && i < |subtasks|
    ensures subtasks[i].id in InsertChildren(board, group, parent, subtasks).tasks
    ensures InsertChildren(board, group, parent, subtasks).tasks[subtasks[i].id]
         == Task(group, Some(parent), Pending, subtasks[i].agent, "", 0, MAX_ITERATIONS, board.next + i)
  {
    var front := subtasks[..|subtasks| - 1];
    InsertedIds(board, group, parent, front);
    if i < |front| {
      ChildrenAsGiven(board, group, parent, front, i);
    }
  }

  /** Inserting children leaves every other row as it is. */
  lemma {:induction false} OthersStay(board: Board, group: Id, parent: Id, subtasks: seq<Subtask>, id: Id)
    requires forall i :: 0 <= i < |subtasks| ==> subtasks[i].id != id
    ensures var after := InsertChildren(board, group, parent, subtasks).tasks;
            && (id in after <==> id in board.tasks)
            && (id in after ==> after[id] == board.tasks[id])
  {
    if |subtasks| == 0 {
    } else {
      OthersStay(board, group, parent, subtasks[..|subtasks| - 1], id);
    }
  }

  /** submit_task inserts a root being planned, and start_discussion one under discussion; neither has an
      agent, and neither touches any other row. */
  lemma RootAsGiven(board: Board, op: Op, id: Id)
    requires Fresh(board, op) && (op.SubmitTask? || op.StartDiscussion?) && op.group in board.groups
    ensures op.id in Apply(board, op).tasks
    ensures Apply(board, op).tasks[op.id]
         == Task(op.group, None, if op.SubmitTask? then Planning else Discussing, None, "", 0, MAX_ITERATIONS, board.next)
    ensures op.SubmitTask? ==>
              forall i :: 0 <= i < |op.subtasks| ==>
                && op.subtasks[i].id in Apply(board, op).tasks
                && Apply(board, op).tasks[op.subtasks[i].id]
                   == Task(op.group, Some(op.id), Pending, op.subtasks[i].agent, "", 0, MAX_ITERATIONS, board.next + 1 + i)
  {
    if op.SubmitTask? {
      var start := Insert(board, op.group, None, Planning, op.id, None);
      OthersStay(start, op.group, op.id, op.subtasks, op.id);
      forall i | 0 <= i < |op.subtasks|
        ensures var after := Apply(board, op).tasks;
                && op.subtasks[i].id in after
                && after[op.subtasks[i].id]
                   == Task(op.group, Some(op.id), Pending, op.subtasks[i].agent, "", 0, MAX_ITERATIONS, board.next + 1 + i)
      {
        ChildrenAsGiven(start, op.group, op.id, op.subtasks, i);
      }
    }
  }

  /** The two endpoints that score a task set its status, when all have scored or it has an agent. */
  lemma ScoredAsGiven(board: Board, group: Id, id: Id, allScored: bool)
    requires id in board.tasks && board.tasks[id].group == group
    ensures var scored := board.tasks[id := board.tasks[id].(status := Scored)];
            && Apply(board, ScoreTask(group, id, allScored)).tasks == (if allScored then scored else board.tasks)
            && Apply(board, AutoEvaluate(group, id)).tasks
               == if board.tasks[id].agent in {None, Some("")} then board.tasks else scored
  {
    assert board.tasks[id].agent in {None, Some("")} <==> !HasAgent(board.tasks[id]);
  }

  lemma FreshNotIssued(board: Board, subtasks: seq<Subtask>)
    requires FreshIds(board, subtasks)
    ensures forall id :: Names(subtasks, id) ==> id !in board.issued
  {
  }

  // ----- What holds for any order of calls -----

  ghost predicate RowOk(board: Board, id: Id)
    requires id in board.tasks
  {
    var task := board.tasks[id];
    && id in board.issued
    && task.group in board.groups
    && task.born < board.next
    && task.maxIterations == MAX_ITERATIONS
    && (task.status == Failed ==> task.iteration >= task.maxIterations)
    && (task.parent.Some? ==>
          && task.parent.value in board.tasks
          && board.tasks[task.parent.value].group == task.group
          && board.tasks[task.parent.value].born < task.born)
  }

  ghost predicate Inv(board: Board) {
    forall id :: id in board.tasks ==> RowOk(board, id)
  }

  lemma InsertKeepsInv(board: Board, group: Id, status: Status, id: Id)
    requires Inv(board) && group in board.groups && id !in board.issued && status != Failed
    ensures Inv(Insert(board, group, None, status, id, None))
  {
    var after := Insert(board, group, None, status, id, None);
    forall i | i in after.tasks
      ensures RowOk(after, i)
    {
      assert i != id ==> RowOk(board, i);
    }
  }

  lemma InsertChildrenKeepsInv(board: Board, group: Id, parent: Id, subtasks: seq<Subtask>)
    requires Inv(board) && FreshIds(board, subtasks)
    requires group in board.groups && Has(board, group, parent)
    ensures Inv(InsertChildren(board, group, parent, subtasks))
    ensures Has(InsertChildren(board, group, parent, subtasks), group, parent)
  {
    var after := InsertChildren(board, group, parent, subtasks);
    InsertedIds(board, group, parent, subtasks);
    FreshNotIssued(board, subtasks);
    assert RowOk(board, parent);
    InsertedRow(board, group, parent, subtasks, parent);
    forall id | id in after.tasks
      ensures RowOk(after, id)
    {
      InsertedRow(board, group, parent, subtasks, id);
      if !Names(subtasks, id) {
        assert RowOk(board, id);
        if board.tasks[id].parent.Some? {
          assert RowOk(board, board.tasks[id].parent.value);
          InsertedRow(board, group, parent, subtasks, board.tasks[id].parent.value);
        }
      }
    }
  }

  lemma DropKeepsInv(board: Board, group: Id)
    requires Inv(board)
    ensures Inv(Drop(board, group))
  {
    forall id | id in Drop(board, group).tasks
      ensures RowOk(Drop(board, group), id)
    {
      assert RowOk(board, id);
    }
  }

  lemma PassKeepsInv(board: Board, id: Id)
    requires Inv(board) && id in board.tasks
    ensures Inv(Pass(board, id))
  {
    var done := SetStatus(board, id, Completed);
    UpdateKeepsInv(board, done, id);
    if Pass(board, id) != done {
      UpdateKeepsInv(done, Pass(board, id), board.tasks[id].parent.value);
    }
  }

  /** Every endpoint, in whatever order it is called, keeps the invariant. */
  lemma ApplyKeepsInv(board: Board, op: Op)
    requires Inv(board)
    ensures Inv(Apply(board, op))
  {
    if !Fresh(board, op) || Apply(board, op) == board {
    } else if op.SubmitTask? {
      InsertKeepsInv(board, op.group, Planning, op.id);
      InsertChildrenKeepsInv(Insert(board, op.group, None, Planning, op.id, None), op.group, op.id, op.subtasks);
    } else if op.StartDiscussion? {
      InsertKeepsInv(board, op.group, Discussing, op.id);
    } else if op.DecideDiscussion? {
      assert RowOk(board, op.id);
      InsertChildrenKeepsInv(board, op.group, op.id, op.subtasks);
      UpdateKeepsInv(InsertChildren(board, op.group, op.id, op.subtasks), Apply(board, op), op.id);
    } else if op.DeleteGroup? {
      DropKeepsInv(board, op.group);
    } else if op.VerifyTask? && op.passed {
      PassKeepsInv(board, op.id);
    } else if op.CreateGroup? {
      forall id | id in board.tasks
        ensures RowOk(Apply(board, op), id)
      {
        assert RowOk(board, id);
      }
    } else {
      UpdateKeepsInv(board, Apply(board, op), op.id);
    }
  }

  /** Changing one row's status, result or iteration keeps the invariant. */
  lemma UpdateKeepsInv(board: Board, after: Board, id: Id)
    requires Inv(board) && id in board.tasks && after.tasks.Keys == board.tasks.Keys
    requires after == board.(tasks := board.tasks[id := after.tasks[id]])
    requires var t, u := board.tasks[id], after.tasks[id];
             && u == t.(status := u.status, result := u.result, iteration := u.iteration, agent := u.agent)
             && (u.status == Failed ==> u.iteration >= u.maxIterations)
    ensures Inv(after)
  {
    forall i | i in after.tasks
      ensures RowOk(after, i)
    {
      assert RowOk(board, i);
    }
  }

  lemma {:induction false} RunInv(ops: seq<Op>)
    ensures Inv(Run(ops))
  {
    if |ops| == 0 {
    } else {
      RunInv(ops[..|ops| - 1]);
      ApplyKeepsInv(Run(ops[..|ops| - 1]), ops[|ops| - 1]);
    }
  }

  // ----- Parent links -----

  /** From a task over its parent, its parent's parent and so on. */
  ghost function Lineage(board: Board, id: Id): (path: seq<Id>)
    requires Inv(board) && id in board.tasks
    ensures |path| > 0 && path[0] == id
    decreases board.tasks[id].born
  {
    assert RowOk(board, id);
    match board.tasks[id].parent
    case None => [id]
    case Some(parent) => [id] + Lineage(board, parent)
  }

  /** The parent links form a forest inside each group: following them from any task never meets a
      task twice, stays in the task's group and ends at a task without a parent. */
  lemma {:induction false} LineageEndsAtRoot(board: Board, id: Id)
    requires Inv(board) && id in board.tasks
    ensures var path := Lineage(board, id);
            && (forall x :: x in path ==> Has(board, board.tasks[id].group, x) && board.tasks[x].born <= board.tasks[id].born)
            && (forall i, j :: 0 <= i < j < |path| ==> path[i] != path[j])
            && path[|path| - 1] in board.tasks
            && board.tasks[path[|path| - 1]].parent == None
    decreases board.tasks[id].born
  {
    assert RowOk(board, id);
    if board.tasks[id].parent.Some? {
      var parent := board.tasks[id].parent.value;
      var rest := Lineage(board, parent);
      LineageEndsAtRoot(board, parent);
      assert forall j :: 0 <= j < |rest| ==> rest[j] in rest;
    }
  }

  /** delete_group removes exactly the trees of the group: a task goes if and only if every task on
      the way to its root goes, and what is left is unchanged and loses no parent. */
  lemma DeleteRemovesWholeTrees(board: Board, group: Id, id: Id)
    requires Inv(board) && id in board.tasks
    ensures var after := Apply(board, DeleteGroup(group));
            && (id in after.tasks <==> board.tasks[id].group != group)
            && (id in after.tasks ==> after.tasks[id] == board.tasks[id])
            && (forall x :: x in Lineage(board, id) ==> (x in after.tasks <==> id in after.tasks))
            && (forall c :: c in board.tasks && board.tasks[c].parent == Some(id) ==> (c in after.tasks <==> id in after.tasks))
  {
    LineageEndsAtRoot(board, id);
    var after := Apply(board, DeleteGroup(group));
    forall c | c in board.tasks && board.tasks[c].parent == Some(id)
      ensures c in after.tasks <==> id in after.tasks
    {
      assert RowOk(board, c);
    }
  }

  // ----- Retries -----

  ghost predicate IsRejection(board: Board, op: Op, id: Id) {
    op.VerifyTask? && !op.passed && op.id == id && Has(board, op.group, id)
  }

  ghost predicate IsRetry(board: Board, op: Op, id: Id) {
    IsRejection(board, op, id) && board.tasks[id].iteration + 1 < board.tasks[id].maxIterations
  }

  /** How often the task was sent back by a failed verification in the run. */
  ghost function Rejections(ops: seq<Op>, id: Id): nat {
    if |ops| == 0 then 0
    else
      var front := ops[..|ops| - 1];
      Rejections(front, id) + if IsRejection(Run(front), ops[|ops| - 1], id) then 1 else 0
  }

  /** How often it was sent back for another attempt, rather than given up. */
  ghost function Retries(ops: seq<Op>, id: Id): nat {
    if |ops| == 0 then 0
    else
      var front := ops[..|ops| - 1];
      Retries(front, id) + if IsRetry(Run(front), ops[|ops| - 1], id) then 1 else 0
  }

  /** One step changes a row's iteration only by rejecting it, and rows are born at iteration 0. */
  lemma ApplyIteration(board: Board, op: Op, id: Id)
    requires Inv(board)
    ensures board.issued <= Apply(board, op).issued
    ensures id in Apply(board, op).tasks ==>
              var iteration := Apply(board, op).tasks[id].iteration;
              if id in board.tasks then
                iteration == board.tasks[id].iteration + (if IsRejection(board, op, id) then 1 else 0)
              else
                id !in board.issued && id in Apply(board, op).issued && iteration == 0
  {
    var after := Apply(board, op);
    if !Fresh(board, op) || after == board {
    } else if op.SubmitTask? || op.DecideDiscussion? {
      var start := if op.SubmitTask? then Insert(board, op.group, None, Planning, op.id, None) else board;
      InsertedIds(start, op.group, op.id, op.subtasks);
      FreshNotIssued(board, op.subtasks);
      if id in after.tasks {
        InsertedRow(start, op.group, op.id, op.subtasks, id);
        assert id in board.tasks ==> RowOk(board, id);
      }
    }
    assert id in board.tasks ==> RowOk(board, id);
  }

  /** In any order of calls, a row's iteration is the number of its rejections, of which the first
      max_iterations - 1 are retries and the others failures; no task gets more than max_iterations - 1 retries in a
      whole run, and a failed row has used up its iterations. */
  lemma {:induction false} IterationCountsRejections(ops: seq<Op>, id: Id)
    ensures var board := Run(ops);
            && (id !in board.issued ==> Rejections(ops, id) == 0)
            && (id in board.tasks ==>
                  && board.tasks[id].iteration == Rejections(ops, id)
                  && Retries(ops, id) == (if Rejections(ops, id) < MAX_ITERATIONS then Rejections(ops, id) else MAX_ITERATIONS - 1)
                  && (board.tasks[id].status == Failed ==> board.tasks[id].iteration >= MAX_ITERATIONS))
            && Retries(ops, id) <= Rejections(ops, id)
            && Retries(ops, id) <= MAX_ITERATIONS - 1
  {
    RunInv(ops);
    if |ops| == 0 {
    } else {
      var front, last := ops[..|ops| - 1], ops[|ops| - 1];
      IterationCountsRejections(front, id);
      RunInv(front);
      ApplyIteration(Run(front), last, id);
      assert id in Run(front).tasks ==> RowOk(Run(front), id);
    }
    assert id in Run(ops).tasks ==> RowOk(Run(ops), id);
  }

  lemma {:induction false} RejectionsGrow(ops: seq<Op>, more: seq<Op>, id: Id)
    ensures Rejections(ops, id) <= Rejections(ops + more, id)
  {
    if |more| == 0 {
      assert ops + more == ops;
    } else {
      var front := more[..|more| - 1];
      RejectionsGrow(ops, front, id);
      assert (ops + more)[..|ops + more| - 1] == ops + front;
    }
  }

  /** A task's iteration never decreases while the run goes on. */
  lemma IterationNeverDecreases(ops: seq<Op>, more: seq<Op>, id: Id)
    requires id in Run(ops).tasks && id in Run(ops + more).tasks
    ensures Run(ops).tasks[id].iteration <= Run(ops + more).tasks[id].iteration
  {
    IterationCountsRejections(ops, id);
    IterationCountsRejections(ops + more, id);
    RejectionsGrow(ops, more, id);
  }
}
