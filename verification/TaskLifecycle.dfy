/** src/api/ai_groups.py: what the task engine promises when its callers follow the life of a task,
    pending -> executing -> verifying -> completed, failed or executing again. The endpoints do not
    enforce this order; the lemmas at the end show what is lost without it. */
module TaskLifecycle {
  import opened Options
  import opened TaskBoards

  /** Callers assign pending tasks, complete executing ones, verify verifying ones and decide
      discussions that are still open; submit_task always finds at least two subtasks. */
  ghost predicate Follows(board: Board, op: Op) {
    match op
    case AssignTask(group, id, _) => Has(board, group, id) ==> board.tasks[id].status == Pending
    case CompleteTask(group, id, _) => Has(board, group, id) ==> board.tasks[id].status == Executing
    case VerifyTask(group, id, _) => Has(board, group, id) ==> board.tasks[id].status == Verifying
    case DecideDiscussion(group, id, _) => Has(board, group, id) ==> board.tasks[id].status == Discussing
    case SubmitTask(_, _, subtasks) => |subtasks| >= 2
    case CreateGroup(_) => true
    case DeleteGroup(_) => true
    case StartDiscussion(_, _) => true
    case _ => false
  }

  ghost predicate FollowedRun(ops: seq<Op>) {
    |ops| > 0 ==> FollowedRun(ops[..|ops| - 1]) && Follows(Run(ops[..|ops| - 1]), ops[|ops| - 1])
  }

  ghost predicate IsChildOf(board: Board, c: Id, parent: Id) {
    c in board.tasks && board.tasks[c].parent == Some(parent)
  }

  ghost predicate HasChild(board: Board, parent: Id) {
    exists c :: IsChildOf(board, c, parent)
  }

  // ----- The shape of the tables in such a run -----

  /** A child that is worked on has an agent, and no result of an earlier attempt. */
  predicate ChildRowOk(task: Task) {
    match task.status
    case Pending => task.iteration == 0 && task.result == ""
    case Executing => task.iteration < task.maxIterations && task.result == "" && task.agent.Some?
    case Verifying => task.iteration < task.maxIterations && task.agent.Some?
    case Completed => task.iteration < task.maxIterations && task.agent.Some?
    case Failed => task.iteration == task.maxIterations && task.agent.Some?
    case _ => false
  }

  ghost predicate RootRowOk(board: Board, id: Id)
    requires id in board.tasks
  {
    && board.tasks[id].status in {Planning, Discussing, Delegated, Completed}
    && (board.tasks[id].status == Discussing ==> !HasChild(board, id))
    && (board.tasks[id].status == Completed <==> HasChild(board, id) && AllChildrenCompleted(board, id))
  }

  ghost predicate LifeRow(board: Board, id: Id)
    requires id in board.tasks
  {
    match board.tasks[id].parent
    case None => RootRowOk(board, id)
    case Some(parent) =>
      ChildRowOk(board.tasks[id]) && parent in board.tasks && board.tasks[parent].parent == None
  }

  ghost predicate LifeInv(board: Board) {
    Inv(board) && forall id :: id in board.tasks ==> LifeRow(board, id)
  }

  /** A step that leaves the children of a root as they are keeps what the root's row says. */
  lemma RootKept(board: Board, after: Board, id: Id)
    requires id in board.tasks && id in after.tasks && RootRowOk(board, id)
    requires after.tasks[id].status == board.tasks[id].status
    requires forall c :: IsChildOf(after, c, id) <==> IsChildOf(board, c, id)
    requires forall c :: IsChildOf(board, c, id) ==> c in after.tasks && (after.tasks[c].status == Completed <==> board.tasks[c].status == Completed)
    ensures RootRowOk(after, id)
  {
    if HasChild(board, id) {
      var c :| IsChildOf(board, c, id);
      assert IsChildOf(after, c, id);
    }
    assert HasChild(after, id) ==> HasChild(board, id);
    assert AllChildrenCompleted(after, id) <==> AllChildrenCompleted(board, id) by {
      assert forall c :: c in board.tasks && board.tasks[c].parent == Some(id) <==> IsChildOf(board, c, id);
      assert forall c :: c in after.tasks && after.tasks[c].parent == Some(id) <==> IsChildOf(after, c, id);
    }
  }

  /** A child moves along without completing: assign, complete, or a failed verification. */
  lemma ChildMoves(board: Board, after: Board, id: Id)
    requires LifeInv(board) && Inv(after) && id in board.tasks && board.tasks[id].parent.Some?
    requires after.tasks.Keys == board.tasks.Keys && after == board.(tasks := board.tasks[id := after.tasks[id]])
    requires after.tasks[id].parent == board.tasks[id].parent && ChildRowOk(after.tasks[id])
    requires board.tasks[id].status != Completed && after.tasks[id].status != Completed
    ensures LifeInv(after)
  {
    forall i | i in after.tasks
      ensures LifeRow(after, i)
    {
      assert LifeRow(board, i);
      assert LifeRow(board, id);
      if board.tasks[i].parent == None {
        assert forall c :: IsChildOf(after, c, i) <==> IsChildOf(board, c, i);
        RootKept(board, after, i);
      }
    }
  }

  /** The parent of a child that passes completes with its last child, and not before. */
  lemma ParentAfterPass(board: Board, id: Id, parent: Id)
    requires LifeInv(board) && IsChildOf(board, id, parent) && parent in board.tasks
    requires board.tasks[id].status == Verifying && board.tasks[parent].parent == None
    ensures RootRowOk(Pass(board, id), parent)
  {
    var after, done := Pass(board, id), SetStatus(board, id, Completed);
    assert LifeRow(board, parent);
    assert board.tasks[parent].status != Completed;
    assert IsChildOf(after, id, parent);
    assert forall c :: IsChildOf(after, c, parent) <==> IsChildOf(done, c, parent);
    assert forall c :: IsChildOf(after, c, parent) ==> after.tasks[c] == done.tasks[c];
    assert AllChildrenCompleted(after, parent) <==> AllChildrenCompleted(done, parent) by {
      assert forall c :: c in done.tasks && done.tasks[c].parent == Some(parent) <==> IsChildOf(done, c, parent);
      assert forall c :: c in after.tasks && after.tasks[c].parent == Some(parent) <==> IsChildOf(after, c, parent);
    }
  }

  lemma OtherRootAfterPass(board: Board, id: Id, parent: Id, i: Id)
    requires LifeInv(board) && IsChildOf(board, id, parent)
    requires i in board.tasks && board.tasks[i].parent == None && i != parent
    ensures RootRowOk(Pass(board, id), i)
  {
    var after := Pass(board, id);
    assert LifeRow(board, i) && LifeRow(board, id);
    forall x | x in board.tasks && x != id && x != parent
      ensures x in after.tasks && after.tasks[x] == board.tasks[x]
    {
    }
    assert after.tasks[id].parent == Some(parent) && after.tasks[parent].parent == None;
    assert forall c :: IsChildOf(after, c, i) <==> IsChildOf(board, c, i);
    RootKept(board, after, i);
  }

  lemma PassKeepsLife(board: Board, id: Id)
    requires LifeInv(board) && id in board.tasks && board.tasks[id].status == Verifying
    requires Inv(Pass(board, id))
    ensures LifeInv(Pass(board, id))
  {
    assert LifeRow(board, id);
    var parent := board.tasks[id].parent.value;
    assert LifeRow(board, parent);
    ParentAfterPass(board, id, parent);
    forall i | i in Pass(board, id).tasks
      ensures LifeRow(Pass(board, id), i)
    {
      if board.tasks[i].parent.Some? {
        assert LifeRow(board, i);
      } else if i != parent {
        OtherRootAfterPass(board, id, parent, i);
      }
    }
  }

  ghost predicate Arrival(board: Board, group: Id, parent: Id, subtasks: seq<Subtask>) {
    && LifeInv(board) && Has(board, group, parent) && board.tasks[parent].parent == None
    && FreshIds(board, subtasks)
    && board.tasks[parent].status in {Planning, Discussing} && !HasChild(board, parent)
    && Has(InsertChildren(board, group, parent, subtasks), group, parent)
  }

  lemma OtherRootAtArrival(board: Board, group: Id, parent: Id, subtasks: seq<Subtask>, status: Status, i: Id)
    requires Arrival(board, group, parent, subtasks)
    requires i in board.tasks && board.tasks[i].parent == None && i != parent
    requires i in InsertChildren(board, group, parent, subtasks).tasks
    ensures RootRowOk(SetStatus(InsertChildren(board, group, parent, subtasks), parent, status), i)
  {
    var after := SetStatus(InsertChildren(board, group, parent, subtasks), parent, status);
    InsertedIds(board, group, parent, subtasks);
    FreshNotIssued(board, subtasks);
    assert RowOk(board, i) && LifeRow(board, i);
    InsertedRow(board, group, parent, subtasks, i);
    forall c
      ensures IsChildOf(after, c, i) <==> IsChildOf(board, c, i)
      ensures IsChildOf(board, c, i) ==> c in after.tasks && after.tasks[c].status == board.tasks[c].status
    {
      if c in after.tasks {
        InsertedRow(board, group, parent, subtasks, c);
        assert c in board.tasks ==> RowOk(board, c);
      }
    }
    RootKept(board, after, i);
  }

  lemma ParentAtArrival(board: Board, group: Id, parent: Id, subtasks: seq<Subtask>, status: Status)
    requires Arrival(board, group, parent, subtasks)
    requires status == Planning || status == Delegated
    ensures RootRowOk(SetStatus(InsertChildren(board, group, parent, subtasks), parent, status), parent)
  {
    var after := SetStatus(InsertChildren(board, group, parent, subtasks), parent, status);
    InsertedIds(board, group, parent, subtasks);
    forall c | IsChildOf(after, c, parent)
      ensures after.tasks[c].status == Pending
    {
      InsertedRow(board, group, parent, subtasks, c);
      assert !IsChildOf(board, c, parent);
      if c == parent {
        InsertedRow(board, group, parent, subtasks, parent);
      }
    }
    if HasChild(after, parent) {
      var c :| IsChildOf(after, c, parent);
      assert !AllChildrenCompleted(after, parent);
    }
  }

  lemma ChildrenArrive(board: Board, group: Id, parent: Id, subtasks: seq<Subtask>, status: Status)
    requires Arrival(board, group, parent, subtasks)
    requires status == Planning || status == Delegated
    requires Inv(SetStatus(InsertChildren(board, group, parent, subtasks), parent, status))
    ensures LifeInv(SetStatus(InsertChildren(board, group, parent, subtasks), parent, status))
  {
    var after := SetStatus(InsertChildren(board, group, parent, subtasks), parent, status);
    InsertedIds(board, group, parent, subtasks);
    FreshNotIssued(board, subtasks);
    assert RowOk(board, parent);
    InsertedRow(board, group, parent, subtasks, parent);
    ParentAtArrival(board, group, parent, subtasks, status);
    forall i | i in after.tasks
      ensures LifeRow(after, i)
    {
      InsertedRow(board, group, parent, subtasks, i);
      if i in board.tasks {
        assert RowOk(board, i) && LifeRow(board, i);
        if board.tasks[i].parent.Some? {
          InsertedRow(board, group, parent, subtasks, board.tasks[i].parent.value);
          assert RowOk(board, board.tasks[i].parent.value);
        } else if i != parent {
          OtherRootAtArrival(board, group, parent, subtasks, status, i);
        }
      }
    }
  }

  lemma InsertKeepsLife(board: Board, group: Id, status: Status, id: Id)
    requires LifeInv(board) && group in board.groups && id !in board.issued
    requires status == Planning || status == Discussing
    ensures LifeInv(Insert(board, group, None, status, id, None))
    ensures !HasChild(Insert(board, group, None, status, id, None), id)
  {
    var after := Insert(board, group, None, status, id, None);
    InsertKeepsInv(board, group, status, id);
    forall i | i in board.tasks
      ensures i != id && board.tasks[i].parent != Some(id)
    {
      assert RowOk(board, i);
      assert board.tasks[i].parent.Some? ==> RowOk(board, board.tasks[i].parent.value);
    }
    assert !HasChild(after, id);
    forall i | i in board.tasks
      ensures LifeRow(after, i)
    {
      assert LifeRow(board, i);
      if board.tasks[i].parent == None {
        assert forall c :: IsChildOf(after, c, i) <==> IsChildOf(board, c, i);
        RootKept(board, after, i);
      }
    }
  }

  lemma DropKeepsLife(board: Board, group: Id)
    requires LifeInv(board)
    ensures LifeInv(Drop(board, group))
  {
    var after := Drop(board, group);
    DropKeepsInv(board, group);
    forall i | i in after.tasks
      ensures LifeRow(after, i)
    {
      assert RowOk(board, i) && LifeRow(board, i);
      if board.tasks[i].parent == None {
        forall c
          ensures IsChildOf(after, c, i) <==> IsChildOf(board, c, i)
        {
          assert c in board.tasks ==> RowOk(board, c);
        }
        RootKept(board, after, i);
      }
    }
  }

  lemma GroupKeepsLife(board: Board, group: Id)
    requires LifeInv(board) && Inv(Apply(board, CreateGroup(group)))
    ensures LifeInv(Apply(board, CreateGroup(group)))
  {
    var after := Apply(board, CreateGroup(group));
    forall i | i in after.tasks
      ensures LifeRow(after, i)
    {
      assert LifeRow(board, i);
      if board.tasks[i].parent == None {
        assert forall c :: IsChildOf(after, c, i) <==> IsChildOf(board, c, i);
        RootKept(board, after, i);
      }
    }
  }

  lemma SubmitKeepsLife(board: Board, group: Id, id: Id, subtasks: seq<Subtask>)
    requires LifeInv(board) && group in board.groups && Fresh(board, SubmitTask(group, id, subtasks))
    ensures LifeInv(InsertChildren(Insert(board, group, None, Planning, id, None), group, id, subtasks))
  {
    var root := Insert(board, group, None, Planning, id, None);
    var after := InsertChildren(root, group, id, subtasks);
    InsertKeepsLife(board, group, Planning, id);
    InsertChildrenKeepsInv(root, group, id, subtasks);
    FreshNotIssued(root, subtasks);
    InsertedRow(root, group, id, subtasks, id);
    assert SetStatus(after, id, Planning) == after;
    ChildrenArrive(root, group, id, subtasks, Planning);
  }

  lemma DecideKeepsLife(board: Board, group: Id, id: Id, subtasks: seq<Subtask>)
    requires LifeInv(board) && Has(board, group, id) && Fresh(board, DecideDiscussion(group, id, subtasks))
    requires board.tasks[id].status == Discussing
    ensures LifeInv(Apply(board, DecideDiscussion(group, id, subtasks)))
  {
    assert LifeRow(board, id) && RowOk(board, id);
    ApplyKeepsInv(board, DecideDiscussion(group, id, subtasks));
    InsertChildrenKeepsInv(board, group, id, subtasks);
    ChildrenArrive(board, group, id, subtasks, Delegated);
  }

  lemma ApplyKeepsLife(board: Board, op: Op)
    requires LifeInv(board) && Follows(board, op)
    ensures LifeInv(Apply(board, op))
  {
    ApplyKeepsInv(board, op);
    if !Fresh(board, op) || Apply(board, op) == board {
    } else if op.CreateGroup? {
      GroupKeepsLife(board, op.group);
    } else if op.DeleteGroup? {
      DropKeepsLife(board, op.group);
    } else if op.StartDiscussion? {
      InsertKeepsLife(board, op.group, Discussing, op.id);
    } else if op.SubmitTask? {
      SubmitKeepsLife(board, op.group, op.id, op.subtasks);
    } else if op.DecideDiscussion? {
      DecideKeepsLife(board, op.group, op.id, op.subtasks);
    } else if op.VerifyTask? && op.passed {
      PassKeepsLife(board, op.id);
    } else {
      assert LifeRow(board, op.id) && RowOk(board, op.id);
      ChildMoves(board, Apply(board, op), op.id);
    }
  }

  lemma {:induction false} FollowedRunInv(ops: seq<Op>)
    requires FollowedRun(ops)
    ensures LifeInv(Run(ops))
  {
    if |ops| == 0 {
    } else {
      FollowedRunInv(ops[..|ops| - 1]);
      ApplyKeepsLife(Run(ops[..|ops| - 1]), ops[|ops| - 1]);
    }
  }

  /** In every such run a task that has children is completed exactly when all of them are. */
  lemma ParentCompletedIffChildrenAre(ops: seq<Op>, parent: Id)
    requires FollowedRun(ops)
    requires parent in Run(ops).tasks && HasChild(Run(ops), parent)
    ensures Run(ops).tasks[parent].status == Completed <==> AllChildrenCompleted(Run(ops), parent)
  {
    FollowedRunInv(ops);
    var c :| IsChildOf(Run(ops), c, parent);
    assert LifeRow(Run(ops), c) && LifeRow(Run(ops), parent);
  }

  // ----- Failed and completed children stay so -----

  predicate Terminal(task: Task) {
    task.parent.Some? && (task.status == Failed || task.status == Completed)
  }

  lemma TerminalStep(board: Board, op: Op, c: Id)
    requires LifeInv(board) && Follows(board, op)
    requires c in board.tasks && Terminal(board.tasks[c]) && c in Apply(board, op).tasks
    ensures Apply(board, op).tasks[c] == board.tasks[c]
  {
    assert RowOk(board, c) && LifeRow(board, c);
    if Fresh(board, op) && (op.SubmitTask? || op.DecideDiscussion?) && Apply(board, op) != board {
      var start := if op.SubmitTask? then Insert(board, op.group, None, Planning, op.id, None) else board;
      InsertedIds(start, op.group, op.id, op.subtasks);
      FreshNotIssued(board, op.subtasks);
      InsertedRow(start, op.group, op.id, op.subtasks, c);
    } else if op.VerifyTask? && op.passed && Has(board, op.group, op.id) {
      assert LifeRow(board, op.id);
    }
  }

  /** Once issued and gone, a row never comes back. */
  lemma GoneStaysGone(board: Board, op: Op, c: Id)
    requires Inv(board) && c in board.issued && c !in board.tasks
    ensures c in Apply(board, op).issued && c !in Apply(board, op).tasks
  {
    if Fresh(board, op) && (op.SubmitTask? || op.DecideDiscussion?) && Apply(board, op) != board {
      var start := if op.SubmitTask? then Insert(board, op.group, None, Planning, op.id, None) else board;
      InsertedIds(start, op.group, op.id, op.subtasks);
      FreshNotIssued(board, op.subtasks);
    }
  }

  lemma {:induction false} FollowedPrefix(ops: seq<Op>, more: seq<Op>)
    requires FollowedRun(ops + more)
    ensures FollowedRun(ops)
  {
    if |more| == 0 {
      assert ops + more == ops;
    } else {
      assert (ops + more)[..|ops + more| - 1] == ops + more[..|more| - 1];
      FollowedPrefix(ops, more[..|more| - 1]);
    }
  }

  lemma {:induction false} TerminalForever(ops: seq<Op>, more: seq<Op>, c: Id)
    requires FollowedRun(ops + more)
    requires c in Run(ops).tasks && Terminal(Run(ops).tasks[c])
    ensures var board := Run(ops + more);
            c in board.issued && (c in board.tasks ==> board.tasks[c] == Run(ops).tasks[c])
  {
    if |more| == 0 {
      assert ops + more == ops;
      RunInv(ops);
      assert RowOk(Run(ops), c);
    } else {
      var front := more[..|more| - 1];
      var before, last := Run(ops + front), more[|more| - 1];
      assert (ops + more)[..|ops + more| - 1] == ops + front;
      TerminalForever(ops, front, c);
      FollowedRunInv(ops + front);
      if c in before.tasks {
        assert RowOk(before, c);
        if c in Run(ops + more).tasks {
          TerminalStep(before, last, c);
        }
        ApplyIteration(before, last, c);
      } else {
        GoneStaysGone(before, last, c);
      }
    }
  }

  /** A failed child blocks its parent for good: as long as both rows exist, whatever follows, the
      child stays failed and the parent is not completed. */
  lemma FailedChildBlocks(ops: seq<Op>, more: seq<Op>, c: Id, parent: Id)
    requires FollowedRun(ops + more)
    requires IsChildOf(Run(ops), c, parent) && Run(ops).tasks[c].status == Failed
    requires c in Run(ops + more).tasks && parent in Run(ops + more).tasks
    ensures Run(ops + more).tasks[c].status == Failed
    ensures Run(ops + more).tasks[parent].status != Completed
  {
    TerminalForever(ops, more, c);
    assert IsChildOf(Run(ops + more), c, parent);
    ParentCompletedIffChildrenAre(ops + more, parent);
  }

  // ----- How long a task lives -----

  /** The operations that move the task itself. */
  ghost predicate LifeStepOf(board: Board, op: Op, id: Id) {
    (op.AssignTask? || op.CompleteTask? || op.VerifyTask?) && op.id == id && Has(board, op.group, id)
  }

  ghost function LifeSteps(ops: seq<Op>, id: Id): nat {
    if |ops| == 0 then 0
    else
      var front := ops[..|ops| - 1];
      LifeSteps(front, id) + if LifeStepOf(Run(front), ops[|ops| - 1], id) then 1 else 0
  }

  /** An upper bound on the lifecycle steps a child has left. */
  function StepsLeft(task: Task): int {
    match task.status
    case Pending => 1 + 2 * task.maxIterations
    case Executing => 2 * (task.maxIterations - task.iteration)
    case Verifying => 2 * (task.maxIterations - task.iteration) - 1
    case _ => 0
  }

  /** A child's row changes only by its own lifecycle steps. */
  lemma ChildRowStep(board: Board, op: Op, id: Id)
    requires LifeInv(board) && Follows(board, op)
    requires id in board.tasks && board.tasks[id].parent.Some? && id in Apply(board, op).tasks
    ensures !LifeStepOf(board, op, id) ==> Apply(board, op).tasks[id] == board.tasks[id]
    ensures LifeStepOf(board, op, id) ==>
              && Apply(board, op).tasks[id].parent == board.tasks[id].parent
              && StepsLeft(Apply(board, op).tasks[id]) < StepsLeft(board.tasks[id])
  {
    assert RowOk(board, id) && LifeRow(board, id);
    if LifeStepOf(board, op, id) {
    } else if Fresh(board, op) && (op.SubmitTask? || op.DecideDiscussion?) && Apply(board, op) != board {
      InsertionsKeepRow(board, op, id);
    } else if op.VerifyTask? && op.passed && Has(board, op.group, op.id) {
      assert LifeRow(board, op.id);
    }
  }

  lemma InsertionsKeepRow(board: Board, op: Op, id: Id)
    requires LifeInv(board) && Follows(board, op) && Fresh(board, op)
    requires op.SubmitTask? || op.DecideDiscussion?
    requires id in board.tasks && board.tasks[id].parent.Some? && id in Apply(board, op).tasks
    ensures Apply(board, op).tasks[id] == board.tasks[id]
  {
    assert RowOk(board, id) && LifeRow(board, id);
    if Apply(board, op) != board {
      var start := if op.SubmitTask? then Insert(board, op.group, None, Planning, op.id, None) else board;
      InsertedIds(start, op.group, op.id, op.subtasks);
      FreshNotIssued(board, op.subtasks);
      InsertedRow(start, op.group, op.id, op.subtasks, id);
    }
  }

  /** A child that was not there before is new and pending. */
  lemma NewChildRow(board: Board, op: Op, id: Id)
    requires LifeInv(board)
    requires id !in board.tasks && id in Apply(board, op).tasks && Apply(board, op).tasks[id].parent.Some?
    ensures id !in board.issued
    ensures Apply(board, op).tasks[id].status == Pending && Apply(board, op).tasks[id].maxIterations == MAX_ITERATIONS
  {
    ApplyIteration(board, op, id);
    if op.SubmitTask? || op.DecideDiscussion? {
      var start := if op.SubmitTask? then Insert(board, op.group, None, Planning, op.id, None) else board;
      InsertedIds(start, op.group, op.id, op.subtasks);
      InsertedRow(start, op.group, op.id, op.subtasks, id);
    }
  }

  /** A row keeps its parent. */
  lemma ParentFixed(board: Board, op: Op, id: Id)
    requires Inv(board) && id in board.tasks && id in Apply(board, op).tasks
    ensures Apply(board, op).tasks[id].parent == board.tasks[id].parent
  {
    assert RowOk(board, id);
    if Fresh(board, op) && (op.SubmitTask? || op.DecideDiscussion?) && Apply(board, op) != board {
      var start := if op.SubmitTask? then Insert(board, op.group, None, Planning, op.id, None) else board;
      InsertedIds(start, op.group, op.id, op.subtasks);
      FreshNotIssued(board, op.subtasks);
      InsertedRow(start, op.group, op.id, op.subtasks, id);
    }
  }

  /** Roots take no lifecycle steps. */
  lemma RootsTakeNoSteps(board: Board, op: Op, id: Id)
    requires LifeInv(board) && Follows(board, op) && LifeStepOf(board, op, id)
    ensures board.tasks[id].parent.Some?
  {
  }

  ghost predicate StepsBounded(ops: seq<Op>, id: Id) {
    var board := Run(ops);
    && (id !in board.issued ==> LifeSteps(ops, id) == 0)
    && (id in board.tasks ==>
          if board.tasks[id].parent.Some? then
            LifeSteps(ops, id) + StepsLeft(board.tasks[id]) <= 1 + 2 * MAX_ITERATIONS
          else
            LifeSteps(ops, id) == 0)
    && LifeSteps(ops, id) <= 1 + 2 * MAX_ITERATIONS
  }

  lemma StepsLeftNonNegative(board: Board, id: Id)
    requires LifeInv(board) && id in board.tasks && board.tasks[id].parent.Some?
    ensures StepsLeft(board.tasks[id]) >= 0
  {
  }

  /** In every such run each task takes at most 1 + 2 * max_iterations lifecycle steps. */
  lemma {:induction false} ChildStepsBounded(ops: seq<Op>, id: Id)
    requires FollowedRun(ops)
    ensures StepsBounded(ops, id)
  {
    if |ops| == 0 {
    } else {
      var front, last := ops[..|ops| - 1], ops[|ops| - 1];
      var before, after := Run(front), Run(ops);
      ChildStepsBounded(front, id);
      FollowedRunInv(front);
      FollowedRunInv(ops);
      ApplyIteration(before, last, id);
      if LifeStepOf(before, last, id) {
        RootsTakeNoSteps(before, last, id);
      }
      if id in before.tasks {
        assert RowOk(before, id);
        if before.tasks[id].parent.Some? {
          StepsLeftNonNegative(before, id);
        }
      }
      if id in after.tasks {
        assert RowOk(after, id);
        if id in before.tasks {
          ParentFixed(before, last, id);
        }
        if after.tasks[id].parent.Some? {
          StepsLeftNonNegative(after, id);
          if id in before.tasks {
            ChildRowStep(before, last, id);
          } else {
            NewChildRow(before, last, id);
          }
        }
      }
    }
  }

  // ----- Without the discipline -----

  /** One verification touches the task and its parent only: the cascade climbs a single level. */
  lemma CascadeClimbsOneLevel(board: Board, group: Id, id: Id, other: Id)
    requires Inv(board) && id in board.tasks && other in board.tasks
    requires other != id && board.tasks[id].parent != Some(other)
    ensures other in Apply(board, VerifyTask(group, id, true)).tasks
    ensures Apply(board, VerifyTask(group, id, true)).tasks[other] == board.tasks[other]
  {
  }

  lemma RunOneMore(ops: seq<Op>, op: Op)
    ensures Run(ops + [op]) == Apply(Run(ops), op)
  {
  }

  function FirstLevel(): seq<Op> {
    [CreateGroup("g"), StartDiscussion("g", "a"), DecideDiscussion("g", "a", [Subtask("b", None)])]
  }

  function SecondLevel(): seq<Op> {
    FirstLevel() + [DecideDiscussion("g", "b", [Subtask("c", None)])]
  }

  function Worked(): seq<Op> {
    SecondLevel() + [AssignTask("g", "c", "x")] + [CompleteTask("g", "c", "done")]
  }

  /** A run in which decide_discussion is used on a pending subtask. */
  function NestedRun(): seq<Op> {
    Worked() + [VerifyTask("g", "c", true)]
  }

  function NestedBoard(a: Status, b: Task): map<Id, Task> {
    map["a" := NewTask("g", None, a, None, 0), "b" := b]
  }

  lemma NestedFirstLevel(ops: seq<Op>)
    requires ops == [CreateGroup("g"), StartDiscussion("g", "a"), DecideDiscussion("g", "a", [Subtask("b", None)])]
    ensures Run(ops) == Board({"g"}, NestedBoard(Delegated, NewTask("g", Some("a"), Pending, None, 1)), {"a", "b"}, 2)
  {
    var o1, o2 := [ops[0]], [ops[0], ops[1]];
    assert [] + [ops[0]] == o1 && o1 + [ops[1]] == o2 && o2 + [ops[2]] == ops;
    RunOneMore([], ops[0]);
    RunOneMore(o1, ops[1]);
    RunOneMore(o2, ops[2]);
    OneChild(Run(o2), "g", "a", Subtask("b", None));
    assert Run(o2) == Board({"g"}, map["a" := NewTask("g", None, Discussing, None, 0)], {"a"}, 1);
  }

  lemma NestedSecondLevel(ops: seq<Op>, op: Op)
    requires Run(ops) == Board({"g"}, NestedBoard(Delegated, NewTask("g", Some("a"), Pending, None, 1)), {"a", "b"}, 2)
    requires op == DecideDiscussion("g", "b", [Subtask("c", None)])
    ensures Run(ops + [op]).tasks
         == NestedBoard(Delegated, NewTask("g", Some("a"), Delegated, None, 1))["c" := NewTask("g", Some("b"), Pending, None, 2)]
  {
    RunOneMore(ops, op);
    OneChild(Run(ops), "g", "b", Subtask("c", None));
  }

  /** Task a is open although its only child b is completed. */
  ghost predicate LeftOpen(board: Board) {
    && IsChildOf(board, "b", "a") && IsChildOf(board, "c", "b")
    && AllChildrenCompleted(board, "a") && board.tasks["b"].status == Completed
    && "a" in board.tasks && board.tasks["a"].status != Completed
  }

  /** decide_discussion does not check that the task is under discussion. Used on a pending subtask it
      builds a second level, and then the top task stays open although its only child completes. */
  lemma NestedDelegationStaysOpen()
    ensures LeftOpen(Run(NestedRun()))
  {
    NestedFirstLevel(FirstLevel());
    NestedSecondLevel(FirstLevel(), DecideDiscussion("g", "b", [Subtask("c", None)]));
    NestedWork(SecondLevel());
    NestedCompletion(Worked());
  }

  lemma NestedWork(ops: seq<Op>)
    requires Run(ops).tasks
          == NestedBoard(Delegated, NewTask("g", Some("a"), Delegated, None, 1))["c" := NewTask("g", Some("b"), Pending, None, 2)]
    ensures var tasks := Run(ops + [AssignTask("g", "c", "x")] + [CompleteTask("g", "c", "done")]).tasks;
            && tasks.Keys == {"a", "b", "c"}
            && tasks["a"] == Run(ops).tasks["a"] && tasks["b"] == Run(ops).tasks["b"]
            && tasks["c"].parent == Some("b") && tasks["c"].group == "g"
  {
    RunOneMore(ops, AssignTask("g", "c", "x"));
    RunOneMore(ops + [AssignTask("g", "c", "x")], CompleteTask("g", "c", "done"));
  }

  lemma NestedCompletion(ops: seq<Op>)
    requires var board := Run(ops);
             && board.tasks.Keys == {"a", "b", "c"} && Has(board, "g", "c")
             && board.tasks["a"] == NewTask("g", None, Delegated, None, 0)
             && board.tasks["b"] == NewTask("g", Some("a"), Delegated, None, 1)
             && board.tasks["c"].parent == Some("b")
    ensures LeftOpen(Run(ops + [VerifyTask("g", "c", true)]))
  {
    RunOneMore(ops, VerifyTask("g", "c", true));
    assert AllChildrenCompleted(SetStatus(Run(ops), "c", Completed), "b");
  }

  lemma OneChild(board: Board, group: Id, parent: Id, subtask: Subtask)
    ensures InsertChildren(board, group, parent, [subtask])
         == Insert(board, group, Some(parent), Pending, subtask.id, subtask.agent)
  {
  }
}
