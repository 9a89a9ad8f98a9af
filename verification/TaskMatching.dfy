/** src/api/ai_groups.py: exactly which calls, in any order, keep a parent completed just when its
    children are. */
module TaskMatching {
  import opened Options
  import opened TaskBoards
  import opened TaskLifecycle

  ghost predicate MatchedAt(board: Board, p: Id)
    requires p in board.tasks
  {
    HasChild(board, p) ==> (board.tasks[p].status == Completed <==> AllChildrenCompleted(board, p))
  }

  /** Every task with children is completed exactly when all of them are. */
  ghost predicate Matched(board: Board) {
    forall p :: p in board.tasks ==> MatchedAt(board, p)
  }

  // ----- The guard: what a caller can look up before the call -----

  ghost predicate ParentCompleted(board: Board, id: Id)
    requires id in board.tasks
  {
    var parent := board.tasks[id].parent;
    parent.Some? && parent.value in board.tasks && board.tasks[parent.value].status == Completed
  }

  ghost predicate UnfinishedSibling(board: Board, id: Id)
    requires id in board.tasks
  {
    exists c :: c in board.tasks && c != id && board.tasks[id].parent.Some?
                && board.tasks[c].parent == board.tasks[id].parent && board.tasks[c].status != Completed
  }

  /** For a call that gives the row a status other than completed. */
  ghost predicate ReopenKeeps(board: Board, id: Id)
    requires id in board.tasks
  {
    board.tasks[id].status == Completed ==> !HasChild(board, id) && !ParentCompleted(board, id)
  }

  ghost predicate DecideKeeps(board: Board, id: Id, subtasks: seq<Subtask>)
    requires id in board.tasks
  {
    board.tasks[id].status == Completed ==> !ParentCompleted(board, id) && (subtasks != [] || !HasChild(board, id))
  }

  /** For a passed verification: the cascade reaches the parent, but not the parent's parent. */
  ghost predicate PassKeeps(board: Board, id: Id)
    requires id in board.tasks
  {
    var parent := board.tasks[id].parent;
    || board.tasks[id].status == Completed
    || (!HasChild(board, id)
        && (|| parent == None || UnfinishedSibling(board, id)
            || (parent.value in board.tasks
                && (board.tasks[parent.value].parent == None || UnfinishedSibling(board, parent.value)))))
  }

  ghost predicate KeepsMatch(board: Board, op: Op) {
    if !Fresh(board, op) then true
    else
      match op
      case VerifyTask(group, id, passed) =>
        Has(board, group, id) ==> if passed then PassKeeps(board, id) else ReopenKeeps(board, id)
      case DecideDiscussion(group, id, subtasks) => Has(board, group, id) ==> DecideKeeps(board, id, subtasks)
      case AssignTask(group, id, _) => Has(board, group, id) ==> ReopenKeeps(board, id)
      case CompleteTask(group, id, _) => Has(board, group, id) ==> ReopenKeeps(board, id)
      case StartExecution(group, id, _) => Has(board, group, id) ==> ReopenKeeps(board, id)
      case ReviewTask(group, id, _) => Has(board, group, id) ==> ReopenKeeps(board, id)
      case FinishExecution(id, _) => id in board.tasks ==> ReopenKeeps(board, id)
      case ScoreTask(group, id, allScored) => Has(board, group, id) && allScored ==> ReopenKeeps(board, id)
      case AutoEvaluate(group, id) =>
        Has(board, group, id) && HasAgent(board.tasks[id]) ==> ReopenKeeps(board, id)
      case CreateGroup(_) => true
      case DeleteGroup(_) => true
      case SubmitTask(_, _, _) => true
      case StartDiscussion(_, _) => true
  }

  // ----- Families that a step leaves alone -----

  /** p and its children are there before and after, and as completed as before. */
  ghost predicate FamilyStays(board: Board, after: Board, p: Id) {
    && p in board.tasks && p in after.tasks
    && (after.tasks[p].status == Completed <==> board.tasks[p].status == Completed)
    && (forall c :: IsChildOf(after, c, p) <==> IsChildOf(board, c, p))
    && (forall c :: IsChildOf(board, c, p) && c in after.tasks ==>
                      (after.tasks[c].status == Completed <==> board.tasks[c].status == Completed))
  }

  lemma FamilyStaysMatched(board: Board, after: Board, p: Id)
    requires FamilyStays(board, after, p)
    ensures MatchedAt(after, p) <==> MatchedAt(board, p)
  {
    assert HasChild(after, p) <==> HasChild(board, p) by {
      if HasChild(after, p) {
        var c :| IsChildOf(after, c, p);
        assert IsChildOf(board, c, p);
      }
      if HasChild(board, p) {
        var c :| IsChildOf(board, c, p);
        assert IsChildOf(after, c, p);
      }
    }
    AllCompletedMeans(board, p);
    AllCompletedMeans(after, p);
  }

  lemma AllCompletedMeans(board: Board, p: Id)
    ensures AllChildrenCompleted(board, p) <==> forall c :: IsChildOf(board, c, p) ==> board.tasks[c].status == Completed
  {
    assert forall c :: c in board.tasks && board.tasks[c].parent == Some(p) <==> IsChildOf(board, c, p);
  }

  /** One row changes, and keeps its parent. */
  ghost predicate OneRow(board: Board, after: Board, id: Id) {
    && id in board.tasks && after.tasks.Keys == board.tasks.Keys
    && after.tasks == board.tasks[id := after.tasks[id]]
    && after.tasks[id].parent == board.tasks[id].parent
  }

  lemma OthersStay(board: Board, after: Board, id: Id, p: Id)
    requires Inv(board) && OneRow(board, after, id) && p in board.tasks
    requires p != id && board.tasks[id].parent != Some(p)
    ensures FamilyStays(board, after, p)
  {
  }

  lemma NotOwnParent(board: Board, id: Id)
    requires Inv(board) && id in board.tasks
    ensures board.tasks[id].parent != Some(id)
    ensures board.tasks[id].parent.Some? ==>
              var p := board.tasks[id].parent.value;
              p in board.tasks && IsChildOf(board, id, p) && board.tasks[p].parent != Some(id) && board.tasks[p].parent != Some(p)
  {
    assert RowOk(board, id);
    if board.tasks[id].parent.Some? {
      assert RowOk(board, board.tasks[id].parent.value);
    }
  }

  // ----- Reopening -----

  lemma SameDonenessStays(board: Board, after: Board, id: Id, p: Id)
    requires OneRow(board, after, id) && p in board.tasks
    requires after.tasks[id].status == Completed <==> board.tasks[id].status == Completed
    ensures FamilyStays(board, after, p)
  {
  }

  /** A completed row that reopens loses its match exactly when it has children, which are all completed. */
  lemma ReopenedRow(board: Board, after: Board, id: Id)
    requires Inv(board) && id in board.tasks && MatchedAt(board, id) && OneRow(board, after, id)
    requires board.tasks[id].status == Completed && after.tasks[id].status != Completed
    ensures MatchedAt(after, id) <==> !HasChild(board, id)
  {
    NotOwnParent(board, id);
    AllCompletedMeans(board, id);
    AllCompletedMeans(after, id);
    assert forall c :: IsChildOf(after, c, id) <==> IsChildOf(board, c, id);
    assert forall c :: IsChildOf(board, c, id) ==> after.tasks[c] == board.tasks[c];
    if HasChild(board, id) {
      var c :| IsChildOf(board, c, id);
      assert IsChildOf(after, c, id);
    }
  }

  lemma ReopenedParent(board: Board, after: Board, id: Id, p: Id)
    requires Inv(board) && IsChildOf(board, id, p) && p in board.tasks && OneRow(board, after, id)
    requires after.tasks[id].status != Completed
    ensures MatchedAt(after, p) <==> board.tasks[p].status != Completed
  {
    NotOwnParent(board, id);
    assert IsChildOf(after, id, p);
    AllCompletedMeans(after, p);
  }

  lemma ReopenIff(board: Board, after: Board, id: Id)
    requires Inv(board) && Matched(board) && OneRow(board, after, id)
    requires after.tasks[id].status != Completed
    ensures Matched(after) <==> ReopenKeeps(board, id)
  {
    NotOwnParent(board, id);
    if board.tasks[id].status == Completed {
      ReopenedRow(board, after, id);
      if board.tasks[id].parent.Some? {
        ReopenedParent(board, after, id, board.tasks[id].parent.value);
      }
    }
    forall p | p in board.tasks && (board.tasks[id].status != Completed || (p != id && board.tasks[id].parent != Some(p)))
      ensures MatchedAt(after, p)
    {
      if board.tasks[id].status != Completed {
        SameDonenessStays(board, after, id, p);
      } else {
        OthersStay(board, after, id, p);
      }
      FamilyStaysMatched(board, after, p);
    }
  }

  // ----- A passed verification -----

  lemma UnfinishedMeans(board: Board, id: Id, p: Id)
    requires IsChildOf(board, id, p)
    ensures AllChildrenCompleted(SetStatus(board, id, Completed), p) <==> !UnfinishedSibling(board, id)
  {
    var done := SetStatus(board, id, Completed);
    AllCompletedMeans(done, p);
    assert forall c :: IsChildOf(done, c, p) <==> IsChildOf(board, c, p);
    if UnfinishedSibling(board, id) {
      var c :| c in board.tasks && c != id && board.tasks[c].parent == board.tasks[id].parent
               && board.tasks[c].status != Completed;
      assert IsChildOf(done, c, p);
    } else {
      assert forall c :: IsChildOf(board, c, p) && c != id ==> board.tasks[c].status == Completed;
    }
  }

  /** A row that completes although it has children, one of which is open. */
  lemma CompletedTooEarly(board: Board, id: Id)
    requires Inv(board) && Matched(board) && id in board.tasks
    requires board.tasks[id].status != Completed && HasChild(board, id)
    ensures !Matched(Pass(board, id))
  {
    var after := Pass(board, id);
    NotOwnParent(board, id);
    AllCompletedMeans(board, id);
    AllCompletedMeans(after, id);
    assert MatchedAt(board, id);
    var c :| IsChildOf(board, c, id) && board.tasks[c].status != Completed;
    NotOwnParent(board, c);
    assert IsChildOf(after, c, id) && after.tasks[c] == board.tasks[c];
    assert after.tasks[id].status == Completed && HasChild(after, id);
    assert !MatchedAt(after, id);
  }

  lemma PassedAlone(board: Board, id: Id, p: Id)
    requires Inv(board) && Matched(board) && id in board.tasks && p in board.tasks
    requires !HasChild(board, id) && Pass(board, id) == SetStatus(board, id, Completed)
    requires board.tasks[id].parent == Some(p) ==> UnfinishedSibling(board, id)
    requires board.tasks[id].status != Completed
    ensures MatchedAt(Pass(board, id), p)
  {
    var after := Pass(board, id);
    NotOwnParent(board, id);
    assert MatchedAt(board, p);
    if board.tasks[id].parent == Some(p) {
      UnfinishedMeans(board, id, p);
      AllCompletedMeans(board, p);
    } else if p == id {
      assert forall c :: !IsChildOf(board, c, id);
      assert forall c :: IsChildOf(after, c, id) ==> IsChildOf(board, c, id);
    } else {
      OthersStay(board, after, id, p);
      FamilyStaysMatched(board, after, p);
    }
  }

  /** The cascade completes the parent, and the parent of the parent, if there is one, must not be due. */
  lemma CascadeIff(board: Board, id: Id, parent: Id)
    requires Inv(board) && Matched(board) && IsChildOf(board, id, parent) && parent in board.tasks
    requires board.tasks[id].status != Completed && !HasChild(board, id) && !UnfinishedSibling(board, id)
    ensures Matched(Pass(board, id)) <==> board.tasks[parent].parent == None || UnfinishedSibling(board, parent)
  {
    var done, after := SetStatus(board, id, Completed), Pass(board, id);
    NotOwnParent(board, id);
    NotOwnParent(board, parent);
    UnfinishedMeans(board, id, parent);
    AllCompletedMeans(board, parent);
    assert MatchedAt(board, parent);
    assert board.tasks[parent].status != Completed;
    assert after == SetStatus(done, parent, Completed);
    forall p | p in board.tasks && board.tasks[parent].parent != Some(p)
      ensures MatchedAt(after, p)
    {
      CascadeElsewhere(board, id, parent, p);
    }
    if board.tasks[parent].parent.Some? {
      CascadeAbove(board, id, parent, board.tasks[parent].parent.value);
    }
  }

  lemma CascadeElsewhere(board: Board, id: Id, parent: Id, p: Id)
    requires Inv(board) && Matched(board) && IsChildOf(board, id, parent) && parent in board.tasks && p in board.tasks
    requires !HasChild(board, id) && !UnfinishedSibling(board, id) && board.tasks[parent].parent != Some(p)
    ensures MatchedAt(SetStatus(SetStatus(board, id, Completed), parent, Completed), p)
  {
    var after := SetStatus(SetStatus(board, id, Completed), parent, Completed);
    NotOwnParent(board, id);
    assert MatchedAt(board, p);
    AllCompletedMeans(after, p);
    assert forall c :: IsChildOf(after, c, p) <==> IsChildOf(board, c, p);
    if p == parent {
      UnfinishedMeans(board, id, parent);
      AllCompletedMeans(SetStatus(board, id, Completed), parent);
      assert forall c :: IsChildOf(after, c, parent) ==> after.tasks[c] == SetStatus(board, id, Completed).tasks[c];
    } else if p == id {
      assert forall c :: !IsChildOf(board, c, id);
    } else {
      assert FamilyStays(board, after, p);
      FamilyStaysMatched(board, after, p);
    }
  }

  lemma CascadeAbove(board: Board, id: Id, parent: Id, top: Id)
    requires Inv(board) && Matched(board) && IsChildOf(board, id, parent) && IsChildOf(board, parent, top)
    requires top in board.tasks && board.tasks[parent].status != Completed
    ensures MatchedAt(SetStatus(SetStatus(board, id, Completed), parent, Completed), top) <==> UnfinishedSibling(board, parent)
  {
    var after := SetStatus(SetStatus(board, id, Completed), parent, Completed);
    NotOwnParent(board, id);
    NotOwnParent(board, parent);
    assert MatchedAt(board, top);
    AllCompletedMeans(board, top);
    AllCompletedMeans(after, top);
    assert IsChildOf(after, parent, top);
    assert forall c :: IsChildOf(after, c, top) <==> IsChildOf(board, c, top);
    assert forall c :: IsChildOf(board, c, top) && c != parent ==> after.tasks[c] == board.tasks[c];
  }

  lemma PassIff(board: Board, id: Id)
    requires Inv(board) && Matched(board) && id in board.tasks
    ensures Matched(Pass(board, id)) <==> PassKeeps(board, id)
  {
    var done := SetStatus(board, id, Completed);
    var parent := board.tasks[id].parent;
    NotOwnParent(board, id);
    if board.tasks[id].status == Completed {
      assert done == board;
      if parent.Some? {
        assert MatchedAt(board, parent.value);
        assert Pass(board, id) == board;
      }
    } else if HasChild(board, id) {
      CompletedTooEarly(board, id);
    } else if parent.Some? && !UnfinishedSibling(board, id) {
      CascadeIff(board, id, parent.value);
    } else {
      if parent.Some? {
        UnfinishedMeans(board, id, parent.value);
      }
      forall p | p in board.tasks
        ensures MatchedAt(Pass(board, id), p)
      {
        PassedAlone(board, id, p);
      }
    }
  }

  // ----- Calls that bring new rows, or take some away -----

  /** Ids that are not issued have no row and no children. */
  lemma NotIssued(board: Board, id: Id)
    requires Inv(board) && id !in board.issued
    ensures id !in board.tasks && !HasChild(board, id)
  {
    forall x | x in board.tasks
      ensures x in board.issued && (board.tasks[x].parent.Some? ==> board.tasks[x].parent.value in board.tasks)
    {
      assert RowOk(board, x);
    }
  }

  lemma InsertMatched(board: Board, group: Id, status: Status, id: Id)
    requires Inv(board) && Matched(board) && id !in board.issued
    ensures var after := Insert(board, group, None, status, id, None); Matched(after) && !HasChild(after, id)
  {
    var after := Insert(board, group, None, status, id, None);
    NotIssued(board, id);
    assert forall c, p :: p in board.tasks ==> (IsChildOf(after, c, p) <==> IsChildOf(board, c, p));
    assert forall c :: IsChildOf(after, c, id) ==> IsChildOf(board, c, id);
    forall p | p in after.tasks
      ensures MatchedAt(after, p)
    {
      if p != id {
        assert FamilyStays(board, after, p);
        FamilyStaysMatched(board, after, p);
      }
    }
  }

  /** After children have arrived under `parent`, the rows that were there have their old families, but
      for the parent, and the new ones have none. */
  lemma ArrivalFamilies(board: Board, group: Id, parent: Id, subtasks: seq<Subtask>, p: Id)
    requires Inv(board) && FreshIds(board, subtasks) && parent in board.tasks && p != parent
    requires p in InsertChildren(board, group, parent, subtasks).tasks
    ensures if p in board.tasks then FamilyStays(board, InsertChildren(board, group, parent, subtasks), p)
            else !HasChild(InsertChildren(board, group, parent, subtasks), p)
  {
    var after := InsertChildren(board, group, parent, subtasks);
    InsertedIds(board, group, parent, subtasks);
    FreshNotIssued(board, subtasks);
    InsertedRow(board, group, parent, subtasks, p);
    forall c
      ensures IsChildOf(after, c, p) <==> IsChildOf(board, c, p)
      ensures IsChildOf(board, c, p) ==> after.tasks[c] == board.tasks[c]
    {
      if c in after.tasks {
        InsertedRow(board, group, parent, subtasks, c);
        assert c in board.tasks ==> RowOk(board, c);
      }
    }
    if p !in board.tasks {
      NotIssued(board, p);
    }
  }

  lemma ArrivalParent(board: Board, group: Id, parent: Id, subtasks: seq<Subtask>)
    requires Inv(board) && FreshIds(board, subtasks) && parent in board.tasks
    ensures var after := InsertChildren(board, group, parent, subtasks);
            && parent in after.tasks && after.tasks[parent] == board.tasks[parent]
            && (HasChild(after, parent) <==> HasChild(board, parent) || subtasks != [])
            && (subtasks != [] ==> !AllChildrenCompleted(after, parent))
            && (subtasks == [] ==> after == board)
  {
    var after := InsertChildren(board, group, parent, subtasks);
    InsertedIds(board, group, parent, subtasks);
    FreshNotIssued(board, subtasks);
    assert RowOk(board, parent);
    InsertedRow(board, group, parent, subtasks, parent);
    if subtasks != [] {
      ChildrenAsGiven(board, group, parent, subtasks, 0);
      assert IsChildOf(after, subtasks[0].id, parent);
    }
  }

  /** decide_discussion: its new children are pending, and its row is completed no more. */
  lemma DecideIff(board: Board, group: Id, id: Id, subtasks: seq<Subtask>)
    requires Inv(board) && Matched(board) && Has(board, group, id) && FreshIds(board, subtasks)
    ensures Matched(Apply(board, DecideDiscussion(group, id, subtasks))) <==> DecideKeeps(board, id, subtasks)
  {
    var filled := InsertChildren(board, group, id, subtasks);
    ArrivalParent(board, group, id, subtasks);
    assert RowOk(board, id);
    InsertChildrenKeepsInv(board, group, id, subtasks);
    var after := SetStatus(filled, id, Delegated);
    assert after == Apply(board, DecideDiscussion(group, id, subtasks));
    forall p | p in filled.tasks && p != id
      ensures MatchedAt(filled, p)
    {
      ArrivalFamilies(board, group, id, subtasks, p);
      if p in board.tasks {
        FamilyStaysMatched(board, filled, p);
      }
    }
    DecidedRow(board, filled, id, subtasks);
    DecidedOthers(board, filled, group, id, subtasks);
  }

  lemma DecidedRow(board: Board, filled: Board, id: Id, subtasks: seq<Subtask>)
    requires Inv(board) && Inv(filled) && id in board.tasks && id in filled.tasks && MatchedAt(board, id)
    requires filled.tasks[id] == board.tasks[id]
    requires HasChild(filled, id) <==> HasChild(board, id) || subtasks != []
    requires subtasks != [] ==> !AllChildrenCompleted(filled, id)
    requires subtasks == [] ==> filled == board
    ensures MatchedAt(SetStatus(filled, id, Delegated), id) <==>
              (board.tasks[id].status == Completed ==> subtasks != [] || !HasChild(board, id))
  {
    var after := SetStatus(filled, id, Delegated);
    NotOwnParent(filled, id);
    AllCompletedMeans(filled, id);
    AllCompletedMeans(after, id);
    assert forall c :: IsChildOf(after, c, id) <==> IsChildOf(filled, c, id);
    assert forall c :: IsChildOf(filled, c, id) ==> after.tasks[c] == filled.tasks[c];
    if HasChild(filled, id) {
      var c :| IsChildOf(filled, c, id);
      assert IsChildOf(after, c, id);
    }
  }

  lemma DecidedOthers(board: Board, filled: Board, group: Id, id: Id, subtasks: seq<Subtask>)
    requires Inv(board) && Inv(filled) && Has(board, group, id) && id in filled.tasks
    requires FreshIds(board, subtasks) && filled == InsertChildren(board, group, id, subtasks)
    requires filled.tasks[id] == board.tasks[id]
    requires forall p :: p in filled.tasks && p != id ==> MatchedAt(filled, p)
    ensures (forall p :: p in filled.tasks && p != id ==> MatchedAt(SetStatus(filled, id, Delegated), p)) <==>
              !(board.tasks[id].status == Completed && ParentCompleted(board, id))
  {
    var after := SetStatus(filled, id, Delegated);
    NotOwnParent(filled, id);
    NotOwnParent(board, id);
    if board.tasks[id].parent.Some? {
      var parent := board.tasks[id].parent.value;
      InsertedIds(board, group, id, subtasks);
      FreshNotIssued(board, subtasks);
      assert RowOk(board, parent);
      InsertedRow(board, group, id, subtasks, parent);
      ReopenedParent(filled, after, id, parent);
    }
    forall p | p in filled.tasks && p != id && (filled.tasks[id].status != Completed || filled.tasks[id].parent != Some(p))
      ensures MatchedAt(after, p)
    {
      if filled.tasks[id].status != Completed {
        SameDonenessStays(filled, after, id, p);
      } else {
        OthersStay(filled, after, id, p);
      }
      FamilyStaysMatched(filled, after, p);
    }
  }

  lemma SubmitMatched(board: Board, group: Id, id: Id, subtasks: seq<Subtask>)
    requires Inv(board) && Matched(board) && group in board.groups && Fresh(board, SubmitTask(group, id, subtasks))
    ensures Matched(InsertChildren(Insert(board, group, None, Planning, id, None), group, id, subtasks))
  {
    var root := Insert(board, group, None, Planning, id, None);
    var after := InsertChildren(root, group, id, subtasks);
    InsertMatched(board, group, Planning, id);
    InsertKeepsInv(board, group, Planning, id);
    ArrivalParent(root, group, id, subtasks);
    forall p | p in after.tasks
      ensures MatchedAt(after, p)
    {
      if p != id {
        ArrivalFamilies(root, group, id, subtasks, p);
        if p in root.tasks {
          FamilyStaysMatched(root, after, p);
        }
      }
    }
  }

  lemma DropMatched(board: Board, group: Id)
    requires Inv(board) && Matched(board)
    ensures Matched(Drop(board, group))
  {
    var after := Drop(board, group);
    forall p | p in after.tasks
      ensures MatchedAt(after, p)
    {
      forall c
        ensures IsChildOf(after, c, p) <==> IsChildOf(board, c, p)
      {
        assert c in board.tasks ==> RowOk(board, c);
      }
      assert FamilyStays(board, after, p);
      FamilyStaysMatched(board, after, p);
    }
  }

  lemma SameRowsMatched(board: Board, after: Board)
    requires Matched(board) && after.tasks == board.tasks
    ensures Matched(after)
  {
    forall p | p in after.tasks
      ensures MatchedAt(after, p)
    {
      assert FamilyStays(board, after, p);
      FamilyStaysMatched(board, after, p);
    }
  }

  // ----- Every call -----

  /** For every call in every matched state: the state after it is matched if and only if the guard
      holds. */
  lemma MatchedIff(board: Board, op: Op)
    requires Inv(board) && Matched(board)
    ensures Matched(Apply(board, op)) <==> KeepsMatch(board, op)
  {
    var after := Apply(board, op);
    if !Fresh(board, op) {
    } else if op.SubmitTask? {
      if op.group in board.groups {
        SubmitMatched(board, op.group, op.id, op.subtasks);
      }
    } else if op.StartDiscussion? {
      if op.group in board.groups {
        InsertMatched(board, op.group, Discussing, op.id);
      }
    } else if op.DeleteGroup? {
      DropMatched(board, op.group);
    } else if op.CreateGroup? {
      SameRowsMatched(board, after);
    } else if op.DecideDiscussion? {
      if Has(board, op.group, op.id) {
        DecideIff(board, op.group, op.id, op.subtasks);
      }
    } else if op.VerifyTask? && op.passed {
      if Has(board, op.group, op.id) {
        PassIff(board, op.id);
      }
    } else if Reopens(board, op) {
      ReopenIff(board, after, op.id);
    }
  }

  /** The calls that find a row and give it a status other than completed. */
  ghost predicate Reopens(board: Board, op: Op) {
    match op
    case VerifyTask(group, id, passed) => Has(board, group, id) && !passed
    case AssignTask(group, id, _) => Has(board, group, id)
    case CompleteTask(group, id, _) => Has(board, group, id)
    case StartExecution(group, id, _) => Has(board, group, id)
    case ReviewTask(group, id, _) => Has(board, group, id)
    case FinishExecution(id, _) => id in board.tasks
    case ScoreTask(group, id, allScored) => Has(board, group, id) && allScored
    case AutoEvaluate(group, id) => Has(board, group, id) && HasAgent(board.tasks[id])
    case _ => false
  }

  // ----- Every run -----

  ghost predicate AlwaysMatched(ops: seq<Op>) {
    Matched(Run(ops)) && (|ops| > 0 ==> AlwaysMatched(ops[..|ops| - 1]))
  }

  ghost predicate AllKeep(ops: seq<Op>) {
    |ops| > 0 ==> AllKeep(ops[..|ops| - 1]) && KeepsMatch(Run(ops[..|ops| - 1]), ops[|ops| - 1])
  }

  /** A run is matched all the way exactly when each of its calls met the guard. */
  lemma {:induction false} AlwaysMatchedIff(ops: seq<Op>)
    ensures AlwaysMatched(ops) <==> AllKeep(ops)
  {
    if |ops| == 0 {
      assert Run(ops) == EMPTY;
    } else {
      var front := ops[..|ops| - 1];
      AlwaysMatchedIff(front);
      RunInv(front);
      if AlwaysMatched(front) {
        MatchedIff(Run(front), ops[|ops| - 1]);
      }
    }
  }

  lemma LifeMatched(board: Board)
    requires LifeInv(board)
    ensures Matched(board)
  {
    forall p | p in board.tasks
      ensures MatchedAt(board, p)
    {
      if HasChild(board, p) {
        var c :| IsChildOf(board, c, p);
        assert LifeRow(board, c) && LifeRow(board, p);
      }
    }
  }

  /** A caller that follows the lifecycle meets the guard with every call. */
  lemma FollowingKeeps(ops: seq<Op>, op: Op)
    requires FollowedRun(ops) && Follows(Run(ops), op)
    ensures KeepsMatch(Run(ops), op)
  {
    FollowedRunInv(ops);
    ApplyKeepsLife(Run(ops), op);
    LifeMatched(Run(ops));
    LifeMatched(Apply(Run(ops), op));
    MatchedIff(Run(ops), op);
  }
}
