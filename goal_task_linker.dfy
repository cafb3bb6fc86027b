/**
 * Linking tasks to goals: a task is linked by taking the goal's id as its
 * `goalId`, and a goal lists every task carrying its id.
 */
module GoalTaskLinker {
  import opened Text
  import Tasks
  import Goals

  /** linkTaskToGoal: a task given the goal's id, every other field as it was. */
  function LinkTaskToGoal(goal: Goals.Goal, task: Tasks.Task): (r: Tasks.Task)
    ensures r.goalId == goal.id
    ensures r.id == task.id && r.title == task.title && r.status == task.status
    ensures r.weeklySlot == task.weeklySlot && r.notes == task.notes
  {
    task.(goalId := goal.id)
  }

  /** Linking twice to the same goal is linking once; linking to a second goal overrides the first. */
  lemma LinkIdempotent(g: Goals.Goal, h: Goals.Goal, task: Tasks.Task)
    ensures LinkTaskToGoal(g, LinkTaskToGoal(g, task)) == LinkTaskToGoal(g, task)
    ensures LinkTaskToGoal(h, LinkTaskToGoal(g, task)) == LinkTaskToGoal(h, task)
  {
  }

  /** tasksForGoal: every task carrying the goal's id, in list order. */
  function TasksForGoal(tasks: seq<Tasks.Task>, goalId: String): (r: seq<Tasks.Task>)
    ensures |r| <= |tasks|
    ensures forall i :: 0 <= i < |r| ==> r[i].goalId == goalId
  {
    if tasks == [] then []
    else
      var t := tasks[|tasks| - 1];
      TasksForGoal(tasks[..|tasks| - 1], goalId) + (if t.goalId == goalId then [t] else [])
  }

  /** A task is listed for a goal exactly as often as it occurs with that goal's id. */
  lemma {:induction false} TasksForGoalCounts(tasks: seq<Tasks.Task>, goalId: String, x: Tasks.Task)
    ensures multiset(TasksForGoal(tasks, goalId))[x] == if x.goalId == goalId then multiset(tasks)[x] else 0
  {
    if tasks != [] {
      var n := |tasks| - 1;
      TasksForGoalCounts(tasks[..n], goalId, x);
      assert tasks == tasks[..n] + [tasks[n]];
    }
  }

  /** Listing two lists one after the other is listing each in turn. */
  lemma {:induction false} TasksForGoalAppend(a: seq<Tasks.Task>, b: seq<Tasks.Task>, goalId: String)
    ensures TasksForGoal(a + b, goalId) == TasksForGoal(a, goalId) + TasksForGoal(b, goalId)
  {
    if b != [] {
      var n := |b| - 1;
      TasksForGoalAppend(a, b[..n], goalId);
      assert (a + b)[..|a + b| - 1] == a + b[..n];
    } else {
      assert a + b == a;
    }
  }

  /** A goal's tasks keep the order they have in the whole list. */
  lemma {:induction false} TasksForGoalInOrder(tasks: seq<Tasks.Task>, goalId: String)
    ensures Subsequence(TasksForGoal(tasks, goalId), tasks)
  {
    if tasks != [] {
      var n := |tasks| - 1;
      TasksForGoalInOrder(tasks[..n], goalId);
      var r := TasksForGoal(tasks, goalId);
      var init := TasksForGoal(tasks[..n], goalId);
      if tasks[n].goalId == goalId {
        assert r[..|r| - 1] == init;
      } else {
        assert r == init;
      }
    }
  }

  /** Linking a task to a goal lists it among that goal's tasks. */
  lemma LinkedIsListed(g: Goals.Goal, tasks: seq<Tasks.Task>, i: nat)
    requires i < |tasks|
    ensures LinkTaskToGoal(g, tasks[i]) in TasksForGoal(tasks[i := LinkTaskToGoal(g, tasks[i])], g.id)
  {
    var linked := tasks[i := LinkTaskToGoal(g, tasks[i])];
    TasksForGoalCounts(linked, g.id, linked[i]);
    assert linked[i] in multiset(linked);
  }
}
