/** The task graph store: its methods change one row each and are proved to perform the transactions of TaskSpec. */
module TaskGraph {
  import opened Wrappers
  import Spec = TaskSpec
  import opened TaskSpec

  class TaskGraph {
    var tasks: map<TaskId, Task>
    var order: seq<TaskId>

    ghost function Contents(): Graph
      reads this
    {
      Graph(tasks, order)
    }

    constructor ()
      ensures Contents() == EMPTY_GRAPH
    {
      tasks, order := map[], [];
    }

    method Create(id: TaskId, subject: string, blockedBy: seq<TaskId>) returns (ok: bool)
      modifies this
      ensures (Contents(), ok) == CreateTask(old(Contents()), id, subject, blockedBy)
    {
      ok := id !in tasks;
      if ok {
        tasks := tasks[id := Task(subject, blockedBy, Pending, None, None, None, None, 1)];
        order := order + [id];
      }
    }

    method DependencyProblems(ids: seq<TaskId>) returns (blocked: seq<TaskId>, missing: seq<TaskId>)
      ensures blocked == Blocked(tasks, ids) && missing == Missing(tasks, ids)
    {
      blocked, missing := [], [];
      for i := 0 to |ids|
        invariant blocked == Blocked(tasks, ids[..i]) && missing == Missing(tasks, ids[..i])
      {
        assert ids[..i + 1][..i] == ids[..i];
        if ids[i] !in tasks {
          missing := missing + [ids[i]];
        } else if tasks[ids[i]].status != Completed {
          blocked := blocked + [ids[i]];
        }
      }
      assert ids[..|ids|] == ids;
    }

    method ClaimTask(id: TaskId, owner: string) returns (claim: Claim)
      modifies this
      ensures (Contents(), claim) == Spec.ClaimTask(old(Contents()), id, owner)
    {
      if id !in tasks {
        return Unknown;
      }
      var task := tasks[id];
      if task.status != Pending {
        return NotPending(task.status);
      }
      var blocked, missing := DependencyProblems(task.blockedBy);
      if blocked != [] || missing != [] {
        return Problems(blocked, missing);
      }
      tasks := tasks[id := task.(status := InProgress, owner := Some(owner), version := task.version + 1)];
      return Claimed;
    }

    method Transition(
      id: TaskId, expected: set<TaskStatus>, status: TaskStatus,
      owner: Option<string>, run: Option<RunRef>, trigger: Option<string>, error: Option<string>) returns (ok: bool)
      modifies this
      ensures (Contents(), ok) == Spec.Transition(old(Contents()), id, expected, status, owner, run, trigger, error)
    {
      if expected == {} || id !in tasks || tasks[id].status !in expected {
        return false;
      }
      var task := tasks[id].(status := status, version := tasks[id].version + 1);
      if owner.Some? {
        task := task.(owner := owner);
      }
      if run.Some? {
        task := task.(run := run);
      }
      if trigger.Some? {
        task := task.(trigger := trigger);
      }
      if error.Some? {
        task := task.(error := Some(Clip(error.value)));
      }
      tasks := tasks[id := task];
      return true;
    }

    method BindRun(id: TaskId, run: RunRef, trigger: string) returns (ok: bool)
      modifies this
      ensures (Contents(), ok) == Spec.BindRun(old(Contents()), id, run, trigger)
    {
      ok := id in tasks && tasks[id].status == InProgress && (tasks[id].run.None? || tasks[id].run == Some(run));
      if ok {
        tasks := tasks[id := tasks[id].(run := Some(run), trigger := Some(trigger), version := tasks[id].version + 1)];
      }
    }

    method FindTaskByRun(run: RunRef) returns (id: Option<TaskId>)
      ensures id == FindByRun(tasks, order, run)
    {
      var i := 0;
      while i < |order|
        invariant 0 <= i <= |order|
        invariant FindByRun(tasks, order, run) == FindByRun(tasks, order[i..], run)
      {
        if order[i] in tasks && tasks[order[i]].run == Some(run) {
          return Some(order[i]);
        }
        i := i + 1;
      }
      return None;
    }

    method ResetForTrigger(id: TaskId, trigger: string) returns (ok: bool)
      modifies this
      ensures (Contents(), ok) == Spec.ResetForTrigger(old(Contents()), id, trigger)
    {
      ok := id in tasks && tasks[id].status == Completed && (tasks[id].trigger.None? || tasks[id].trigger.value != trigger);
      if ok {
        tasks := tasks[id := tasks[id].(status := Pending, owner := None, run := None, trigger := Some(trigger),
                                        error := None, version := tasks[id].version + 1)];
      }
    }
  }
}
