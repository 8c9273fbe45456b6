/**
 Any interleaving of the transactions of the task service. Reconciliation reads a task by its run and updates it later,
 guarded only by the status it read.
 */
module TaskHistory {
  import opened Wrappers
  import opened TaskSpec

  datatype Step =
    | Add(id: TaskId, subject: string, blockedBy: seq<TaskId>)
    | Take(id: TaskId, owner: string)
    | Bind(id: TaskId, run: RunRef, trigger: string)
    | Reset(id: TaskId, trigger: string)
    | Succeed(id: TaskId)
    | Park(id: TaskId)
    | Break(id: TaskId, boundRun: Option<RunRef>, boundTrigger: Option<string>, cause: string)
    | Resume(id: TaskId, owner: string)
    | Pause(id: TaskId)
    | End(id: TaskId, failed: bool, error: Option<string>)
    | LookUp(worker: nat, run: RunRef)
    | Reconcile(worker: nat, target: TaskStatus, error: Option<string>)

  /** What a reconciliation read. */
  datatype Snapshot = Snapshot(id: TaskId, status: TaskStatus)

  /** `done` lists the tasks in the order in which they first completed; `started` holds those ever claimed. */
  datatype State = State(graph: Graph, seen: map<nat, Snapshot>, done: seq<TaskId>, started: set<TaskId>)

  /** A reconciled task takes the status of its run, which is never pending. */
  function Move(g: Graph, seen: map<nat, Snapshot>, step: Step): Graph {
    match step
    case Add(id, subject, blockedBy) => CreateTask(g, id, subject, blockedBy).0
    case Take(id, owner) => ClaimTask(g, id, owner).0
    case Bind(id, run, trigger) => BindRun(g, id, run, trigger).0
    case Reset(id, trigger) => ResetForTrigger(g, id, trigger).0
    case Succeed(id) => Transition(g, id, {InProgress}, Completed, None, None, None, None).0
    case Park(id) => Transition(g, id, {InProgress}, Paused, None, None, None, None).0
    case Break(id, run, trigger, error) => Transition(g, id, {InProgress}, Interrupted, None, run, trigger, Some(error)).0
    case Resume(id, owner) => Transition(g, id, {Interrupted, Paused}, InProgress, Some(owner), None, None, None).0
    case Pause(id) => Transition(g, id, {InProgress, Interrupted}, Paused, None, None, None, None).0
    case End(id, failed, error) =>
      Transition(g, id, Unended(), if failed then Failed else Cancelled,
                 None, None, None, error).0
    case LookUp(_, _) => g
    case Reconcile(worker, target, error) =>
      if worker !in seen || target == Pending || seen[worker].status == target then g
      else Transition(g, seen[worker].id, {seen[worker].status}, target, None, None, None, error).0
  }

  /** The task a step is about. */
  function Subject(s: State, step: Step): Option<TaskId> {
    match step
    case LookUp(_, _) => None
    case Reconcile(worker, _, _) => if worker in s.seen then Some(s.seen[worker].id) else None
    case _ => Some(step.id)
  }

  predicate Completes(s: State, next: Graph, id: TaskId) {
    id in next.tasks && next.tasks[id].status == Completed && id !in s.done
  }

  function Next(s: State, step: Step): State {
    var graph := Move(s.graph, s.seen, step);
    var id := Subject(s, step);
    var found := if step.LookUp? then FindByRun(s.graph.tasks, s.graph.order, step.run) else None;
    State(graph,
          if found.Some? then s.seen[step.worker := Snapshot(found.value, s.graph.tasks[found.value].status)] else s.seen,
          if id.Some? && Completes(s, graph, id.value) then s.done + [id.value] else s.done,
          if step.Take? && ClaimTask(s.graph, step.id, step.owner).1 == Claimed then s.started + {step.id} else s.started)
  }

  function Run(steps: seq<Step>): State {
    if steps == [] then State(EMPTY_GRAPH, map[], [], {}) else Next(Run(steps[..|steps| - 1]), steps[|steps| - 1])
  }

  /******* The invariant *******/

  predicate Settled(s: State, id: TaskId) {
    id in s.graph.tasks && forall d :: d in s.graph.tasks[id].blockedBy ==> d in s.done
  }

  /** A row that was ever claimed shows it: by its status, its run, or a snapshot taken of it. */
  predicate Begun(task: Task) {
    task.run.Some? || task.status == InProgress || task.status == Completed || task.status == Paused || task.status == Interrupted
  }

  predicate EverBegun(s: State) {
    && (forall id :: id in s.started ==> Settled(s, id))
    && (forall id :: id in s.graph.tasks && Begun(s.graph.tasks[id]) ==> id in s.started)
    && (forall w :: w in s.seen ==> s.seen[w].id in s.started)
  }

  /** The completed are listed, once each, after their dependencies. */
  ghost predicate Topological(s: State) {
    && (forall id :: id in s.graph.tasks && s.graph.tasks[id].status == Completed ==> id in s.done)
    && (forall id :: id in s.done ==> id in s.started)
    && (forall i, j :: 0 <= i < j < |s.done| ==> s.done[i] != s.done[j])
    && (forall i, d {:trigger DependsAt(s, i, d)} :: 0 <= i < |s.done| && DependsAt(s, i, d) ==> d in s.done[..i])
  }

  predicate DependsAt(s: State, i: nat, d: TaskId) {
    i < |s.done| && s.done[i] in s.graph.tasks && d in s.graph.tasks[s.done[i]].blockedBy
  }

  ghost predicate Sound(s: State) {
    EverBegun(s) && Topological(s)
  }

  /** One transaction changes one row, never its dependencies, and reaches a begun status only from one. */
  lemma RowsChangeOneByOne(s: State, step: Step, id: TaskId)
    requires id in Move(s.graph, s.seen, step).tasks
    ensures id in s.graph.tasks ==>
              Move(s.graph, s.seen, step).tasks[id].blockedBy == s.graph.tasks[id].blockedBy
    ensures Subject(s, step) != Some(id) ==>
              id in s.graph.tasks && Move(s.graph, s.seen, step).tasks[id] == s.graph.tasks[id]
    ensures id !in s.graph.tasks ==> Move(s.graph, s.seen, step).tasks[id].status == Pending
    ensures Begun(Move(s.graph, s.seen, step).tasks[id]) ==>
              || (id in s.graph.tasks && Begun(s.graph.tasks[id]))
              || step.Reconcile?
              || (step == Take(id, step.owner) && ClaimTask(s.graph, id, step.owner).1 == Claimed)
  {
  }

  lemma TasksStay(s: State, step: Step, id: TaskId)
    requires id in s.graph.tasks
    ensures id in Move(s.graph, s.seen, step).tasks
  {
  }

  lemma SettledStays(s: State, step: Step, id: TaskId)
    requires Settled(s, id)
    ensures Settled(Next(s, step), id)
  {
    TasksStay(s, step, id);
    RowsChangeOneByOne(s, step, id);
  }

  /** A claim is granted only after the dependencies were listed as completed. */
  lemma ClaimSettles(s: State, step: Step)
    requires Sound(s) && step.Take? && ClaimTask(s.graph, step.id, step.owner).1 == Claimed
    ensures Settled(Next(s, step), step.id)
  {
    ClaimedExactlyWhen(s.graph, step.id, step.owner);
    assert Settled(s, step.id);
    SettledStays(s, step, step.id);
  }

  lemma EverBegunStep(s: State, step: Step)
    requires Sound(s)
    ensures EverBegun(Next(s, step))
  {
    var next := Next(s, step);
    forall id | id in next.started ensures Settled(next, id) {
      if id in s.started {
        SettledStays(s, step, id);
      } else {
        ClaimSettles(s, step);
      }
    }
    forall id | id in next.graph.tasks && Begun(next.graph.tasks[id]) ensures id in next.started {
      RowsChangeOneByOne(s, step, id);
    }
  }

  /** A task completes for the first time only after its dependencies did. */
  lemma TopologicalStep(s: State, step: Step)
    requires Sound(s) && EverBegun(Next(s, step))
    ensures Topological(Next(s, step))
  {
    var next := Next(s, step);
    forall id | id in next.graph.tasks && next.graph.tasks[id].status == Completed ensures id in next.done {
      RowsChangeOneByOne(s, step, id);
    }
    forall id | id in next.done ensures id in next.started {
      if id !in s.done {
        assert Begun(next.graph.tasks[id]);
      }
    }
    forall i, d | 0 <= i < |next.done| && DependsAt(next, i, d) ensures d in next.done[..i] {
      var id := next.done[i];
      if i < |s.done| {
        assert next.done[..i] == s.done[..i];
        assert Settled(s, id) by { assert s.done[i] in s.done; }
        RowsChangeOneByOne(s, step, id);
        assert DependsAt(s, i, d);
      } else {
        NewestDependsOnListed(s, step, d);
      }
    }
  }

  lemma NewestDependsOnListed(s: State, step: Step, d: TaskId)
    requires Sound(s) && Next(s, step).done != s.done && DependsAt(Next(s, step), |s.done|, d)
    ensures d in s.done
  {
    var next := Next(s, step);
    var id := next.done[|s.done|];
    RowsChangeOneByOne(s, step, id);
    assert Begun(next.graph.tasks[id]);
    assert id in s.started by {
      if step.Take? {
        assert next.graph.tasks[id].status == Completed;
      }
    }
    assert Settled(s, id);
  }

  lemma {:induction false} OrderHolds(steps: seq<Step>)
    ensures Sound(Run(steps))
  {
    if steps != [] {
      OrderHolds(steps[..|steps| - 1]);
      EverBegunStep(Run(steps[..|steps| - 1]), steps[|steps| - 1]);
      TopologicalStep(Run(steps[..|steps| - 1]), steps[|steps| - 1]);
    }
  }

  /** The order in which tasks first complete respects every dependency. */
  lemma FirstCompletionsAreTopological(steps: seq<Step>, i: nat, d: TaskId)
    requires i < |Run(steps).done|
    requires Run(steps).done[i] in Run(steps).graph.tasks && d in Run(steps).graph.tasks[Run(steps).done[i]].blockedBy
    ensures exists j :: 0 <= j < i && Run(steps).done[j] == d
  {
    OrderHolds(steps);
    assert DependsAt(Run(steps), i, d);
    assert d in Run(steps).done[..i];
  }

  /** Every member of the set depends on a member of the set. */
  predicate Cyclic(g: Graph, members: set<TaskId>) {
    forall id {:trigger DependsOnMember(g, members, id)} :: id in members ==> DependsOnMember(g, members, id)
  }

  predicate DependsOnMember(g: Graph, members: set<TaskId>, id: TaskId) {
    id in g.tasks && exists d :: d in g.tasks[id].blockedBy && d in members
  }

  /** Nothing in a dependency cycle is ever claimed or completed. */
  lemma CyclesNeverStart(steps: seq<Step>, members: set<TaskId>, id: TaskId)
    requires Cyclic(Run(steps).graph, members) && id in members
    ensures id !in Run(steps).started && id !in Run(steps).done
    ensures var g := Run(steps).graph; id in g.tasks && g.tasks[id].status in {Pending, Failed, Cancelled}
  {
    var s := Run(steps);
    OrderHolds(steps);
    NoMemberCompletes(s, members);
    assert DependsOnMember(s.graph, members, id);
    var d :| d in s.graph.tasks[id].blockedBy && d in members;
    assert d !in s.done;
    assert !Begun(s.graph.tasks[id]);
  }

  lemma NoMemberCompletes(s: State, members: set<TaskId>)
    requires Sound(s) && Cyclic(s.graph, members)
    ensures forall m :: m in members ==> m !in s.done
  {
    forall m | m in members ensures m !in s.done {
      if m in s.done {
        var i :| 0 <= i < |s.done| && s.done[i] == m;
        NoFirstMember(s, members, i);
      }
    }
  }

  /** The first of the members to complete would need an earlier one. */
  lemma {:induction false} NoFirstMember(s: State, members: set<TaskId>, i: nat)
    requires Sound(s) && Cyclic(s.graph, members) && i < |s.done| && s.done[i] in members
    ensures false
  {
    var id := s.done[i];
    assert DependsOnMember(s.graph, members, id);
    var d :| d in s.graph.tasks[id].blockedBy && d in members;
    assert DependsAt(s, i, d);
    var j :| 0 <= j < i && s.done[j] == d;
    NoFirstMember(s, members, j);
  }

  /** A task that was claimed is claimed again only after it completed and was reset for another trigger. */
  lemma {:induction false} SecondClaimNeedsAReset(s: State, steps: seq<Step>, id: TaskId, owner: string, owner': string)
    requires ClaimTask(s.graph, id, owner).1 == Claimed
    requires forall step :: step in steps ==> !(step.Reset? && step.id == id)
    ensures var later := Then(Next(s, Take(id, owner)), steps);
            ClaimTask(later.graph, id, owner').1 != Claimed
  {
    NotPendingStays(Next(s, Take(id, owner)), steps, id);
  }

  function Then(s: State, steps: seq<Step>): State {
    if steps == [] then s else Next(Then(s, steps[..|steps| - 1]), steps[|steps| - 1])
  }

  lemma {:induction false} NotPendingStays(s: State, steps: seq<Step>, id: TaskId)
    requires id in s.graph.tasks && s.graph.tasks[id].status != Pending
    requires forall step :: step in steps ==> !(step.Reset? && step.id == id)
    ensures id in Then(s, steps).graph.tasks && Then(s, steps).graph.tasks[id].status != Pending
  {
    if steps != [] {
      NotPendingStays(s, steps[..|steps| - 1], id);
    }
  }

  /** A task that completed for a trigger keeps its row through everything that happens later, executions for the same
      trigger included, until it is reset for another trigger or its run is reconciled. */
  lemma {:induction false} HandledTriggersStayHandled(s: State, steps: seq<Step>, id: TaskId, trigger: string)
    requires id in s.graph.tasks && s.graph.tasks[id].status == Completed && s.graph.tasks[id].trigger == Some(trigger)
    requires forall w :: w in s.seen ==> s.seen[w].id != id
    requires forall step :: step in steps ==>
               && (step.Reset? && step.id == id ==> step.trigger == trigger)
               && (step.LookUp? ==> s.graph.tasks[id].run != Some(step.run))
    ensures id in Then(s, steps).graph.tasks && Then(s, steps).graph.tasks[id] == s.graph.tasks[id]
    ensures forall w :: w in Then(s, steps).seen ==> Then(s, steps).seen[w].id != id
  {
    if steps != [] {
      HandledTriggersStayHandled(s, steps[..|steps| - 1], id, trigger);
      assert steps[|steps| - 1] in steps;
    }
  }
}
