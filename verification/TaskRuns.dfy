/**
 The task graph and the run store together, under any interleaving of their transactions: task updates, anything that
 happens to runs, turns that come back as done, and reconciliations, which find a task, read its run and update the task
 in three transactions.
 */
module TaskRuns {
  import opened Wrappers
  import opened RunState
  import Store = StoreSpec
  import Operations = StoreHistory
  import Invariants = StoreInvariants
  import Spec = TaskSpec
  import History = TaskHistory
  import Service = TaskService

  type RunId = Store.RunId
  type TaskId = Spec.TaskId

  /** What a worker knows and has not acted on yet: a task found by its run, the run it then read, or a turn of a run
      that came back as done. */
  datatype Reading =
    | Found(id: TaskId, run: RunId)
    | Known(id: TaskId, run: RunId, status: RunStatus, error: Option<string>)
    | Returned(id: TaskId, run: RunId)

  datatype Step =
    | RunStep(op: Operations.Op)
    | TaskStep(step: History.Step)
    | Find(worker: nat, run: RunId)
    | Read(worker: nat)
    | Settle(worker: nat)
    | Return(worker: nat, id: TaskId, run: RunId)
    | Conclude(worker: nat)

  /** `reason` is the run on whose account a task was last completed; `doubted` holds the runs for which a turn came back
      as done although they were not completed. */
  datatype Joint = Joint(
    tasks: History.State, db: Store.Db, readings: map<nat, Reading>, reason: map<TaskId, RunId>, doubted: set<RunId>)

  /** The task updates that are not part of another step. */
  predicate Plain(step: History.Step) {
    !step.LookUp? && !step.Reconcile? && !step.Succeed?
  }

  predicate IsCompleted(tasks: History.State, id: TaskId) {
    id in tasks.graph.tasks && tasks.graph.tasks[id].status == Spec.Completed
  }

  function Completing(s: Joint, step: History.Step, id: TaskId, run: RunId): Joint {
    var next := History.Next(s.tasks, step);
    s.(tasks := next,
       reason := if !IsCompleted(s.tasks, id) && IsCompleted(next, id) then s.reason[id := run] else s.reason)
  }

  function Next(s: Joint, step: Step): Joint {
    match step
    case RunStep(op) => s.(db := Operations.Apply(s.db, op))
    case TaskStep(t) => if Plain(t) then s.(tasks := History.Next(s.tasks, t)) else s
    case Find(worker, run) =>
      var id := Spec.FindByRun(s.tasks.graph.tasks, s.tasks.graph.order, run);
      if id.None? then s
      else
        s.(tasks := History.Next(s.tasks, History.LookUp(worker, run)),
           readings := s.readings[worker := Found(id.value, run)])
    case Read(worker) =>
      if worker in s.readings && s.readings[worker].Found? && s.readings[worker].run in s.db.runs then
        var r := s.readings[worker];
        s.(readings := s.readings[worker := Known(r.id, r.run, s.db.runs[r.run].status, s.db.runs[r.run].error)])
      else s
    case Settle(worker) =>
      if worker in s.readings && s.readings[worker].Known? then
        var r := s.readings[worker];
        Completing(s, History.Reconcile(worker, Service.StatusOf(r.status), r.error), r.id, r.run)
      else s
    case Return(worker, id, run) =>
      s.(readings := s.readings[worker := Returned(id, run)],
         doubted := if Service.Finished(s.db, run) then s.doubted else s.doubted + {run})
    case Conclude(worker) =>
      if worker in s.readings && s.readings[worker].Returned? then
        Completing(s, History.Succeed(s.readings[worker].id), s.readings[worker].id, s.readings[worker].run)
      else s
  }

  function Play(steps: seq<Step>): Joint {
    if steps == [] then Joint(History.Run([]), Store.EMPTY_DB, map[], map[], {})
    else Next(Play(steps[..|steps| - 1]), steps[|steps| - 1])
  }

  /******* Each store sees a history of its own *******/

  /** What a joint step is for the task graph. */
  function TaskPart(s: Joint, step: Step): seq<History.Step> {
    match step
    case TaskStep(t) => if Plain(t) then [t] else []
    case Find(worker, run) =>
      if Spec.FindByRun(s.tasks.graph.tasks, s.tasks.graph.order, run).None? then [] else [History.LookUp(worker, run)]
    case Settle(worker) =>
      if worker in s.readings && s.readings[worker].Known?
      then [History.Reconcile(worker, Service.StatusOf(s.readings[worker].status), s.readings[worker].error)] else []
    case Conclude(worker) =>
      if worker in s.readings && s.readings[worker].Returned? then [History.Succeed(s.readings[worker].id)] else []
    case _ => []
  }

  function TaskSteps(steps: seq<Step>): seq<History.Step> {
    if steps == [] then []
    else TaskSteps(steps[..|steps| - 1]) + TaskPart(Play(steps[..|steps| - 1]), steps[|steps| - 1])
  }

  function RunOps(steps: seq<Step>): seq<Operations.Op> {
    if steps == [] then []
    else
      var last := steps[|steps| - 1];
      RunOps(steps[..|steps| - 1]) + if last.RunStep? then [last.op] else []
  }

  lemma StepOfEach(s: Joint, step: Step)
    ensures var part := TaskPart(s, step);
            && |part| <= 1
            && Next(s, step).tasks == (if part == [] then s.tasks else History.Next(s.tasks, part[0]))
            && Next(s, step).db == if step.RunStep? then Operations.Apply(s.db, step.op) else s.db
  {
  }

  lemma TasksAppend(steps: seq<History.Step>, part: seq<History.Step>)
    requires |part| <= 1
    ensures History.Run(steps + part) == if part == [] then History.Run(steps) else History.Next(History.Run(steps), part[0])
  {
    if part == [] {
      assert steps + part == steps;
    } else {
      assert (steps + part)[..|steps|] == steps && |steps + part| == |steps| + 1;
    }
  }

  /** So what is proved about histories of tasks, and of runs, holds for both together. */
  lemma {:induction false} BothAreHistories(steps: seq<Step>)
    ensures Play(steps).tasks == History.Run(TaskSteps(steps))
    ensures Play(steps).db == Operations.Exec(Store.EMPTY_DB, RunOps(steps))
  {
    if steps != [] {
      var front, last := steps[..|steps| - 1], steps[|steps| - 1];
      BothAreHistories(front);
      StepOfEach(Play(front), last);
      TasksAppend(TaskSteps(front), TaskPart(Play(front), last));
      if last.RunStep? {
        assert RunOps(steps)[..|RunOps(front)|] == RunOps(front);
      } else {
        assert RunOps(steps) == RunOps(front);
      }
    }
  }

  /** Whatever happens to runs and whoever reconciles, tasks first complete after all their dependencies did. */
  lemma CompletionsAreTopological(steps: seq<Step>, i: nat, d: TaskId)
    requires i < |Play(steps).tasks.done|
    requires var tasks := Play(steps).tasks;
             tasks.done[i] in tasks.graph.tasks && d in tasks.graph.tasks[tasks.done[i]].blockedBy
    ensures exists j :: 0 <= j < i && Play(steps).tasks.done[j] == d
  {
    BothAreHistories(steps);
    History.FirstCompletionsAreTopological(TaskSteps(steps), i, d);
  }

  /******* Completed tasks and completed runs *******/

  predicate Vouched(s: Joint, run: RunId) {
    Service.Finished(s.db, run) || run in s.doubted
  }

  predicate ReadingOk(s: Joint, worker: nat)
    requires worker in s.readings
  {
    match s.readings[worker]
    case Found(id, _) => worker in s.tasks.seen && s.tasks.seen[worker].id == id
    case Known(id, run, status, _) =>
      worker in s.tasks.seen && s.tasks.seen[worker].id == id && (status == Completed ==> Service.Finished(s.db, run))
    case Returned(_, run) => Vouched(s, run)
  }

  ghost predicate Sound(s: Joint) {
    && Invariants.InboundInv(s.db)
    && (forall w {:trigger ReadingOk(s, w)} :: w in s.readings ==> ReadingOk(s, w))
    && (forall id :: IsCompleted(s.tasks, id) ==> id in s.reason && Vouched(s, s.reason[id]))
  }

  lemma FinishedStays(db: Store.Db, op: Operations.Op, run: RunId)
    requires Invariants.InboundInv(db) && Service.Finished(db, run)
    ensures Service.Finished(Operations.Apply(db, op), run)
  {
    Invariants.TerminalStep(db, op, run);
  }

  lemma RunStepKeeps(s: Joint, op: Operations.Op)
    requires Sound(s)
    ensures Sound(Next(s, RunStep(op)))
  {
    var next := Next(s, RunStep(op));
    Invariants.InboundStep(s.db, op);
    forall run | Service.Finished(s.db, run) ensures Service.Finished(next.db, run) {
      FinishedStays(s.db, op, run);
    }
    forall w | w in next.readings ensures ReadingOk(next, w) {
      assert ReadingOk(s, w);
    }
  }

  /** Plain task updates complete nothing and disturb no reading. */
  lemma TaskStepKeeps(s: Joint, t: History.Step)
    requires Sound(s)
    ensures Sound(Next(s, TaskStep(t)))
  {
    var next := Next(s, TaskStep(t));
    forall w | w in next.readings ensures ReadingOk(next, w) {
      assert ReadingOk(s, w);
    }
    forall id | IsCompleted(next.tasks, id) ensures IsCompleted(s.tasks, id) {}
  }

  lemma FindKeeps(s: Joint, worker: nat, run: RunId)
    requires Sound(s)
    ensures Sound(Next(s, Find(worker, run)))
  {
    var next := Next(s, Find(worker, run));
    forall w | w in next.readings ensures ReadingOk(next, w) {
      if w in s.readings {
        assert ReadingOk(s, w);
      }
    }
    forall id | IsCompleted(next.tasks, id) ensures IsCompleted(s.tasks, id) {}
  }

  lemma ReadKeeps(s: Joint, worker: nat)
    requires Sound(s)
    ensures Sound(Next(s, Read(worker)))
  {
    var next := Next(s, Read(worker));
    forall w | w in next.readings ensures ReadingOk(next, w) {
      assert ReadingOk(s, w);
    }
  }

  /** Only the task of the reading changes, and it completes only on account of the run of the reading. */
  lemma CompletingKeeps(s: Joint, step: History.Step, id: TaskId, run: RunId)
    requires Sound(s) && Vouched(s, run) && !step.LookUp? && !step.Add?
    requires forall other :: IsCompleted(History.Next(s.tasks, step), other) ==> other == id || IsCompleted(s.tasks, other)
    ensures Sound(Completing(s, step, id, run))
  {
    var next := Completing(s, step, id, run);
    forall w | w in next.readings ensures ReadingOk(next, w) {
      assert ReadingOk(s, w);
    }
  }

  /** Any other update by a reading completes nothing. */
  lemma UpdatingKeeps(s: Joint, step: History.Step, id: TaskId, run: RunId)
    requires Sound(s) && !step.LookUp?
    requires forall other :: IsCompleted(History.Next(s.tasks, step), other) ==> IsCompleted(s.tasks, other)
    ensures Sound(Completing(s, step, id, run))
  {
    var next := Completing(s, step, id, run);
    forall w | w in next.readings ensures ReadingOk(next, w) {
      assert ReadingOk(s, w);
    }
  }

  lemma SettleKeeps(s: Joint, worker: nat)
    requires Sound(s)
    ensures Sound(Next(s, Settle(worker)))
  {
    if worker in s.readings && s.readings[worker].Known? {
      assert ReadingOk(s, worker);
      var r := s.readings[worker];
      var step := History.Reconcile(worker, Service.StatusOf(r.status), r.error);
      if r.status == Completed {
        CompletingKeeps(s, step, r.id, r.run);
      } else {
        UpdatingKeeps(s, step, r.id, r.run);
      }
    }
  }

  lemma ReturnKeeps(s: Joint, worker: nat, id: TaskId, run: RunId)
    requires Sound(s)
    ensures Sound(Next(s, Return(worker, id, run)))
  {
    var next := Next(s, Return(worker, id, run));
    forall w | w in next.readings ensures ReadingOk(next, w) {
      if w in s.readings {
        assert ReadingOk(s, w);
      }
    }
  }

  lemma ConcludeKeeps(s: Joint, worker: nat)
    requires Sound(s)
    ensures Sound(Next(s, Conclude(worker)))
  {
    if worker in s.readings && s.readings[worker].Returned? {
      assert ReadingOk(s, worker);
      CompletingKeeps(s, History.Succeed(s.readings[worker].id), s.readings[worker].id, s.readings[worker].run);
    }
  }

  lemma {:induction false} JointHolds(steps: seq<Step>)
    ensures Sound(Play(steps))
  {
    if steps != [] {
      var s := Play(steps[..|steps| - 1]);
      JointHolds(steps[..|steps| - 1]);
      match steps[|steps| - 1]
      case RunStep(op) => RunStepKeeps(s, op);
      case TaskStep(t) => TaskStepKeeps(s, t);
      case Find(worker, run) => FindKeeps(s, worker, run);
      case Read(worker) => ReadKeeps(s, worker);
      case Settle(worker) => SettleKeeps(s, worker);
      case Return(worker, id, run) => ReturnKeeps(s, worker, id, run);
      case Conclude(worker) => ConcludeKeeps(s, worker);
    }
  }

  /** No turn came back as done for a run that was not completed. */
  predicate NothingDoubted(steps: seq<Step>) {
    steps == []
    || (NothingDoubted(steps[..|steps| - 1])
        && (steps[|steps| - 1].Return? ==> Service.Finished(Play(steps[..|steps| - 1]).db, steps[|steps| - 1].run)))
  }

  lemma {:induction false} DoubtedExactlyWhen(steps: seq<Step>)
    ensures Play(steps).doubted == {} <==> NothingDoubted(steps)
  {
    if steps != [] {
      DoubtedExactlyWhen(steps[..|steps| - 1]);
    }
  }

  /** Every completed task was completed on account of a run that is completed and has its response, for good; the only
      exceptions go back to turns that came back as done for a run that was not. */
  lemma CompletedTasksHaveCompletedRuns(steps: seq<Step>, id: TaskId)
    requires NothingDoubted(steps) && IsCompleted(Play(steps).tasks, id)
    ensures id in Play(steps).reason
    ensures var run, db := Play(steps).reason[id], Play(steps).db;
            Service.Finished(db, run) && Store.ResponseOf(db, run).Some?
  {
    JointHolds(steps);
    DoubtedExactlyWhen(steps);
  }

  /******* The run that the task names *******/

  predicate Names(tasks: History.State, id: TaskId, run: RunId) {
    id in tasks.graph.tasks && tasks.graph.tasks[id].run == Some(run)
  }

  /** A step that gives the task another run, or that concludes a turn of another run than the one the task names. */
  predicate Crosses(s: Joint, step: Step, id: TaskId) {
    match step
    case TaskStep(Reset(other, _)) => other == id
    case TaskStep(Break(other, run, _, _)) =>
      other == id && run.Some? && id in s.tasks.graph.tasks && s.tasks.graph.tasks[id].run.Some?
      && s.tasks.graph.tasks[id].run != run
    case Return(_, other, run) => other == id && !Names(s.tasks, id, run)
    case _ => false
  }

  predicate NeverCrossed(steps: seq<Step>, id: TaskId) {
    steps == []
    || (NeverCrossed(steps[..|steps| - 1], id) && !Crosses(Play(steps[..|steps| - 1]), steps[|steps| - 1], id))
  }

  predicate OneRun(s: Joint, id: TaskId) {
    && (forall w :: w in s.readings && s.readings[w].id == id ==> Names(s.tasks, id, s.readings[w].run))
    && (id in s.reason ==> Names(s.tasks, id, s.reason[id]))
  }

  /** The run a task names is given up only by a reset, or by a break that names another. */
  lemma NamesStays(s: Joint, step: Step, id: TaskId, run: RunId)
    requires Names(s.tasks, id, run) && !Crosses(s, step, id)
    ensures Names(Next(s, step).tasks, id, run)
  {
    match step
    case TaskStep(t) => TaskKeepsRun(s.tasks, t, id, run);
    case Find(worker, r) => TaskKeepsRun(s.tasks, History.LookUp(worker, r), id, run);
    case Settle(worker) =>
      if worker in s.readings && s.readings[worker].Known? {
        var r := s.readings[worker];
        TaskKeepsRun(s.tasks, History.Reconcile(worker, Service.StatusOf(r.status), r.error), id, run);
      }
    case Conclude(worker) =>
      if worker in s.readings && s.readings[worker].Returned? {
        TaskKeepsRun(s.tasks, History.Succeed(s.readings[worker].id), id, run);
      }
    case _ =>
  }

  lemma TaskKeepsRun(s: History.State, t: History.Step, id: TaskId, run: RunId)
    requires Names(s, id, run) && !(t.Reset? && t.id == id)
    requires t.Break? && t.id == id ==> t.boundRun.None? || t.boundRun == Some(run)
    ensures Names(History.Next(s, t), id, run)
  {
  }

  lemma OneRunStep(s: Joint, step: Step, id: TaskId)
    requires Sound(s) && OneRun(s, id) && !Crosses(s, step, id)
    ensures OneRun(Next(s, step), id)
  {
    var next := Next(s, step);
    forall run | Names(s.tasks, id, run) ensures Names(next.tasks, id, run) {
      NamesStays(s, step, id, run);
    }
    forall w | w in next.readings && next.readings[w].id == id ensures Names(next.tasks, id, next.readings[w].run) {
      assert w in s.readings && s.readings[w].id == id ==> Names(s.tasks, id, s.readings[w].run);
    }
  }

  lemma {:induction false} OneRunHolds(steps: seq<Step>, id: TaskId)
    requires NeverCrossed(steps, id)
    ensures OneRun(Play(steps), id)
  {
    if steps != [] {
      OneRunHolds(steps[..|steps| - 1], id);
      JointHolds(steps[..|steps| - 1]);
      OneRunStep(Play(steps[..|steps| - 1]), steps[|steps| - 1], id);
    }
  }

  /** A task that was never handed to another run names, once it is completed, the very run that was completed for it. */
  lemma CompletedTaskNamesItsRun(steps: seq<Step>, id: TaskId)
    requires NothingDoubted(steps) && NeverCrossed(steps, id) && IsCompleted(Play(steps).tasks, id)
    ensures var s := Play(steps);
            && s.tasks.graph.tasks[id].run.Some?
            && var run := s.tasks.graph.tasks[id].run.value;
            Service.Finished(s.db, run) && Store.ResponseOf(s.db, run).Some?
  {
    CompletedTasksHaveCompletedRuns(steps, id);
    OneRunHolds(steps, id);
  }

  /******* A task handed on *******/

  /** A reconciliation that completes a task leaves it naming a completed run if and only if the task still names the run
      that was looked up, unless the run it names by then happens to be completed too. */
  lemma SettledTaskNamesItsRunExactlyWhen(steps: seq<Step>, worker: nat)
    requires worker in Play(steps).readings && Play(steps).readings[worker].Known?
    requires Play(steps).readings[worker].status == Completed
    requires var s := Play(steps);
             var r := s.readings[worker];
             && worker in s.tasks.seen && s.tasks.seen[worker].status != Spec.Completed
             && r.id in s.tasks.graph.tasks && s.tasks.graph.tasks[r.id].status == s.tasks.seen[worker].status
             && forall other :: other != r.run && Names(s.tasks, r.id, other) ==> !Service.Finished(s.db, other)
    ensures var s := Play(steps);
            var r := s.readings[worker];
            var next := Next(s, Settle(worker));
            && IsCompleted(next.tasks, r.id)
            && ((exists run :: Names(next.tasks, r.id, run) && Service.Finished(next.db, run))
                <==> Names(s.tasks, r.id, r.run))
  {
    JointHolds(steps);
    var s := Play(steps);
    var r := s.readings[worker];
    assert ReadingOk(s, worker);
    var next := Next(s, Settle(worker));
    assert forall run :: Names(next.tasks, r.id, run) <==> Names(s.tasks, r.id, run);
  }

  const OTHER_START := Operations.SOME_START.(identity := Operations.SOME_SENDER.(message := "n"),
                                              state := Operations.SOME_START.state.(
                                                         identity := Some(Operations.SOME_SENDER.(message := "n"))))

  lemma Further(steps: seq<Step>, s: Joint, step: Step) returns (steps': seq<Step>, s': Joint)
    requires s == Play(steps)
    ensures steps' == steps + [step] && s' == Next(s, step) && s' == Play(steps')
  {
    steps', s' := steps + [step], Next(s, step);
    assert steps'[..|steps'| - 1] == steps;
  }

  predicate Job(s: Joint, status: Spec.TaskStatus, run: Option<RunId>) {
    && "job" in s.tasks.graph.tasks
    && var task := s.tasks.graph.tasks["job"];
    task.status == status && task.run == run && task.blockedBy == [] && task.trigger != Some("n")
  }

  predicate TheRun(s: Joint, run: RunId, status: RunStatus) {
    run in s.db.runs && s.db.runs[run].status == status
    && (status == Running ==> s.db.runs[run].owner == Some(1) && s.db.runs[run].token == 1)
  }

  predicate OneMessage(s: Joint) {
    1 !in s.db.runs && forall k :: k in s.db.inbound ==> k == Operations.SOME_SENDER.Key()
  }

  /** The task and its run. */
  lemma ReachBound() returns (steps: seq<Step>, s: Joint)
    ensures s == Play(steps) && s.doubted == {} && s.tasks.graph.order == ["job"]
    ensures Job(s, Spec.InProgress, Some(0)) && TheRun(s, 0, Running) && OneMessage(s)
  {
    steps, s := [], Play([]);
    steps, s := Further(steps, s, RunStep(Operations.Start(1, Operations.SOME_START, 0, 0, 30)));
    steps, s := Further(steps, s, TaskStep(History.Add("job", "job", [])));
    assert Job(s, Spec.Pending, None);
    Spec.ClaimedExactlyWhen(s.tasks.graph, "job", "w");
    steps, s := Further(steps, s, TaskStep(History.Take("job", "w")));
    assert Job(s, Spec.InProgress, None);
    steps, s := Further(steps, s, TaskStep(History.Bind("job", 0, "m")));
  }

  /** The run completes, and a reconciliation reads it. */
  lemma ReachRead() returns (steps: seq<Step>, s: Joint)
    ensures s == Play(steps) && s.doubted == {}
    ensures Job(s, Spec.InProgress, Some(0)) && TheRun(s, 0, Completed) && OneMessage(s)
    ensures 9 in s.readings && s.readings[9] == Known("job", 0, Completed, None)
    ensures 9 in s.tasks.seen && s.tasks.seen[9] == History.Snapshot("job", Spec.InProgress)
  {
    steps, s := ReachBound();
    steps, s := Further(steps, s, RunStep(Operations.Finish(1, 0, "done", Some(1), 0)));
    assert TheRun(s, 0, Completed) && s.db.runs[0].error == None;
    steps, s := Further(steps, s, Find(9, 0));
    assert s.readings[9] == Found("job", 0);
    steps, s := Further(steps, s, Read(9));
  }

  /** Before it settles, the turn itself concludes, and the task is reset for another trigger. */
  lemma ReachReset() returns (steps: seq<Step>, s: Joint)
    ensures s == Play(steps) && s.doubted == {} && JobAgain(s, Spec.Pending, None) && OneMessage(s)
    ensures 9 in s.readings && s.readings[9] == Known("job", 0, Completed, None)
    ensures 9 in s.tasks.seen && s.tasks.seen[9] == History.Snapshot("job", Spec.InProgress)
  {
    steps, s := ReachRead();
    steps, s := Further(steps, s, Return(5, "job", 0));
    steps, s := Further(steps, s, Conclude(5));
    assert Job(s, Spec.Completed, Some(0));
    steps, s := Further(steps, s, TaskStep(History.Reset("job", "n")));
  }

  /** The task on its second trigger. */
  predicate JobAgain(s: Joint, status: Spec.TaskStatus, run: Option<RunId>) {
    && "job" in s.tasks.graph.tasks
    && var task := s.tasks.graph.tasks["job"];
    task.status == status && task.run == run && task.blockedBy == []
  }

  lemma ReachSecondRun() returns (steps: seq<Step>, s: Joint)
    ensures s == Play(steps) && s.doubted == {} && JobAgain(s, Spec.InProgress, Some(1)) && TheRun(s, 1, Running)
    ensures 9 in s.readings && s.readings[9] == Known("job", 0, Completed, None)
    ensures 9 in s.tasks.seen && s.tasks.seen[9] == History.Snapshot("job", Spec.InProgress)
  {
    steps, s := ReachReset();
    Spec.ClaimedExactlyWhen(s.tasks.graph, "job", "w");
    steps, s := Further(steps, s, TaskStep(History.Take("job", "w")));
    assert JobAgain(s, Spec.InProgress, None);
    steps, s := Further(steps, s, RunStep(Operations.Start(1, OTHER_START, 1, 0, 30)));
    assert TheRun(s, 1, Running);
    steps, s := Further(steps, s, TaskStep(History.Bind("job", 1, "n")));
  }

  /** A reconciliation that read the task on its first run settles it on its second: the task counts as completed while
      the run it names is still going. */
  lemma OldReconciliationCompletesNewRun() returns (steps: seq<Step>)
    ensures var s := Play(steps);
            && NothingDoubted(steps) && IsCompleted(s.tasks, "job") && Names(s.tasks, "job", 1)
            && 1 in s.db.runs && s.db.runs[1].status == Running
  {
    var s;
    steps, s := ReachSecondRun();
    steps, s := Further(steps, s, Settle(9));
    DoubtedExactlyWhen(steps);
  }
}
