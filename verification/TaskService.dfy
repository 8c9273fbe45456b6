/** The task service keeps a task and the run behind it in step: two stores, one transaction each. */
module TaskService {
  import opened Wrappers
  import opened RunState
  import Store = StoreSpec
  import Operations = StoreHistory
  import SessionStore
  import Spec = TaskSpec
  import Approvals = ApprovalSpec
  import ApprovalStore
  import Protocol
  import TaskGraph
  import History = TaskHistory

  type Run = Store.Run
  type Db = Store.Db
  type Graph = Spec.Graph

  datatype ServiceError = TaskNotFound | NoRun | Failure(error: string)

  /** What the runtime does with a turn: it may start a run, and it ends in one of four ways. */
  datatype Turn = Turn(run: Option<Store.RunId>, isNew: bool, ending: Ending)

  datatype Ending = Done(text: string) | Parked | Busy | Broke(error: string)

  /** What a caller learns: how the turn ended, or that the task is under way, with its run if it has one. */
  datatype Answer = UnderWay(run: Option<Store.RunId>) | Answered(ending: Ending)

  /** The task status that shows a run status. */
  function StatusOf(status: RunStatus): Spec.TaskStatus {
    match status
    case Completed => Spec.Completed
    case Failed => Spec.Failed
    case Cancelled => Spec.Cancelled
    case Interrupted => Spec.Interrupted
    case WaitingApproval => Spec.Paused
    case Running => Spec.InProgress
  }

  /** Moving the run of a task: an ended run stays as it is, and a running one needs its current token. */
  function MoveRun(db: Db, owner: Store.OwnerId, run: Store.RunId, target: RunStatus, error: Option<string>): (Db, bool) {
    if run !in db.runs || Terminal(db.runs[run].status) then (db, false)
    else
      var token := if db.runs[run].status == Running then Some(db.runs[run].token) else None;
      Store.TransitionRun(db, owner, run, target, error, token)
  }

  /** A task transition and, if the task changed and has a run, the transition of that run. */
  function MoveBoth(
    g: Graph, db: Db, owner: Store.OwnerId, id: Spec.TaskId, expected: set<Spec.TaskStatus>, status: Spec.TaskStatus,
    target: RunStatus, taskError: Option<string>, runError: Option<string>)
    : (Graph, Db, bool)
    requires id in g.tasks
  {
    var (next, changed) := Spec.Transition(g, id, expected, status, None, None, None, taskError);
    if changed && g.tasks[id].run.Some? then (next, MoveRun(db, owner, g.tasks[id].run.value, target, runError).0, changed)
    else (next, db, changed)
  }

  /******* Executions as steps of a task history *******/

  function Moves(g: Graph, steps: seq<History.Step>): Graph {
    if steps == [] then g else History.Move(Moves(g, steps[..|steps| - 1]), map[], steps[|steps| - 1])
  }

  /** Steps that neither read nor use a snapshot. */
  predicate Direct(steps: seq<History.Step>) {
    forall step :: step in steps ==> !step.Reconcile? && !step.LookUp?
  }

  /** The graph updates after a turn that returned or raised. */
  function AfterTurn(id: Spec.TaskId, run: Option<Store.RunId>, trigger: Option<string>, ending: Ending)
    : (steps: seq<History.Step>)
    ensures Direct(steps)
  {
    match ending
    case Done(_) => [History.Succeed(id)]
    case Parked => [History.Park(id)]
    case Busy => []
    case Broke(error) => [History.Break(id, run, trigger, error)]
  }

  function BindSteps(id: Spec.TaskId, run: Option<Store.RunId>, trigger: string): (steps: seq<History.Step>)
    ensures Direct(steps)
  {
    if run.Some? then [History.Bind(id, run.value, trigger)] else []
  }

  /** An undisturbed claim and the turn it leads to. */
  function ClaimSteps(g: Graph, id: Spec.TaskId, owner: string, trigger: string, turn: Turn): (steps: seq<History.Step>)
    ensures Direct(steps)
  {
    if Spec.ClaimTask(g, id, owner).1 != Spec.Claimed then []
    else
      [History.Take(id, owner)] + (if turn.isNew then BindSteps(id, turn.run, trigger) else [])
      + BindSteps(id, turn.run, trigger) + AfterTurn(id, turn.run, Some(trigger), turn.ending)
  }

  predicate IsWaiting(db: Db, task: Spec.Task) {
    task.run.Some? && task.run.value in db.runs && db.runs[task.run.value].status == WaitingApproval
  }

  /** What the runtime looks at when it resumes a run. */
  datatype View = View(db: Db, approvals: Approvals.ApprovalDb)

  /** A run that the runtime answers for without running it: what it says instead of the result of a turn. */
  function EarlyAnswer(v: View, run: Store.RunId): Option<string> {
    if run !in v.db.runs then Some("Run was not found.")
    else
      match v.db.runs[run].status
      case Completed =>
        var response := Store.ResponseOf(v.db, run);
        Some(if response.Some? then response.value else "")
      case Failed => Some("Run is failed; manual action is required.")
      case Cancelled => Some("Run is cancelled; manual action is required.")
      case WaitingApproval => Some("Run is waiting for approval.")
      case _ =>
        var latest := Protocol.LatestCheckpoint(v.db.checkpoints, run);
        if latest.None? then Some("Run has no recoverable checkpoint.")
        else if latest.value.state.action != Store.AwaitApproval then None
        else if latest.value.state.approval.None? then Some("Run has no recoverable approval request.")
        else if latest.value.state.approval.value !in v.approvals.rows then Some("Approval request was not found.")
        else None
  }

  /** An interrupted run whose approved call has begun, and of which the ledger has no result: it fails, and the runtime
      answers for it. */
  predicate IsUncertain(v: View, run: Store.RunId) {
    EarlyAnswer(v, run).None? && v.db.runs[run].status == Interrupted
    && var latest := Protocol.LatestCheckpoint(v.db.checkpoints, run);
    latest.value.state.action == Store.AwaitApproval
    && var row := v.approvals.rows[latest.value.state.approval.value];
    && (row.status == Approvals.Executing || row.status == Approvals.Executed) && row.remaining != []
    && var claim := Store.GetTool(v.db, run, row.remaining[0]);
    claim.None? || (!claim.value.Replay? && !claim.value.Conflict?)
  }

  /** How the turn of a resumed run ends; `turn` is what the runtime makes of it if it runs at all. */
  function ResumedEnding(v: View, run: Store.RunId, turn: Turn): Ending {
    if EarlyAnswer(v, run).Some? then Done(EarlyAnswer(v, run).value)
    else if IsUncertain(v, run) then Done("Approval result is uncertain; run requires manual reconciliation.")
    else turn.ending
  }

  lemma {:induction false} IdleStays(
    cfg: Protocol.Config, s: Protocol.Shared, owner: Store.OwnerId, i: Protocol.Input, steps: nat)
    ensures Protocol.Follow(cfg, s, owner, Protocol.Idle, i, steps) == (s, Protocol.Idle)
  {
    if steps > 0 {
      IdleStays(cfg, s, owner, i, steps - 1);
    }
  }

  /** A worker that resumes a run by its decided approval claims the run and takes up the calls of the approval. */
  lemma ReachesTheApproval(
    cfg: Protocol.Config, s: Protocol.Shared, owner: Store.OwnerId, run: Store.RunId, state: Store.State, i: Protocol.Input,
    steps: nat)
    returns (next: Protocol.Shared, ctx: Protocol.Ctx)
    requires run in s.db.runs && s.db.runs[run].status == Interrupted && state.action == Store.AwaitApproval
    requires state.approval.Some? && state.approval.value in s.approvals.rows
    requires s.approvals.rows[state.approval.value].run == Some(run)
    requires s.approvals.rows[state.approval.value].status != Approvals.Undecided && steps >= 4
    ensures var row := s.approvals.rows[state.approval.value];
            Protocol.Follow(cfg, s, owner, Protocol.Loaded(run, state), i, steps)
              == Protocol.Follow(cfg, next, owner,
                                 Protocol.Resuming(ctx, row.remaining, state.approval.value, row.status), i, steps - 4)
    ensures ctx.run == run && next.approvals == s.approvals && next.db.tools == s.db.tools
    ensures run in next.db.runs && next.db.runs[run].status == Running
    ensures next.db.runs[run].owner == Some(owner) && next.db.runs[run].token == ctx.token
  {
    var id := state.approval.value;
    var status := s.approvals.rows[id].status;
    Protocol.OneMove(cfg, s, owner, Protocol.Loaded(run, state), i, steps);
    Protocol.OneMove(cfg, s, owner, Protocol.Opening(id), i, steps - 1);
    Protocol.OneMove(cfg, s, owner, Protocol.Opened(id, status), i, steps - 2);
    next := Protocol.Advance(cfg, s, owner, Protocol.Opened(id, status), i).0;
    Protocol.OneMove(cfg, next, owner, Protocol.Claimed(run, Protocol.FromApproval(id, status)), i, steps - 3);
    ctx := Protocol.Advance(cfg, next, owner, Protocol.Claimed(run, Protocol.FromApproval(id, status)), i).1.ctx;
  }

  lemma DoubtfulExactlyWhen(
    cfg: Protocol.Config, s: Protocol.Shared, owner: Store.OwnerId, ctx: Protocol.Ctx, id: Store.ApprovalId, i: Protocol.Input)
    requires id in s.approvals.rows && s.approvals.rows[id].remaining != []
    requires s.approvals.rows[id].status != Approvals.Undecided
    ensures var row := s.approvals.rows[id];
            var claim := Store.GetTool(s.db, ctx.run, row.remaining[0]);
            var after := Protocol.Advance(cfg, s, owner, Protocol.Resuming(ctx, row.remaining, id, row.status), i);
            after.1.Doubtful?
              == ((row.status == Approvals.Executing || row.status == Approvals.Executed)
                  && (claim.None? || (!claim.value.Replay? && !claim.value.Conflict?)))
            && (after.1.Doubtful? ==> after.1.ctx == ctx && after.0 == s)
  {
  }

  lemma DoubtfulRunsFail(
    cfg: Protocol.Config, s: Protocol.Shared, owner: Store.OwnerId, ctx: Protocol.Ctx, i: Protocol.Input)
    requires ctx.run in s.db.runs && s.db.runs[ctx.run].status == Running
    requires s.db.runs[ctx.run].owner == Some(owner) && s.db.runs[ctx.run].token == ctx.token
    ensures var runs := Protocol.Advance(cfg, s, owner, Protocol.Doubtful(ctx), i).0.db.runs;
            && ctx.run in runs && runs[ctx.run].status == Failed
            && runs[ctx.run].error == Some("approved tool result is uncertain")
  {
    assert |"approved tool result is uncertain"| <= 1000;
  }

  /** The service calls a run uncertain exactly if a worker that resumes it finds the same and fails the run. */
  lemma UncertainExactlyWhenTheRunFails(
    cfg: Protocol.Config, s: Protocol.Shared, owner: Store.OwnerId, run: Store.RunId, state: Store.State, i: Protocol.Input)
    requires run in s.db.runs && s.db.runs[run].status == Interrupted && state.action == Store.AwaitApproval
    requires var latest := Protocol.LatestCheckpoint(s.db.checkpoints, run); latest.Some? && latest.value.state == state
    requires state.approval.Some? && state.approval.value in s.approvals.rows
    requires var row := s.approvals.rows[state.approval.value]; row.run == Some(run) && row.remaining != []
    ensures IsUncertain(View(s.db, s.approvals), run)
         == Protocol.Follow(cfg, s, owner, Protocol.Loaded(run, state), i, 5).1.Doubtful?
    ensures IsUncertain(View(s.db, s.approvals), run) ==>
              var runs := Protocol.Follow(cfg, s, owner, Protocol.Loaded(run, state), i, 6).0.db.runs;
              run in runs && runs[run].status == Failed && runs[run].error == Some("approved tool result is uncertain")
  {
    var id := state.approval.value;
    var row := s.approvals.rows[id];
    if row.status == Approvals.Undecided {
      Protocol.OneMove(cfg, s, owner, Protocol.Loaded(run, state), i, 5);
      Protocol.OneMove(cfg, s, owner, Protocol.Reparking(run), i, 4);
      IdleStays(cfg, Protocol.Advance(cfg, s, owner, Protocol.Reparking(run), i).0, owner, i, 3);
    } else {
      var next, ctx := ReachesTheApproval(cfg, s, owner, run, state, i, 5);
      DoubtfulExactlyWhen(cfg, next, owner, ctx, id, i);
      Protocol.OneMove(cfg, next, owner, Protocol.Resuming(ctx, row.remaining, id, row.status), i, 1);
      if IsUncertain(View(s.db, s.approvals), run) {
        FailsAfterSix(cfg, s, owner, run, state, i);
      }
    }
  }

  lemma FailsAfterSix(
    cfg: Protocol.Config, s: Protocol.Shared, owner: Store.OwnerId, run: Store.RunId, state: Store.State, i: Protocol.Input)
    requires run in s.db.runs && s.db.runs[run].status == Interrupted && state.action == Store.AwaitApproval
    requires var latest := Protocol.LatestCheckpoint(s.db.checkpoints, run); latest.Some? && latest.value.state == state
    requires state.approval.Some? && state.approval.value in s.approvals.rows
    requires var row := s.approvals.rows[state.approval.value]; row.run == Some(run) && row.remaining != []
    requires IsUncertain(View(s.db, s.approvals), run)
    ensures var runs := Protocol.Follow(cfg, s, owner, Protocol.Loaded(run, state), i, 6).0.db.runs;
            run in runs && runs[run].status == Failed && runs[run].error == Some("approved tool result is uncertain")
  {
    var id := state.approval.value;
    var row := s.approvals.rows[id];
    var next, ctx := ReachesTheApproval(cfg, s, owner, run, state, i, 6);
    DoubtfulExactlyWhen(cfg, next, owner, ctx, id, i);
    Protocol.OneMove(cfg, next, owner, Protocol.Resuming(ctx, row.remaining, id, row.status), i, 2);
    Protocol.OneMove(cfg, next, owner, Protocol.Doubtful(ctx), i, 1);
    DoubtfulRunsFail(cfg, next, owner, ctx, i);
  }

  function ResumeSteps(g: Graph, v: View, id: Spec.TaskId, owner: string, turn: Turn): (steps: seq<History.Step>)
    requires id in g.tasks && g.tasks[id].run.Some?
    ensures Direct(steps)
  {
    if IsWaiting(v.db, g.tasks[id]) || (g.tasks[id].status != Spec.Interrupted && g.tasks[id].status != Spec.Paused) then []
    else [History.Resume(id, owner)] + AfterTurn(id, None, None, ResumedEnding(v, g.tasks[id].run.value, turn))
  }

  /** A turn that broke is raised again after it was recorded. */
  function AnswerOf(ending: Ending): Result<Answer, ServiceError> {
    if ending.Broke? then Err(Failure(ending.error)) else Ok(Answered(ending))
  }

  function ResumeAnswer(g: Graph, v: View, id: Spec.TaskId, turn: Turn): Result<Answer, ServiceError>
    requires id in g.tasks && g.tasks[id].run.Some?
  {
    var task := g.tasks[id];
    if IsWaiting(v.db, task) || (task.status != Spec.Interrupted && task.status != Spec.Paused) then Ok(UnderWay(task.run))
    else AnswerOf(ResumedEnding(v, task.run.value, turn))
  }

  function ClaimAnswer(g: Graph, id: Spec.TaskId, owner: string, turn: Turn): Result<Answer, ServiceError> {
    if Spec.ClaimTask(g, id, owner).1 == Spec.Claimed then AnswerOf(turn.ending)
    else Ok(UnderWay(if id in g.tasks then g.tasks[id].run else None))
  }

  lemma {:induction false} MovesOfAppend(g: Graph, a: seq<History.Step>, b: seq<History.Step>)
    ensures Moves(g, a + b) == Moves(Moves(g, a), b)
  {
    if b == [] {
      assert a + b == a;
    } else {
      assert (a + b)[..|a + b| - 1] == a + b[..|b| - 1];
      MovesOfAppend(g, a, b[..|b| - 1]);
    }
  }

  lemma OneMove(g: Graph, step: History.Step)
    ensures Moves(g, [step]) == History.Move(g, map[], step)
  {
    assert [step][..0] == [];
  }

  /** A task in progress shows how its turn ended: completed, paused for an approval, as before if the run was busy, or
      interrupted with the error. */
  lemma TurnIsRecorded(g: Graph, id: Spec.TaskId, run: Option<Store.RunId>, trigger: Option<string>, ending: Ending)
    requires id in g.tasks && g.tasks[id].status == Spec.InProgress
    ensures var tasks := Moves(g, AfterTurn(id, run, trigger, ending)).tasks;
            && tasks.Keys == g.tasks.Keys && (forall other :: other in g.tasks && other != id ==> tasks[other] == g.tasks[other])
            && (ending.Done? ==> tasks[id].status == Spec.Completed)
            && (ending.Parked? ==> tasks[id].status == Spec.Paused)
            && (ending.Busy? ==> tasks[id] == g.tasks[id])
            && (ending.Broke? ==>
                  tasks[id].status == Spec.Interrupted && tasks[id].error.Some? && tasks[id].error.value <= ending.error)
  {
    if AfterTurn(id, run, trigger, ending) != [] {
      OneMove(g, AfterTurn(id, run, trigger, ending)[0]);
    }
  }

  /** So every execution is part of a task history, and what holds over these holds for it. */
  lemma {:induction false} MovesAreHistory(s: History.State, steps: seq<History.Step>)
    requires Direct(steps)
    ensures History.Then(s, steps).graph == Moves(s.graph, steps)
  {
    if steps != [] {
      var front, last := steps[..|steps| - 1], steps[|steps| - 1];
      assert last in steps && forall step :: step in front ==> step in steps;
      MovesAreHistory(s, front);
    }
  }

  function ResetSteps(g: Graph, id: Spec.TaskId, trigger: string, recurring: bool): (steps: seq<History.Step>)
    requires id in g.tasks
    ensures Direct(steps)
  {
    if recurring && g.tasks[id].status == Spec.Completed then [History.Reset(id, trigger)] else []
  }

  function TurnSteps(g: Graph, v: View, id: Spec.TaskId, owner: string, trigger: string, turn: Turn)
    : (steps: seq<History.Step>)
    requires id in g.tasks
    ensures Direct(steps)
  {
    var task := g.tasks[id];
    if (task.status == Spec.Interrupted || task.status == Spec.Paused) && task.run.Some?
    then ResumeSteps(g, v, id, owner, turn)
    else ClaimSteps(g, id, owner, trigger, turn)
  }

  /** Everything one execution does to the task graph. */
  function ExecutionSteps(
    g: Graph, v: View, id: Spec.TaskId, owner: string, trigger: string, recurring: bool, turn: Turn)
    : (steps: seq<History.Step>)
    requires id in g.tasks
    ensures Direct(steps)
  {
    var reset := ResetSteps(g, id, trigger, recurring);
    OneMove(g, History.Reset(id, trigger));
    reset + TurnSteps(Moves(g, reset), v, id, owner, trigger, turn)
  }

  /** What an execution answers: about the task as it is after a reset that was due. */
  function ExecutionAnswer(
    g: Graph, v: View, id: Spec.TaskId, owner: string, trigger: string, recurring: bool, turn: Turn)
    : Result<Answer, ServiceError>
    requires id in g.tasks
  {
    var reset := ResetSteps(g, id, trigger, recurring);
    OneMove(g, History.Reset(id, trigger));
    var next := Moves(g, reset);
    var task := next.tasks[id];
    if (task.status == Spec.Interrupted || task.status == Spec.Paused) && task.run.Some?
    then ResumeAnswer(next, v, id, turn) else ClaimAnswer(next, id, owner, turn)
  }

  class TaskService {
    const graph: TaskGraph.TaskGraph
    const store: SessionStore.Store
    const approvals: ApprovalStore.Store

    constructor (graph: TaskGraph.TaskGraph, store: SessionStore.Store, approvals: ApprovalStore.Store)
      ensures this.graph == graph && this.store == store && this.approvals == approvals
    {
      this.graph, this.store, this.approvals := graph, store, approvals;
    }

    ghost function Visible(): View
      reads store, approvals
    {
      View(store.Contents(), approvals.Contents())
    }

    method TransitionRun(run: Store.RunId, target: RunStatus, error: Option<string>) returns (ok: bool)
      modifies store
      ensures (store.Contents(), ok) == MoveRun(old(store.Contents()), store.owner, run, target, error)
    {
      if run !in store.runs {
        return false;
      }
      var row := store.runs[run];
      if row.status != Running && row.status != Interrupted && row.status != WaitingApproval {
        return false;
      }
      ok := store.TransitionRun(run, target, error, if row.status == Running then Some(row.token) else None);
    }

    method Pause(id: Spec.TaskId) returns (r: Result<bool, ServiceError>)
      modifies graph, store
      ensures if id !in old(graph.tasks)
              then
                && r == Err(TaskNotFound)
                && graph.Contents() == old(graph.Contents()) && store.Contents() == old(store.Contents())
              else
                var both := MoveBoth(old(graph.Contents()), old(store.Contents()), store.owner, id,
                                     {Spec.InProgress, Spec.Interrupted}, Spec.Paused, Interrupted, None,
                                     Some("task paused"));
                graph.Contents() == both.0 && store.Contents() == both.1 && r == Ok(both.2)
    {
      if id !in graph.tasks {
        return Err(TaskNotFound);
      }
      var task := graph.tasks[id];
      var changed := graph.Transition(id, {Spec.InProgress, Spec.Interrupted}, Spec.Paused, None, None, None, None);
      if changed && task.run.Some? {
        var moved := TransitionRun(task.run.value, Interrupted, Some("task paused"));
      }
      return Ok(changed);
    }

    /** Cancels or fails a task that has not ended. */
    method End(id: Spec.TaskId, failed: bool, error: Option<string>) returns (r: Result<bool, ServiceError>)
      modifies graph, store
      ensures if id !in old(graph.tasks)
              then
                && r == Err(TaskNotFound)
                && graph.Contents() == old(graph.Contents()) && store.Contents() == old(store.Contents())
              else
                var both := MoveBoth(old(graph.Contents()), old(store.Contents()), store.owner, id, Spec.Unended(),
                                     if failed then Spec.Failed else Spec.Cancelled,
                                     if failed then Failed else Cancelled, error, error);
                graph.Contents() == both.0 && store.Contents() == both.1 && r == Ok(both.2)
    {
      if id !in graph.tasks {
        return Err(TaskNotFound);
      }
      var task := graph.tasks[id];
      var changed := graph.Transition(id, Spec.Unended(), if failed then Spec.Failed else Spec.Cancelled,
                                      None, None, None, error);
      if changed && task.run.Some? {
        var moved := TransitionRun(task.run.value, if failed then Failed else Cancelled, error);
      }
      return Ok(changed);
    }

    /** Records how a turn ended. */
    method ApplyEnding(id: Spec.TaskId, run: Option<Store.RunId>, trigger: Option<string>, ending: Ending)
      modifies graph
      ensures graph.Contents() == Moves(old(graph.Contents()), AfterTurn(id, run, trigger, ending))
    {
      ghost var g := graph.Contents();
      match ending
      case Done(_) =>
        OneMove(g, History.Succeed(id));
        var ok := graph.Transition(id, {Spec.InProgress}, Spec.Completed, None, None, None, None);
      case Parked =>
        OneMove(g, History.Park(id));
        var ok := graph.Transition(id, {Spec.InProgress}, Spec.Paused, None, None, None, None);
      case Busy =>
      case Broke(error) =>
        OneMove(g, History.Break(id, run, trigger, error));
        var ok := graph.Transition(id, {Spec.InProgress}, Spec.Interrupted, None, run, trigger, Some(error));
    }

    method BindIfAny(id: Spec.TaskId, run: Option<Store.RunId>, trigger: string)
      modifies graph
      ensures graph.Contents() == Moves(old(graph.Contents()), BindSteps(id, run, trigger))
    {
      if run.Some? {
        OneMove(graph.Contents(), History.Bind(id, run.value, trigger));
        var ok := graph.BindRun(id, run.value, trigger);
      }
    }

    /** Resumes an interrupted or paused task; `turn` is what the runtime makes of it, if it has to run at all. */
    method ResumeTask(id: Spec.TaskId, owner: string, turn: Turn) returns (r: Result<Answer, ServiceError>)
      modifies graph
      ensures var g, v := old(graph.Contents()), Visible();
              if id !in g.tasks then r == Err(TaskNotFound) && graph.Contents() == g
              else if g.tasks[id].run.None? then r == Err(NoRun) && graph.Contents() == g
              else graph.Contents() == Moves(g, ResumeSteps(g, v, id, owner, turn)) && r == ResumeAnswer(g, v, id, turn)
    {
      if id !in graph.tasks {
        return Err(TaskNotFound);
      }
      if graph.tasks[id].run.None? {
        return Err(NoRun);
      }
      var run := graph.tasks[id].run.value;
      if run in store.runs && store.runs[run].status == WaitingApproval {
        return Ok(UnderWay(Some(run)));
      }
      ghost var g := graph.Contents();
      var ok := graph.Transition(id, {Spec.Interrupted, Spec.Paused}, Spec.InProgress, Some(owner), None, None, None);
      if !ok {
        return Ok(UnderWay(Some(run)));
      }
      OneMove(g, History.Resume(id, owner));
      var ending := ResumeRun(run, turn);
      MovesOfAppend(g, [History.Resume(id, owner)], AfterTurn(id, None, None, ending));
      ApplyEnding(id, None, None, ending);
      return if ending.Broke? then Err(Failure(ending.error)) else Ok(Answered(ending));
    }

    /** The runtime answers for a run that cannot go on, and otherwise runs a turn. */
    method ResumeRun(run: Store.RunId, turn: Turn) returns (ending: Ending)
      ensures ending == ResumedEnding(Visible(), run, turn)
    {
      ending := turn.ending;
      if run !in store.runs {
        return Done("Run was not found.");
      }
      match store.runs[run].status
      case Completed =>
        var response := if store.runs[run].inbound in store.inbound && store.inbound[store.runs[run].inbound].run == run
                        then store.inbound[store.runs[run].inbound].response else None;
        return Done(if response.Some? then response.value else "");
      case Failed => return Done("Run is failed; manual action is required.");
      case Cancelled => return Done("Run is cancelled; manual action is required.");
      case WaitingApproval => return Done("Run is waiting for approval.");
      case _ =>
        var latest := Protocol.LatestCheckpoint(store.checkpoints, run);
        if latest.None? {
          return Done("Run has no recoverable checkpoint.");
        }
        if latest.value.state.action == Store.AwaitApproval {
          if latest.value.state.approval.None? {
            return Done("Run has no recoverable approval request.");
          }
          if latest.value.state.approval.value !in approvals.rows {
            return Done("Approval request was not found.");
          }
          var uncertain := ResultIsUncertain(run, approvals.rows[latest.value.state.approval.value]);
          if uncertain {
            return Done("Approval result is uncertain; run requires manual reconciliation.");
          }
        }
    }

    /** An approved call has begun, but there is no result of it to go on with. */
    method ResultIsUncertain(run: Store.RunId, row: Approvals.Approval) returns (uncertain: bool)
      requires run in store.runs
      ensures uncertain <==>
                && store.runs[run].status == Interrupted
                && (row.status == Approvals.Executing || row.status == Approvals.Executed) && row.remaining != []
                && var claim := Store.GetTool(store.Contents(), run, row.remaining[0]);
                claim.None? || (!claim.value.Replay? && !claim.value.Conflict?)
    {
      if store.runs[run].status != Interrupted || row.remaining == []
         || (row.status != Approvals.Executing && row.status != Approvals.Executed)
      {
        return false;
      }
      var call := row.remaining[0];
      if (run, call.id) !in store.tools {
        return true;
      }
      var claim := Store.RowClaim(store.tools[(run, call.id)], call.name, call.input);
      return !claim.Replay? && !claim.Conflict?;
    }

    /** Claims a task and runs a turn for it, binding the run when it starts and again when the turn is over. */
    method ClaimAndRun(id: Spec.TaskId, owner: string, trigger: string, turn: Turn) returns (r: Result<Answer, ServiceError>)
      modifies graph
      ensures graph.Contents() == Moves(old(graph.Contents()), ClaimSteps(old(graph.Contents()), id, owner, trigger, turn))
      ensures r == ClaimAnswer(old(graph.Contents()), id, owner, turn)
    {
      ghost var g := graph.Contents();
      var claim := graph.ClaimTask(id, owner);
      if claim != Spec.Claimed {
        return Ok(UnderWay(if id in graph.tasks then graph.tasks[id].run else None));
      }
      OneMove(g, History.Take(id, owner));
      ghost var steps := [History.Take(id, owner)];
      if turn.isNew {
        MovesOfAppend(g, steps, BindSteps(id, turn.run, trigger));
        steps := steps + BindSteps(id, turn.run, trigger);
        BindIfAny(id, turn.run, trigger);
      }
      MovesOfAppend(g, steps, BindSteps(id, turn.run, trigger));
      steps := steps + BindSteps(id, turn.run, trigger);
      BindIfAny(id, turn.run, trigger);
      MovesOfAppend(g, steps, AfterTurn(id, turn.run, Some(trigger), turn.ending));
      assert steps + AfterTurn(id, turn.run, Some(trigger), turn.ending) == ClaimSteps(g, id, owner, trigger, turn);
      ApplyEnding(id, turn.run, Some(trigger), turn.ending);
      return if turn.ending.Broke? then Err(Failure(turn.ending.error)) else Ok(Answered(turn.ending));
    }

    /** A completed recurring task is reset first. */
    method ResetIfDue(id: Spec.TaskId, trigger: string, recurring: bool)
      requires id in graph.tasks
      modifies graph
      ensures graph.Contents() == Moves(old(graph.Contents()), ResetSteps(old(graph.Contents()), id, trigger, recurring))
      ensures id in graph.tasks
    {
      if recurring && graph.tasks[id].status == Spec.Completed {
        OneMove(graph.Contents(), History.Reset(id, trigger));
        var ok := graph.ResetForTrigger(id, trigger);
      }
    }

    /** Resets, then resumes an interrupted or paused task with a run, and claims any other. */
    method ExecuteTask(id: Spec.TaskId, owner: string, trigger: string, recurring: bool, turn: Turn)
      returns (r: Result<Answer, ServiceError>)
      modifies graph
      ensures var g := old(graph.Contents());
              if id !in g.tasks then r == Err(TaskNotFound) && graph.Contents() == g
              else
                && graph.Contents() == Moves(g, ExecutionSteps(g, Visible(), id, owner, trigger, recurring, turn))
                && r == ExecutionAnswer(g, Visible(), id, owner, trigger, recurring, turn)
    {
      if id !in graph.tasks {
        return Err(TaskNotFound);
      }
      ghost var g := graph.Contents();
      ResetIfDue(id, trigger, recurring);
      ghost var h, reset := graph.Contents(), ResetSteps(g, id, trigger, recurring);
      MovesOfAppend(g, reset, TurnSteps(h, Visible(), id, owner, trigger, turn));
      var task := graph.tasks[id];
      if (task.status == Spec.Interrupted || task.status == Spec.Paused) && task.run.Some? {
        r := ResumeTask(id, owner, turn);
      } else {
        r := ClaimAndRun(id, owner, trigger, turn);
      }
    }

    /** Brings the task of a run to the status of the run. */
    method ReconcileRun(run: Store.RunId) returns (id: Option<Spec.TaskId>)
      modifies graph
      ensures id == Spec.FindByRun(old(graph.tasks), old(graph.order), run)
      ensures id.None? || run !in store.runs ==> graph.Contents() == old(graph.Contents())
      ensures id.Some? && run in store.runs ==>
                && id.value in graph.tasks && graph.tasks[id.value].status == StatusOf(store.runs[run].status)
                && graph.tasks[id.value].run == Some(run)
                && forall other :: other in graph.tasks && other != id.value ==>
                     other in old(graph.tasks) && graph.tasks[other] == old(graph.tasks)[other]
    {
      id := graph.FindTaskByRun(run);
      if id.None? || run !in store.runs {
        return;
      }
      var status, target := graph.tasks[id.value].status, StatusOf(store.runs[run].status);
      if status != target {
        var ok := graph.Transition(id.value, {status}, target, None, None, None, store.runs[run].error);
      }
    }
  }

  /** Which runs follow their task: a pause reaches a run exactly when it runs here, not one that waits for an approval;
      ending a task also ends a waiting or interrupted run, but not one that runs elsewhere. */
  lemma RunFollowsExactlyWhen(
    db: Db, owner: Store.OwnerId, run: Store.RunId, target: RunStatus, error: Option<string>)
    requires target == Interrupted || target == Failed || target == Cancelled
    ensures MoveRun(db, owner, run, target, error).1 <==>
              && run in db.runs
              && var row := db.runs[run];
              || (row.status == Running && row.owner == Some(owner))
              || (target != Interrupted && (row.status == WaitingApproval || row.status == Interrupted))
    ensures MoveRun(db, owner, run, target, error).1 ==>
              run in MoveRun(db, owner, run, target, error).0.runs
              && MoveRun(db, owner, run, target, error).0.runs[run].status == target
  {
  }

  /** A task and its run agree about having ended. */
  predicate EndsAgree(g: Graph, db: Db, id: Spec.TaskId, run: Store.RunId)
    requires id in g.tasks && run in db.runs
  {
    g.tasks[id].status == Spec.Cancelled ==> db.runs[run].status == Cancelled
  }

  /** Cancelling a task leaves its run going exactly when another process runs it, or when the run ended differently. */
  lemma CancelledTaskKeepsItsRunExactlyWhen(g: Graph, db: Db, owner: Store.OwnerId, id: Spec.TaskId, run: Store.RunId)
    requires id in g.tasks && g.tasks[id].run == Some(run) && run in db.runs && g.tasks[id].status in Spec.Unended()
    ensures var (next, after, changed) :=
              MoveBoth(g, db, owner, id, Spec.Unended(), Spec.Cancelled, Cancelled, None, None);
            && changed && run in after.runs
            && (EndsAgree(next, after, id, run) <==>
                  !(db.runs[run].status == Running && db.runs[run].owner != Some(owner))
                  && db.runs[run].status != Completed && db.runs[run].status != Failed)
  {
    RunFollowsExactlyWhen(db, owner, run, Cancelled, None);
  }

  /******* Where task and run part ways *******/

  predicate Finished(db: Db, run: Store.RunId) {
    run in db.runs && db.runs[run].status == Completed
  }

  /** The run is gone, has failed or was cancelled, has no checkpoint, waits for an approval that is not there, or for
      one whose call has begun without a result. */
  predicate Unrecoverable(v: View, run: Store.RunId) {
    || run !in v.db.runs || v.db.runs[run].status == Failed || v.db.runs[run].status == Cancelled
    || ((v.db.runs[run].status == Running || v.db.runs[run].status == Interrupted)
        && (LacksCheckpoint(v, run) || IsUncertain(v, run)))
  }

  predicate LacksCheckpoint(v: View, run: Store.RunId) {
    var latest := Protocol.LatestCheckpoint(v.db.checkpoints, run);
    || latest.None?
    || (latest.value.state.action == Store.AwaitApproval
        && (latest.value.state.approval.None? || latest.value.state.approval.value !in v.approvals.rows))
  }

  /** Apart from the answers above, a turn is reported as done only after its run was completed. So a resumed task ends as
      completed rightly if and only if there was something to resume. */
  lemma ResumedTaskIsTruthfulExactlyWhen(g: Graph, v: View, after: Db, id: Spec.TaskId, owner: string, turn: Turn)
    requires id in g.tasks && g.tasks[id].run.Some? && !IsWaiting(v.db, g.tasks[id])
    requires g.tasks[id].status == Spec.Interrupted || g.tasks[id].status == Spec.Paused
    requires var run := g.tasks[id].run.value;
             if EarlyAnswer(v, run).Some? then after == v.db
             else if IsUncertain(v, run) then run in after.runs && after.runs[run].status == Failed
             else turn.ending.Done? ==> Finished(after, run)
    ensures var next := Moves(g, ResumeSteps(g, v, id, owner, turn));
            var run := g.tasks[id].run.value;
            && id in next.tasks && next.tasks[id].run == Some(run)
            && ((next.tasks[id].status == Spec.Completed ==> Finished(after, run)) <==> !Unrecoverable(v, run))
  {
    var run := g.tasks[id].run.value;
    ResumedTaskShowsItsEnding(g, id, owner, ResumedEnding(v, run, turn));
    EndingIsTruthfulExactlyWhen(v, after, run, turn);
  }

  lemma EndingIsTruthfulExactlyWhen(v: View, after: Db, run: Store.RunId, turn: Turn)
    requires run in v.db.runs ==> v.db.runs[run].status != WaitingApproval
    requires if EarlyAnswer(v, run).Some? then after == v.db
             else if IsUncertain(v, run) then run in after.runs && after.runs[run].status == Failed
             else turn.ending.Done? ==> Finished(after, run)
    ensures (ResumedEnding(v, run, turn).Done? ==> Finished(after, run)) <==> !Unrecoverable(v, run)
  {
  }

  /** A resumed task is completed exactly if its turn is reported as done. */
  lemma ResumedTaskShowsItsEnding(g: Graph, id: Spec.TaskId, owner: string, ending: Ending)
    requires id in g.tasks && (g.tasks[id].status == Spec.Interrupted || g.tasks[id].status == Spec.Paused)
    ensures var next := Moves(g, [History.Resume(id, owner)] + AfterTurn(id, None, None, ending));
            && id in next.tasks && next.tasks[id].run == g.tasks[id].run
            && (next.tasks[id].status == Spec.Completed <==> ending.Done?)
  {
    var last := AfterTurn(id, None, None, ending);
    MovesOfAppend(g, [History.Resume(id, owner)], last);
    OneMove(g, History.Resume(id, owner));
    if last != [] {
      assert last == [last[0]];
      OneMove(Moves(g, [History.Resume(id, owner)]), last[0]);
    }
  }

  /** A task "job" bound to run 0. */
  function Bound(status: Spec.TaskStatus, version: nat, error: Option<string>): Graph {
    Spec.Graph(map["job" := Spec.Task("job", [], status, Some("w"), Some(0), Some("m"), error, version)], ["job"])
  }

  const STARTING: seq<History.Step> := [History.Add("job", "job", []), History.Take("job", "w"), History.Bind("job", 0, "m")]
  const BROKEN: History.Step := History.Break("job", Some(0), Some("m"), "network")

  lemma OneStepMore(steps: seq<History.Step>, step: History.Step)
    ensures History.Run(steps + [step]).graph == History.Move(History.Run(steps).graph, History.Run(steps).seen, step)
  {
    assert (steps + [step])[..|steps|] == steps;
  }

  lemma TakenIsReached()
    ensures History.Run([STARTING[0], STARTING[1]]).graph
         == Spec.Graph(map["job" := Spec.Task("job", [], Spec.InProgress, Some("w"), None, None, None, 2)], ["job"])
  {
    OneStepMore([], STARTING[0]);
    OneStepMore([STARTING[0]], STARTING[1]);
    assert [] + [STARTING[0]] == [STARTING[0]] && [STARTING[0]] + [STARTING[1]] == [STARTING[0], STARTING[1]];
    var added := History.Run([STARTING[0]]).graph;
    Spec.ClaimedExactlyWhen(added, "job", "w");
    assert added.tasks["job"] == Spec.Task("job", [], Spec.Pending, None, None, None, None, 1);
  }

  lemma BoundIsReached()
    ensures History.Run(STARTING).graph == Bound(Spec.InProgress, 3, None)
    ensures History.Run(STARTING + [BROKEN]).graph == Bound(Spec.Interrupted, 4, Some("network"))
  {
    TakenIsReached();
    OneStepMore([STARTING[0], STARTING[1]], STARTING[2]);
    OneStepMore(STARTING, BROKEN);
    assert [STARTING[0], STARTING[1]] + [STARTING[2]] == STARTING;
  }

  lemma RunIsCancelled(owner: Store.OwnerId)
    ensures var db := Operations.Exec(Store.EMPTY_DB, [Operations.Start(owner, Operations.SOME_START, 0, 0, 30),
                                                       Operations.ControlOp("t", 0, Store.Cancel)]);
            0 in db.runs && db.runs[0].status == Cancelled
  {
    TwoOps(owner, Operations.ControlOp("t", 0, Store.Cancel));
  }

  /** An administrator cancels the run of an interrupted task; recovering the task then marks it as completed. */
  lemma CancelledRunCompletesItsTask(owner: Store.OwnerId, turn: Turn)
    ensures var g := History.Run(STARTING + [BROKEN]).graph;
            var db := Operations.Exec(Store.EMPTY_DB, [Operations.Start(owner, Operations.SOME_START, 0, 0, 30),
                                                       Operations.ControlOp("t", 0, Store.Cancel)]);
            && "job" in g.tasks && g.tasks["job"].run == Some(0) && 0 in db.runs && db.runs[0].status == Cancelled
            && var next := Moves(g, ResumeSteps(g, View(db, Approvals.NO_APPROVALS), "job", "w", turn));
            && "job" in next.tasks && next.tasks["job"].status == Spec.Completed
  {
    BoundIsReached();
    RunIsCancelled(owner);
    var g := Bound(Spec.Interrupted, 4, Some("network"));
    var db := Operations.Exec(Store.EMPTY_DB, [Operations.Start(owner, Operations.SOME_START, 0, 0, 30),
                                               Operations.ControlOp("t", 0, Store.Cancel)]);
    ResumedTaskIsTruthfulExactlyWhen(g, View(db, Approvals.NO_APPROVALS), db, "job", "w", turn);
  }

  /** What becomes of run 0 in two transactions. */
  lemma TwoOps(owner: Store.OwnerId, second: Operations.Op)
    ensures var first := Operations.Start(owner, Operations.SOME_START, 0, 0, 30);
            var started := Operations.Apply(Store.EMPTY_DB, first);
            && Operations.Exec(Store.EMPTY_DB, [first, second]) == Operations.Apply(started, second)
            && 0 in started.runs
            && started.runs[0] == Store.Run(Operations.SOME_SESSION, Operations.SOME_SENDER.Key(), Running, None,
                                            Some(owner), Some(30), 1)
  {
    var first := Operations.Start(owner, Operations.SOME_START, 0, 0, 30);
    assert [first, second][..1] == [first];
    Operations.ExecOne(Store.EMPTY_DB, first);
  }

  /** A task is cancelled by another process than the one that runs it: its run goes on. */
  lemma CancelledTaskLeavesRunGoing(owner: Store.OwnerId, other: Store.OwnerId)
    requires owner != other
    ensures var g := History.Run(STARTING).graph;
            var db := Operations.Exec(Store.EMPTY_DB, [Operations.Start(other, Operations.SOME_START, 0, 0, 30)]);
            && "job" in g.tasks
            && var (next, after, changed) :=
                 MoveBoth(g, db, owner, "job", Spec.Unended(), Spec.Cancelled, Cancelled, None, None);
            && changed && "job" in next.tasks && next.tasks["job"].status == Spec.Cancelled
            && next.tasks["job"].run == Some(0) && 0 in after.runs && after.runs[0].status == Running
  {
    BoundIsReached();
    Operations.ExecOne(Store.EMPTY_DB, Operations.Start(other, Operations.SOME_START, 0, 0, 30));
  }

  lemma PausingLeavesAWaitingRun(g: Graph, db: Db, owner: Store.OwnerId, id: Spec.TaskId, run: Store.RunId)
    requires id in g.tasks && g.tasks[id].status == Spec.InProgress && g.tasks[id].run == Some(run)
    requires run in db.runs && db.runs[run].status == WaitingApproval
    ensures var (next, after, changed) :=
              MoveBoth(g, db, owner, id, {Spec.InProgress, Spec.Interrupted}, Spec.Paused, Interrupted, None,
                       Some("task paused"));
            && changed && id in next.tasks && next.tasks[id].status == Spec.Paused
            && next.tasks[id].run == Some(run) && run in after.runs && after.runs[run].status == WaitingApproval
  {
  }

  /** A task in progress whose run waits for an approval is paused: the run still waits, and may go on by itself. */
  lemma PausedTaskLeavesRunWaiting(owner: Store.OwnerId)
    ensures var g := History.Run(STARTING).graph;
            var db := Operations.Exec(Store.EMPTY_DB, [Operations.Start(owner, Operations.SOME_START, 0, 0, 30),
                                                       Operations.Move(owner, 0, WaitingApproval, None, Some(1))]);
            && "job" in g.tasks
            && var (next, after, changed) :=
                 MoveBoth(g, db, owner, "job", {Spec.InProgress, Spec.Interrupted}, Spec.Paused, Interrupted, None,
                          Some("task paused"));
            && changed && "job" in next.tasks && next.tasks["job"].status == Spec.Paused
            && next.tasks["job"].run == Some(0) && 0 in after.runs && after.runs[0].status == WaitingApproval
  {
    BoundIsReached();
    var op := Operations.Move(owner, 0, WaitingApproval, None, Some(1));
    TwoOps(owner, op);
    PausingLeavesAWaitingRun(
      History.Run(STARTING).graph,
      Operations.Exec(Store.EMPTY_DB, [Operations.Start(owner, Operations.SOME_START, 0, 0, 30), op]), owner, "job", 0);
  }
}
