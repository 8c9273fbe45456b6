/** The durable task graph: guarded updates of single rows. */
module TaskSpec {
  import opened Wrappers

  type TaskId = string
  type RunRef = nat

  datatype TaskStatus = Pending | InProgress | Completed | Paused | Interrupted | Failed | Cancelled

  datatype Task = Task(
    subject: string, blockedBy: seq<TaskId>, status: TaskStatus, owner: Option<string>, run: Option<RunRef>,
    trigger: Option<string>, error: Option<string>, version: nat)

  /** Rows by id, and the ids in order of creation. */
  datatype Graph = Graph(tasks: map<TaskId, Task>, order: seq<TaskId>)

  const EMPTY_GRAPH := Graph(map[], [])

  datatype Claim = Claimed | Unknown | NotPending(status: TaskStatus) | Problems(blocked: seq<TaskId>, missing: seq<TaskId>)

  function CreateTask(g: Graph, id: TaskId, subject: string, blockedBy: seq<TaskId>): (Graph, bool) {
    if id in g.tasks then (g, false)
    else
      (Graph(g.tasks[id := Task(subject, blockedBy, Pending, None, None, None, None, 1)], g.order + [id]), true)
  }

  predicate IsBlocking(tasks: map<TaskId, Task>, id: TaskId) {
    id in tasks && tasks[id].status != Completed
  }

  function Blocked(tasks: map<TaskId, Task>, ids: seq<TaskId>): (blocked: seq<TaskId>)
    ensures forall id :: id in blocked <==> id in ids && IsBlocking(tasks, id)
    ensures (forall id :: id in ids ==> !IsBlocking(tasks, id)) ==> blocked == []
  {
    if ids == [] then []
    else
      var last := ids[|ids| - 1];
      Blocked(tasks, ids[..|ids| - 1]) + if IsBlocking(tasks, last) then [last] else []
  }

  function Missing(tasks: map<TaskId, Task>, ids: seq<TaskId>): (missing: seq<TaskId>)
    ensures forall id :: id in missing <==> id in ids && id !in tasks
    ensures (forall id :: id in ids ==> id in tasks) ==> missing == []
  {
    if ids == [] then []
    else
      var last := ids[|ids| - 1];
      Missing(tasks, ids[..|ids| - 1]) + if last !in tasks then [last] else []
  }

  /** Startable: every dependency exists and is completed. */
  predicate Ready(g: Graph, id: TaskId) {
    id in g.tasks && forall d :: d in g.tasks[id].blockedBy ==> d in g.tasks && g.tasks[d].status == Completed
  }

  function ClaimTask(g: Graph, id: TaskId, owner: string): (Graph, Claim) {
    if id !in g.tasks then (g, Unknown)
    else
      var task := g.tasks[id];
      var blocked, missing := Blocked(g.tasks, task.blockedBy), Missing(g.tasks, task.blockedBy);
      if task.status != Pending then (g, NotPending(task.status))
      else if blocked != [] || missing != [] then (g, Problems(blocked, missing))
      else
        (g.(tasks := g.tasks[id := task.(status := InProgress, owner := Some(owner), version := task.version + 1)]), Claimed)
  }

  /** The statuses a task can be ended from. */
  function Unended(): set<TaskStatus> {
    {Pending, InProgress, Interrupted, Paused}
  }

  function Clip(error: string): string {
    if |error| > 1000 then error[..1000] else error
  }

  function Or<T>(value: Option<T>, current: Option<T>): Option<T> {
    if value.Some? then value else current
  }

  /** Fields that are not given keep their value. */
  function Transition(
    g: Graph, id: TaskId, expected: set<TaskStatus>, status: TaskStatus,
    owner: Option<string>, run: Option<RunRef>, trigger: Option<string>, error: Option<string>)
    : (Graph, bool)
  {
    if id in g.tasks && g.tasks[id].status in expected then
      var task := g.tasks[id];
      var cut := if error.Some? then Some(Clip(error.value)) else task.error;
      (g.(tasks := g.tasks[id := task.(status := status, owner := Or(owner, task.owner), run := Or(run, task.run),
                                       trigger := Or(trigger, task.trigger), error := cut, version := task.version + 1)]),
       true)
    else (g, false)
  }

  function BindRun(g: Graph, id: TaskId, run: RunRef, trigger: string): (Graph, bool) {
    if id in g.tasks && g.tasks[id].status == InProgress && (g.tasks[id].run.None? || g.tasks[id].run == Some(run)) then
      var task := g.tasks[id];
      (g.(tasks := g.tasks[id := task.(run := Some(run), trigger := Some(trigger), version := task.version + 1)]), true)
    else (g, false)
  }

  /** A completed recurring task becomes pending again for another trigger. */
  function ResetForTrigger(g: Graph, id: TaskId, trigger: string): (Graph, bool) {
    if id in g.tasks && g.tasks[id].status == Completed && g.tasks[id].trigger != Some(trigger) then
      var task := g.tasks[id];
      (g.(tasks := g.tasks[id := task.(status := Pending, owner := None, run := None, trigger := Some(trigger),
                                       error := None, version := task.version + 1)]),
       true)
    else (g, false)
  }

  /** The oldest task bound to a run. */
  function FindByRun(tasks: map<TaskId, Task>, order: seq<TaskId>, run: RunRef): (id: Option<TaskId>)
    ensures id.Some? ==> id.value in tasks && tasks[id.value].run == Some(run)
  {
    if order == [] then None
    else if order[0] in tasks && tasks[order[0]].run == Some(run) then Some(order[0])
    else FindByRun(tasks, order[1..], run)
  }

  /** A claim succeeds exactly for a pending task whose dependencies are all completed. */
  lemma ClaimedExactlyWhen(g: Graph, id: TaskId, owner: string)
    ensures ClaimTask(g, id, owner).1 == Claimed <==> Ready(g, id) && g.tasks[id].status == Pending
  {
    if id in g.tasks {
      var deps := g.tasks[id].blockedBy;
      var blocked, missing := Blocked(g.tasks, deps), Missing(g.tasks, deps);
      if !Ready(g, id) {
        var d :| d in deps && !(d in g.tasks && g.tasks[d].status == Completed);
        assert d in blocked || d in missing;
      }
    }
  }

  /** A transition writes what it is given, clips the error to 1000 characters, counts one version up, and leaves every
      other field and every other task as it was. */
  lemma TransitionWritesWhatIsGiven(
    g: Graph, id: TaskId, expected: set<TaskStatus>, status: TaskStatus,
    owner: Option<string>, run: Option<RunRef>, trigger: Option<string>, error: Option<string>)
    requires Transition(g, id, expected, status, owner, run, trigger, error).1
    ensures var next := Transition(g, id, expected, status, owner, run, trigger, error).0;
            && id in g.tasks && g.tasks[id].status in expected
            && id in next.tasks && next == g.(tasks := g.tasks[id := next.tasks[id]])
            && var before, after := g.tasks[id], next.tasks[id];
            && after.status == status && after.version == before.version + 1
            && after.subject == before.subject && after.blockedBy == before.blockedBy
            && after.owner == (if owner == None then before.owner else owner)
            && after.run == (if run == None then before.run else run)
            && after.trigger == (if trigger == None then before.trigger else trigger)
            && (error == None ==> after.error == before.error)
            && (error != None ==>
                  && after.error.Some? && after.error.value <= error.value && |after.error.value| <= 1000
                  && (|error.value| <= 1000 || |after.error.value| == 1000)
                  && (|error.value| <= 1000 ==> after.error == error))
  {
  }

  /** The task found for a run is bound to it, and none before it in the order of creation is. */
  lemma {:induction false} OldestIsFound(tasks: map<TaskId, Task>, order: seq<TaskId>, run: RunRef)
    ensures var bound := (id: TaskId) => id in tasks && tasks[id].run == Some(run);
            match FindByRun(tasks, order, run)
            case None => forall k :: 0 <= k < |order| ==> !bound(order[k])
            case Some(id) => exists k :: 0 <= k < |order| && order[k] == id && bound(id)
                                         && forall j :: 0 <= j < k ==> !bound(order[j])
  {
    if order != [] && !(order[0] in tasks && tasks[order[0]].run == Some(run)) {
      OldestIsFound(tasks, order[1..], run);
      var found := FindByRun(tasks, order[1..], run);
      if found.Some? {
        var k :| 0 <= k < |order[1..]| && order[1..][k] == found.value
                 && forall j :: 0 <= j < k ==> !(order[1..][j] in tasks && tasks[order[1..][j]].run == Some(run));
        assert order[k + 1] == found.value;
        assert forall j :: 0 < j < k + 1 ==> order[j] == order[1..][j - 1];
      } else {
        assert forall j :: 0 < j < |order| ==> order[j] == order[1..][j - 1];
      }
    }
  }
}
