/**
 The durable run protocol: any number of workers drive runs through model calls, tool calls and approvals,
 and crash, fail, lose their lease or resume from checkpoints at any point. A world is the shared state
 (both databases) and one program counter per worker; each step is one transaction of a worker, one entry into
 a tool handler, or one transaction of the environment (approval clicks, admin, task service, retention, lease
 expiry). Reads that only decide whether to give up early are left out, so the world has every run of the program
 and possibly more.
 */
module Protocol {
  import opened Wrappers
  import opened RunState
  import opened Blocks
  import opened StoreSpec
  import opened StoreHistory
  import opened ApprovalSpec
  import opened Tokens

  type WorkerId = nat

  datatype Permission = Allow | Deny(reason: string) | RequireApproval

  /** What is fixed over a history: the store, the permission policy with its hooks and skills, the limits. */
  datatype Config = Config(backend: Backend, policy: Call -> Permission, approvals: bool, maxTurns: nat)

  /** Observations that no row records. */
  datatype Event =
    | Entered(run: RunId, call: Call, via: Option<ApprovalId>, gate: Option<ApprovalStatus>, row: ToolStatus)
    | Confirmed(approval: ApprovalId, identity: Identity, at: Time)

  /** A response of the model. */
  datatype Heard = Heard(run: RunId, blocks: seq<Block>)

  /** `issued` maps every call the model made to the rest of its batch, itself first; `heard` holds its responses. */
  datatype Shared = Shared(
    db: Db, approvals: ApprovalDb, issued: map<(RunId, CallId), seq<Call>>, log: seq<Event>, heard: seq<Heard>)

  /** A worker's copy of its run: the token it read, its messages, the next turn, whether a failure interrupts the run,
      and for whom it runs. */
  datatype Ctx = Ctx(run: RunId, token: nat, msgs: seq<Block>, turn: nat, guarded: bool, identity: Option<Identity>)

  datatype Origin = FromCheckpoint(state: State) | FromApproval(approval: ApprovalId, status: ApprovalStatus)

  /** Where a worker is; each counter names what it will do next. */
  datatype Pc =
    | Idle
    | Building(ctx: Ctx)
    | Loaded(run: RunId, state: State)
    | Reparking(run: RunId)
    | Opening(approval: ApprovalId)
    | Opened(approval: ApprovalId, status: ApprovalStatus)
    | Claimed(run: RunId, origin: Origin)
    | Turn(ctx: Ctx)
    | Asking(ctx: Ctx)
    | Finalizing(ctx: Ctx, text: string)
    | Completing(ctx: Ctx, text: string)
    | Batch(ctx: Ctx, todo: seq<Call>)
    | Calls(ctx: Ctx, todo: seq<Call>)
    | Gate(ctx: Ctx, todo: seq<Call>, approval: ApprovalId)
    | Parking(ctx: Ctx)
    | Answered(ctx: Ctx, todo: seq<Call>, phase: string)
    | Resuming(ctx: Ctx, todo: seq<Call>, approval: ApprovalId, status: ApprovalStatus)
    | Doubtful(ctx: Ctx)
    | Invoking(ctx: Ctx, todo: seq<Call>, via: Option<ApprovalId>)
    | Entering(ctx: Ctx, todo: seq<Call>, via: Option<ApprovalId>)
    | InHandler(ctx: Ctx, todo: seq<Call>, via: Option<ApprovalId>)
    | Recording(ctx: Ctx, todo: seq<Call>, via: Option<ApprovalId>, outcome: Outcome, checked: bool)
    | Settling(ctx: Ctx, todo: seq<Call>, approval: ApprovalId, result: Outcome, answer: string)
    | Raising(ctx: Ctx)

  datatype Worker = Worker(owner: OwnerId, pc: Pc)

  datatype World = World(shared: Shared, workers: map<WorkerId, Worker>)

  const INITIAL_WORLD := World(Shared(EMPTY_DB, NO_APPROVALS, map[], [], []), map[])

  /** What the outside contributes to a step: clocks, fresh ids, the model's answer, the handler's outcome. */
  datatype Input = Input(
    now: Time, lease: Time, id: nat, expires: Time, blocks: seq<Block>, outcome: Outcome,
    flag: bool)

  datatype Move =
    | Begin(req: InboundRequest, id: RunId, now: Time, lease: Time)
    | Load(run: RunId)
    | Open(approval: ApprovalId)
    | Next(input: Input)
    | Fail
    | Crash

  datatype Act =
    | Spawn(worker: WorkerId, owner: OwnerId)
    | Work(worker: WorkerId, move: Move)
    | Store(op: Op)
    | Click(approval: ApprovalId, action: Option<ApprovalAction>, identity: Identity, event: string, now: Time)
    | Expire(now: Time)
    | Consume(approval: ApprovalId, now: Time)

  /******* Helpers of the loop *******/

  /** `reason` as it stands in a JSON string. */
  function NotExecuted(reason: string): string {
    "{\"executed\": false, \"reason\": \"" + reason + "\"}"
  }

  function Answer(ctx: Ctx, call: Call, content: string): Ctx {
    ctx.(msgs := ctx.msgs + [ToolResult(call.id, content)])
  }

  /** The text of a response: its text blocks, one a line. */
  function ResponseText(blocks: seq<Block>): string {
    if blocks == [] then ""
    else
      var front, last := ResponseText(blocks[..|blocks| - 1]), blocks[|blocks| - 1];
      if !last.Text? then front
      else if exists b :: b in blocks[..|blocks| - 1] && b.Text? then front + "\n" + last.text
      else last.text
  }

  /** Call ids are unique within a run, so a response brings ids never seen before. */
  predicate FreshResponse(issued: map<(RunId, CallId), seq<Call>>, run: RunId, blocks: seq<Block>) {
    IsResponse(blocks) && DistinctIds(CallsIn(blocks))
    && forall c :: c in CallsIn(blocks) ==> (run, c.id) !in issued
  }

  /** Every call of a batch with the rest of the batch from it on. */
  function Issue(issued: map<(RunId, CallId), seq<Call>>, run: RunId, calls: seq<Call>)
    : map<(RunId, CallId), seq<Call>>
  {
    if calls == [] then issued else Issue(issued, run, calls[1..])[(run, calls[0].id) := calls]
  }

  function AfterFailure(ctx: Ctx): Pc {
    if ctx.guarded then Raising(ctx) else Idle
  }

  /** Saves a checkpoint under the worker's token, or fails the worker. */
  function SaveThen(s: Shared, owner: OwnerId, ctx: Ctx, phase: string, state: State, now: Time, then': Pc): (Shared, Pc) {
    var (db, ok) := SaveCheckpoint(s.db, owner, ctx.run, phase, state, Some(ctx.token), now);
    (s.(db := db), if ok then then' else AfterFailure(ctx))
  }

  /** A tool call came back: directly, or through an approval that must still be settled. */
  function Finished(ctx: Ctx, todo: seq<Call>, via: Option<ApprovalId>, result: Outcome): Pc
    requires todo != []
  {
    var content := match result
      case Returned(output) => output
      case Raised(error) => "Tool execution failed: " + error;
    if via.None? then Answered(Answer(ctx, todo[0], content), todo[1..], "after_tool")
    else Settling(ctx, todo, via.value, result, content)
  }

  /******* One step of a worker *******/

  function Advance(cfg: Config, s: Shared, owner: OwnerId, pc: Pc, i: Input): (Shared, Pc) {
    match pc
    case Idle => (s, Idle)
    case Building(ctx) => Build(s, owner, ctx, i)
    case Loaded(run, state) => ClaimLoaded(s, owner, run, state, i)
    case Reparking(run) => (s.(db := TransitionRun(s.db, owner, run, WaitingApproval, None, None).0), Idle)
    case Opening(approval) => Read(s, approval)
    case Opened(approval, status) => ClaimOpened(s, owner, approval, status, i)
    case Claimed(run, origin) => ReadBack(s, run, origin)
    case Turn(ctx) => BeforeModel(cfg, s, owner, ctx, i)
    case Asking(ctx) => Ask(s, owner, ctx, i)
    case Finalizing(ctx, text) =>
      SaveThen(s, owner, ctx, "before_finalize",
               State(Finalize, ctx.msgs, [], Some(text), None, ctx.turn, ctx.identity), i.now, Completing(ctx, text))
    case Completing(ctx, text) =>
      var (db, ok) := CompleteRun(s.db, owner, ctx.run, text, Some(ctx.token), i.now);
      (s.(db := db), if ok then Idle else AfterFailure(ctx))
    case Batch(ctx, todo) =>
      SaveThen(s, owner, ctx, "before_tools", State(Tools, ctx.msgs, todo, None, None, ctx.turn, ctx.identity), i.now,
               Calls(ctx, todo))
    case Calls(ctx, todo) => if todo == [] then (s, Turn(ctx)) else DecideCall(cfg, s, ctx, todo, i)
    case Gate(ctx, todo, approval) =>
      SaveThen(s, owner, ctx, "waiting_approval",
               State(AwaitApproval, ctx.msgs, [], None, Some(approval), ctx.turn, ctx.identity),
               i.now, Parking(ctx))
    case Parking(ctx) =>
      (s.(db := TransitionRun(s.db, owner, ctx.run, WaitingApproval, None, Some(ctx.token)).0), Idle)
    case Answered(ctx, todo, phase) =>
      SaveThen(s, owner, ctx, phase,
               State(if todo == [] then Model else Tools, ctx.msgs, todo, None, None, ctx.turn, ctx.identity), i.now,
               Calls(ctx, todo))
    case Resuming(ctx, todo, approval, status) =>
      if todo == [] then (s, Idle) else ResumeRequest(cfg, s, ctx, todo, approval, status, i)
    case Doubtful(ctx) =>
      (s.(db := TransitionRun(s.db, owner, ctx.run, Failed, Some("approved tool result is uncertain"),
                              Some(ctx.token)).0), Idle)
    case Invoking(ctx, todo, via) => if todo == [] then (s, Idle) else Invoke(cfg, s, owner, ctx, todo, via, i)
    case Entering(ctx, todo, via) => if todo == [] then (s, Idle) else Enter(s, ctx, todo, via)
    case InHandler(ctx, todo, via) => (s, Recording(ctx, todo, via, i.outcome, false))
    case Recording(ctx, todo, via, outcome, checked) =>
      if todo == [] then (s, Idle) else RecordOutcome(cfg, s, owner, ctx, todo, via, outcome, checked, i)
    case Settling(ctx, todo, approval, result, answer) =>
      if todo == [] then (s, Idle)
      else
        (s.(approvals := SettleExecution(s.approvals, approval, result)),
         Answered(Answer(ctx, todo[0], answer), todo[1..], "after_approval"))
    case Raising(ctx) =>
      var error := if i.outcome.Raised? then Some(i.outcome.error) else None;
      (s.(db := TransitionRun(s.db, owner, ctx.run, Interrupted, error, Some(ctx.token)).0), Idle)
  }

  /** With a context manager, the first checkpoint is replaced by one built from summary, memory and history. */
  function Build(s: Shared, owner: OwnerId, ctx: Ctx, i: Input): (Shared, Pc) {
    if !i.flag then (s, Turn(ctx.(guarded := true)))
    else if !OnlyDicts(i.blocks) then (s, Building(ctx))
    else
      var built := ctx.(msgs := i.blocks);
      SaveThen(s, owner, built, "context_built", State(Model, i.blocks, [], None, None, 0, ctx.identity), i.now,
               Turn(built.(guarded := true)))
  }

  /** Resuming a run: the checkpoint was read before this claim and may be stale by now. */
  function ClaimLoaded(s: Shared, owner: OwnerId, run: RunId, state: State, i: Input): (Shared, Pc) {
    if state.action == AwaitApproval then
      if state.approval.None? || state.approval.value !in s.approvals.rows then (s, Idle)
      else if s.approvals.rows[state.approval.value].status == Undecided then (s, Reparking(run))
      else (s, Opening(state.approval.value))
    else
      var (db, ok) := ClaimRun(s.db, owner, run, ClaimSources(false), i.lease);
      (s.(db := db), if ok then Claimed(run, FromCheckpoint(state)) else Idle)
  }

  /** Resuming an approval: a decided request of a durable run. */
  function Read(s: Shared, approval: ApprovalId): (Shared, Pc) {
    if approval !in s.approvals.rows || s.approvals.rows[approval].run.None?
       || s.approvals.rows[approval].status == Undecided
    then (s, Idle)
    else (s, Opened(approval, s.approvals.rows[approval].status))
  }

  function ClaimOpened(s: Shared, owner: OwnerId, approval: ApprovalId, status: ApprovalStatus, i: Input): (Shared, Pc) {
    if approval !in s.approvals.rows || s.approvals.rows[approval].run.None? then (s, Idle)
    else
      var run := s.approvals.rows[approval].run.value;
      var (db, ok) := ClaimRun(s.db, owner, run, ClaimSources(true), i.lease);
      (s.(db := db), if ok then Claimed(run, FromApproval(approval, status)) else Idle)
  }

  /** The claim is followed by a separate read of the row, so the token may already be someone else's. */
  function ReadBack(s: Shared, run: RunId, origin: Origin): (Shared, Pc) {
    if run !in s.db.runs then (s, Idle)
    else
      var token := s.db.runs[run].token;
      match origin
      case FromCheckpoint(state) =>
        var ctx := Ctx(run, token, state.messages, state.nextTurn, true, state.identity);
        (s, match state.action
            case Finalize => Completing(ctx, if state.response.Some? then state.response.value else "")
            case Tools => Calls(ctx, state.remaining)
            case Model => Turn(ctx)
            case AwaitApproval => Idle)
      case FromApproval(approval, status) =>
        if approval !in s.approvals.rows then (s, Idle)
        else
          var row := s.approvals.rows[approval];
          var ctx := Ctx(run, token, row.messages, row.nextTurn, false, Some(row.identity));
          (s, Resuming(ctx, row.remaining, approval, status))
  }

  function BeforeModel(cfg: Config, s: Shared, owner: OwnerId, ctx: Ctx, i: Input): (Shared, Pc) {
    if ctx.turn >= cfg.maxTurns then (s, Completing(ctx, "Agent stopped after reaching max_turns."))
    else if !Trims(ctx.msgs, i.blocks) then (s, Turn(ctx))
    else
      SaveThen(s, owner, ctx, "before_model", State(Model, i.blocks, [], None, None, ctx.turn, ctx.identity), i.now,
               Asking(ctx.(msgs := i.blocks)))
  }

  /** The model falls back to another provider, or answers. */
  function Ask(s: Shared, owner: OwnerId, ctx: Ctx, i: Input): (Shared, Pc) {
    if i.flag then
      SaveThen(s, owner, ctx, "before_model_fallback", State(Model, ctx.msgs, [], None, None, ctx.turn, ctx.identity), i.now,
               Asking(ctx))
    else if !FreshResponse(s.issued, ctx.run, i.blocks) then (s, Asking(ctx))
    else
      var calls := CallsIn(i.blocks);
      var heard := s.heard + [Heard(ctx.run, i.blocks)];
      if calls == [] then (s.(heard := heard), Finalizing(ctx, ResponseText(i.blocks)))
      else
        (s.(issued := Issue(s.issued, ctx.run, calls), heard := heard),
         Batch(ctx.(msgs := ctx.msgs + i.blocks, turn := ctx.turn + 1), calls))
  }

  function DecideCall(cfg: Config, s: Shared, ctx: Ctx, todo: seq<Call>, i: Input): (Shared, Pc)
    requires todo != []
  {
    match cfg.policy(todo[0])
    case Allow => (s, Invoking(ctx, todo, None))
    case Deny(reason) => (s, Answered(Answer(ctx, todo[0], reason), todo[1..], "after_tool"))
    case RequireApproval =>
      if !cfg.approvals || ctx.identity.None? then
        (s, Calls(Answer(ctx, todo[0], NotExecuted("approval channel unavailable")), todo[1..]))
      else if i.id in s.approvals.rows then (s, Calls(ctx, todo))
      else
        var item := NewApproval(ctx.identity.value, todo[0], Some(ctx.run), ctx.msgs, todo, ctx.turn, i.expires);
        var (approvals, id) := Create(s.approvals, i.id, item);
        (s.(approvals := approvals), Gate(ctx, todo, id))
  }

  /** What an approval resume does with the status it read before it claimed the run. Looking up a recorded result
      and completing the approval are two transactions, taken here as one: a completed row is final. */
  function ResumeRequest(
    cfg: Config, s: Shared, ctx: Ctx, todo: seq<Call>, approval: ApprovalId, status: ApprovalStatus, i: Input)
    : (Shared, Pc)
    requires todo != []
  {
    match status
    case Rejected =>
      (s.(approvals := MarkConsumed(s.approvals, approval, i.now).0),
       Answered(Answer(ctx, todo[0], NotExecuted("user rejected the tool call")), todo[1..], "after_approval"))
    case Expired =>
      (s.(approvals := MarkConsumed(s.approvals, approval, i.now).0),
       Answered(Answer(ctx, todo[0], NotExecuted("approval expired")), todo[1..], "after_approval"))
    case Approved =>
      var (approvals, ok) := ClaimExecution(s.approvals, approval);
      if !ok then (s, Idle)
      else if cfg.policy(todo[0]) == RequireApproval && cfg.approvals && Matches(s.approvals.rows[approval], todo[0]) then
        (s.(approvals := approvals), Invoking(ctx, todo, Some(approval)))
      else
        (s.(approvals := approvals),
         Settling(ctx, todo, approval, Raised("approval validation failed"), NotExecuted("approval validation failed")))
    case Undecided => (s, Idle)
    case _ =>
      match GetTool(s.db, ctx.run, todo[0])
      case Some(Replay(output)) =>
        (if status == Executing then s.(approvals := CompleteExecution(s.approvals, approval).0) else s,
         Answered(Answer(ctx, todo[0], output), todo[1..], "after_approval"))
      case Some(Conflict) => (s, Idle)
      case _ =>
        if status == ExecutionFailed then
          (s, Answered(Answer(ctx, todo[0], NotExecuted(EscapedText(FailureReason(s.approvals, approval)))), todo[1..],
                       "after_approval"))
        else (s, Doubtful(ctx))
  }

  function FailureReason(approvals: ApprovalDb, approval: ApprovalId): string {
    if approval in approvals.rows && approvals.rows[approval].error.Some? && approvals.rows[approval].error.value != ""
    then approvals.rows[approval].error.value else "approved tool execution failed"
  }

  /** What an invocation yields when the ledger does not clear it for execution. */
  function ClaimResult(claim: ToolClaim): Outcome
    requires claim != Execute
  {
    match claim
    case Replay(output) => Returned(output)
    case Uncertain => Returned(NotExecuted("tool result is uncertain after interruption; automatic replay blocked"))
    case Blocked => Returned(NotExecuted("previous tool execution failed; automatic replay blocked"))
    case Conflict => Raised("tool execution identity conflicts with existing call_id")
    case LeaseLost => Raised("Run lease lost")
  }

  /** The ledger claim in front of a handler; `flag` is a heartbeat that found the lease lost. */
  function Invoke(
    cfg: Config, s: Shared, owner: OwnerId, ctx: Ctx, todo: seq<Call>, via: Option<ApprovalId>, i: Input)
    : (Shared, Pc)
    requires todo != []
  {
    if i.flag then (s, Finished(ctx, todo, via, Raised("Run lease lost")))
    else
      var (db, claim) := ClaimTool(s.db, cfg.backend, owner, ctx.run, todo[0], Some(ctx.token));
      (s.(db := db),
       if claim == Execute then Entering(ctx, todo, via) else Finished(ctx, todo, via, ClaimResult(claim)))
  }

  /** The side effect starts here. */
  function Enter(s: Shared, ctx: Ctx, todo: seq<Call>, via: Option<ApprovalId>): (Shared, Pc)
    requires todo != []
  {
    var key := (ctx.run, todo[0].id);
    var gate := if via.Some? && via.value in s.approvals.rows then Some(s.approvals.rows[via.value].status) else None;
    var row := if key in s.db.tools then s.db.tools[key].status else ToolRunning;
    (s.(log := s.log + [Entered(ctx.run, todo[0], via, gate, row)]), InHandler(ctx, todo, via))
  }

  /** What an invocation yields after its outcome was sent to the ledger. */
  function RecordedResult(call: CallId, outcome: Outcome, recorded: bool, lost: bool): Outcome {
    if outcome.Raised? then outcome
    else if !recorded then Raised("Failed to persist tool result: " + call)
    else if lost then Raised("Run lease lost")
    else outcome
  }

  /** Records the outcome in the ledger: two transactions in SQLite, one in PostgreSQL.
      `flag` is a heartbeat that found the lease lost while the handler ran. */
  function RecordOutcome(
    cfg: Config, s: Shared, owner: OwnerId, ctx: Ctx, todo: seq<Call>, via: Option<ApprovalId>, outcome: Outcome,
    checked: bool, i: Input)
    : (Shared, Pc)
    requires todo != []
  {
    if !checked && !Owns(s.db, owner, ctx.run, Some(ctx.token)) then
      (s, Finished(ctx, todo, via, Raised("Run lease lost")))
    else if !checked && cfg.backend == Sqlite then (s, Recording(ctx, todo, via, outcome, true))
    else
      var (db, ok) := FinishRow(s.db, ctx.run, todo[0].id, outcome);
      (s.(db := db), Finished(ctx, todo, via, RecordedResult(todo[0].id, outcome, ok, i.flag)))
  }

  /** The context of a counter, if it has one. */
  function CtxOf(pc: Pc): Option<Ctx> {
    match pc
    case Idle => None
    case Loaded(_, _) => None
    case Reparking(_) => None
    case Opening(_) => None
    case Opened(_, _) => None
    case Claimed(_, _) => None
    case _ => Some(pc.ctx)
  }

  function MoveWorker(cfg: Config, s: Shared, owner: OwnerId, pc: Pc, move: Move): (Shared, Pc) {
    match move
    case Begin(req, id, now, lease) =>
      if pc != Idle || id in s.db.runs || !OnlyDicts(req.state.messages) || req.state.action != Model
         || req.state.remaining != [] || req.state.nextTurn != 0 || req.state.identity != Some(req.identity)
      then (s, pc)
      else
        var (db, start) := StartInbound(s.db, owner, req, id, now, lease);
        var ctx := Ctx(id, 1, History(db.messages, req.identity.Session(), req.recentLimit), 0, false, Some(req.identity));
        (s.(db := db), if start.isNew then Building(ctx) else Idle)
    case Load(run) =>
      if pc != Idle then (s, pc)
      else
        var latest := LatestCheckpoint(s.db.checkpoints, run);
        (s, if latest.Some? then Loaded(run, latest.value.state) else Idle)
    case Open(approval) => (s, if pc == Idle then Opening(approval) else pc)
    case Next(i) => Advance(cfg, s, owner, pc, i)
    case Fail => (s, if CtxOf(pc).Some? then AfterFailure(CtxOf(pc).value) else Idle)
    case Crash => (s, Idle)
  }

  /** Sequences ascend within a run, so the newest row is the one with the highest sequence. */
  function LatestCheckpoint(checkpoints: seq<Checkpoint>, run: RunId): (latest: Option<Checkpoint>)
    ensures latest.Some? ==> latest.value in checkpoints && latest.value.run == run
  {
    if checkpoints == [] then None
    else if checkpoints[|checkpoints| - 1].run == run then Some(checkpoints[|checkpoints| - 1])
    else LatestCheckpoint(checkpoints[..|checkpoints| - 1], run)
  }

  /** The store transactions that are not steps of a worker's program: renewals, startup takeover, the task service,
      compaction, attachments, administration, retention. */
  predicate ByEnvironment(op: Op) {
    op.Move? || op.Renew? || op.Interrupt? || op.Summarize? || op.Attach? || op.ControlOp? || op.ResolveOp? || op.PurgeOp?
  }

  function Step(cfg: Config, w: World, act: Act): World {
    match act
    case Spawn(worker, owner) =>
      if worker in w.workers then w else w.(workers := w.workers[worker := Worker(owner, Idle)])
    case Work(worker, move) =>
      if worker !in w.workers then w
      else
        var me := w.workers[worker];
        var (shared, pc) := MoveWorker(cfg, w.shared, me.owner, me.pc, move);
        World(shared, w.workers[worker := Worker(me.owner, pc)])
    case Store(op) =>
      if ByEnvironment(op) then w.(shared := w.shared.(db := Apply(w.shared.db, op))) else w
    case Click(approval, action, identity, event, now) =>
      var (approvals, verdict) := DecideApproval(w.shared.approvals, approval, action, identity, event, now);
      w.(shared := w.shared.(approvals := approvals,
                             log := if verdict == Accepted(Confirm)
                                    then w.shared.log + [Confirmed(approval, identity, now)] else w.shared.log))
    case Expire(now) => w.(shared := w.shared.(approvals := ExpirePending(w.shared.approvals, now)))
    case Consume(approval, now) => w.(shared := w.shared.(approvals := MarkConsumed(w.shared.approvals, approval, now).0))
  }

  function Play(cfg: Config, acts: seq<Act>): World {
    if acts == [] then INITIAL_WORLD else Step(cfg, Play(cfg, acts[..|acts| - 1]), acts[|acts| - 1])
  }

  /** A number of steps of one worker that nobody interferes with. */
  function Follow(cfg: Config, s: Shared, owner: OwnerId, pc: Pc, i: Input, steps: nat): (Shared, Pc)
    decreases steps
  {
    if steps == 0 then (s, pc)
    else
      var (next, after) := Advance(cfg, s, owner, pc, i);
      Follow(cfg, next, owner, after, i, steps - 1)
  }

  lemma OneMove(cfg: Config, s: Shared, owner: OwnerId, pc: Pc, i: Input, steps: nat)
    requires steps > 0
    ensures var (next, after) := Advance(cfg, s, owner, pc, i);
            Follow(cfg, s, owner, pc, i, steps) == Follow(cfg, next, owner, after, i, steps - 1)
  {
  }

  /** A history extended by one act. */
  lemma Then(cfg: Config, acts: seq<Act>, w: World, act: Act) returns (acts': seq<Act>, w': World)
    requires w == Play(cfg, acts)
    ensures acts' == acts + [act] && w' == Step(cfg, w, act) && w' == Play(cfg, acts')
  {
    acts', w' := acts + [act], Step(cfg, w, act);
    assert acts'[..|acts' | - 1] == acts;
  }
}
