/** Every checkpoint of every history records exactly which tool calls of its message list still need a result. */
module Cursor {
  import opened Wrappers
  import opened RunState
  import opened Blocks
  import opened StoreSpec
  import opened StoreHistory
  import opened ApprovalSpec
  import opened Protocol

  type Issued = map<(RunId, CallId), seq<Call>>

  /** An issued call heads the rest of its batch, whose tail is in turn headed by the next call. */
  predicate BatchOk(issued: Issued, key: (RunId, CallId))
    requires key in issued
  {
    var tail := issued[key];
    && tail != [] && tail[0].id == key.1 && DistinctIds(tail)
    && TailOk(issued, key.0, tail[1..])
  }

  predicate IssuedOk(issued: Issued) {
    forall key {:trigger BatchOk(issued, key)} :: key in issued ==> BatchOk(issued, key)
  }

  predicate TailOk(issued: Issued, run: RunId, todo: seq<Call>) {
    todo == [] || ((run, todo[0].id) in issued && issued[(run, todo[0].id)] == todo)
  }

  /** The unanswered calls of `messages` are `todo`, which is a tail of an issued batch; the list is paired. */
  predicate At(issued: Issued, run: RunId, messages: seq<Block>, todo: seq<Call>) {
    && Unresolved(messages) == todo
    && TailOk(issued, run, todo)
    && Paired(messages)
    && (forall id :: id in ResultIds(messages) ==> (run, id) in issued)
    && (forall id :: id in CallIds(messages) ==> (run, id) in issued)
  }

  /** An approval holds the calls from its own on. */
  predicate RowOk(issued: Issued, row: Approval) {
    && row.run.Some? && row.remaining != [] && row.remaining[0] == row.call
    && At(issued, row.run.value, row.messages, row.remaining)
  }

  predicate ApprovalsOk(issued: Issued, approvals: ApprovalDb) {
    && (forall id {:trigger RowOk(issued, approvals.rows[id])} ::
          id in approvals.rows ==> RowOk(issued, approvals.rows[id]))
    && (forall key :: key in approvals.links ==>
          var id := approvals.links[key];
          id in approvals.rows && approvals.rows[id].run == Some(key.0) && approvals.rows[id].call.id == key.1)
  }

  /** An approval is that of a run, waiting at `todo`. */
  predicate WaitsAt(approvals: ApprovalDb, id: ApprovalId, run: RunId, todo: seq<Call>) {
    id in approvals.rows && approvals.rows[id].run == Some(run) && approvals.rows[id].remaining == todo && todo != []
  }

  /** What the action of a checkpoint promises about its messages. */
  predicate StateOk(issued: Issued, approvals: ApprovalDb, run: RunId, state: State) {
    match state.action
    case Model => At(issued, run, state.messages, [])
    case Finalize => At(issued, run, state.messages, [])
    case Tools => At(issued, run, state.messages, state.remaining)
    case AwaitApproval =>
      && state.approval.Some?
      && WaitsAt(approvals, state.approval.value, run, Unresolved(state.messages))
      && At(issued, run, state.messages, Unresolved(state.messages))
  }

  predicate PcOk(issued: Issued, approvals: ApprovalDb, pc: Pc) {
    match pc
    case Building(ctx) => At(issued, ctx.run, ctx.msgs, [])
    case Loaded(run, state) => StateOk(issued, approvals, run, state)
    case Claimed(run, FromCheckpoint(state)) => StateOk(issued, approvals, run, state)
    case Claimed(run, FromApproval(id, _)) => id in approvals.rows && approvals.rows[id].run == Some(run)
    case Turn(ctx) => At(issued, ctx.run, ctx.msgs, [])
    case Asking(ctx) => At(issued, ctx.run, ctx.msgs, [])
    case Finalizing(ctx, _) => At(issued, ctx.run, ctx.msgs, [])
    case Batch(ctx, todo) => At(issued, ctx.run, ctx.msgs, todo)
    case Calls(ctx, todo) => At(issued, ctx.run, ctx.msgs, todo)
    case Gate(ctx, todo, id) => At(issued, ctx.run, ctx.msgs, todo) && WaitsAt(approvals, id, ctx.run, todo)
    case Answered(ctx, todo, _) => At(issued, ctx.run, ctx.msgs, todo)
    case Resuming(ctx, todo, id, _) => At(issued, ctx.run, ctx.msgs, todo) && WaitsAt(approvals, id, ctx.run, todo)
    case Invoking(ctx, todo, _) => At(issued, ctx.run, ctx.msgs, todo)
    case Entering(ctx, todo, _) => At(issued, ctx.run, ctx.msgs, todo)
    case InHandler(ctx, todo, _) => At(issued, ctx.run, ctx.msgs, todo)
    case Recording(ctx, todo, _, _, _) => At(issued, ctx.run, ctx.msgs, todo)
    case Settling(ctx, todo, _, _, _) => At(issued, ctx.run, ctx.msgs, todo)
    case _ => true
  }

  predicate CheckpointsOk(issued: Issued, approvals: ApprovalDb, checkpoints: seq<Checkpoint>) {
    forall c {:trigger StateOk(issued, approvals, c.run, c.state)} ::
      c in checkpoints ==> StateOk(issued, approvals, c.run, c.state)
  }

  predicate SharedOk(s: Shared) {
    && IssuedOk(s.issued) && ApprovalsOk(s.issued, s.approvals)
    && CheckpointsOk(s.issued, s.approvals, s.db.checkpoints)
  }

  predicate CursorInv(w: World) {
    SharedOk(w.shared)
    && forall id :: id in w.workers ==> PcOk(w.shared.issued, w.shared.approvals, w.workers[id].pc)
  }

  /******* Growth *******/

  /** Issued batches and the fixed parts of approvals never change. */
  predicate Grows(s: Shared, next: Shared) {
    && (forall key :: key in s.issued ==> key in next.issued && next.issued[key] == s.issued[key])
    && (forall id :: id in s.approvals.rows ==>
          id in next.approvals.rows && SameRequest(s.approvals.rows[id], next.approvals.rows[id]))
  }

  predicate SameRequest(a: Approval, b: Approval) {
    a.run == b.run && a.call == b.call && a.messages == b.messages && a.remaining == b.remaining
    && a.identity == b.identity && a.expires == b.expires
  }

  lemma StateStaysOk(s: Shared, next: Shared, run: RunId, state: State)
    requires Grows(s, next) && StateOk(s.issued, s.approvals, run, state)
    ensures StateOk(next.issued, next.approvals, run, state)
  {
  }

  lemma PcStaysOk(s: Shared, next: Shared, pc: Pc)
    requires Grows(s, next) && PcOk(s.issued, s.approvals, pc)
    ensures PcOk(next.issued, next.approvals, pc)
  {
  }

  lemma CheckpointsStayOk(s: Shared, next: Shared)
    requires Grows(s, next) && CheckpointsOk(s.issued, s.approvals, s.db.checkpoints)
    ensures CheckpointsOk(next.issued, next.approvals, s.db.checkpoints)
  {
    forall c | c in s.db.checkpoints ensures StateOk(next.issued, next.approvals, c.run, c.state) {
      StateStaysOk(s, next, c.run, c.state);
    }
  }

  /** A store transaction that saves no checkpoint leaves only rows that were there. */
  lemma OldCheckpointsOnly(db: Db, op: Op)
    requires !op.Save? && !op.Start?
    ensures forall c :: c in Apply(db, op).checkpoints ==> c in db.checkpoints
  {
  }

  /******* The three ways the cursor moves *******/

  lemma {:induction false} IssueKeeps(issued: Issued, run: RunId, calls: seq<Call>)
    requires IssuedOk(issued) && DistinctIds(calls)
    requires forall c :: c in calls ==> (run, c.id) !in issued
    ensures IssuedOk(Issue(issued, run, calls)) && TailOk(Issue(issued, run, calls), run, calls)
    ensures forall key :: key in issued ==> key in Issue(issued, run, calls) && Issue(issued, run, calls)[key] == issued[key]
    ensures forall key :: key in Issue(issued, run, calls) && key !in issued ==>
              key.0 == run && exists c: Call :: c in calls && c.id == key.1
  {
    if calls != [] {
      var rest := calls[1..];
      IssueKeeps(issued, run, rest);
      var before, key := Issue(issued, run, rest), (run, calls[0].id);
      assert calls[0] in calls && forall c :: c in rest ==> c in calls && c.id != calls[0].id;
      var after := before[key := calls];
      forall other: (RunId, CallId) | other in after ensures BatchOk(after, other) {
        if other != key {
          assert BatchOk(before, other);
        }
      }
      forall other: (RunId, CallId) | other in after && other !in issued ensures exists c: Call :: c in calls && c.id == other.1 {
        if other == key {
          assert calls[0] in calls;
        } else {
          var c :| c in rest && c.id == other.1;
          assert c in calls;
        }
      }
    }
  }

  lemma {:induction false} IssueHasItsCalls(issued: Issued, run: RunId, calls: seq<Call>)
    ensures forall c :: c in calls ==> (run, c.id) in Issue(issued, run, calls)
  {
    if calls != [] {
      IssueHasItsCalls(issued, run, calls[1..]);
    }
  }

  lemma RespondedAt(issued: Issued, next: Issued, ctx: Ctx, blocks: seq<Block>)
    requires At(issued, ctx.run, ctx.msgs, []) && FreshResponse(issued, ctx.run, blocks)
    requires forall key :: key in issued ==> key in next
    requires forall c :: c in CallsIn(blocks) ==> (ctx.run, c.id) in next
    requires TailOk(next, ctx.run, CallsIn(blocks))
    ensures At(next, ctx.run, ctx.msgs + blocks, CallsIn(blocks))
  {
    ExtendWithResponse(ctx.msgs, blocks);
    ResponseStaysPaired(ctx.msgs, blocks);
    CallIdsAppend(ctx.msgs, blocks);
    CallsInMembers(blocks);
  }

  lemma IssueGrows(s: Shared, run: RunId, calls: seq<Call>)
    requires IssuedOk(s.issued) && DistinctIds(calls) && forall c :: c in calls ==> (run, c.id) !in s.issued
    ensures var issued := Issue(s.issued, run, calls);
            && IssuedOk(issued) && TailOk(issued, run, calls) && Grows(s, s.(issued := issued))
            && forall c :: c in calls ==> (run, c.id) in issued
  {
    IssueKeeps(s.issued, run, calls);
    IssueHasItsCalls(s.issued, run, calls);
  }

  /** A response moves the cursor to the start of its batch. */
  lemma RespondMoves(s: Shared, ctx: Ctx, blocks: seq<Block>)
    requires IssuedOk(s.issued) && At(s.issued, ctx.run, ctx.msgs, []) && FreshResponse(s.issued, ctx.run, blocks)
    ensures var issued := Issue(s.issued, ctx.run, CallsIn(blocks));
            && IssuedOk(issued) && Grows(s, s.(issued := issued))
            && At(issued, ctx.run, ctx.msgs + blocks, CallsIn(blocks))
  {
    var calls := CallsIn(blocks);
    IssueGrows(s, ctx.run, calls);
    RespondedAt(s.issued, Issue(s.issued, ctx.run, calls), ctx, blocks);
  }

  /** A result moves it by one call. */
  lemma AnswerMoves(issued: Issued, ctx: Ctx, todo: seq<Call>, content: string)
    requires IssuedOk(issued) && At(issued, ctx.run, ctx.msgs, todo) && todo != []
    ensures At(issued, ctx.run, Answer(ctx, todo[0], content).msgs, todo[1..])
  {
    assert BatchOk(issued, (ctx.run, todo[0].id));
    AnswerHead(ctx.msgs, todo, content);
    AnswerStaysPaired(ctx.msgs, todo[0], content);
    CallIdsAppend(ctx.msgs, [ToolResult(todo[0].id, content)]);
    ResultIdsAppend(ctx.msgs, [ToolResult(todo[0].id, content)]);
  }

  lemma FinishedMoves(issued: Issued, approvals: ApprovalDb, ctx: Ctx, todo: seq<Call>, via: Option<ApprovalId>, result: Outcome)
    requires IssuedOk(issued) && At(issued, ctx.run, ctx.msgs, todo) && todo != []
    ensures PcOk(issued, approvals, Finished(ctx, todo, via, result))
  {
    var content := match result case Returned(output) => output case Raised(error) => "Tool execution failed: " + error;
    AnswerMoves(issued, ctx, todo, content);
  }

  /******* Steps *******/

  /** Only statuses, decisions and consumption times differ. */
  predicate SameRequests(a: ApprovalDb, b: ApprovalDb) {
    && b.rows.Keys == a.rows.Keys && b.links == a.links
    && forall id :: id in a.rows ==> SameRequest(a.rows[id], b.rows[id])
  }

  lemma OneRowKeepsRequests(a: ApprovalDb, id: ApprovalId, row: Approval)
    requires id in a.rows && SameRequest(a.rows[id], row)
    ensures SameRequests(a, a.(rows := a.rows[id := row]))
  {
  }

  lemma StatusChangesKeepRequests(a: ApprovalDb, id: ApprovalId, error: string, now: Time)
    ensures SameRequests(a, ClaimExecution(a, id).0) && SameRequests(a, CompleteExecution(a, id).0)
    ensures SameRequests(a, FailExecution(a, id, error).0) && SameRequests(a, MarkConsumed(a, id, now).0)
  {
    if id in a.rows {
      var row := a.rows[id];
      OneRowKeepsRequests(a, id, row.(status := Executing));
      OneRowKeepsRequests(a, id, row.(status := Executed));
      OneRowKeepsRequests(a, id, row.(status := ExecutionFailed, error := Some(Clip(error))));
      OneRowKeepsRequests(a, id, row.(consumedAt := Some(now)));
    }
  }

  lemma ExpiryKeepsRequests(a: ApprovalDb, now: Time)
    ensures SameRequests(a, ExpirePending(a, now))
  {
  }

  /** A step that changes nothing but statuses of approvals and rows of the store other than checkpoints. */
  lemma QuietStep(s: Shared, next: Shared)
    requires SharedOk(s) && next.issued == s.issued && SameRequests(s.approvals, next.approvals)
    requires forall c :: c in next.db.checkpoints ==> c in s.db.checkpoints
    ensures SharedOk(next) && Grows(s, next)
  {
    CheckpointsStayOk(s, next);
    forall id | id in next.approvals.rows ensures RowOk(next.issued, next.approvals.rows[id]) {
      assert RowOk(s.issued, s.approvals.rows[id]);
    }
    forall c | c in next.db.checkpoints ensures StateOk(next.issued, next.approvals, c.run, c.state) {
      assert c in s.db.checkpoints;
    }
  }

  lemma StoreStepIsQuiet(s: Shared, db: Db)
    requires SharedOk(s) && forall c :: c in db.checkpoints ==> c in s.db.checkpoints
    ensures SharedOk(s.(db := db)) && Grows(s, s.(db := db))
  {
    QuietStep(s, s.(db := db));
  }

  lemma SaveKeeps(s: Shared, owner: OwnerId, ctx: Ctx, phase: string, state: State, now: Time, then': Pc)
    requires SharedOk(s) && StateOk(s.issued, s.approvals, ctx.run, state) && PcOk(s.issued, s.approvals, then')
    ensures var (next, pc) := SaveThen(s, owner, ctx, phase, state, now, then');
            Grows(s, next) && SharedOk(next) && PcOk(next.issued, next.approvals, pc)
  {
    var next := SaveThen(s, owner, ctx, phase, state, now, then').0;
    forall c | c in next.db.checkpoints ensures StateOk(s.issued, s.approvals, c.run, c.state) {
      if c !in s.db.checkpoints {
        assert c.run == ctx.run && c.state == state;
      }
    }
  }

  lemma IssuingKeeps(s: Shared, issued: Issued)
    requires SharedOk(s) && IssuedOk(issued) && Grows(s, s.(issued := issued))
    ensures SharedOk(s.(issued := issued))
  {
    var next := s.(issued := issued);
    CheckpointsStayOk(s, next);
    forall id | id in next.approvals.rows ensures RowOk(next.issued, next.approvals.rows[id]) {
      assert RowOk(s.issued, s.approvals.rows[id]);
    }
  }

  lemma AskKeeps(s: Shared, owner: OwnerId, ctx: Ctx, i: Input)
    requires SharedOk(s) && At(s.issued, ctx.run, ctx.msgs, [])
    ensures var (next, pc) := Ask(s, owner, ctx, i);
            Grows(s, next) && SharedOk(next) && PcOk(next.issued, next.approvals, pc)
  {
    if i.flag {
      SaveKeeps(s, owner, ctx, "before_model_fallback",
                State(Model, ctx.msgs, [], None, None, ctx.turn, ctx.identity), i.now, Asking(ctx));
    } else if FreshResponse(s.issued, ctx.run, i.blocks) && CallsIn(i.blocks) != [] {
      RespondMoves(s, ctx, i.blocks);
      IssuingKeeps(s, Issue(s.issued, ctx.run, CallsIn(i.blocks)));
    }
  }

  lemma CreateKeeps(s: Shared, ctx: Ctx, todo: seq<Call>, identity: Identity, expires: Time, id: ApprovalId)
    requires SharedOk(s) && At(s.issued, ctx.run, ctx.msgs, todo) && todo != [] && id !in s.approvals.rows
    ensures var item := NewApproval(identity, todo[0], Some(ctx.run), ctx.msgs, todo, ctx.turn, expires);
            var (approvals, stored) := Create(s.approvals, id, item);
            var next := s.(approvals := approvals);
            Grows(s, next) && SharedOk(next) && WaitsAt(approvals, stored, ctx.run, todo)
  {
    var item := NewApproval(identity, todo[0], Some(ctx.run), ctx.msgs, todo, ctx.turn, expires);
    var (approvals, stored) := Create(s.approvals, id, item);
    var key := (ctx.run, todo[0].id);
    if key in s.approvals.links {
      assert RowOk(s.issued, s.approvals.rows[stored]);
    } else {
      CheckpointsStayOk(s, s.(approvals := approvals));
    }
  }

  lemma DecideKeeps(cfg: Config, s: Shared, ctx: Ctx, todo: seq<Call>, i: Input)
    requires SharedOk(s) && At(s.issued, ctx.run, ctx.msgs, todo) && todo != []
    ensures var (next, pc) := DecideCall(cfg, s, ctx, todo, i);
            Grows(s, next) && SharedOk(next) && PcOk(next.issued, next.approvals, pc)
  {
    match cfg.policy(todo[0])
    case Allow =>
    case Deny(reason) => AnswerMoves(s.issued, ctx, todo, reason);
    case RequireApproval =>
      if !cfg.approvals || ctx.identity.None? {
        AnswerMoves(s.issued, ctx, todo, NotExecuted("approval channel unavailable"));
      } else if i.id !in s.approvals.rows {
        CreateKeeps(s, ctx, todo, ctx.identity.value, i.expires, i.id);
      }
  }

  /** A resume changes at most a status and the consumption time of its approval. */
  lemma ResumeChangesStatus(
    cfg: Config, s: Shared, ctx: Ctx, todo: seq<Call>, approval: ApprovalId, status: ApprovalStatus, i: Input)
    requires todo != []
    ensures var next := ResumeRequest(cfg, s, ctx, todo, approval, status, i).0;
            && next == s.(approvals := next.approvals)
            && next.approvals in {s.approvals, ClaimExecution(s.approvals, approval).0,
                                  CompleteExecution(s.approvals, approval).0, MarkConsumed(s.approvals, approval, i.now).0}
  {
  }

  lemma ResumeIsQuiet(
    cfg: Config, s: Shared, ctx: Ctx, todo: seq<Call>, approval: ApprovalId, status: ApprovalStatus, i: Input)
    requires SharedOk(s) && todo != []
    ensures var next := ResumeRequest(cfg, s, ctx, todo, approval, status, i).0;
            Grows(s, next) && SharedOk(next) && next.issued == s.issued
  {
    ResumeChangesStatus(cfg, s, ctx, todo, approval, status, i);
    StatusChangesKeepRequests(s.approvals, approval, "", i.now);
    var next := ResumeRequest(cfg, s, ctx, todo, approval, status, i).0;
    assert SameRequests(s.approvals, s.approvals);
    QuietStep(s, next);
  }

  lemma ResumeMoves(
    cfg: Config, s: Shared, ctx: Ctx, todo: seq<Call>, approval: ApprovalId, status: ApprovalStatus, i: Input)
    requires IssuedOk(s.issued) && At(s.issued, ctx.run, ctx.msgs, todo) && todo != []
    ensures PcOk(s.issued, s.approvals, ResumeRequest(cfg, s, ctx, todo, approval, status, i).1)
  {
    var pc := ResumeRequest(cfg, s, ctx, todo, approval, status, i).1;
    if pc.Answered? {
      var result := pc.ctx.msgs[|ctx.msgs|];
      assert pc.ctx == Answer(ctx, todo[0], result.content) && pc.todo == todo[1..];
      AnswerMoves(s.issued, ctx, todo, result.content);
    }
  }

  lemma InvokeKeeps(
    cfg: Config, s: Shared, owner: OwnerId, ctx: Ctx, todo: seq<Call>, via: Option<ApprovalId>, i: Input)
    requires SharedOk(s) && At(s.issued, ctx.run, ctx.msgs, todo) && todo != []
    ensures var (next, pc) := Invoke(cfg, s, owner, ctx, todo, via, i);
            Grows(s, next) && SharedOk(next) && next.approvals == s.approvals && PcOk(s.issued, s.approvals, pc)
  {
    var (db, claim) := ClaimTool(s.db, cfg.backend, owner, ctx.run, todo[0], Some(ctx.token));
    StoreStepIsQuiet(s, db);
    FinishedMoves(s.issued, s.approvals, ctx, todo, via, Raised("Run lease lost"));
    if claim != Execute {
      FinishedMoves(s.issued, s.approvals, ctx, todo, via, ClaimResult(claim));
    }
  }

  /** However an invocation ends, the worker answers or settles its call. */
  lemma RecordMoves(
    cfg: Config, s: Shared, owner: OwnerId, ctx: Ctx, todo: seq<Call>, via: Option<ApprovalId>, outcome: Outcome,
    checked: bool, i: Input)
    requires IssuedOk(s.issued) && At(s.issued, ctx.run, ctx.msgs, todo) && todo != []
    ensures PcOk(s.issued, s.approvals, RecordOutcome(cfg, s, owner, ctx, todo, via, outcome, checked, i).1)
  {
    var (db, ok) := FinishRow(s.db, ctx.run, todo[0].id, outcome);
    FinishedMoves(s.issued, s.approvals, ctx, todo, via, Raised("Run lease lost"));
    FinishedMoves(s.issued, s.approvals, ctx, todo, via, RecordedResult(todo[0].id, outcome, ok, i.flag));
  }

  lemma RecordKeeps(
    cfg: Config, s: Shared, owner: OwnerId, ctx: Ctx, todo: seq<Call>, via: Option<ApprovalId>, outcome: Outcome,
    checked: bool, i: Input)
    requires SharedOk(s) && At(s.issued, ctx.run, ctx.msgs, todo) && todo != []
    ensures var (next, pc) := RecordOutcome(cfg, s, owner, ctx, todo, via, outcome, checked, i);
            Grows(s, next) && SharedOk(next) && next.approvals == s.approvals && PcOk(s.issued, s.approvals, pc)
  {
    RecordMoves(cfg, s, owner, ctx, todo, via, outcome, checked, i);
    StoreStepIsQuiet(s, RecordOutcome(cfg, s, owner, ctx, todo, via, outcome, checked, i).0.db);
  }

  lemma SettleKeeps(s: Shared, ctx: Ctx, todo: seq<Call>, approval: ApprovalId, result: Outcome, answer: string)
    requires SharedOk(s) && At(s.issued, ctx.run, ctx.msgs, todo) && todo != []
    ensures var next := s.(approvals := SettleExecution(s.approvals, approval, result));
            && Grows(s, next) && SharedOk(next)
            && At(s.issued, ctx.run, Answer(ctx, todo[0], answer).msgs, todo[1..])
  {
    StatusChangesKeepRequests(s.approvals, approval, if result.Raised? then result.error else "", 0);
    QuietStep(s, s.(approvals := SettleExecution(s.approvals, approval, result)));
    AnswerMoves(s.issued, ctx, todo, answer);
  }

  /** The steps with their own lemma above. */
  predicate Moves(pc: Pc) {
    pc.Asking? || pc.Calls? || pc.Resuming? || pc.Invoking? || pc.Recording? || pc.Settling?
  }

  lemma ResumingStepKeeps(cfg: Config, s: Shared, owner: OwnerId, pc: Pc, i: Input)
    requires SharedOk(s) && PcOk(s.issued, s.approvals, pc) && pc.Resuming?
    ensures var (next, pc') := Advance(cfg, s, owner, pc, i);
            Grows(s, next) && SharedOk(next) && PcOk(next.issued, next.approvals, pc')
  {
    if pc.todo != [] {
      ResumeIsQuiet(cfg, s, pc.ctx, pc.todo, pc.approval, pc.status, i);
      ResumeMoves(cfg, s, pc.ctx, pc.todo, pc.approval, pc.status, i);
      PcStaysOk(s, Advance(cfg, s, owner, pc, i).0, Advance(cfg, s, owner, pc, i).1);
    }
  }

  lemma AskingStepKeeps(cfg: Config, s: Shared, owner: OwnerId, pc: Pc, i: Input)
    requires SharedOk(s) && PcOk(s.issued, s.approvals, pc) && pc.Asking?
    ensures var (next, pc') := Advance(cfg, s, owner, pc, i);
            Grows(s, next) && SharedOk(next) && PcOk(next.issued, next.approvals, pc')
  {
    AskKeeps(s, owner, pc.ctx, i);
  }

  lemma CallsStepKeeps(cfg: Config, s: Shared, owner: OwnerId, pc: Pc, i: Input)
    requires SharedOk(s) && PcOk(s.issued, s.approvals, pc) && pc.Calls?
    ensures var (next, pc') := Advance(cfg, s, owner, pc, i);
            Grows(s, next) && SharedOk(next) && PcOk(next.issued, next.approvals, pc')
  {
    if pc.todo != [] { DecideKeeps(cfg, s, pc.ctx, pc.todo, i); }
  }

  lemma InvokingStepKeeps(cfg: Config, s: Shared, owner: OwnerId, pc: Pc, i: Input)
    requires SharedOk(s) && PcOk(s.issued, s.approvals, pc) && pc.Invoking?
    ensures var (next, pc') := Advance(cfg, s, owner, pc, i);
            Grows(s, next) && SharedOk(next) && PcOk(next.issued, next.approvals, pc')
  {
    if pc.todo != [] { InvokeKeeps(cfg, s, owner, pc.ctx, pc.todo, pc.via, i); }
  }

  lemma RecordingStepKeeps(cfg: Config, s: Shared, owner: OwnerId, pc: Pc, i: Input)
    requires SharedOk(s) && PcOk(s.issued, s.approvals, pc) && pc.Recording?
    ensures var (next, pc') := Advance(cfg, s, owner, pc, i);
            Grows(s, next) && SharedOk(next) && PcOk(next.issued, next.approvals, pc')
  {
    if pc.todo != [] { RecordKeeps(cfg, s, owner, pc.ctx, pc.todo, pc.via, pc.outcome, pc.checked, i); }
  }

  lemma SettlingStepKeeps(cfg: Config, s: Shared, owner: OwnerId, pc: Pc, i: Input)
    requires SharedOk(s) && PcOk(s.issued, s.approvals, pc) && pc.Settling?
    ensures var (next, pc') := Advance(cfg, s, owner, pc, i);
            Grows(s, next) && SharedOk(next) && PcOk(next.issued, next.approvals, pc')
  {
    if pc.todo != [] { SettleKeeps(s, pc.ctx, pc.todo, pc.approval, pc.result, pc.answer); }
  }

  lemma MovingStepKeeps(cfg: Config, s: Shared, owner: OwnerId, pc: Pc, i: Input)
    requires SharedOk(s) && PcOk(s.issued, s.approvals, pc) && Moves(pc)
    ensures var (next, pc') := Advance(cfg, s, owner, pc, i);
            Grows(s, next) && SharedOk(next) && PcOk(next.issued, next.approvals, pc')
  {
    match pc
    case Asking(_) => AskingStepKeeps(cfg, s, owner, pc, i);
    case Calls(_, _) => CallsStepKeeps(cfg, s, owner, pc, i);
    case Resuming(_, _, _, _) => ResumingStepKeeps(cfg, s, owner, pc, i);
    case Invoking(_, _, _) => InvokingStepKeeps(cfg, s, owner, pc, i);
    case Recording(_, _, _, _, _) => RecordingStepKeeps(cfg, s, owner, pc, i);
    case Settling(_, _, _, _, _) => SettlingStepKeeps(cfg, s, owner, pc, i);
  }

  predicate Saving(pc: Pc) {
    pc.Building? || pc.Turn? || pc.Finalizing? || pc.Batch? || pc.Gate? || pc.Answered?
  }

  lemma BuildKeeps(s: Shared, owner: OwnerId, ctx: Ctx, i: Input)
    requires SharedOk(s) && At(s.issued, ctx.run, ctx.msgs, [])
    ensures var (next, pc') := Build(s, owner, ctx, i);
            Grows(s, next) && SharedOk(next) && PcOk(next.issued, next.approvals, pc')
  {
    if i.flag && OnlyDicts(i.blocks) {
      OnlyDictsHaveNoCalls(i.blocks);
      var built := ctx.(msgs := i.blocks);
      SaveKeeps(s, owner, built, "context_built", State(Model, i.blocks, [], None, None, 0, ctx.identity), i.now,
                Turn(built.(guarded := true)));
    }
  }

  lemma TrimKeeps(cfg: Config, s: Shared, owner: OwnerId, ctx: Ctx, i: Input)
    requires SharedOk(s) && At(s.issued, ctx.run, ctx.msgs, [])
    ensures var (next, pc') := BeforeModel(cfg, s, owner, ctx, i);
            Grows(s, next) && SharedOk(next) && PcOk(next.issued, next.approvals, pc')
  {
    if ctx.turn < cfg.maxTurns && Trims(ctx.msgs, i.blocks) {
      SaveKeeps(s, owner, ctx, "before_model", State(Model, i.blocks, [], None, None, ctx.turn, ctx.identity), i.now,
                Asking(ctx.(msgs := i.blocks)));
    }
  }

  lemma SavingStepKeeps(cfg: Config, s: Shared, owner: OwnerId, pc: Pc, i: Input)
    requires SharedOk(s) && PcOk(s.issued, s.approvals, pc) && Saving(pc)
    ensures var (next, pc') := Advance(cfg, s, owner, pc, i);
            Grows(s, next) && SharedOk(next) && PcOk(next.issued, next.approvals, pc')
  {
    match pc
    case Building(ctx) => BuildKeeps(s, owner, ctx, i);
    case Turn(ctx) => TrimKeeps(cfg, s, owner, ctx, i);
    case Finalizing(ctx, text) =>
      SaveKeeps(s, owner, ctx, "before_finalize",
                State(Finalize, ctx.msgs, [], Some(text), None, ctx.turn, ctx.identity), i.now, Completing(ctx, text));
    case Batch(ctx, todo) =>
      SaveKeeps(s, owner, ctx, "before_tools", State(Tools, ctx.msgs, todo, None, None, ctx.turn, ctx.identity), i.now,
                Calls(ctx, todo));
    case Gate(ctx, todo, approval) =>
      SaveKeeps(s, owner, ctx, "waiting_approval",
                State(AwaitApproval, ctx.msgs, [], None, Some(approval), ctx.turn, ctx.identity), i.now, Parking(ctx));
    case Answered(ctx, todo, phase) =>
      SaveKeeps(s, owner, ctx, phase,
                State(if todo == [] then Model else Tools, ctx.msgs, todo, None, None, ctx.turn, ctx.identity), i.now,
                Calls(ctx, todo));
  }

  /** The remaining steps touch neither approvals nor checkpoints. */
  lemma OtherStepShared(cfg: Config, s: Shared, owner: OwnerId, pc: Pc, i: Input)
    requires !Moves(pc) && !Saving(pc)
    ensures var next := Advance(cfg, s, owner, pc, i).0;
            next.issued == s.issued && next.approvals == s.approvals && next.db.checkpoints == s.db.checkpoints
  {
  }

  lemma OtherStepPc(cfg: Config, s: Shared, owner: OwnerId, pc: Pc, i: Input)
    requires ApprovalsOk(s.issued, s.approvals) && PcOk(s.issued, s.approvals, pc) && !Moves(pc) && !Saving(pc)
    ensures PcOk(s.issued, s.approvals, Advance(cfg, s, owner, pc, i).1)
  {
    if pc.Claimed? && pc.origin.FromApproval? {
      assert RowOk(s.issued, s.approvals.rows[pc.origin.approval]);
    }
  }

  lemma OtherStepKeeps(cfg: Config, s: Shared, owner: OwnerId, pc: Pc, i: Input)
    requires SharedOk(s) && PcOk(s.issued, s.approvals, pc) && !Moves(pc) && !Saving(pc)
    ensures var (next, pc') := Advance(cfg, s, owner, pc, i);
            Grows(s, next) && SharedOk(next) && PcOk(next.issued, next.approvals, pc')
  {
    OtherStepShared(cfg, s, owner, pc, i);
    OtherStepPc(cfg, s, owner, pc, i);
    assert SameRequests(s.approvals, s.approvals);
    QuietStep(s, Advance(cfg, s, owner, pc, i).0);
  }

  lemma {:induction false} HistoryIsDicts(messages: seq<Message>, session: SessionKey, limit: nat)
    ensures OnlyDicts(History(messages, session, limit))
  {
    if messages != [] && limit != 0 {
      var last, before := messages[|messages| - 1], messages[..|messages| - 1];
      HistoryIsDicts(before, session, if last.session == session then limit - 1 else limit);
    }
  }

  /** The first checkpoint of a run holds the recent history, which has no calls. */
  lemma StartIsInOrder(s: Shared, owner: OwnerId, req: InboundRequest, id: RunId, now: Time, lease: Time)
    requires SharedOk(s) && id !in s.db.runs && OnlyDicts(req.state.messages) && req.state.action == Model
    ensures var db := StartInbound(s.db, owner, req, id, now, lease).0;
            && CheckpointsOk(s.issued, s.approvals, db.checkpoints)
            && At(s.issued, id, History(db.messages, req.identity.Session(), req.recentLimit), [])
  {
    var db := StartInbound(s.db, owner, req, id, now, lease).0;
    var history := History(db.messages, req.identity.Session(), req.recentLimit);
    HistoryIsDicts(db.messages, req.identity.Session(), req.recentLimit);
    OnlyDictsHaveNoCalls(history);
    forall c | c in db.checkpoints ensures StateOk(s.issued, s.approvals, c.run, c.state) {
      if c !in s.db.checkpoints {
        assert c.run == id && c.state == req.state.(messages := history);
      }
    }
  }

  lemma BeginKeeps(cfg: Config, s: Shared, owner: OwnerId, pc: Pc, move: Move)
    requires SharedOk(s) && PcOk(s.issued, s.approvals, pc) && move.Begin?
    ensures var (next, pc') := MoveWorker(cfg, s, owner, pc, move);
            Grows(s, next) && SharedOk(next) && PcOk(next.issued, next.approvals, pc')
  {
    var (next, pc') := MoveWorker(cfg, s, owner, pc, move);
    if next != s {
      StartIsInOrder(s, owner, move.req, move.id, move.now, move.lease);
      assert next == s.(db := StartInbound(s.db, owner, move.req, move.id, move.now, move.lease).0);
    }
  }

  lemma LocalMoveKeeps(cfg: Config, s: Shared, owner: OwnerId, pc: Pc, move: Move)
    requires CheckpointsOk(s.issued, s.approvals, s.db.checkpoints) && PcOk(s.issued, s.approvals, pc)
    requires !move.Begin? && !move.Next?
    ensures MoveWorker(cfg, s, owner, pc, move).0 == s
    ensures PcOk(s.issued, s.approvals, MoveWorker(cfg, s, owner, pc, move).1)
  {
    if move.Load? {
      var latest := LatestCheckpoint(s.db.checkpoints, move.run);
      if latest.Some? {
        assert StateOk(s.issued, s.approvals, latest.value.run, latest.value.state);
      }
    }
  }

  lemma WorkerKeeps(cfg: Config, s: Shared, owner: OwnerId, pc: Pc, move: Move)
    requires SharedOk(s) && PcOk(s.issued, s.approvals, pc)
    ensures var (next, pc') := MoveWorker(cfg, s, owner, pc, move);
            Grows(s, next) && SharedOk(next) && PcOk(next.issued, next.approvals, pc')
  {
    match move
    case Begin(_, _, _, _) => BeginKeeps(cfg, s, owner, pc, move);
    case Next(i) =>
      if Moves(pc) {
        MovingStepKeeps(cfg, s, owner, pc, i);
      } else if Saving(pc) {
        SavingStepKeeps(cfg, s, owner, pc, i);
      } else {
        OtherStepKeeps(cfg, s, owner, pc, i);
      }
    case _ => LocalMoveKeeps(cfg, s, owner, pc, move);
  }

  lemma ClicksKeepRequests(
    a: ApprovalDb, id: ApprovalId, action: Option<ApprovalAction>, identity: Identity, event: string, now: Time)
    ensures SameRequests(a, DecideApproval(a, id, action, identity, event, now).0)
  {
  }

  lemma EnvironmentKeeps(cfg: Config, w: World, act: Act)
    requires SharedOk(w.shared) && !act.Work?
    ensures Grows(w.shared, Step(cfg, w, act).shared) && SharedOk(Step(cfg, w, act).shared)
  {
    var s := w.shared;
    match act
    case Spawn(_, _) =>
    case Store(op) =>
      if ByEnvironment(op) {
        OldCheckpointsOnly(s.db, op);
        StoreStepIsQuiet(s, Apply(s.db, op));
      }
    case Click(id, action, identity, event, now) =>
      ClicksKeepRequests(s.approvals, id, action, identity, event, now);
      QuietStep(s, Step(cfg, w, act).shared);
    case Expire(now) =>
      ExpiryKeepsRequests(s.approvals, now);
      QuietStep(s, Step(cfg, w, act).shared);
    case Consume(id, now) =>
      StatusChangesKeepRequests(s.approvals, id, "", now);
      QuietStep(s, Step(cfg, w, act).shared);
  }

  lemma CursorStep(cfg: Config, w: World, act: Act)
    requires CursorInv(w)
    ensures CursorInv(Step(cfg, w, act))
  {
    var next := Step(cfg, w, act);
    if !act.Work? {
      EnvironmentKeeps(cfg, w, act);
    } else if act.worker in w.workers {
      WorkerKeeps(cfg, w.shared, w.workers[act.worker].owner, w.workers[act.worker].pc, act.move);
    }
    forall id | id in w.workers ensures PcOk(next.shared.issued, next.shared.approvals, w.workers[id].pc) {
      if next.shared != w.shared {
        PcStaysOk(w.shared, next.shared, w.workers[id].pc);
      }
    }
  }

  lemma {:induction false} CursorsHold(cfg: Config, acts: seq<Act>)
    ensures CursorInv(Play(cfg, acts))
  {
    if acts != [] {
      CursorsHold(cfg, acts[..|acts| - 1]);
      CursorStep(cfg, Play(cfg, acts[..|acts| - 1]), acts[|acts| - 1]);
    }
  }

  /** In every checkpoint of every reachable state, the calls without a result are exactly the remaining calls
      (tools), none (model, finalize), or the calls held by the approval, the gated one first. */
  lemma CheckpointsMatchTheirMessages(cfg: Config, acts: seq<Act>, c: Checkpoint)
    requires c in Play(cfg, acts).shared.db.checkpoints
    ensures match c.state.action
            case Model => Unresolved(c.state.messages) == []
            case Finalize => Unresolved(c.state.messages) == []
            case Tools => Unresolved(c.state.messages) == c.state.remaining
            case AwaitApproval =>
              var rows := Play(cfg, acts).shared.approvals.rows;
              && c.state.approval.Some? && c.state.approval.value in rows
              && var row := rows[c.state.approval.value];
              && row.run == Some(c.run) && row.remaining != [] && row.remaining[0] == row.call
              && Unresolved(c.state.messages) == row.remaining == Unresolved(row.messages)
  {
    CursorsHold(cfg, acts);
    var s := Play(cfg, acts).shared;
    assert StateOk(s.issued, s.approvals, c.run, c.state);
    if c.state.action == AwaitApproval {
      assert RowOk(s.issued, s.approvals.rows[c.state.approval.value]);
    }
  }

  /** A worker that is about to trim its messages holds a paired list without pending calls, which is what trimming
      relies on. */
  lemma TrimmedListsArePaired(cfg: Config, acts: seq<Act>, worker: WorkerId)
    requires worker in Play(cfg, acts).workers && Play(cfg, acts).workers[worker].pc.Turn?
    ensures var messages := Play(cfg, acts).workers[worker].pc.ctx.msgs;
            Paired(messages) && Unresolved(messages) == []
  {
    CursorsHold(cfg, acts);
    var s := Play(cfg, acts).shared;
    assert PcOk(s.issued, s.approvals, Play(cfg, acts).workers[worker].pc);
  }
}
