/** What the model is told about a tool call: the output on record, or why there is none. */
module Results {
  import opened Wrappers
  import opened RunState
  import opened Blocks
  import opened StoreSpec
  import opened StoreHistory
  import opened StoreInvariants
  import opened ApprovalSpec
  import Life = ApprovalHistory
  import opened Protocol
  import opened Tokens
  import opened AtMostOnce
  import opened Cursor
  import opened RunIdentity
  import opened ApprovalGate

  /******* What every text goes back to *******/

  const FAILED := "Tool execution failed: "

  ghost predicate TellsAnError(text: string) {
    exists error: string :: text == FAILED + error
  }

  function ErrorOf(row: Approval): string {
    if row.error.Some? && row.error.value != "" then row.error.value else "approved tool execution failed"
  }

  /** A request that nobody may execute any more, and what the model is told about it. */
  predicate Refuses(row: Approval, text: string) {
    || (row.status == Rejected && text == NotExecuted("user rejected the tool call"))
    || (row.status == Expired && text == NotExecuted("approval expired"))
    || (row.status == ExecutionFailed
        && text == NotExecuted(EscapedText(ErrorOf(row))))
  }

  predicate AsksFor(row: Approval, run: RunId, id: CallId) {
    row.run == Some(run) && row.call.id == id
  }

  ghost predicate RefusedByApproval(approvals: ApprovalDb, run: RunId, id: CallId, text: string) {
    exists a {:trigger approvals.rows[a]} ::
      a in approvals.rows && AsksFor(approvals.rows[a], run, id) && Refuses(approvals.rows[a], text)
  }

  /** The ledger has the output, or a row that forbids to run the call again. */
  predicate LedgerSays(db: Db, run: RunId, id: CallId, text: string) {
    && (run, id) in db.tools
    && var row := db.tools[(run, id)];
    || (row.status == ToolCompleted && row.output == Some(text))
    || text == NotExecuted("tool result is uncertain after interruption; automatic replay blocked")
    || (row.status != ToolRunning && !(row.status == ToolCompleted && row.output.Some?)
        && text == NotExecuted("previous tool execution failed; automatic replay blocked"))
  }

  /** Why the model may be told a text about a call it made. */
  ghost predicate Explained(cfg: Config, s: Shared, run: RunId, id: CallId, text: string) {
    && (run, id) in s.issued && s.issued[(run, id)] != []
    && match cfg.policy(s.issued[(run, id)][0])
       case Deny(reason) => text == reason
       case Allow => LedgerSays(s.db, run, id, text) || TellsAnError(text)
       case RequireApproval =>
         if cfg.approvals
         then LedgerSays(s.db, run, id, text) || TellsAnError(text) || RefusedByApproval(s.approvals, run, id, text)
         else text == NotExecuted("approval channel unavailable")
  }

  /** Shortened by trimming any number of times. */
  ghost predicate Trimmed(original: string, text: string, times: nat)
    decreases times
  {
    if times == 0 then text == original
    else exists middle: string {:trigger Shortens(middle, text)} :: Trimmed(original, middle, times - 1) && Shortens(middle, text)
  }

  ghost predicate IsTrue(cfg: Config, s: Shared, run: RunId, b: Block)
    requires b.ToolResult?
  {
    exists original: string, times: nat {:trigger Trimmed(original, b.content, times)} ::
      Trimmed(original, b.content, times) && Explained(cfg, s, run, b.callId, original)
  }

  ghost predicate ListOk(cfg: Config, s: Shared, run: RunId, messages: seq<Block>) {
    forall b {:trigger IsTrue(cfg, s, run, b)} :: b in messages && b.ToolResult? ==> IsTrue(cfg, s, run, b)
  }

  /** A decision or end that a worker read is still there. */
  predicate StillSo(approvals: ApprovalDb, id: ApprovalId, status: ApprovalStatus) {
    Life.Final(status) ==> id in approvals.rows && approvals.rows[id].status == status
  }

  ghost predicate PcTrue(cfg: Config, s: Shared, pc: Pc) {
    && (CtxOf(pc).Some? ==> ListOk(cfg, s, CtxOf(pc).value.run, CtxOf(pc).value.msgs))
    && match pc
       case Loaded(run, state) => ListOk(cfg, s, run, state.messages)
       case Claimed(run, FromCheckpoint(state)) => ListOk(cfg, s, run, state.messages)
       case Claimed(_, FromApproval(id, status)) => StillSo(s.approvals, id, status)
       case Opened(id, status) => StillSo(s.approvals, id, status)
       case Resuming(_, _, id, status) => StillSo(s.approvals, id, status)
       case Settling(ctx, todo, _, _, answer) => todo != [] ==> Explained(cfg, s, ctx.run, todo[0].id, answer)
       case _ => true
  }

  ghost predicate SharedTrue(cfg: Config, s: Shared) {
    && (forall c {:trigger ListOk(cfg, s, c.run, c.state.messages)} ::
          c in s.db.checkpoints ==> ListOk(cfg, s, c.run, c.state.messages))
    && (forall id {:trigger s.approvals.rows[id]} ::
          id in s.approvals.rows && s.approvals.rows[id].run.Some? ==>
            ListOk(cfg, s, s.approvals.rows[id].run.value, s.approvals.rows[id].messages))
  }

  ghost predicate TruthInv(cfg: Config, w: World) {
    && SharedTrue(cfg, w.shared)
    && forall id {:trigger PcTrue(cfg, w.shared, w.workers[id].pc)} ::
         id in w.workers ==> PcTrue(cfg, w.shared, w.workers[id].pc)
  }

  /******* What once explained a text still does *******/

  ghost predicate FinalsStay(a: ApprovalDb, b: ApprovalDb) {
    forall id :: id in a.rows ==>
      && id in b.rows && b.rows[id].run == a.rows[id].run && b.rows[id].call == a.rows[id].call
      && (Life.Final(a.rows[id].status) ==> b.rows[id].status == a.rows[id].status)
      && (a.rows[id].status == ExecutionFailed ==> b.rows[id].error == a.rows[id].error)
  }

  ghost predicate FinishedStay(db: Db, next: Db) {
    forall key :: key in db.tools ==>
      key in next.tools && (db.tools[key].status != ToolRunning ==> next.tools[key] == db.tools[key])
  }

  ghost predicate Evolves(s: Shared, next: Shared) {
    Grows(s, next) && FinalsStay(s.approvals, next.approvals) && FinishedStay(s.db, next.db)
  }

  lemma RefusalStays(a: ApprovalDb, b: ApprovalDb, run: RunId, id: CallId, text: string)
    requires FinalsStay(a, b) && RefusedByApproval(a, run, id, text)
    ensures RefusedByApproval(b, run, id, text)
  {
    var k :| k in a.rows && AsksFor(a.rows[k], run, id) && Refuses(a.rows[k], text);
    assert Refuses(b.rows[k], text);
  }

  lemma LedgerStillSays(db: Db, next: Db, run: RunId, id: CallId, text: string)
    requires FinishedStay(db, next) && LedgerSays(db, run, id, text)
    ensures LedgerSays(next, run, id, text)
  {
  }

  lemma ExplainedStays(cfg: Config, s: Shared, next: Shared, run: RunId, id: CallId, text: string)
    requires Evolves(s, next) && Explained(cfg, s, run, id, text)
    ensures Explained(cfg, next, run, id, text)
  {
    if LedgerSays(s.db, run, id, text) {
      LedgerStillSays(s.db, next.db, run, id, text);
    } else if RefusedByApproval(s.approvals, run, id, text) {
      RefusalStays(s.approvals, next.approvals, run, id, text);
    }
  }

  lemma ListStaysOk(cfg: Config, s: Shared, next: Shared, run: RunId, messages: seq<Block>)
    requires Evolves(s, next) && ListOk(cfg, s, run, messages)
    ensures ListOk(cfg, next, run, messages)
  {
    forall b | b in messages && b.ToolResult? ensures IsTrue(cfg, next, run, b) {
      assert IsTrue(cfg, s, run, b);
      var original, times: nat :| Trimmed(original, b.content, times) && Explained(cfg, s, run, b.callId, original);
      ExplainedStays(cfg, s, next, run, b.callId, original);
    }
  }

  lemma PcStaysTrue(cfg: Config, s: Shared, next: Shared, pc: Pc)
    requires Evolves(s, next) && PcTrue(cfg, s, pc)
    ensures PcTrue(cfg, next, pc)
  {
    if CtxOf(pc).Some? {
      ListStaysOk(cfg, s, next, CtxOf(pc).value.run, CtxOf(pc).value.msgs);
    }
    match pc
    case Loaded(run, state) => ListStaysOk(cfg, s, next, run, state.messages);
    case Claimed(run, FromCheckpoint(state)) => ListStaysOk(cfg, s, next, run, state.messages);
    case Settling(ctx, todo, _, _, answer) =>
      if todo != [] { ExplainedStays(cfg, s, next, ctx.run, todo[0].id, answer); }
    case _ =>
  }

  /******* Lists *******/

  lemma DictsAreTrue(cfg: Config, s: Shared, run: RunId, messages: seq<Block>)
    requires OnlyDicts(messages)
    ensures ListOk(cfg, s, run, messages)
  {
  }

  lemma AnswerIsTrue(cfg: Config, s: Shared, run: RunId, messages: seq<Block>, id: CallId, text: string)
    requires ListOk(cfg, s, run, messages) && Explained(cfg, s, run, id, text)
    ensures ListOk(cfg, s, run, messages + [ToolResult(id, text)])
  {
    forall b | b in messages + [ToolResult(id, text)] && b.ToolResult? ensures IsTrue(cfg, s, run, b) {
      if b in messages {
        assert IsTrue(cfg, s, run, b);
      } else {
        assert Trimmed(text, b.content, 0);
      }
    }
  }

  lemma ResponseIsTrue(cfg: Config, s: Shared, run: RunId, messages: seq<Block>, response: seq<Block>)
    requires ListOk(cfg, s, run, messages) && IsResponse(response)
    ensures ListOk(cfg, s, run, messages + response)
  {
  }

  lemma TrimmedIsTrue(cfg: Config, s: Shared, run: RunId, messages: seq<Block>, kept: seq<Block>)
    requires ListOk(cfg, s, run, messages) && KeepsResults(messages, kept)
    ensures ListOk(cfg, s, run, kept)
  {
    forall b | b in kept && b.ToolResult? ensures IsTrue(cfg, s, run, b) {
      var m :| m in messages && Resembles(m, b);
      assert IsTrue(cfg, s, run, m);
      var original, times: nat :| Trimmed(original, m.content, times) && Explained(cfg, s, run, m.callId, original);
      assert Trimmed(original, b.content, times + 1);
    }
  }

  /******* One transaction of the approval store *******/

  lemma ApprovalStepOfWorker(cfg: Config, s: Shared, owner: OwnerId, pc: Pc, i: Input) returns (op: Life.ApprovalOp)
    ensures var next := Advance(cfg, s, owner, pc, i).0.approvals;
            next == s.approvals || next == Life.Apply(s.approvals, op)
  {
    op := Life.Sweep(0);
    if pc.Calls? {
      if pc.todo != [] { op := RequestStep(cfg, s, pc.ctx, pc.todo, i); }
    } else if pc.Resuming? {
      if pc.todo != [] { op := ResumeStep(cfg, s, pc.ctx, pc.todo, pc.approval, pc.status, i); }
    } else if pc.Settling? {
      op := if pc.result.Raised? then Life.Break(pc.approval, pc.result.error) else Life.Succeed(pc.approval);
    } else {
      OthersLeaveApprovals(cfg, s, owner, pc, i);
    }
  }

  lemma RequestStep(cfg: Config, s: Shared, ctx: Ctx, todo: seq<Call>, i: Input) returns (op: Life.ApprovalOp)
    requires todo != []
    ensures var next := DecideCall(cfg, s, ctx, todo, i).0.approvals;
            next == s.approvals || next == Life.Apply(s.approvals, op)
  {
    op := Life.Sweep(0);
    if ctx.identity.Some? {
      op := Life.Request(i.id, NewApproval(ctx.identity.value, todo[0], Some(ctx.run), ctx.msgs, todo, ctx.turn, i.expires));
    }
  }

  lemma ResumeStep(
    cfg: Config, s: Shared, ctx: Ctx, todo: seq<Call>, id: ApprovalId, status: ApprovalStatus, i: Input)
    returns (op: Life.ApprovalOp)
    requires todo != []
    ensures var next := ResumeRequest(cfg, s, ctx, todo, id, status, i).0.approvals;
            next == s.approvals || next == Life.Apply(s.approvals, op)
  {
    op := if status == Rejected || status == Expired then Life.Consume(id, i.now)
          else if status == Approved then Life.Begin(id) else Life.Succeed(id);
  }

  lemma ApprovalStep(cfg: Config, w: World, act: Act) returns (op: Life.ApprovalOp)
    ensures var next := Step(cfg, w, act).shared.approvals;
            next == w.shared.approvals || next == Life.Apply(w.shared.approvals, op)
  {
    op := Life.Sweep(0);
    match act
    case Work(worker, move) =>
      if worker in w.workers && move.Next? {
        op := ApprovalStepOfWorker(cfg, w.shared, w.workers[worker].owner, w.workers[worker].pc, move.input);
      }
    case Click(id, action, identity, event, now) => op := Life.Click(id, action, identity, event, now);
    case Expire(now) => op := Life.Sweep(now);
    case Consume(id, now) => op := Life.Consume(id, now);
    case _ =>
  }

  /** So what happens from any point of a history on is, for the approval store, a history of its transactions. */
  lemma {:induction false} ProtocolIsApprovalHistory(cfg: Config, acts: seq<Act>, from: nat) returns (ops: seq<Life.ApprovalOp>)
    requires from <= |acts|
    ensures Play(cfg, acts).shared.approvals == Life.From(Play(cfg, acts[..from]).shared.approvals, ops)
    decreases |acts|
  {
    ops := [];
    if from == |acts| {
      assert acts[..from] == acts;
    } else {
      var front := acts[..|acts| - 1];
      assert front[..from] == acts[..from];
      ops := ProtocolIsApprovalHistory(cfg, front, from);
      var op := ApprovalStep(cfg, Play(cfg, front), acts[|acts| - 1]);
      if Play(cfg, acts).shared.approvals != Play(cfg, front).shared.approvals {
        assert (ops + [op])[..|ops|] == ops;
        ops := ops + [op];
      }
    }
  }

  /** What the environment does to a request takes place in the world: a sweep leaves nothing undecided and overdue, a
      consumption marks what was refused, and a sender's click in time decides. */
  lemma EnvironmentDecides(
    cfg: Config, w: World, id: ApprovalId, now: Time, action: ApprovalAction, clicker: Identity, event: string)
    requires id in w.shared.approvals.rows
    ensures var row := w.shared.approvals.rows[id];
            var swept := Step(cfg, w, Expire(now)).shared.approvals.rows;
            var consumed := Step(cfg, w, Consume(id, now)).shared.approvals.rows;
            var clicked := Step(cfg, w, Click(id, Some(action), clicker, event, now)).shared.approvals.rows;
            && id in swept && id in consumed && id in clicked
            && !(swept[id].status == Undecided && swept[id].expires <= now)
            && (row.status == Rejected || row.status == Expired ==> consumed[id].consumedAt.Some?)
            && (row.status == Undecided && now < row.expires && event !in w.shared.approvals.events
                && row.identity.platform == clicker.platform && row.identity.conversation == clicker.conversation
                && row.identity.sender == clicker.sender ==>
                  clicked[id].status == if action == Confirm then Approved else Rejected)
  {
    Life.SweepExpiresExactly(w.shared.approvals, now, id);
  }

  lemma WorldEvolves(cfg: Config, w: World, act: Act)
    requires CursorInv(w)
    ensures Evolves(w.shared, Step(cfg, w, act).shared)
  {
    var next := Step(cfg, w, act).shared;
    if !act.Work? {
      EnvironmentKeeps(cfg, w, act);
    } else if act.worker in w.workers {
      assert PcOk(w.shared.issued, w.shared.approvals, w.workers[act.worker].pc);
      WorkerKeeps(cfg, w.shared, w.workers[act.worker].owner, w.workers[act.worker].pc, act.move);
    }
    ApprovalsEvolve(cfg, w, act);
    var op := StepTransaction(cfg, w, act);
    forall key | key in w.shared.db.tools
      ensures key in next.db.tools
      ensures w.shared.db.tools[key].status != ToolRunning ==> next.db.tools[key] == w.shared.db.tools[key]
    {
      LedgerStep(w.shared.db, op, key);
    }
  }

  lemma ApprovalsEvolve(cfg: Config, w: World, act: Act)
    ensures FinalsStay(w.shared.approvals, Step(cfg, w, act).shared.approvals)
  {
    var a, b := w.shared.approvals, Step(cfg, w, act).shared.approvals;
    var op := ApprovalStep(cfg, w, act);
    if b != a {
      forall id | id in a.rows
        ensures id in b.rows && b.rows[id].run == a.rows[id].run && b.rows[id].call == a.rows[id].call
        ensures Life.Final(a.rows[id].status) ==> b.rows[id].status == a.rows[id].status
        ensures a.rows[id].status == ExecutionFailed ==> b.rows[id].error == a.rows[id].error
      {
        Life.RowStep(a, op, id);
      }
    }
  }

  /******* One step of a worker *******/

  function TextOf(result: Outcome): string {
    match result
    case Returned(output) => output
    case Raised(error) => FAILED + error
  }

  /** A worker at a call that may be executed: an allowed one, or one with an approval to be asked for. */
  predicate MayRun(cfg: Config, s: Shared, ctx: Ctx, todo: seq<Call>) {
    && todo != [] && At(s.issued, ctx.run, ctx.msgs, todo)
    && (cfg.policy(todo[0]) == Allow || (cfg.policy(todo[0]) == RequireApproval && cfg.approvals))
  }

  lemma ErrorIsExplained(cfg: Config, s: Shared, ctx: Ctx, todo: seq<Call>, error: string)
    requires MayRun(cfg, s, ctx, todo)
    ensures Explained(cfg, s, ctx.run, todo[0].id, FAILED + error)
  {
    assert TellsAnError(FAILED + error);
  }

  lemma FinishedIsTrue(
    cfg: Config, s: Shared, next: Shared, ctx: Ctx, todo: seq<Call>, via: Option<ApprovalId>, result: Outcome)
    requires todo != [] && Evolves(s, next) && ListOk(cfg, s, ctx.run, ctx.msgs)
    requires Explained(cfg, next, ctx.run, todo[0].id, TextOf(result))
    ensures PcTrue(cfg, next, Finished(ctx, todo, via, result))
  {
    ListStaysOk(cfg, s, next, ctx.run, ctx.msgs);
    AnswerIsTrue(cfg, next, ctx.run, ctx.msgs, todo[0].id, TextOf(result));
  }

  /** What an invocation comes back with, unless the call is cleared for execution. */
  function InvokedResult(cfg: Config, s: Shared, owner: OwnerId, ctx: Ctx, call: Call, lost: bool): Option<Outcome> {
    var claim := ClaimTool(s.db, cfg.backend, owner, ctx.run, call, Some(ctx.token)).1;
    if lost then Some(Raised("Run lease lost")) else if claim == Execute then None else Some(ClaimResult(claim))
  }

  lemma InvokeComesBack(
    cfg: Config, s: Shared, owner: OwnerId, ctx: Ctx, todo: seq<Call>, via: Option<ApprovalId>, i: Input)
    requires todo != []
    ensures var result := InvokedResult(cfg, s, owner, ctx, todo[0], i.flag);
            Invoke(cfg, s, owner, ctx, todo, via, i).1
              == if result.None? then Entering(ctx, todo, via) else Finished(ctx, todo, via, result.value)
  {
  }

  lemma InvokedIsExplained(cfg: Config, s: Shared, owner: OwnerId, ctx: Ctx, todo: seq<Call>, lost: bool, result: Outcome)
    requires MayRun(cfg, s, ctx, todo) && InvokedResult(cfg, s, owner, ctx, todo[0], lost) == Some(result)
    ensures Explained(cfg, s, ctx.run, todo[0].id, TextOf(result))
  {
    if lost {
      ErrorIsExplained(cfg, s, ctx, todo, "Run lease lost");
    } else {
      ClaimIsExplained(cfg, s, owner, ctx, todo, ClaimTool(s.db, cfg.backend, owner, ctx.run, todo[0], Some(ctx.token)).1);
    }
  }

  lemma InvokeIsTrue(
    cfg: Config, s: Shared, owner: OwnerId, ctx: Ctx, todo: seq<Call>, via: Option<ApprovalId>, i: Input)
    requires MayRun(cfg, s, ctx, todo) && ListOk(cfg, s, ctx.run, ctx.msgs)
    requires Evolves(s, Invoke(cfg, s, owner, ctx, todo, via, i).0)
    ensures var (next, pc) := Invoke(cfg, s, owner, ctx, todo, via, i); PcTrue(cfg, next, pc)
  {
    InvokeComesBack(cfg, s, owner, ctx, todo, via, i);
    var (next, pc) := Invoke(cfg, s, owner, ctx, todo, via, i);
    match InvokedResult(cfg, s, owner, ctx, todo[0], i.flag)
    case None => ListStaysOk(cfg, s, next, ctx.run, ctx.msgs);
    case Some(result) =>
      InvokedIsExplained(cfg, s, owner, ctx, todo, i.flag, result);
      AnsweredIsTrue(cfg, s, next, ctx, todo, via, result, pc);
  }

  lemma AnsweredIsTrue(
    cfg: Config, s: Shared, next: Shared, ctx: Ctx, todo: seq<Call>, via: Option<ApprovalId>, result: Outcome, pc: Pc)
    requires todo != [] && Evolves(s, next) && ListOk(cfg, s, ctx.run, ctx.msgs)
    requires Explained(cfg, s, ctx.run, todo[0].id, TextOf(result)) && pc == Finished(ctx, todo, via, result)
    ensures PcTrue(cfg, next, pc)
  {
    ExplainedStays(cfg, s, next, ctx.run, todo[0].id, TextOf(result));
    FinishedIsTrue(cfg, s, next, ctx, todo, via, result);
  }

  /** A row that is there replays its output, or forbids to run the call again. */
  lemma ClaimQuotesTheLedger(db: Db, run: RunId, call: Call, claim: ToolClaim)
    requires GetTool(db, run, call) == Some(claim) && !claim.Conflict?
    ensures claim != Execute && LedgerSays(db, run, call.id, TextOf(ClaimResult(claim)))
  {
  }

  lemma UnclearedMeansOnRecord(
    db: Db, backend: Backend, owner: OwnerId, run: RunId, call: Call, token: Option<nat>, claim: ToolClaim)
    requires claim == ClaimTool(db, backend, owner, run, call, token).1 && claim != Execute && !claim.LeaseLost?
    ensures GetTool(db, run, call) == Some(claim)
  {
  }

  lemma RefusedClaimIsExplained(cfg: Config, s: Shared, ctx: Ctx, todo: seq<Call>, claim: ToolClaim)
    requires MayRun(cfg, s, ctx, todo) && (claim.Conflict? || claim.LeaseLost?)
    ensures Explained(cfg, s, ctx.run, todo[0].id, TextOf(ClaimResult(claim)))
  {
    ErrorIsExplained(cfg, s, ctx, todo, ClaimResult(claim).error);
  }

  lemma ClaimIsExplained(cfg: Config, s: Shared, owner: OwnerId, ctx: Ctx, todo: seq<Call>, claim: ToolClaim)
    requires MayRun(cfg, s, ctx, todo) && claim != Execute
    requires claim == ClaimTool(s.db, cfg.backend, owner, ctx.run, todo[0], Some(ctx.token)).1
    ensures Explained(cfg, s, ctx.run, todo[0].id, TextOf(ClaimResult(claim)))
  {
    if claim.Conflict? || claim.LeaseLost? {
      RefusedClaimIsExplained(cfg, s, ctx, todo, claim);
    } else {
      UnclearedMeansOnRecord(s.db, cfg.backend, owner, ctx.run, todo[0], Some(ctx.token), claim);
      ClaimQuotesTheLedger(s.db, ctx.run, todo[0], claim);
    }
  }

  lemma RecordIsTrue(
    cfg: Config, s: Shared, owner: OwnerId, ctx: Ctx, todo: seq<Call>, via: Option<ApprovalId>, outcome: Outcome,
    checked: bool, i: Input)
    requires MayRun(cfg, s, ctx, todo) && ListOk(cfg, s, ctx.run, ctx.msgs)
    requires Evolves(s, RecordOutcome(cfg, s, owner, ctx, todo, via, outcome, checked, i).0)
    ensures var (next, pc) := RecordOutcome(cfg, s, owner, ctx, todo, via, outcome, checked, i); PcTrue(cfg, next, pc)
  {
    var (next, pc) := RecordOutcome(cfg, s, owner, ctx, todo, via, outcome, checked, i);
    if !checked && !Owns(s.db, owner, ctx.run, Some(ctx.token)) {
      ErrorIsExplained(cfg, next, ctx, todo, "Run lease lost");
      FinishedIsTrue(cfg, s, next, ctx, todo, via, Raised("Run lease lost"));
    } else if !checked && cfg.backend == Sqlite {
    } else {
      var (db, ok) := FinishRow(s.db, ctx.run, todo[0].id, outcome);
      var result := RecordedResult(todo[0].id, outcome, ok, i.flag);
      if result.Raised? {
        ErrorIsExplained(cfg, next, ctx, todo, result.error);
      } else {
        assert LedgerSays(next.db, ctx.run, todo[0].id, result.output);
      }
      FinishedIsTrue(cfg, s, next, ctx, todo, via, result);
    }
  }

  /** The approval a worker resumes asks for the call at the head of its batch. */
  lemma ResumedRowAsks(cfg: Config, s: Shared, ctx: Ctx, todo: seq<Call>, id: ApprovalId)
    requires SharedOk(s) && LinksOk(cfg, s.approvals)
    requires At(s.issued, ctx.run, ctx.msgs, todo) && WaitsAt(s.approvals, id, ctx.run, todo)
    ensures AsksFor(s.approvals.rows[id], ctx.run, todo[0].id) && s.approvals.rows[id].call == todo[0]
    ensures MayRun(cfg, s, ctx, todo) && cfg.policy(todo[0]) == RequireApproval
  {
    assert RowOk(s.issued, s.approvals.rows[id]);
  }

  lemma RefusalIsExplained(cfg: Config, s: Shared, ctx: Ctx, todo: seq<Call>, id: ApprovalId, text: string)
    requires SharedOk(s) && LinksOk(cfg, s.approvals)
    requires At(s.issued, ctx.run, ctx.msgs, todo) && WaitsAt(s.approvals, id, ctx.run, todo)
    requires Refuses(s.approvals.rows[id], text)
    ensures Explained(cfg, s, ctx.run, todo[0].id, text)
  {
    ResumedRowAsks(cfg, s, ctx, todo, id);
    assert RefusedByApproval(s.approvals, ctx.run, todo[0].id, text);
  }

  /** What a resumed approval leads to is in order: an answer, an invocation, or nothing. */
  lemma ResumeIsTrue(cfg: Config, s: Shared, ctx: Ctx, todo: seq<Call>, id: ApprovalId, status: ApprovalStatus, i: Input)
    requires SharedOk(s) && LinksOk(cfg, s.approvals) && At(s.issued, ctx.run, ctx.msgs, todo)
    requires WaitsAt(s.approvals, id, ctx.run, todo)
    requires ListOk(cfg, s, ctx.run, ctx.msgs) && StillSo(s.approvals, id, status)
    ensures PcTrue(cfg, s, ResumeRequest(cfg, s, ctx, todo, id, status, i).1)
  {
    var pc := ResumeRequest(cfg, s, ctx, todo, id, status, i).1;
    ResumedRowAsks(cfg, s, ctx, todo, id);
    if pc.Answered? {
      var text := pc.ctx.msgs[|ctx.msgs|].content;
      if status == Rejected || status == Expired {
        RefusedAnswer(cfg, s, ctx, todo, id, status, i, text);
      } else {
        RecordedAnswer(cfg, s, ctx, todo, id, status, i, text);
      }
      AnswerIsTrue(cfg, s, ctx.run, ctx.msgs, todo[0].id, text);
    }
  }

  lemma RefusedAnswer(
    cfg: Config, s: Shared, ctx: Ctx, todo: seq<Call>, id: ApprovalId, status: ApprovalStatus, i: Input, text: string)
    requires SharedOk(s) && LinksOk(cfg, s.approvals) && At(s.issued, ctx.run, ctx.msgs, todo)
    requires WaitsAt(s.approvals, id, ctx.run, todo) && StillSo(s.approvals, id, status)
    requires status == Rejected || status == Expired
    requires var pc := ResumeRequest(cfg, s, ctx, todo, id, status, i).1;
             pc.Answered? && pc.ctx.msgs[|ctx.msgs|].content == text
    ensures Explained(cfg, s, ctx.run, todo[0].id, text)
    ensures ResumeRequest(cfg, s, ctx, todo, id, status, i).1.ctx == ctx.(msgs := ctx.msgs + [ToolResult(todo[0].id, text)])
  {
    RefusalIsExplained(cfg, s, ctx, todo, id, text);
  }

  lemma RecordedAnswer(
    cfg: Config, s: Shared, ctx: Ctx, todo: seq<Call>, id: ApprovalId, status: ApprovalStatus, i: Input, text: string)
    requires SharedOk(s) && LinksOk(cfg, s.approvals) && At(s.issued, ctx.run, ctx.msgs, todo)
    requires WaitsAt(s.approvals, id, ctx.run, todo) && StillSo(s.approvals, id, status)
    requires status != Rejected && status != Expired
    requires var pc := ResumeRequest(cfg, s, ctx, todo, id, status, i).1;
             pc.Answered? && pc.ctx.msgs[|ctx.msgs|].content == text
    ensures Explained(cfg, s, ctx.run, todo[0].id, text)
    ensures ResumeRequest(cfg, s, ctx, todo, id, status, i).1.ctx == ctx.(msgs := ctx.msgs + [ToolResult(todo[0].id, text)])
  {
    ResumedText(cfg, s, ctx, todo, id, status, i, text);
    if GetTool(s.db, ctx.run, todo[0]) == Some(Replay(text)) {
      ResumedRowAsks(cfg, s, ctx, todo, id);
      ClaimQuotesTheLedger(s.db, ctx.run, todo[0], Replay(text));
    } else {
      FailureIsQuoted(s.approvals, id);
      RefusalIsExplained(cfg, s, ctx, todo, id, text);
    }
  }

  /** A resumed call is answered out of the ledger, or with the failure of its approval. */
  lemma ResumedText(
    cfg: Config, s: Shared, ctx: Ctx, todo: seq<Call>, id: ApprovalId, status: ApprovalStatus, i: Input, text: string)
    requires todo != [] && status != Rejected && status != Expired
    requires var pc := ResumeRequest(cfg, s, ctx, todo, id, status, i).1;
             pc.Answered? && pc.ctx.msgs[|ctx.msgs|].content == text
    ensures || GetTool(s.db, ctx.run, todo[0]) == Some(Replay(text))
            || (status == ExecutionFailed && text == NotExecuted(EscapedText(FailureReason(s.approvals, id))))
    ensures ResumeRequest(cfg, s, ctx, todo, id, status, i).1.ctx == ctx.(msgs := ctx.msgs + [ToolResult(todo[0].id, text)])
  {
  }

  lemma FailureIsQuoted(approvals: ApprovalDb, id: ApprovalId)
    requires id in approvals.rows && approvals.rows[id].status == ExecutionFailed
    ensures Refuses(approvals.rows[id], NotExecuted(EscapedText(FailureReason(approvals, id))))
  {
  }

  lemma DecideIsTrue(cfg: Config, s: Shared, ctx: Ctx, todo: seq<Call>, i: Input)
    requires todo != [] && At(s.issued, ctx.run, ctx.msgs, todo) && ListOk(cfg, s, ctx.run, ctx.msgs)
    requires ctx.identity.Some?
    ensures PcTrue(cfg, s, DecideCall(cfg, s, ctx, todo, i).1)
  {
    var pc := DecideCall(cfg, s, ctx, todo, i).1;
    var policy := cfg.policy(todo[0]);
    if policy.Deny? {
      AnswerIsTrue(cfg, s, ctx.run, ctx.msgs, todo[0].id, policy.reason);
    } else if policy.RequireApproval? && !cfg.approvals {
      AnswerIsTrue(cfg, s, ctx.run, ctx.msgs, todo[0].id, NotExecuted("approval channel unavailable"));
    }
  }

  /** The counters whose step leaves the worker's messages as they are, and says nothing else this is about. */
  predicate KeepsList(pc: Pc) {
    pc.Idle? || pc.Reparking? || pc.Finalizing? || pc.Completing? || pc.Batch? || pc.Gate? || pc.Parking? || pc.Answered?
    || pc.Doubtful? || pc.Entering? || pc.InHandler? || pc.Raising?
  }

  predicate Bare(pc: Pc) {
    !pc.Loaded? && !pc.Claimed? && !pc.Opened? && !pc.Resuming? && !pc.Settling?
  }

  lemma KeepingSteps(cfg: Config, s: Shared, owner: OwnerId, pc: Pc, i: Input)
    requires KeepsList(pc)
    ensures var after := Advance(cfg, s, owner, pc, i).1;
            Bare(after)
            && (CtxOf(after).Some? ==>
                  CtxOf(pc).Some? && CtxOf(after).value.run == CtxOf(pc).value.run
                  && CtxOf(after).value.msgs == CtxOf(pc).value.msgs)
  {
  }

  lemma AskIsTrue(cfg: Config, s: Shared, owner: OwnerId, ctx: Ctx, i: Input)
    requires ListOk(cfg, s, ctx.run, ctx.msgs)
    ensures PcTrue(cfg, s, Ask(s, owner, ctx, i).1)
  {
    if FreshResponse(s.issued, ctx.run, i.blocks) {
      ResponseIsTrue(cfg, s, ctx.run, ctx.msgs, i.blocks);
    }
  }

  lemma ListStepsAreTrue(cfg: Config, s: Shared, owner: OwnerId, pc: Pc, i: Input)
    requires pc.Building? || pc.Turn?
    requires ListOk(cfg, s, pc.ctx.run, pc.ctx.msgs)
    ensures PcTrue(cfg, s, Advance(cfg, s, owner, pc, i).1)
  {
    if pc.Building? && OnlyDicts(i.blocks) {
      DictsAreTrue(cfg, s, pc.ctx.run, i.blocks);
    } else if pc.Turn? && Trims(pc.ctx.msgs, i.blocks) {
      TrimmedIsTrue(cfg, s, pc.ctx.run, pc.ctx.msgs, i.blocks);
    }
  }

  lemma OpeningStepsAreTrue(cfg: Config, s: Shared, owner: OwnerId, pc: Pc, i: Input)
    requires pc.Loaded? || pc.Opening? || pc.Opened? || pc.Claimed?
    requires SharedTrue(cfg, s) && PcOk(s.issued, s.approvals, pc) && PcTrue(cfg, s, pc)
    ensures PcTrue(cfg, s, Advance(cfg, s, owner, pc, i).1)
  {
    if pc.Claimed? && pc.origin.FromApproval? {
      var row := s.approvals.rows[pc.origin.approval];
      assert ListOk(cfg, s, row.run.value, row.messages);
    }
  }

  lemma ExecutedMayRun(cfg: Config, s: Shared, pc: Pc)
    requires PcOk(s.issued, s.approvals, pc) && LinksOk(cfg, s.approvals) && PcGated(cfg, s, pc)
    requires (pc.Invoking? || pc.Recording?) && pc.todo != []
    ensures MayRun(cfg, s, pc.ctx, pc.todo)
  {
  }

  lemma PcAdvancesTruly(cfg: Config, s: Shared, owner: OwnerId, pc: Pc, i: Input)
    requires SharedOk(s) && PcOk(s.issued, s.approvals, pc) && PcKnown(s.db, pc)
    requires LinksOk(cfg, s.approvals) && PcGated(cfg, s, pc)
    requires SharedTrue(cfg, s) && PcTrue(cfg, s, pc) && Evolves(s, Advance(cfg, s, owner, pc, i).0)
    ensures var (next, after) := Advance(cfg, s, owner, pc, i); PcTrue(cfg, next, after)
  {
    var (next, after) := Advance(cfg, s, owner, pc, i);
    if pc.Invoking? {
      if pc.todo != [] {
        ExecutedMayRun(cfg, s, pc);
        InvokeIsTrue(cfg, s, owner, pc.ctx, pc.todo, pc.via, i);
      }
    } else if pc.Recording? {
      if pc.todo != [] {
        ExecutedMayRun(cfg, s, pc);
        RecordIsTrue(cfg, s, owner, pc.ctx, pc.todo, pc.via, pc.outcome, pc.checked, i);
      }
    } else {
      OtherPcAdvancesTruly(cfg, s, owner, pc, i);
      PcStaysTrue(cfg, s, next, after);
    }
  }

  lemma OtherPcAdvancesTruly(cfg: Config, s: Shared, owner: OwnerId, pc: Pc, i: Input)
    requires SharedOk(s) && PcOk(s.issued, s.approvals, pc) && PcKnown(s.db, pc) && !pc.Invoking? && !pc.Recording?
    requires LinksOk(cfg, s.approvals)
    requires SharedTrue(cfg, s) && PcTrue(cfg, s, pc)
    ensures PcTrue(cfg, s, Advance(cfg, s, owner, pc, i).1)
  {
    if KeepsList(pc) {
      KeepingSteps(cfg, s, owner, pc, i);
    } else if pc.Asking? {
      AskIsTrue(cfg, s, owner, pc.ctx, i);
    } else if pc.Building? || pc.Turn? {
      ListStepsAreTrue(cfg, s, owner, pc, i);
    } else if pc.Calls? {
      if pc.todo != [] { DecideIsTrue(cfg, s, pc.ctx, pc.todo, i); }
    } else if pc.Resuming? {
      if pc.todo != [] { ResumeIsTrue(cfg, s, pc.ctx, pc.todo, pc.approval, pc.status, i); }
    } else if pc.Settling? {
      if pc.todo != [] { AnswerIsTrue(cfg, s, pc.ctx.run, pc.ctx.msgs, pc.todo[0].id, pc.answer); }
    } else {
      OpeningStepsAreTrue(cfg, s, owner, pc, i);
    }
  }

  /******* New checkpoints and approvals *******/

  lemma SavedListIsTrue(cfg: Config, s: Shared, owner: OwnerId, pc: Pc, i: Input)
    requires Saves(pc) && ListOk(cfg, s, pc.ctx.run, pc.ctx.msgs) && Advance(cfg, s, owner, pc, i).0.db != s.db
    ensures ListOk(cfg, s, pc.ctx.run, SavedAt(pc, i).1.messages)
  {
    if pc.Building? {
      DictsAreTrue(cfg, s, pc.ctx.run, i.blocks);
    } else if pc.Turn? {
      TrimmedIsTrue(cfg, s, pc.ctx.run, pc.ctx.msgs, i.blocks);
    }
  }

  lemma NewCheckpointIsTheSaved(cfg: Config, s: Shared, owner: OwnerId, pc: Pc, i: Input, c: Checkpoint)
    requires c in Advance(cfg, s, owner, pc, i).0.db.checkpoints && c !in s.db.checkpoints
    ensures Saves(pc) && Advance(cfg, s, owner, pc, i).0.db != s.db
    ensures c.run == pc.ctx.run && c.state == SavedAt(pc, i).1
  {
    if Saves(pc) {
      SaveTransaction(cfg, s, owner, pc, i);
    } else {
      OthersSaveNothing(cfg, s, owner, pc, i);
    }
  }

  lemma NewApprovalHoldsTheList(cfg: Config, s: Shared, ctx: Ctx, todo: seq<Call>, i: Input, id: ApprovalId)
    requires todo != [] && id in DecideCall(cfg, s, ctx, todo, i).0.approvals.rows && id !in s.approvals.rows
    ensures var row := DecideCall(cfg, s, ctx, todo, i).0.approvals.rows[id];
            row.run == Some(ctx.run) && row.messages == ctx.msgs && row.nextTurn == ctx.turn
  {
  }

  lemma SharedAdvancesTruly(cfg: Config, s: Shared, owner: OwnerId, pc: Pc, i: Input)
    requires SharedTrue(cfg, s) && PcTrue(cfg, s, pc) && Evolves(s, Advance(cfg, s, owner, pc, i).0)
    ensures SharedTrue(cfg, Advance(cfg, s, owner, pc, i).0)
  {
    var next := Advance(cfg, s, owner, pc, i).0;
    forall c | c in next.db.checkpoints ensures ListOk(cfg, next, c.run, c.state.messages) {
      if c !in s.db.checkpoints {
        NewCheckpointIsTheSaved(cfg, s, owner, pc, i, c);
        SavedListIsTrue(cfg, s, owner, pc, i);
      }
      ListStaysOk(cfg, s, next, c.run, c.state.messages);
    }
    if !pc.Calls? {
      OthersCreateNothing(cfg, s, owner, pc, i);
    }
    forall id | id in next.approvals.rows && next.approvals.rows[id].run.Some?
      ensures ListOk(cfg, next, next.approvals.rows[id].run.value, next.approvals.rows[id].messages)
    {
      if id in s.approvals.rows {
        assert SameRequest(s.approvals.rows[id], next.approvals.rows[id]);
      } else if pc.todo != [] {
        NewApprovalHoldsTheList(cfg, s, pc.ctx, pc.todo, i, id);
      }
      ListStaysOk(cfg, s, next, next.approvals.rows[id].run.value, next.approvals.rows[id].messages);
    }
  }

  /******* All other steps *******/

  /** A step that adds no list but those of blocks from the history. */
  lemma NoNewLists(cfg: Config, s: Shared, next: Shared)
    requires SharedTrue(cfg, s) && Evolves(s, next) && next.approvals.rows.Keys == s.approvals.rows.Keys
    requires forall c :: c in next.db.checkpoints ==> c in s.db.checkpoints || OnlyDicts(c.state.messages)
    ensures SharedTrue(cfg, next)
  {
    forall c | c in next.db.checkpoints ensures ListOk(cfg, next, c.run, c.state.messages) {
      if c in s.db.checkpoints {
        ListStaysOk(cfg, s, next, c.run, c.state.messages);
      } else {
        DictsAreTrue(cfg, next, c.run, c.state.messages);
      }
    }
    forall id | id in next.approvals.rows && next.approvals.rows[id].run.Some?
      ensures ListOk(cfg, next, next.approvals.rows[id].run.value, next.approvals.rows[id].messages)
    {
      assert SameRequest(s.approvals.rows[id], next.approvals.rows[id]);
      ListStaysOk(cfg, s, next, next.approvals.rows[id].run.value, next.approvals.rows[id].messages);
    }
  }

  lemma BeginIsTrue(cfg: Config, s: Shared, owner: OwnerId, pc: Pc, move: Move)
    requires move.Begin? && SharedTrue(cfg, s) && PcTrue(cfg, s, pc)
    requires Evolves(s, MoveWorker(cfg, s, owner, pc, move).0)
    ensures var (next, after) := MoveWorker(cfg, s, owner, pc, move); SharedTrue(cfg, next) && PcTrue(cfg, next, after)
  {
    var (next, after) := MoveWorker(cfg, s, owner, pc, move);
    PcStaysTrue(cfg, s, next, pc);
    var session := move.req.identity.Session();
    HistoryIsDicts(next.db.messages, session, move.req.recentLimit);
    NoNewLists(cfg, s, next);
    DictsAreTrue(cfg, next, move.id, History(next.db.messages, session, move.req.recentLimit));
  }

  lemma MoveIsTrue(cfg: Config, s: Shared, owner: OwnerId, pc: Pc, move: Move)
    requires SharedOk(s) && PcOk(s.issued, s.approvals, pc) && PcKnown(s.db, pc)
    requires LinksOk(cfg, s.approvals) && PcGated(cfg, s, pc)
    requires SharedTrue(cfg, s) && PcTrue(cfg, s, pc) && Evolves(s, MoveWorker(cfg, s, owner, pc, move).0)
    ensures var (next, after) := MoveWorker(cfg, s, owner, pc, move); SharedTrue(cfg, next) && PcTrue(cfg, next, after)
  {
    match move
    case Begin(_, _, _, _) => BeginIsTrue(cfg, s, owner, pc, move);
    case Next(i) =>
      assert MoveWorker(cfg, s, owner, pc, move) == Advance(cfg, s, owner, pc, i);
      PcAdvancesTruly(cfg, s, owner, pc, i);
      SharedAdvancesTruly(cfg, s, owner, pc, i);
    case Load(run) =>
      var latest := LatestCheckpoint(s.db.checkpoints, run);
      assert latest.Some? ==> ListOk(cfg, s, latest.value.run, latest.value.state.messages);
    case _ =>
  }

  lemma TruthStep(cfg: Config, w: World, act: Act)
    requires CursorInv(w) && IdentityInv(w) && GateInv(cfg, w) && TruthInv(cfg, w)
    ensures TruthInv(cfg, Step(cfg, w, act))
  {
    var s, next := w.shared, Step(cfg, w, act);
    WorldEvolves(cfg, w, act);
    if !act.Work? {
      EnvironmentCreatesNothing(cfg, w, act);
      NoNewLists(cfg, s, next.shared);
    } else if act.worker in w.workers {
      var me := w.workers[act.worker];
      assert PcKnown(s.db, me.pc) && PcOk(s.issued, s.approvals, me.pc) && PcTrue(cfg, s, me.pc);
      assert PcGated(cfg, s, me.pc);
      MoveIsTrue(cfg, s, me.owner, me.pc, act.move);
    }
    forall id | id in next.workers ensures PcTrue(cfg, next.shared, next.workers[id].pc) {
      if id in w.workers && next.workers[id] == w.workers[id] {
        PcStaysTrue(cfg, s, next.shared, w.workers[id].pc);
      }
    }
  }

  lemma {:induction false} ResultsAreTrue(cfg: Config, acts: seq<Act>)
    ensures TruthInv(cfg, Play(cfg, acts))
  {
    if acts != [] {
      var before := acts[..|acts| - 1];
      ResultsAreTrue(cfg, before);
      GatesHold(cfg, before);
      IdentitiesHold(cfg, before);
      TruthStep(cfg, Play(cfg, before), acts[|acts| - 1]);
    }
  }

  /******* The theorems *******/

  /** However workers, crashes, resumes, approvals and admin commands interleave: every tool result in every checkpoint
      and in every request, up to trimming, tells the model what happened to a call of its own. A denied call is answered
      with the reason; an allowed one with its recorded output, with an error, or with the note that its row forbids to
      run it; one that requires approval may also be refused, for the reason its request ended with. */
  lemma EveryResultIsExplained(cfg: Config, acts: seq<Act>)
    ensures var s := Play(cfg, acts).shared;
            && (forall c, b {:trigger IsTrue(cfg, s, c.run, b)} ::
                  c in s.db.checkpoints && b in c.state.messages && b.ToolResult? ==> IsTrue(cfg, s, c.run, b))
            && (forall id, b {:trigger IsTrue(cfg, s, s.approvals.rows[id].run.value, b)} ::
                  (id in s.approvals.rows && s.approvals.rows[id].run.Some? && b in s.approvals.rows[id].messages
                   && b.ToolResult?) ==> IsTrue(cfg, s, s.approvals.rows[id].run.value, b))
  {
    ResultsAreTrue(cfg, acts);
    var s := Play(cfg, acts).shared;
    assert forall c :: c in s.db.checkpoints ==> ListOk(cfg, s, c.run, c.state.messages);
  }

  /** An allowed call whose output is on record is answered with that output, up to trimming; unless it was answered by
      an attempt that failed, or that found the execution still open. */
  lemma RecordedCallsAreAnsweredByTheirOutput(cfg: Config, acts: seq<Act>, c: Checkpoint, b: Block, output: string)
    returns (original: string, times: nat)
    requires var s := Play(cfg, acts).shared;
             && c in s.db.checkpoints && b in c.state.messages && b.ToolResult?
             && (c.run, b.callId) in s.db.tools && s.db.tools[(c.run, b.callId)].status == ToolCompleted
             && s.db.tools[(c.run, b.callId)].output == Some(output)
             && forall call :: (c.run, b.callId) in s.issued && call in s.issued[(c.run, b.callId)] ==> cfg.policy(call) == Allow
    ensures Trimmed(original, b.content, times)
    ensures || original == output || TellsAnError(original)
            || original == NotExecuted("tool result is uncertain after interruption; automatic replay blocked")
  {
    EveryResultIsExplained(cfg, acts);
    var s := Play(cfg, acts).shared;
    assert IsTrue(cfg, s, c.run, b);
    original, times :| Trimmed(original, b.content, times) && Explained(cfg, s, c.run, b.callId, original);
    assert s.issued[(c.run, b.callId)][0] in s.issued[(c.run, b.callId)];
  }
}
