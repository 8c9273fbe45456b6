/** How a tool call ends: in one step its outcome goes on record and to the model. */
module ToolAnswers {
  import opened Wrappers
  import opened RunState
  import opened Blocks
  import opened StoreSpec
  import opened ApprovalSpec
  import opened Protocol
  import opened Tokens

  /** The next counter when a call is answered with a text: at once, or for an approval after it was settled, whatever
      happens to the world in between. */
  ghost predicate Tells(
    cfg: Config, owner: OwnerId, pc: Pc, ctx: Ctx, todo: seq<Call>, via: Option<ApprovalId>, text: string,
    later: Shared, j: Input)
    requires todo != []
  {
    var told := ctx.(msgs := ctx.msgs + [ToolResult(todo[0].id, text)]);
    if via.None? then pc == Answered(told, todo[1..], "after_tool")
    else pc.Settling? && Advance(cfg, later, owner, pc, j).1 == Answered(told, todo[1..], "after_approval")
  }

  predicate IsRecorded(db: Db, run: RunId, call: Call, output: string) {
    && (run, call.id) in db.tools
    && db.tools[(run, call.id)] == Tool(call.name, call.input, ToolCompleted, Some(output), db.tools[(run, call.id)].error)
  }

  lemma RecordedRowReplays(cfg: Config, db: Db, owner: OwnerId, run: RunId, call: Call, token: nat, output: string)
    requires IsRecorded(db, run, call, output)
    requires cfg.backend == Sqlite || Owns(db, owner, run, Some(token))
    ensures ClaimTool(db, cfg.backend, owner, run, call, Some(token)) == (db, Replay(output))
  {
  }

  /** A call with a recorded output is answered with that output, unless the caller has lost its run. */
  lemma RecordedOutputIsTold(
    cfg: Config, s: Shared, owner: OwnerId, ctx: Ctx, todo: seq<Call>, via: Option<ApprovalId>, i: Input, output: string,
    later: Shared, j: Input)
    requires todo != [] && IsRecorded(s.db, ctx.run, todo[0], output) && !i.flag
    requires cfg.backend == Sqlite || Owns(s.db, owner, ctx.run, Some(ctx.token))
    ensures var (next, pc) := Advance(cfg, s, owner, Invoking(ctx, todo, via), i);
            next == s && Tells(cfg, owner, pc, ctx, todo, via, output, later, j)
  {
    RecordedRowReplays(cfg, s.db, owner, ctx.run, todo[0], ctx.token, output);
  }

  /** So does one that is resumed after its approval had begun. */
  lemma RecordedOutputIsToldOnResume(
    cfg: Config, s: Shared, owner: OwnerId, ctx: Ctx, todo: seq<Call>, id: ApprovalId, status: ApprovalStatus, i: Input,
    output: string)
    requires todo != [] && IsRecorded(s.db, ctx.run, todo[0], output)
    requires status == Executing || status == Executed || status == ExecutionFailed
    ensures var (next, pc) := Advance(cfg, s, owner, Resuming(ctx, todo, id, status), i);
            next.db == s.db
            && pc == Answered(ctx.(msgs := ctx.msgs + [ToolResult(todo[0].id, output)]), todo[1..], "after_approval")
  {
  }

  /** An approved call is executed exactly if its request is still only approved, the policy still asks for approval, and
      it is the call that was approved, down to its arguments; with any other call the request fails. */
  lemma ApprovedCallRunsExactlyWhen(
    cfg: Config, s: Shared, owner: OwnerId, ctx: Ctx, todo: seq<Call>, id: ApprovalId, i: Input)
    requires todo != [] && id in s.approvals.rows
    ensures var row := s.approvals.rows[id];
            var pc := Advance(cfg, s, owner, Resuming(ctx, todo, id, Approved), i).1;
            && (pc == Invoking(ctx, todo, Some(id))
                <==> row.status == Approved && cfg.policy(todo[0]) == RequireApproval && cfg.approvals
                     && row.call.name == todo[0].name && row.call.input == todo[0].input)
            && (row.status != Approved <==> pc == Idle)
            && (!pc.Invoking? && row.status == Approved ==> pc.Settling? && pc.approval == id && pc.result.Raised?)
  {
  }

  /** A handler's output goes on record and to the model in one step, unless the lease was lost meanwhile. */
  lemma NewOutputIsTold(
    cfg: Config, s: Shared, owner: OwnerId, ctx: Ctx, todo: seq<Call>, via: Option<ApprovalId>, i: Input, output: string,
    checked: bool, later: Shared, j: Input)
    requires todo != [] && (ctx.run, todo[0].id) in s.db.tools && !i.flag
    requires s.db.tools[(ctx.run, todo[0].id)].status == ToolRunning
    requires s.db.tools[(ctx.run, todo[0].id)].name == todo[0].name && s.db.tools[(ctx.run, todo[0].id)].input == todo[0].input
    requires checked || (cfg.backend == Postgres && Owns(s.db, owner, ctx.run, Some(ctx.token)))
    ensures var (next, pc) := Advance(cfg, s, owner, Recording(ctx, todo, via, Returned(output), checked), i);
            && IsRecorded(next.db, ctx.run, todo[0], output)
            && Tells(cfg, owner, pc, ctx, todo, via, output, later, j)
  {
  }

  /** A handler that raised: the row fails, and the model learns the error. */
  lemma ErrorIsTold(
    cfg: Config, s: Shared, owner: OwnerId, ctx: Ctx, todo: seq<Call>, via: Option<ApprovalId>, i: Input, error: string,
    checked: bool, later: Shared, j: Input)
    requires todo != [] && (ctx.run, todo[0].id) in s.db.tools
    requires s.db.tools[(ctx.run, todo[0].id)].status == ToolRunning
    requires checked || (cfg.backend == Postgres && Owns(s.db, owner, ctx.run, Some(ctx.token)))
    ensures var (next, pc) := Advance(cfg, s, owner, Recording(ctx, todo, via, Raised(error), checked), i);
            && (ctx.run, todo[0].id) in next.db.tools
            && next.db.tools[(ctx.run, todo[0].id)].status == ToolFailed
            && next.db.tools[(ctx.run, todo[0].id)].error == Some(Clip(error))
            && Tells(cfg, owner, pc, ctx, todo, via, "Tool execution failed: " + error, later, j)
  {
  }

  lemma RefusedRecordEnds(
    cfg: Config, s: Shared, owner: OwnerId, ctx: Ctx, todo: seq<Call>, via: Option<ApprovalId>, i: Input, output: string)
    requires todo != [] && !Owns(s.db, owner, ctx.run, Some(ctx.token))
    ensures Advance(cfg, s, owner, Recording(ctx, todo, via, Returned(output), false), i)
         == (s, Finished(ctx, todo, via, Raised("Run lease lost")))
  {
  }

  /** An output that could not be recorded, or that came after the lease was lost, is not told. */
  lemma UnrecordedOutputIsNotTold(
    cfg: Config, s: Shared, owner: OwnerId, ctx: Ctx, todo: seq<Call>, via: Option<ApprovalId>, i: Input, output: string,
    later: Shared, j: Input)
    requires todo != []
    requires !Owns(s.db, owner, ctx.run, Some(ctx.token))
    ensures var (next, pc) := Advance(cfg, s, owner, Recording(ctx, todo, via, Returned(output), false), i);
            next == s && Tells(cfg, owner, pc, ctx, todo, via, "Tool execution failed: Run lease lost", later, j)
  {
    RefusedRecordEnds(cfg, s, owner, ctx, todo, via, i, output);
    assert "Tool execution failed: " + "Run lease lost" == "Tool execution failed: Run lease lost";
  }

  lemma ResultIsTold(
    cfg: Config, owner: OwnerId, ctx: Ctx, todo: seq<Call>, via: Option<ApprovalId>, error: string, text: string,
    later: Shared, j: Input)
    requires todo != [] && text == "Tool execution failed: " + error
    ensures Tells(cfg, owner, Finished(ctx, todo, via, Raised(error)), ctx, todo, via, text, later, j)
  {
  }

  /** An output that the ledger refused, since the row was ended by somebody else, is not told. */
  lemma RefusedOutputIsNotTold(
    cfg: Config, s: Shared, owner: OwnerId, ctx: Ctx, todo: seq<Call>, via: Option<ApprovalId>, i: Input, output: string,
    later: Shared, j: Input)
    requires todo != [] && !((ctx.run, todo[0].id) in s.db.tools && s.db.tools[(ctx.run, todo[0].id)].status == ToolRunning)
    ensures var (next, pc) := Advance(cfg, s, owner, Recording(ctx, todo, via, Returned(output), true), i);
            next == s && Tells(cfg, owner, pc, ctx, todo, via,
                               "Tool execution failed: " + ("Failed to persist tool result: " + todo[0].id), later, j)
  {
    var error := "Failed to persist tool result: " + todo[0].id;
    assert Advance(cfg, s, owner, Recording(ctx, todo, via, Returned(output), true), i)
        == (s, Finished(ctx, todo, via, Raised(error)));
    ResultIsTold(cfg, owner, ctx, todo, via, error, "Tool execution failed: " + error, later, j);
  }

  /** An output that was recorded by a worker that then found its lease lost is not told either, but stays on record. */
  lemma LateOutputIsRecordedOnly(
    cfg: Config, s: Shared, owner: OwnerId, ctx: Ctx, todo: seq<Call>, via: Option<ApprovalId>, i: Input, output: string,
    later: Shared, j: Input)
    requires todo != [] && (ctx.run, todo[0].id) in s.db.tools && i.flag
    requires s.db.tools[(ctx.run, todo[0].id)].status == ToolRunning
    requires s.db.tools[(ctx.run, todo[0].id)].name == todo[0].name && s.db.tools[(ctx.run, todo[0].id)].input == todo[0].input
    ensures var (next, pc) := Advance(cfg, s, owner, Recording(ctx, todo, via, Returned(output), true), i);
            && IsRecorded(next.db, ctx.run, todo[0], output)
            && Tells(cfg, owner, pc, ctx, todo, via, "Tool execution failed: Run lease lost", later, j)
  {
    var (next, pc) := Advance(cfg, s, owner, Recording(ctx, todo, via, Returned(output), true), i);
    assert pc == Finished(ctx, todo, via, Raised("Run lease lost"));
    ResultIsTold(cfg, owner, ctx, todo, via, "Run lease lost", "Tool execution failed: Run lease lost", later, j);
  }

  /** A call under an id that already stands for another call is never executed, and the model learns why. */
  lemma ConflictingCallIsTold(
    cfg: Config, s: Shared, owner: OwnerId, ctx: Ctx, todo: seq<Call>, via: Option<ApprovalId>, i: Input,
    later: Shared, j: Input)
    requires todo != [] && (ctx.run, todo[0].id) in s.db.tools && !i.flag
    requires cfg.backend == Sqlite || Owns(s.db, owner, ctx.run, Some(ctx.token))
    requires s.db.tools[(ctx.run, todo[0].id)].name != todo[0].name || s.db.tools[(ctx.run, todo[0].id)].input != todo[0].input
    ensures var (next, pc) := Advance(cfg, s, owner, Invoking(ctx, todo, via), i);
            var error := "tool execution identity conflicts with existing call_id";
            next == s && Tells(cfg, owner, pc, ctx, todo, via, "Tool execution failed: " + error, later, j)
  {
    var error := "tool execution identity conflicts with existing call_id";
    assert Advance(cfg, s, owner, Invoking(ctx, todo, via), i) == (s, Finished(ctx, todo, via, Raised(error)));
    ResultIsTold(cfg, owner, ctx, todo, via, error, "Tool execution failed: " + error, later, j);
  }

  /** A denied call is answered with the reason, and never gets near a handler. */
  lemma DeniedCallIsTold(cfg: Config, s: Shared, owner: OwnerId, ctx: Ctx, todo: seq<Call>, i: Input, reason: string)
    requires todo != [] && cfg.policy(todo[0]) == Deny(reason)
    ensures Advance(cfg, s, owner, Calls(ctx, todo), i)
         == (s, Answered(ctx.(msgs := ctx.msgs + [ToolResult(todo[0].id, reason)]), todo[1..], "after_tool"))
  {
  }

  /** A call that nobody can approve is refused, without a checkpoint of its own. */
  lemma UnapprovableCallIsTold(cfg: Config, s: Shared, owner: OwnerId, ctx: Ctx, todo: seq<Call>, i: Input)
    requires todo != [] && cfg.policy(todo[0]) == RequireApproval && (!cfg.approvals || ctx.identity.None?)
    ensures Advance(cfg, s, owner, Calls(ctx, todo), i)
         == (s, Calls(ctx.(msgs := ctx.msgs + [ToolResult(todo[0].id, NotExecuted("approval channel unavailable"))]), todo[1..]))
  {
  }

  /** A rejected or expired request is consumed when it is resumed, and the model learns why its call was not executed. */
  lemma RefusedCallIsTold(
    cfg: Config, s: Shared, owner: OwnerId, ctx: Ctx, todo: seq<Call>, id: ApprovalId, status: ApprovalStatus, i: Input)
    requires todo != [] && (status == Rejected || status == Expired)
    requires id in s.approvals.rows && s.approvals.rows[id].status == status
    ensures var (next, pc) := Advance(cfg, s, owner, Resuming(ctx, todo, id, status), i);
            var text := NotExecuted(if status == Rejected then "user rejected the tool call" else "approval expired");
            && pc == Answered(ctx.(msgs := ctx.msgs + [ToolResult(todo[0].id, text)]), todo[1..], "after_approval")
            && next.db == s.db && id in next.approvals.rows && next.approvals.rows[id].consumedAt.Some?
  {
  }

  /** What was told is saved before anything else happens, with the calls that are left. */
  lemma ToldIsSaved(cfg: Config, s: Shared, owner: OwnerId, ctx: Ctx, todo: seq<Call>, phase: string, i: Input)
    requires Owns(s.db, owner, ctx.run, Some(ctx.token))
    ensures var (next, pc) := Advance(cfg, s, owner, Answered(ctx, todo, phase), i);
            && pc == Calls(ctx, todo) && |next.db.checkpoints| == |s.db.checkpoints| + 1
            && next.db.checkpoints[..|s.db.checkpoints|] == s.db.checkpoints
            && var c := next.db.checkpoints[|s.db.checkpoints|];
            && c.run == ctx.run && c.phase == phase && c.state.messages == ctx.msgs && c.state.remaining == todo
            && c.state.action == (if todo == [] then Model else Tools) && c.state.nextTurn == ctx.turn
  {
  }

  /** A refusal is the JSON text of an object that names its reason, and different reasons make different refusals. */
  lemma RefusalsNameTheirReason(reason: string, other: string)
    ensures NotExecuted(EscapedText(reason)) == "{\"executed\": false, \"reason\": " + Quoted(reason) + "}"
    ensures NotExecuted(EscapedText(reason)) == NotExecuted(EscapedText(other)) ==> reason == other
  {
    var head, a, b := "{\"executed\": false, \"reason\": \"", EscapedText(reason), EscapedText(other);
    assert NotExecuted(a) == head + a + "\"}" && NotExecuted(b) == head + b + "\"}";
    assert NotExecuted(a)[|head|..|head| + |a|] == a && NotExecuted(b)[|head|..|head| + |b|] == b;
    assert |NotExecuted(a)| == |head| + |a| + 2 && |NotExecuted(b)| == |head| + |b| + 2;
    if NotExecuted(a) == NotExecuted(b) {
      QuotedTextsDiffer(reason, other);
    }
  }
}
