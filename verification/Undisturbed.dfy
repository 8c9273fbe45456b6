/** What a worker brings about that nobody interferes with: its calls are executed in order, and its run is answered. */
module Undisturbed {
  import opened Wrappers
  import opened RunState
  import opened Blocks
  import opened StoreSpec
  import opened StoreHistory
  import opened ApprovalSpec
  import opened Protocol
  import opened Replies

  /******* One call *******/

  function TextOfOutcome(outcome: Outcome): string {
    match outcome
    case Returned(output) => output
    case Raised(error) => "Tool execution failed: " + error
  }

  /** A SQLite store checks ownership and updates the row in two steps. */
  function CallSteps(cfg: Config): nat {
    if cfg.backend == Sqlite then 7 else 6
  }

  function Told(ctx: Ctx, call: Call, outcome: Outcome): Ctx {
    ctx.(msgs := ctx.msgs + [ToolResult(call.id, TextOfOutcome(outcome))])
  }

  predicate IsEnded(row: Tool, call: Call, outcome: Outcome) {
    && row.name == call.name && row.input == call.input
    && match outcome
       case Returned(output) => row.status == ToolCompleted && row.output == Some(output)
       case Raised(_) => row.status == ToolFailed
  }

  lemma ClaimedAndEntered(cfg: Config, s: Shared, owner: OwnerId, ctx: Ctx, todo: seq<Call>, i: Input, n: nat)
    returns (next: Shared)
    requires todo != [] && cfg.policy(todo[0]) == Allow && !i.flag && n >= 4
    requires Owns(s.db, owner, ctx.run, Some(ctx.token)) && (ctx.run, todo[0].id) !in s.db.tools
    ensures Follow(cfg, s, owner, Calls(ctx, todo), i, n)
         == Follow(cfg, next, owner, Recording(ctx, todo, None, i.outcome, false), i, n - 4)
    ensures next == s.(db := s.db.(tools := s.db.tools[(ctx.run, todo[0].id)
                                    := Tool(todo[0].name, todo[0].input, ToolRunning, None, None)]),
                       log := s.log + [Entered(ctx.run, todo[0], None, None, ToolRunning)])
  {
    OneMove(cfg, s, owner, Calls(ctx, todo), i, n);
    OneMove(cfg, s, owner, Invoking(ctx, todo, None), i, n - 1);
    var claimed := Advance(cfg, s, owner, Invoking(ctx, todo, None), i).0;
    OneMove(cfg, claimed, owner, Entering(ctx, todo, None), i, n - 2);
    next := Advance(cfg, claimed, owner, Entering(ctx, todo, None), i).0;
    OneMove(cfg, next, owner, InHandler(ctx, todo, None), i, n - 3);
  }

  lemma Recorded(cfg: Config, s: Shared, owner: OwnerId, ctx: Ctx, todo: seq<Call>, i: Input, n: nat) returns (next: Shared)
    requires todo != [] && !i.flag && n >= CallSteps(cfg) - 5
    requires Owns(s.db, owner, ctx.run, Some(ctx.token))
    requires (ctx.run, todo[0].id) in s.db.tools
    requires s.db.tools[(ctx.run, todo[0].id)] == Tool(todo[0].name, todo[0].input, ToolRunning, None, None)
    ensures Follow(cfg, s, owner, Recording(ctx, todo, None, i.outcome, false), i, n)
         == Follow(cfg, next, owner, Answered(Told(ctx, todo[0], i.outcome), todo[1..], "after_tool"), i,
                   n - (CallSteps(cfg) - 5))
    ensures (ctx.run, todo[0].id) in next.db.tools && IsEnded(next.db.tools[(ctx.run, todo[0].id)], todo[0], i.outcome)
    ensures next == s.(db := s.db.(tools := s.db.tools[(ctx.run, todo[0].id) := next.db.tools[(ctx.run, todo[0].id)]]))
  {
    OneMove(cfg, s, owner, Recording(ctx, todo, None, i.outcome, false), i, n);
    var checked := cfg.backend == Sqlite;
    if checked {
      OneMove(cfg, s, owner, Recording(ctx, todo, None, i.outcome, true), i, n - 1);
    }
    next := Advance(cfg, s, owner, Recording(ctx, todo, None, i.outcome, checked), i).0;
  }

  lemma AnswerSaved(cfg: Config, s: Shared, owner: OwnerId, ctx: Ctx, todo: seq<Call>, i: Input) returns (next: Shared)
    requires Owns(s.db, owner, ctx.run, Some(ctx.token))
    ensures Follow(cfg, s, owner, Answered(ctx, todo, "after_tool"), i, 1) == (next, Calls(ctx, todo))
    ensures next == s.(db := s.db.(checkpoints := next.db.checkpoints))
  {
    OneMove(cfg, s, owner, Answered(ctx, todo, "after_tool"), i, 1);
    next := Advance(cfg, s, owner, Answered(ctx, todo, "after_tool"), i).0;
  }

  /** What a call leaves behind: one entry, its row ended as its handler did, one more saved checkpoint. */
  predicate CallDone(s: Shared, next: Shared, run: RunId, call: Call, outcome: Outcome) {
    && (run, call.id) in next.db.tools && IsEnded(next.db.tools[(run, call.id)], call, outcome)
    && next.db.tools == s.db.tools[(run, call.id) := next.db.tools[(run, call.id)]]
    && next.log == s.log + [Entered(run, call, None, None, ToolRunning)]
    && next == s.(db := s.db.(tools := next.db.tools, checkpoints := next.db.checkpoints), log := next.log)
  }

  /** An allowed call of a holder is entered once, recorded, told and saved, and the next call is up. */
  lemma AllowedCallIsDone(cfg: Config, s: Shared, owner: OwnerId, ctx: Ctx, todo: seq<Call>, i: Input)
    requires todo != [] && cfg.policy(todo[0]) == Allow && !i.flag
    requires Owns(s.db, owner, ctx.run, Some(ctx.token)) && (ctx.run, todo[0].id) !in s.db.tools
    ensures var (next, after) := Follow(cfg, s, owner, Calls(ctx, todo), i, CallSteps(cfg));
            after == Calls(Told(ctx, todo[0], i.outcome), todo[1..]) && CallDone(s, next, ctx.run, todo[0], i.outcome)
  {
    var entered := ClaimedAndEntered(cfg, s, owner, ctx, todo, i, CallSteps(cfg));
    var recorded := Recorded(cfg, entered, owner, ctx, todo, i, CallSteps(cfg) - 4);
    var next := AnswerSaved(cfg, recorded, owner, Told(ctx, todo[0], i.outcome), todo[1..], i);
  }

  /******* A batch of calls *******/

  /** One call after the other, each with what its handler does. */
  function Batches(cfg: Config, s: Shared, owner: OwnerId, pc: Pc, inputs: seq<Input>): (Shared, Pc)
    decreases |inputs|
  {
    if inputs == [] then (s, pc)
    else
      var (next, after) := Follow(cfg, s, owner, pc, inputs[0], CallSteps(cfg));
      Batches(cfg, next, owner, after, inputs[1..])
  }

  /** All calls were entered in order, recorded, and answered in that order. */
  ghost predicate BatchDone(s: Shared, next: Shared, ctx: Ctx, after: Ctx, todo: seq<Call>, inputs: seq<Input>) {
    && |inputs| == |todo| && after == ctx.(msgs := after.msgs)
    && |after.msgs| == |ctx.msgs| + |todo| && ctx.msgs <= after.msgs
    && |next.log| == |s.log| + |todo| && s.log <= next.log && next.db.runs == s.db.runs
    && (forall k {:trigger todo[k]} :: 0 <= k < |todo| ==>
          && after.msgs[|ctx.msgs| + k] == ToolResult(todo[k].id, TextOfOutcome(inputs[k].outcome))
          && next.log[|s.log| + k] == Entered(ctx.run, todo[k], None, None, ToolRunning)
          && (ctx.run, todo[k].id) in next.db.tools
          && IsEnded(next.db.tools[(ctx.run, todo[k].id)], todo[k], inputs[k].outcome))
    && (forall key :: key in s.db.tools ==> key in next.db.tools && next.db.tools[key] == s.db.tools[key])
  }

  lemma BatchExtended(
    s: Shared, middle: Shared, next: Shared, ctx: Ctx, after: Ctx, todo: seq<Call>, inputs: seq<Input>)
    requires todo != [] && |inputs| == |todo| && (ctx.run, todo[0].id) !in s.db.tools
    requires CallDone(s, middle, ctx.run, todo[0], inputs[0].outcome)
    requires BatchDone(middle, next, Told(ctx, todo[0], inputs[0].outcome), after, todo[1..], inputs[1..])
    ensures BatchDone(s, next, ctx, after, todo, inputs)
  {
    forall k | 0 <= k < |todo|
      ensures after.msgs[|ctx.msgs| + k] == ToolResult(todo[k].id, TextOfOutcome(inputs[k].outcome))
      ensures next.log[|s.log| + k] == Entered(ctx.run, todo[k], None, None, ToolRunning)
      ensures (ctx.run, todo[k].id) in next.db.tools
           && IsEnded(next.db.tools[(ctx.run, todo[k].id)], todo[k], inputs[k].outcome)
    {
      if k > 0 {
        assert todo[1..][k - 1] == todo[k] && inputs[1..][k - 1] == inputs[k];
      }
    }
  }

  predicate AllNew(cfg: Config, s: Shared, run: RunId, todo: seq<Call>, inputs: seq<Input>) {
    && |inputs| == |todo| && DistinctIds(todo)
    && forall k :: 0 <= k < |todo| ==> cfg.policy(todo[k]) == Allow && !inputs[k].flag && (run, todo[k].id) !in s.db.tools
  }

  lemma RestIsNew(cfg: Config, s: Shared, next: Shared, run: RunId, todo: seq<Call>, inputs: seq<Input>)
    requires AllNew(cfg, s, run, todo, inputs) && todo != [] && CallDone(s, next, run, todo[0], inputs[0].outcome)
    ensures AllNew(cfg, next, run, todo[1..], inputs[1..])
  {
    forall k | 0 <= k < |todo[1..]|
      ensures cfg.policy(todo[1..][k]) == Allow && !inputs[1..][k].flag && (run, todo[1..][k].id) !in next.db.tools
    {
      assert todo[1..][k] == todo[k + 1] && todo[k + 1].id != todo[0].id;
    }
  }

  /** If nobody interferes, every call of a batch is executed exactly once, in order, and the model is told all results in
      that order. */
  lemma {:induction false} AllowedBatchIsDone(
    cfg: Config, s: Shared, owner: OwnerId, ctx: Ctx, todo: seq<Call>, inputs: seq<Input>)
    requires AllNew(cfg, s, ctx.run, todo, inputs) && Owns(s.db, owner, ctx.run, Some(ctx.token))
    ensures var (next, after) := Batches(cfg, s, owner, Calls(ctx, todo), inputs);
            && after.Calls? && after.todo == [] && BatchDone(s, next, ctx, after.ctx, todo, inputs)
    decreases |todo|
  {
    if todo != [] {
      AllowedCallIsDone(cfg, s, owner, ctx, todo, inputs[0]);
      var (middle, _) := Follow(cfg, s, owner, Calls(ctx, todo), inputs[0], CallSteps(cfg));
      RestIsNew(cfg, s, middle, ctx.run, todo, inputs);
      var told := Told(ctx, todo[0], inputs[0].outcome);
      AllowedBatchIsDone(cfg, middle, owner, told, todo[1..], inputs[1..]);
      var (next, after) := Batches(cfg, middle, owner, Calls(told, todo[1..]), inputs[1..]);
      BatchExtended(s, middle, next, ctx, after.ctx, todo, inputs);
    }
  }

  /******* A turn *******/

  /** The first request of a message is the recent history, or what a context manager made of it, saved; from then on a
      failure interrupts the run. */
  lemma FirstRequestIsGuarded(cfg: Config, s: Shared, owner: OwnerId, ctx: Ctx, i: Input)
    requires Owns(s.db, owner, ctx.run, Some(ctx.token)) && OnlyDicts(i.blocks)
    ensures var (next, after) := Advance(cfg, s, owner, Building(ctx), i);
            && after == Turn(ctx.(msgs := if i.flag then i.blocks else ctx.msgs, guarded := true))
            && |next.db.checkpoints| == |s.db.checkpoints| + (if i.flag then 1 else 0)
            && next == s.(db := s.db.(checkpoints := next.db.checkpoints))
  {
  }

  /** The request of a turn is saved and asked; its response is either saved with its calls, or ends the run. */
  lemma TurnAsks(cfg: Config, s: Shared, owner: OwnerId, ctx: Ctx, trim: Input, answer: Input)
    returns (asked: Shared, heard: Shared)
    requires Owns(s.db, owner, ctx.run, Some(ctx.token)) && ctx.turn < cfg.maxTurns && Trims(ctx.msgs, trim.blocks)
    requires FreshResponse(s.issued, ctx.run, answer.blocks) && !answer.flag
    ensures Advance(cfg, s, owner, Turn(ctx), trim) == (asked, Asking(ctx.(msgs := trim.blocks)))
    ensures asked == s.(db := s.db.(checkpoints := asked.db.checkpoints))
    ensures Advance(cfg, asked, owner, Asking(ctx.(msgs := trim.blocks)), answer)
         == (heard, if CallsIn(answer.blocks) == []
                    then Finalizing(ctx.(msgs := trim.blocks), Lines(TextsOf(answer.blocks)))
                    else Batch(ctx.(msgs := trim.blocks + answer.blocks, turn := ctx.turn + 1), CallsIn(answer.blocks)))
    ensures heard == asked.(issued := heard.issued, heard := s.heard + [Heard(ctx.run, answer.blocks)])
  {
    asked := Advance(cfg, s, owner, Turn(ctx), trim).0;
    heard := Advance(cfg, asked, owner, Asking(ctx.(msgs := trim.blocks)), answer).0;
    ResponseTextIsItsLines(answer.blocks);
  }

  /** A turn whose response calls tools: ask, and save the batch. */
  function TurnStart(cfg: Config, s: Shared, owner: OwnerId, pc: Pc, trim: Input, answer: Input): (Shared, Pc) {
    var (asked, asking) := Advance(cfg, s, owner, pc, trim);
    var (heard, batch) := Advance(cfg, asked, owner, asking, answer);
    Advance(cfg, heard, owner, batch, answer)
  }

  /** Then execute it. */
  function TurnPath(cfg: Config, s: Shared, owner: OwnerId, pc: Pc, trim: Input, answer: Input, inputs: seq<Input>)
    : (Shared, Pc)
  {
    var (saved, calls) := TurnStart(cfg, s, owner, pc, trim, answer);
    var (done, end) := Batches(cfg, saved, owner, calls, inputs);
    Advance(cfg, done, owner, end, answer)
  }

  lemma BatchSaved(cfg: Config, s: Shared, owner: OwnerId, ctx: Ctx, todo: seq<Call>, i: Input) returns (next: Shared)
    requires Owns(s.db, owner, ctx.run, Some(ctx.token))
    ensures Advance(cfg, s, owner, Batch(ctx, todo), i) == (next, Calls(ctx, todo))
    ensures next == s.(db := s.db.(checkpoints := next.db.checkpoints))
  {
    next := Advance(cfg, s, owner, Batch(ctx, todo), i).0;
  }

  lemma TurnStarts(cfg: Config, s: Shared, owner: OwnerId, ctx: Ctx, trim: Input, answer: Input) returns (saved: Shared)
    requires Owns(s.db, owner, ctx.run, Some(ctx.token)) && ctx.turn < cfg.maxTurns && Trims(ctx.msgs, trim.blocks)
    requires FreshResponse(s.issued, ctx.run, answer.blocks) && !answer.flag && CallsIn(answer.blocks) != []
    ensures TurnStart(cfg, s, owner, Turn(ctx), trim, answer)
         == (saved, Calls(ctx.(msgs := trim.blocks + answer.blocks, turn := ctx.turn + 1), CallsIn(answer.blocks)))
    ensures saved == s.(db := s.db.(checkpoints := saved.db.checkpoints), issued := saved.issued, heard := saved.heard)
  {
    var asked, heard := TurnAsks(cfg, s, owner, ctx, trim, answer);
    var batch := ctx.(msgs := trim.blocks + answer.blocks, turn := ctx.turn + 1);
    saved := BatchSaved(cfg, heard, owner, batch, CallsIn(answer.blocks), answer);
  }

  /** If nobody interferes, a response with allowed calls takes one turn: its calls are executed exactly once, in order, and
      the next request has the trimmed messages, the response and all results in that order. */
  lemma TurnIsTaken(
    cfg: Config, s: Shared, owner: OwnerId, ctx: Ctx, trim: Input, answer: Input, inputs: seq<Input>)
    requires Owns(s.db, owner, ctx.run, Some(ctx.token)) && ctx.turn < cfg.maxTurns && Trims(ctx.msgs, trim.blocks)
    requires FreshResponse(s.issued, ctx.run, answer.blocks) && !answer.flag && CallsIn(answer.blocks) != []
    requires AllNew(cfg, s, ctx.run, CallsIn(answer.blocks), inputs)
    ensures var (next, after) := TurnPath(cfg, s, owner, Turn(ctx), trim, answer, inputs);
            after.Turn?
            && BatchDone(s, next, ctx.(msgs := trim.blocks + answer.blocks, turn := ctx.turn + 1), after.ctx,
                         CallsIn(answer.blocks), inputs)
  {
    var saved := TurnStarts(cfg, s, owner, ctx, trim, answer);
    var batch, calls := ctx.(msgs := trim.blocks + answer.blocks, turn := ctx.turn + 1), CallsIn(answer.blocks);
    AllowedBatchIsDone(cfg, saved, owner, batch, calls, inputs);
    var (done, end) := Batches(cfg, saved, owner, Calls(batch, calls), inputs);
    NoCallsLeft(cfg, done, owner, end.ctx, answer);
    SameStart(s, saved, done, batch, end.ctx, calls, inputs);
  }

  lemma NoCallsLeft(cfg: Config, s: Shared, owner: OwnerId, ctx: Ctx, i: Input)
    ensures Advance(cfg, s, owner, Calls(ctx, []), i) == (s, Turn(ctx))
  {
  }

  lemma SameStart(s: Shared, saved: Shared, next: Shared, ctx: Ctx, after: Ctx, todo: seq<Call>, inputs: seq<Input>)
    requires BatchDone(saved, next, ctx, after, todo, inputs)
    requires saved.log == s.log && saved.db.tools == s.db.tools && saved.db.runs == s.db.runs
    ensures BatchDone(s, next, ctx, after, todo, inputs)
  {
  }

  /** A run whose message points back at it. */
  predicate HasMessageRow(db: Db, run: RunId) {
    run in db.runs && db.runs[run].inbound in db.inbound && db.inbound[db.runs[run].inbound].run == run
  }

  /** If nobody interferes, a final text is saved, and completes the run with it as the response and as the last message. */
  lemma FinalTextCompletes(cfg: Config, s: Shared, owner: OwnerId, ctx: Ctx, text: string, i: Input)
    requires Owns(s.db, owner, ctx.run, Some(ctx.token)) && HasMessageRow(s.db, ctx.run)
    ensures var (next, after) := Follow(cfg, s, owner, Finalizing(ctx, text), i, 2);
            && after == Idle && |next.db.checkpoints| == |s.db.checkpoints| + 1
            && Answers(s.db, next.db, ctx.run, text, i.now)
  {
    OneMove(cfg, s, owner, Finalizing(ctx, text), i, 2);
    var saved := Advance(cfg, s, owner, Finalizing(ctx, text), i).0;
    OneMove(cfg, saved, owner, Completing(ctx, text), i, 1);
  }

  /** The run is completed with a text, for good and for all to see. */
  predicate Answers(db: Db, next: Db, run: RunId, text: string, now: Time) {
    && run in db.runs && run in next.runs && next.runs[run].status == Completed
    && next.runs[run].owner == None && next.runs[run].lease == None
    && ResponseOf(next, run) == Some(text)
    && next.messages == db.messages + [Message(db.nextMessage, db.runs[run].session, run, "assistant", text, now)]
  }

  /** When the turns are used up, the run is completed with the notice. */
  lemma UsedUpCompletes(cfg: Config, s: Shared, owner: OwnerId, ctx: Ctx, i: Input)
    requires Owns(s.db, owner, ctx.run, Some(ctx.token)) && HasMessageRow(s.db, ctx.run) && ctx.turn >= cfg.maxTurns
    ensures var (next, after) := Follow(cfg, s, owner, Turn(ctx), i, 2);
            after == Idle && Answers(s.db, next.db, ctx.run, USED_UP, i.now)
  {
    OneMove(cfg, s, owner, Turn(ctx), i, 2);
    OneMove(cfg, s, owner, Completing(ctx, USED_UP), i, 1);
  }
}
