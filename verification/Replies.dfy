/** What a run is answered with: the text of a response of its own model, or the notice that its turns are used up. */
module Replies {
  import opened Wrappers
  import opened RunState
  import opened Blocks
  import opened StoreSpec
  import opened StoreHistory
  import opened StoreInvariants
  import opened ApprovalSpec
  import Life = ApprovalHistory
  import opened Protocol
  import opened AtMostOnce
  import opened Cursor
  import opened RunIdentity
  import opened Results

  /******* The text of a response *******/

  function TextsOf(blocks: seq<Block>): seq<string> {
    if blocks == [] then [] else (if blocks[0].Text? then [blocks[0].text] else []) + TextsOf(blocks[1..])
  }

  function Lines(texts: seq<string>): string {
    if texts == [] then "" else if |texts| == 1 then texts[0] else texts[0] + "\n" + Lines(texts[1..])
  }

  lemma {:induction false} TextsAppend(blocks: seq<Block>, last: Block)
    ensures TextsOf(blocks + [last]) == TextsOf(blocks) + (if last.Text? then [last.text] else [])
  {
    if blocks == [] {
      assert ([last])[1..] == [];
    } else {
      assert (blocks + [last])[1..] == blocks[1..] + [last];
      TextsAppend(blocks[1..], last);
    }
  }

  lemma {:induction false} LinesAppend(texts: seq<string>, last: string)
    requires texts != []
    ensures Lines(texts + [last]) == Lines(texts) + "\n" + last
  {
    if |texts| == 1 {
      assert (texts + [last])[1..] == [last];
    } else {
      assert (texts + [last])[1..] == texts[1..] + [last];
      LinesAppend(texts[1..], last);
    }
  }

  lemma {:induction false} NoTexts(blocks: seq<Block>)
    ensures TextsOf(blocks) == [] <==> !exists b :: b in blocks && b.Text?
  {
    if blocks != [] {
      NoTexts(blocks[1..]);
      assert blocks == [blocks[0]] + blocks[1..];
    }
  }

  /** The text blocks, in order, one a line. */
  lemma {:induction false} ResponseTextIsItsLines(blocks: seq<Block>)
    ensures ResponseText(blocks) == Lines(TextsOf(blocks))
  {
    if blocks != [] {
      var front, last := blocks[..|blocks| - 1], blocks[|blocks| - 1];
      assert blocks == front + [last];
      ResponseTextIsItsLines(front);
      TextsAppend(front, last);
      NoTexts(front);
      if !last.Text? {
        assert TextsOf(blocks) == TextsOf(front);
      } else if TextsOf(front) == [] {
        assert TextsOf(blocks) == [last.text];
      } else {
        LinesAppend(TextsOf(front), last.text);
      }
    }
  }

  /******* Replies *******/

  const USED_UP := "Agent stopped after reaching max_turns."

  /** The turns a run has taken: responses of its model that called tools. */
  function Turns(heard: seq<Heard>, run: RunId): nat {
    if heard == [] then 0
    else
      var last := heard[|heard| - 1];
      Turns(heard[..|heard| - 1], run) + (if last.run == run && CallsIn(last.blocks) != [] then 1 else 0)
  }

  ghost predicate IsReply(cfg: Config, heard: seq<Heard>, run: RunId, text: string) {
    || (text == USED_UP && Turns(heard, run) >= cfg.maxTurns)
    || exists h :: h in heard && h.run == run && CallsIn(h.blocks) == [] && text == Lines(TextsOf(h.blocks))
  }

  ghost predicate StateReplies(cfg: Config, heard: seq<Heard>, run: RunId, state: State) {
    && state.nextTurn <= Turns(heard, run)
    && (state.action == Finalize ==> state.response.Some? && IsReply(cfg, heard, run, state.response.value))
  }

  ghost predicate PcReplies(cfg: Config, heard: seq<Heard>, pc: Pc) {
    && (CtxOf(pc).Some? ==> CtxOf(pc).value.turn <= Turns(heard, CtxOf(pc).value.run))
    && match pc
       case Loaded(run, state) => StateReplies(cfg, heard, run, state)
       case Claimed(run, FromCheckpoint(state)) => StateReplies(cfg, heard, run, state)
       case Building(ctx) => ctx.turn == 0
       case Asking(ctx) => ctx.turn < cfg.maxTurns
       case Batch(ctx, todo) => todo != []
       case Finalizing(ctx, text) => IsReply(cfg, heard, ctx.run, text)
       case Completing(ctx, text) => IsReply(cfg, heard, ctx.run, text)
       case _ => true
  }

  ghost predicate CheckpointsReply(cfg: Config, heard: seq<Heard>, checkpoints: seq<Checkpoint>) {
    forall c {:trigger StateReplies(cfg, heard, c.run, c.state)} ::
      c in checkpoints ==> StateReplies(cfg, heard, c.run, c.state)
  }

  predicate RowCounts(heard: seq<Heard>, row: Approval) {
    row.run.Some? ==> row.nextTurn <= Turns(heard, row.run.value)
  }

  ghost predicate AnswersReply(cfg: Config, heard: seq<Heard>, inbound: map<InboundKey, Inbound>) {
    forall k {:trigger inbound[k]} :: k in inbound && inbound[k].response.Some? ==>
      IsReply(cfg, heard, inbound[k].run, inbound[k].response.value)
  }

  ghost predicate SharedReplies(cfg: Config, s: Shared) {
    && CheckpointsReply(cfg, s.heard, s.db.checkpoints)
    && (forall id {:trigger RowCounts(s.heard, s.approvals.rows[id])} ::
          id in s.approvals.rows ==> RowCounts(s.heard, s.approvals.rows[id]))
    && AnswersReply(cfg, s.heard, s.db.inbound)
  }

  ghost predicate ReplyInv(cfg: Config, w: World) {
    && SharedReplies(cfg, w.shared)
    && forall id {:trigger PcReplies(cfg, w.shared.heard, w.workers[id].pc)} ::
         id in w.workers ==> PcReplies(cfg, w.shared.heard, w.workers[id].pc)
  }

  /******* More is heard *******/

  lemma TurnsAppend(heard: seq<Heard>, last: Heard, run: RunId)
    ensures Turns(heard + [last], run)
         == Turns(heard, run) + (if last.run == run && CallsIn(last.blocks) != [] then 1 else 0)
  {
    assert (heard + [last])[..|heard|] == heard;
  }

  /** At most one response is heard in a step. */
  ghost predicate Hears(heard: seq<Heard>, next: seq<Heard>) {
    next == heard || exists h: Heard :: next == heard + [h]
  }

  lemma TurnsGrow(heard: seq<Heard>, next: seq<Heard>, run: RunId)
    requires Hears(heard, next)
    ensures Turns(heard, run) <= Turns(next, run)
  {
    if next != heard {
      var h: Heard :| next == heard + [h];
      TurnsAppend(heard, h, run);
    }
  }

  lemma ReplyStays(cfg: Config, heard: seq<Heard>, next: seq<Heard>, run: RunId, text: string)
    requires Hears(heard, next) && IsReply(cfg, heard, run, text)
    ensures IsReply(cfg, next, run, text)
  {
    TurnsGrow(heard, next, run);
    if !(text == USED_UP && Turns(heard, run) >= cfg.maxTurns) {
      var h :| h in heard && h.run == run && CallsIn(h.blocks) == [] && text == Lines(TextsOf(h.blocks));
      assert h in next;
    }
  }

  lemma StateStays(cfg: Config, heard: seq<Heard>, next: seq<Heard>, run: RunId, state: State)
    requires Hears(heard, next) && StateReplies(cfg, heard, run, state)
    ensures StateReplies(cfg, next, run, state)
  {
    TurnsGrow(heard, next, run);
    if state.action == Finalize {
      ReplyStays(cfg, heard, next, run, state.response.value);
    }
  }

  lemma PcStays(cfg: Config, heard: seq<Heard>, next: seq<Heard>, pc: Pc)
    requires Hears(heard, next) && PcReplies(cfg, heard, pc)
    ensures PcReplies(cfg, next, pc)
  {
    if CtxOf(pc).Some? {
      TurnsGrow(heard, next, CtxOf(pc).value.run);
    }
    match pc
    case Loaded(run, state) => StateStays(cfg, heard, next, run, state);
    case Claimed(run, FromCheckpoint(state)) => StateStays(cfg, heard, next, run, state);
    case Finalizing(ctx, text) => ReplyStays(cfg, heard, next, ctx.run, text);
    case Completing(ctx, text) => ReplyStays(cfg, heard, next, ctx.run, text);
    case _ =>
  }

  /** A step that adds no checkpoint, request or answer. */
  lemma NothingNew(cfg: Config, s: Shared, next: Shared)
    requires SharedReplies(cfg, s) && Hears(s.heard, next.heard)
    requires forall c :: c in next.db.checkpoints ==> c in s.db.checkpoints || StateReplies(cfg, s.heard, c.run, c.state)
    requires forall id {:trigger next.approvals.rows[id]} :: id in next.approvals.rows ==>
               if id in s.approvals.rows
               then next.approvals.rows[id].run == s.approvals.rows[id].run
                    && next.approvals.rows[id].nextTurn == s.approvals.rows[id].nextTurn
               else RowCounts(s.heard, next.approvals.rows[id])
    requires AnswersReply(cfg, s.heard, next.db.inbound)
    ensures SharedReplies(cfg, next)
  {
    forall c | c in next.db.checkpoints ensures StateReplies(cfg, next.heard, c.run, c.state) {
      StateStays(cfg, s.heard, next.heard, c.run, c.state);
    }
    forall id | id in next.approvals.rows ensures RowCounts(next.heard, next.approvals.rows[id]) {
      if id in s.approvals.rows {
        assert RowCounts(s.heard, s.approvals.rows[id]);
      }
      if next.approvals.rows[id].run.Some? {
        TurnsGrow(s.heard, next.heard, next.approvals.rows[id].run.value);
      }
    }
    var inbound := next.db.inbound;
    forall k | k in inbound && inbound[k].response.Some?
      ensures IsReply(cfg, next.heard, inbound[k].run, inbound[k].response.value)
    {
      ReplyStays(cfg, s.heard, next.heard, inbound[k].run, inbound[k].response.value);
    }
  }

  /******* One step of a worker *******/

  /** A response ends the run with its text, or takes a turn. */
  lemma AskReplies(cfg: Config, s: Shared, owner: OwnerId, ctx: Ctx, i: Input)
    requires PcReplies(cfg, s.heard, Asking(ctx))
    ensures var (next, pc) := Ask(s, owner, ctx, i); Hears(s.heard, next.heard) && PcReplies(cfg, next.heard, pc)
  {
    var (next, pc) := Ask(s, owner, ctx, i);
    if next.heard != s.heard {
      var h := Heard(ctx.run, i.blocks);
      assert next.heard == s.heard + [h] && h in next.heard;
      TurnsAppend(s.heard, h, ctx.run);
      ResponseTextIsItsLines(i.blocks);
    }
  }

  /** The steps that only carry on with the same run and turn. */
  predicate CarriesOn(pc: Pc) {
    !pc.Asking? && !pc.Claimed? && !pc.Turn? && !pc.Finalizing? && !pc.Completing? && !pc.Loaded?
  }

  /** The same run at the same turn, or nothing more to do for it. */
  predicate Carries(s: Shared, pc: Pc, next: Shared, after: Pc) {
    && next.heard == s.heard
    && !after.Loaded? && !after.Asking? && !after.Finalizing? && !after.Completing? && !after.Batch?
    && (after.Building? ==> pc.Building?)
    && (after.Claimed? ==> after.origin.FromApproval?)
    && (CtxOf(after).Some? ==>
          CtxOf(pc).Some? && CtxOf(after).value.run == CtxOf(pc).value.run
          && CtxOf(after).value.turn == CtxOf(pc).value.turn)
  }

  lemma CallStepsCarry(cfg: Config, s: Shared, owner: OwnerId, pc: Pc, i: Input)
    requires pc.Calls? || pc.Resuming? || pc.Invoking? || pc.Recording?
    ensures var (next, after) := Advance(cfg, s, owner, pc, i); Carries(s, pc, next, after)
  {
  }

  lemma CarryingSteps(cfg: Config, s: Shared, owner: OwnerId, pc: Pc, i: Input)
    requires CarriesOn(pc)
    ensures var (next, after) := Advance(cfg, s, owner, pc, i); Carries(s, pc, next, after)
  {
    if pc.Calls? || pc.Resuming? || pc.Invoking? || pc.Recording? {
      CallStepsCarry(cfg, s, owner, pc, i);
    }
  }

  lemma OtherStepsReply(cfg: Config, s: Shared, owner: OwnerId, pc: Pc, i: Input)
    requires pc.Claimed? || pc.Turn? || pc.Finalizing? || pc.Completing? || pc.Loaded?
    requires SharedReplies(cfg, s) && PcOk(s.issued, s.approvals, pc) && PcReplies(cfg, s.heard, pc)
    ensures var (next, after) := Advance(cfg, s, owner, pc, i);
            next.heard == s.heard && PcReplies(cfg, next.heard, after)
  {
    if pc.Claimed? && pc.origin.FromApproval? {
      assert RowCounts(s.heard, s.approvals.rows[pc.origin.approval]);
    }
  }

  lemma PcAdvances(cfg: Config, s: Shared, owner: OwnerId, pc: Pc, i: Input)
    requires SharedReplies(cfg, s) && PcOk(s.issued, s.approvals, pc) && PcReplies(cfg, s.heard, pc)
    ensures var (next, after) := Advance(cfg, s, owner, pc, i);
            Hears(s.heard, next.heard) && PcReplies(cfg, next.heard, after)
  {
    if pc.Asking? {
      AskReplies(cfg, s, owner, pc.ctx, i);
    } else if CarriesOn(pc) {
      CarryingSteps(cfg, s, owner, pc, i);
    } else {
      OtherStepsReply(cfg, s, owner, pc, i);
    }
  }

  lemma SavedStateReplies(cfg: Config, heard: seq<Heard>, pc: Pc, i: Input)
    requires Saves(pc) && PcReplies(cfg, heard, pc)
    ensures StateReplies(cfg, heard, pc.ctx.run, SavedAt(pc, i).1)
  {
  }

  /** Only completions write answers. */
  lemma OthersAnswerNothing(cfg: Config, s: Shared, owner: OwnerId, pc: Pc, i: Input)
    requires !pc.Completing?
    ensures Advance(cfg, s, owner, pc, i).0.db.inbound == s.db.inbound
  {
    if Saves(pc) {
      SaveTransaction(cfg, s, owner, pc, i);
    }
  }

  lemma CompletionsReply(cfg: Config, s: Shared, owner: OwnerId, ctx: Ctx, text: string, i: Input)
    requires AnswersReply(cfg, s.heard, s.db.inbound) && IsReply(cfg, s.heard, ctx.run, text)
    ensures AnswersReply(cfg, s.heard, CompleteRun(s.db, owner, ctx.run, text, Some(ctx.token), i.now).0.inbound)
  {
  }

  lemma SharedAdvances(cfg: Config, s: Shared, owner: OwnerId, pc: Pc, i: Input)
    requires SharedReplies(cfg, s) && PcOk(s.issued, s.approvals, pc) && PcReplies(cfg, s.heard, pc)
    ensures SharedReplies(cfg, Advance(cfg, s, owner, pc, i).0)
  {
    var next := Advance(cfg, s, owner, pc, i).0;
    PcAdvances(cfg, s, owner, pc, i);
    forall c | c in next.db.checkpoints && c !in s.db.checkpoints ensures StateReplies(cfg, s.heard, c.run, c.state) {
      NewCheckpointIsTheSaved(cfg, s, owner, pc, i, c);
      SavedStateReplies(cfg, s.heard, pc, i);
    }
    if pc.Completing? {
      CompletionsReply(cfg, s, owner, pc.ctx, pc.text, i);
    } else {
      OthersAnswerNothing(cfg, s, owner, pc, i);
    }
    if !pc.Calls? {
      OthersCreateNothing(cfg, s, owner, pc, i);
    }
    var op := ApprovalStepOfWorker(cfg, s, owner, pc, i);
    forall id | id in next.approvals.rows
      ensures if id in s.approvals.rows
              then next.approvals.rows[id].run == s.approvals.rows[id].run
                   && next.approvals.rows[id].nextTurn == s.approvals.rows[id].nextTurn
              else RowCounts(s.heard, next.approvals.rows[id])
    {
      if id in s.approvals.rows {
        if next.approvals != s.approvals { Life.RowStep(s.approvals, op, id); }
      } else if pc.todo != [] {
        NewApprovalHoldsTheList(cfg, s, pc.ctx, pc.todo, i, id);
      }
    }
    NothingNew(cfg, s, next);
  }

  /******* All other steps *******/

  lemma BeginReplies(cfg: Config, s: Shared, owner: OwnerId, pc: Pc, move: Move)
    requires move.Begin? && SharedReplies(cfg, s) && PcReplies(cfg, s.heard, pc)
    ensures var (next, after) := MoveWorker(cfg, s, owner, pc, move);
            SharedReplies(cfg, next) && PcReplies(cfg, next.heard, after) && next.heard == s.heard
  {
    var (next, after) := MoveWorker(cfg, s, owner, pc, move);
    NothingNew(cfg, s, next);
  }

  lemma MoveReplies(cfg: Config, s: Shared, owner: OwnerId, pc: Pc, move: Move)
    requires SharedReplies(cfg, s) && PcOk(s.issued, s.approvals, pc) && PcReplies(cfg, s.heard, pc)
    ensures var (next, after) := MoveWorker(cfg, s, owner, pc, move);
            SharedReplies(cfg, next) && PcReplies(cfg, next.heard, after) && Hears(s.heard, next.heard)
  {
    match move
    case Begin(_, _, _, _) => BeginReplies(cfg, s, owner, pc, move);
    case Next(i) =>
      assert MoveWorker(cfg, s, owner, pc, move) == Advance(cfg, s, owner, pc, i);
      PcAdvances(cfg, s, owner, pc, i);
      SharedAdvances(cfg, s, owner, pc, i);
    case Load(run) =>
      var latest := LatestCheckpoint(s.db.checkpoints, run);
      assert latest.Some? ==> StateReplies(cfg, s.heard, latest.value.run, latest.value.state);
    case _ =>
  }

  lemma EnvironmentReplies(cfg: Config, w: World, act: Act)
    requires !act.Work? && SharedReplies(cfg, w.shared)
    ensures var next := Step(cfg, w, act).shared; next.heard == w.shared.heard && SharedReplies(cfg, next)
  {
    var s, next := w.shared, Step(cfg, w, act).shared;
    EnvironmentCreatesNothing(cfg, w, act);
    EnvironmentAnswersNothing(cfg, w, act);
    var op := ApprovalStep(cfg, w, act);
    forall id | id in next.approvals.rows
      ensures next.approvals.rows[id].run == s.approvals.rows[id].run
           && next.approvals.rows[id].nextTurn == s.approvals.rows[id].nextTurn
    {
      if next.approvals != s.approvals { Life.RowStep(s.approvals, op, id); }
    }
    NothingNew(cfg, s, next);
  }

  lemma EnvironmentAnswersNothing(cfg: Config, w: World, act: Act)
    requires !act.Work?
    ensures Step(cfg, w, act).shared.db.inbound == w.shared.db.inbound
  {
  }

  lemma ReplyStep(cfg: Config, w: World, act: Act)
    requires CursorInv(w) && ReplyInv(cfg, w)
    ensures ReplyInv(cfg, Step(cfg, w, act))
  {
    var s, next := w.shared, Step(cfg, w, act);
    if !act.Work? {
      EnvironmentReplies(cfg, w, act);
    } else if act.worker in w.workers {
      var me := w.workers[act.worker];
      assert PcOk(s.issued, s.approvals, me.pc) && PcReplies(cfg, s.heard, me.pc);
      MoveReplies(cfg, s, me.owner, me.pc, act.move);
    }
    forall id | id in next.workers ensures PcReplies(cfg, next.shared.heard, next.workers[id].pc) {
      if id in w.workers && next.workers[id] == w.workers[id] {
        PcStays(cfg, s.heard, next.shared.heard, w.workers[id].pc);
      }
    }
  }

  lemma {:induction false} RepliesHold(cfg: Config, acts: seq<Act>)
    ensures ReplyInv(cfg, Play(cfg, acts))
  {
    if acts != [] {
      RepliesHold(cfg, acts[..|acts| - 1]);
      CursorsHold(cfg, acts[..|acts| - 1]);
      ReplyStep(cfg, Play(cfg, acts[..|acts| - 1]), acts[|acts| - 1]);
    }
  }

  /** Whatever crashes and resumes a run went through, it is completed only with a reply, and the reply is the text of a
      response that its own model gave without calling a tool, or the notice that the turns are used up, after at least
      that many responses with calls. */
  lemma CompletedRunsAnswerTheirMessage(cfg: Config, acts: seq<Act>, run: RunId)
    requires run in Play(cfg, acts).shared.db.runs && Play(cfg, acts).shared.db.runs[run].status == Completed
    ensures var s := Play(cfg, acts).shared;
            ResponseOf(s.db, run).Some? && IsReply(cfg, s.heard, run, ResponseOf(s.db, run).value)
  {
    RepliesHold(cfg, acts);
    var ops := ProtocolIsStoreHistory(cfg, acts, 0);
    CompletedExactlyOnce(ops, run);
    assert acts[..0] == [];
  }

  /** The model is never asked beyond the last turn, whatever a run was resumed from; and a worker never counts more
      turns than its run has taken. */
  lemma AskedWithinTheLimit(cfg: Config, acts: seq<Act>, worker: WorkerId)
    requires worker in Play(cfg, acts).workers && CtxOf(Play(cfg, acts).workers[worker].pc).Some?
    ensures var pc := Play(cfg, acts).workers[worker].pc;
            && CtxOf(pc).value.turn <= Turns(Play(cfg, acts).shared.heard, CtxOf(pc).value.run)
            && (pc.Asking? ==> pc.ctx.turn < cfg.maxTurns)
  {
    RepliesHold(cfg, acts);
    assert PcReplies(cfg, Play(cfg, acts).shared.heard, Play(cfg, acts).workers[worker].pc);
  }

  /** A response with calls takes exactly one turn, and its calls are next, in their order. */
  lemma ResponseTakesATurn(cfg: Config, s: Shared, owner: OwnerId, ctx: Ctx, i: Input)
    requires FreshResponse(s.issued, ctx.run, i.blocks) && !i.flag && CallsIn(i.blocks) != []
    ensures var (next, pc) := Advance(cfg, s, owner, Asking(ctx), i);
            && pc == Batch(ctx.(msgs := ctx.msgs + i.blocks, turn := ctx.turn + 1), CallsIn(i.blocks))
            && Turns(next.heard, ctx.run) == Turns(s.heard, ctx.run) + 1
  {
    TurnsAppend(s.heard, Heard(ctx.run, i.blocks), ctx.run);
  }
}
