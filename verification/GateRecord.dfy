/** Exactly when an approval is still executing at the moment its handler is entered. */
module GateRecord {
  import opened Wrappers
  import opened RunState
  import opened Blocks
  import opened StoreSpec
  import opened StoreHistory
  import opened StoreInvariants
  import opened ApprovalSpec
  import opened Protocol
  import opened AtMostOnce
  import opened Cursor
  import opened ApprovalGate

  /** A worker that resumes an approval it found executing completes it from an output on record. */
  predicate CompletesFromRecord(w: World, act: Act, id: ApprovalId) {
    && act.Work? && act.worker in w.workers && act.move.Next?
    && var pc := w.workers[act.worker].pc;
    && pc.Resuming? && pc.approval == id && pc.status == Executing && pc.todo != []
    && id in w.shared.approvals.rows && w.shared.approvals.rows[id].status == Executing
    && GetTool(w.shared.db, pc.ctx.run, pc.todo[0]).Some?
    && GetTool(w.shared.db, pc.ctx.run, pc.todo[0]).value.Replay?
  }

  /** Some step of the history did that. */
  predicate CompletedOnRecord(cfg: Config, acts: seq<Act>, id: ApprovalId) {
    acts != []
    && (CompletedOnRecord(cfg, acts[..|acts| - 1], id)
        || CompletesFromRecord(Play(cfg, acts[..|acts| - 1]), acts[|acts| - 1], id))
  }

  lemma OneMoreAct(cfg: Config, acts: seq<Act>, act: Act, id: ApprovalId)
    ensures CompletedOnRecord(cfg, acts + [act], id)
              == (CompletedOnRecord(cfg, acts, id) || CompletesFromRecord(Play(cfg, acts), act, id))
    ensures Play(cfg, acts + [act]) == Step(cfg, Play(cfg, acts), act)
  {
    assert (acts + [act])[..|acts|] == acts;
  }

  /** The approval under which a worker is about to enter a handler. */
  function Held(pc: Pc): Option<ApprovalId> {
    if pc.Invoking? || pc.Entering? then pc.via else None
  }

  /** The gated call is on record as completed, with its output. */
  predicate OutputOnRecord(db: Db, row: Approval) {
    OnRecord(db, row) && db.tools[(row.run.value, row.call.id)].output.Some?
  }

  ghost predicate CompletedStays(cfg: Config, acts: seq<Act>, s: Shared) {
    forall id :: CompletedOnRecord(cfg, acts, id) ==>
      && id in s.approvals.rows && s.approvals.rows[id].status == Executed && OutputOnRecord(s.db, s.approvals.rows[id])
  }

  predicate HeldOk(cfg: Config, acts: seq<Act>, s: Shared, pc: Pc) {
    Held(pc).Some? ==>
      && Held(pc).value in s.approvals.rows
      && (s.approvals.rows[Held(pc).value].status == Executed ==> CompletedOnRecord(cfg, acts, Held(pc).value))
  }

  ghost predicate RecordInv(cfg: Config, acts: seq<Act>, w: World) {
    && CompletedStays(cfg, acts, w.shared)
    && forall worker {:trigger HeldOk(cfg, acts, w.shared, w.workers[worker].pc)} ::
         worker in w.workers ==> HeldOk(cfg, acts, w.shared, w.workers[worker].pc)
  }

  /******* How an approval comes to be executed *******/

  lemma ResumeExecutes(
    cfg: Config, s: Shared, ctx: Ctx, todo: seq<Call>, approval: ApprovalId, status: ApprovalStatus, i: Input,
    id: ApprovalId)
    requires todo != [] && id in s.approvals.rows && s.approvals.rows[id].status == Executing
    ensures var next := ResumeRequest(cfg, s, ctx, todo, approval, status, i).0.approvals;
            && id in next.rows
            && (next.rows[id].status == Executed ==>
                  approval == id && status == Executing && GetTool(s.db, ctx.run, todo[0]).Some?
                  && GetTool(s.db, ctx.run, todo[0]).value.Replay?)
  {
  }

  lemma DecideExecutesNothing(cfg: Config, s: Shared, ctx: Ctx, todo: seq<Call>, i: Input, id: ApprovalId)
    requires todo != [] && id in s.approvals.rows
    ensures id in DecideCall(cfg, s, ctx, todo, i).0.approvals.rows
    ensures DecideCall(cfg, s, ctx, todo, i).0.approvals.rows[id] == s.approvals.rows[id]
  {
  }

  /** The steps that leave all approvals as they are. */
  predicate LeavesApprovals(pc: Pc) {
    !pc.Calls? && !pc.Resuming? && !pc.Settling?
  }

  lemma OthersLeaveApprovals(cfg: Config, s: Shared, owner: OwnerId, pc: Pc, i: Input)
    requires LeavesApprovals(pc)
    ensures Advance(cfg, s, owner, pc, i).0.approvals == s.approvals
  {
  }

  /** A worker's step executes an approval only by settling it, or from the record. */
  lemma WorkerExecutes(cfg: Config, s: Shared, owner: OwnerId, pc: Pc, i: Input, id: ApprovalId)
    requires id in s.approvals.rows && s.approvals.rows[id].status == Executing
    ensures var next := Advance(cfg, s, owner, pc, i).0.approvals;
            && id in next.rows
            && (next.rows[id].status == Executed ==>
                  || (pc.Settling? && pc.approval == id)
                  || (pc.Resuming? && pc.approval == id && pc.status == Executing && pc.todo != []
                      && GetTool(s.db, pc.ctx.run, pc.todo[0]).Some?
                      && GetTool(s.db, pc.ctx.run, pc.todo[0]).value.Replay?))
  {
    if LeavesApprovals(pc) {
      OthersLeaveApprovals(cfg, s, owner, pc, i);
    } else if pc.todo != [] {
      if pc.Calls? { DecideExecutesNothing(cfg, s, pc.ctx, pc.todo, i, id); }
      if pc.Resuming? { ResumeExecutes(cfg, s, pc.ctx, pc.todo, pc.approval, pc.status, i, id); }
    }
  }

  /** A step of the environment executes none, and loses none that is executed. */
  lemma EnvironmentExecutesNothing(cfg: Config, w: World, act: Act, id: ApprovalId)
    requires !act.Work? && id in w.shared.approvals.rows && Ran(w.shared.approvals.rows[id].status)
    ensures id in Step(cfg, w, act).shared.approvals.rows
    ensures Step(cfg, w, act).shared.approvals.rows[id] == w.shared.approvals.rows[id]
  {
  }

  lemma MovesLeaveApprovals(cfg: Config, s: Shared, owner: OwnerId, pc: Pc, move: Move)
    requires !move.Next?
    ensures MoveWorker(cfg, s, owner, pc, move).0.approvals == s.approvals
    ensures Held(MoveWorker(cfg, s, owner, pc, move).1) == None
         || Held(MoveWorker(cfg, s, owner, pc, move).1) == Held(pc)
  {
  }

  /** Who took an approval from executing to executed. */
  lemma WhoExecutes(cfg: Config, w: World, act: Act, id: ApprovalId)
    requires id in w.shared.approvals.rows && w.shared.approvals.rows[id].status == Executing
    ensures var next := Step(cfg, w, act).shared.approvals;
            && id in next.rows
            && (next.rows[id].status == Executed ==>
                  || CompletesFromRecord(w, act, id)
                  || (act.Work? && act.worker in w.workers && ViaOf(w.workers[act.worker].pc) == Some(id)
                      && w.workers[act.worker].pc.Settling?))
  {
    if !act.Work? {
      EnvironmentExecutesNothing(cfg, w, act, id);
    } else if act.worker in w.workers {
      var me := w.workers[act.worker];
      if act.move.Next? {
        WorkerExecutes(cfg, w.shared, me.owner, me.pc, act.move.input, id);
      } else {
        MovesLeaveApprovals(cfg, w.shared, me.owner, me.pc, act.move);
      }
    }
  }

  /******* Executed is final *******/

  lemma AdvanceKeepsExecuted(cfg: Config, s: Shared, owner: OwnerId, pc: Pc, i: Input, id: ApprovalId)
    requires SharedOk(s) && PcOk(s.issued, s.approvals, pc)
    requires LinksOk(cfg, s.approvals) && CountsOk(s) && PcGated(cfg, s, pc)
    requires id in s.approvals.rows && s.approvals.rows[id].status == Executed
    ensures var next := Advance(cfg, s, owner, pc, i).0.approvals;
            && id in next.rows && next.rows[id].status == Executed && SameRequest(s.approvals.rows[id], next.rows[id])
  {
    AdvanceGated(cfg, s, owner, pc, i);
    var (next, pc') := Advance(cfg, s, owner, pc, i);
    assert Progress(s.approvals, next.approvals);
  }

  lemma ExecutedStays(cfg: Config, w: World, act: Act, id: ApprovalId)
    requires CursorInv(w) && GateInv(cfg, w)
    requires id in w.shared.approvals.rows && w.shared.approvals.rows[id].status == Executed
    ensures var next := Step(cfg, w, act).shared.approvals;
            && id in next.rows && next.rows[id].status == Executed
            && SameRequest(w.shared.approvals.rows[id], next.rows[id])
  {
    if !act.Work? {
      EnvironmentExecutesNothing(cfg, w, act, id);
    } else if act.worker in w.workers {
      var me := w.workers[act.worker];
      if act.move.Next? {
        WorkersAreInOrder(cfg, w, act.worker);
        AdvanceKeepsExecuted(cfg, w.shared, me.owner, me.pc, act.move.input, id);
      } else {
        MovesLeaveApprovals(cfg, w.shared, me.owner, me.pc, act.move);
      }
    }
  }

  lemma WorkersAreInOrder(cfg: Config, w: World, worker: WorkerId)
    requires CursorInv(w) && GateInv(cfg, w) && worker in w.workers
    ensures SharedOk(w.shared) && PcOk(w.shared.issued, w.shared.approvals, w.workers[worker].pc)
    ensures LinksOk(cfg, w.shared.approvals) && CountsOk(w.shared) && PcGated(cfg, w.shared, w.workers[worker].pc)
  {
  }

  lemma OutputStays(cfg: Config, w: World, act: Act, row: Approval, row': Approval)
    requires OutputOnRecord(w.shared.db, row) && SameRequest(row, row')
    ensures OutputOnRecord(Step(cfg, w, act).shared.db, row')
  {
    var op := StepTransaction(cfg, w, act);
    LedgerStep(w.shared.db, op, (row.run.value, row.call.id));
  }

  lemma CompletionIsExecuted(cfg: Config, w: World, act: Act, id: ApprovalId)
    requires CursorInv(w) && CompletesFromRecord(w, act, id)
    ensures var next := Step(cfg, w, act).shared;
            && id in next.approvals.rows && next.approvals.rows[id].status == Executed
            && OutputOnRecord(next.db, next.approvals.rows[id])
  {
    var pc := w.workers[act.worker].pc;
    assert PcOk(w.shared.issued, w.shared.approvals, pc);
    assert RowOk(w.shared.issued, w.shared.approvals.rows[id]);
  }

  lemma CompletedStaysStep(cfg: Config, acts: seq<Act>, act: Act)
    requires CursorInv(Play(cfg, acts)) && GateInv(cfg, Play(cfg, acts))
    requires CompletedStays(cfg, acts, Play(cfg, acts).shared)
    ensures CompletedStays(cfg, acts + [act], Play(cfg, acts + [act]).shared)
  {
    var w := Play(cfg, acts);
    OneMoreAct(cfg, acts, act, 0);
    var next := Step(cfg, w, act).shared;
    forall id | CompletedOnRecord(cfg, acts + [act], id)
      ensures id in next.approvals.rows && next.approvals.rows[id].status == Executed
           && OutputOnRecord(next.db, next.approvals.rows[id])
    {
      OneMoreAct(cfg, acts, act, id);
      if CompletedOnRecord(cfg, acts, id) {
        ExecutedStays(cfg, w, act, id);
        OutputStays(cfg, w, act, w.shared.approvals.rows[id], next.approvals.rows[id]);
      } else {
        CompletionIsExecuted(cfg, w, act, id);
      }
    }
  }

  /******* Who holds an approval *******/

  lemma ResumeHolds(
    cfg: Config, s: Shared, ctx: Ctx, todo: seq<Call>, approval: ApprovalId, status: ApprovalStatus, i: Input)
    requires todo != []
    ensures var (next, pc) := ResumeRequest(cfg, s, ctx, todo, approval, status, i);
            Held(pc).Some? ==>
              Held(pc).value in next.approvals.rows && next.approvals.rows[Held(pc).value].status == Executing
  {
  }

  lemma OthersHoldNothing(cfg: Config, s: Shared, owner: OwnerId, pc: Pc, i: Input)
    requires !pc.Resuming?
    ensures Held(Advance(cfg, s, owner, pc, i).1) == None || Held(Advance(cfg, s, owner, pc, i).1) == Held(pc)
  {
  }

  /** An approval is taken hold of while it is executing. */
  lemma HoldingStarts(cfg: Config, s: Shared, owner: OwnerId, pc: Pc, move: Move)
    ensures var (next, pc') := MoveWorker(cfg, s, owner, pc, move);
            Held(pc') == None || Held(pc') == Held(pc)
            || (Held(pc').value in next.approvals.rows && next.approvals.rows[Held(pc').value].status == Executing)
  {
    if !move.Next? {
      MovesLeaveApprovals(cfg, s, owner, pc, move);
    } else if pc.Resuming? {
      if pc.todo != [] { ResumeHolds(cfg, s, pc.ctx, pc.todo, pc.approval, pc.status, move.input); }
    } else {
      OthersHoldNothing(cfg, s, owner, pc, move.input);
    }
  }

  /** While someone holds an approval, it can only be executed from the record. */
  lemma HeldAcross(cfg: Config, w: World, act: Act, worker: WorkerId, id: ApprovalId)
    requires CursorInv(w) && GateInv(cfg, w) && worker in w.workers && Held(w.workers[worker].pc) == Some(id)
    ensures var next := Step(cfg, w, act).shared.approvals;
            && id in w.shared.approvals.rows && id in next.rows
            && (next.rows[id].status == Executed ==>
                  w.shared.approvals.rows[id].status == Executed || CompletesFromRecord(w, act, id))
  {
    var pc := w.workers[worker].pc;
    WorkersAreInOrder(cfg, w, worker);
    if w.shared.approvals.rows[id].status == Executed {
      ExecutedStays(cfg, w, act, id);
    } else {
      WhoExecutes(cfg, w, act, id);
      assert act.Work? && act.worker in w.workers && act.worker != worker ==> ViaOf(w.workers[act.worker].pc) != ViaOf(pc);
    }
  }

  lemma HeldStaysOk(cfg: Config, acts: seq<Act>, act: Act, w: World, worker: WorkerId)
    requires w == Play(cfg, acts) && CursorInv(w) && GateInv(cfg, w)
    requires worker in w.workers && Held(w.workers[worker].pc).Some?
    requires HeldOk(cfg, acts, w.shared, w.workers[worker].pc)
    ensures HeldOk(cfg, acts + [act], Step(cfg, w, act).shared, w.workers[worker].pc)
  {
    OneMoreAct(cfg, acts, act, Held(w.workers[worker].pc).value);
    HeldAcross(cfg, w, act, worker, Held(w.workers[worker].pc).value);
  }

  /** A worker's own step leaves it holding what it held, or something it took hold of just now. */
  lemma OwnStep(cfg: Config, w: World, act: Act)
    requires act.Work? && act.worker in w.workers
    ensures var next := Step(cfg, w, act);
            var held := Held(next.workers[act.worker].pc);
            held == None || held == Held(w.workers[act.worker].pc)
            || (held.value in next.shared.approvals.rows && next.shared.approvals.rows[held.value].status == Executing)
  {
    HoldingStarts(cfg, w.shared, w.workers[act.worker].owner, w.workers[act.worker].pc, act.move);
  }

  lemma HeldStep(cfg: Config, acts: seq<Act>, act: Act, w: World, worker: WorkerId)
    requires w == Play(cfg, acts) && CursorInv(w) && GateInv(cfg, w) && RecordInv(cfg, acts, w)
    requires worker in Step(cfg, w, act).workers
    ensures HeldOk(cfg, acts + [act], Step(cfg, w, act).shared, Step(cfg, w, act).workers[worker].pc)
  {
    if worker in w.workers {
      assert HeldOk(cfg, acts, w.shared, w.workers[worker].pc);
      if act.Work? && act.worker == worker {
        OwnStep(cfg, w, act);
      }
      if Held(w.workers[worker].pc).Some? {
        HeldStaysOk(cfg, acts, act, w, worker);
      }
    }
  }

  lemma {:induction false} RecordsHold(cfg: Config, acts: seq<Act>)
    ensures RecordInv(cfg, acts, Play(cfg, acts))
  {
    if acts != [] {
      var front, act := acts[..|acts| - 1], acts[|acts| - 1];
      assert acts == front + [act];
      RecordsHold(cfg, front);
      GatesHold(cfg, front);
      CompletedStaysStep(cfg, front, act);
      forall worker | worker in Play(cfg, acts).workers
        ensures HeldOk(cfg, acts, Play(cfg, acts).shared, Play(cfg, acts).workers[worker].pc)
      {
        HeldStep(cfg, front, act, Play(cfg, front), worker);
      }
    }
  }

  /******* The entry *******/

  /** What an entry into a handler looks like from outside. */
  lemma EntryStep(cfg: Config, w: World, act: Act)
    ensures var next := Step(cfg, w, act).shared.log;
            || next == w.shared.log
            || (|next| == |w.shared.log| + 1 && next[..|w.shared.log|] == w.shared.log
                && (next[|w.shared.log|].Entered? ==> EntersNow(w, act, next[|w.shared.log|])))
  {
    if act.Work? && act.worker in w.workers && act.move.Next? {
      AdvanceEnters(cfg, w.shared, w.workers[act.worker].owner, w.workers[act.worker].pc, act.move.input);
    }
  }

  /** A worker with a permit enters the handler, which is logged with the statuses of approval and ledger row. */
  predicate EntersNow(w: World, act: Act, e: Event) {
    && act.Work? && act.worker in w.workers && Enters(w.shared, w.workers[act.worker].pc, e)
  }

  predicate Enters(s: Shared, pc: Pc, e: Event) {
    && pc.Entering? && pc.todo != [] && e.Entered? && e.run == pc.ctx.run && e.call == pc.todo[0] && e.via == pc.via
    && (e.via.Some? && e.via.value in s.approvals.rows ==> e.gate == Some(s.approvals.rows[e.via.value].status))
    && ((e.run, e.call.id) in s.db.tools ==> e.row == s.db.tools[(e.run, e.call.id)].status)
  }

  lemma AdvanceEnters(cfg: Config, s: Shared, owner: OwnerId, pc: Pc, i: Input)
    ensures var next := Advance(cfg, s, owner, pc, i).0.log;
            next == s.log || (|next| == |s.log| + 1 && next[..|s.log|] == s.log && Enters(s, pc, next[|s.log|]))
  {
    if !pc.Invoking? && !pc.Entering? {
      OtherStepsGainNothing(cfg, s, owner, pc, i);
    }
  }

  /** Every entry of the log was made by one act of the history. */
  lemma {:induction false} EntryAct(cfg: Config, acts: seq<Act>, k: nat) returns (n: nat)
    requires k < |Play(cfg, acts).shared.log|
    ensures n < |acts| && Play(cfg, acts[..n]).shared.log == Play(cfg, acts).shared.log[..k]
    ensures Play(cfg, acts[..n + 1]).shared.log == Play(cfg, acts).shared.log[..k + 1]
    ensures Play(cfg, acts).shared.log[k].Entered? ==>
              EntersNow(Play(cfg, acts[..n]), acts[n], Play(cfg, acts).shared.log[k])
  {
    var front, act := acts[..|acts| - 1], acts[|acts| - 1];
    var w := Play(cfg, front);
    EntryStep(cfg, w, act);
    if k < |w.shared.log| {
      n := EntryAct(cfg, front, k);
      assert front[..n] == acts[..n] && front[..n + 1] == acts[..n + 1];
    } else {
      n := |front|;
      assert acts[..n + 1] == acts;
    }
  }

  /** An approved handler is entered while its approval is executing if and only if, before the entry, no other worker
      resumed the approval and completed it from an output on record. */
  lemma GateIsExecutingExactlyWhen(cfg: Config, acts: seq<Act>, k: nat) returns (n: nat)
    requires k < |Play(cfg, acts).shared.log| && Play(cfg, acts).shared.log[k].Entered?
    requires Play(cfg, acts).shared.log[k].via.Some?
    ensures n < |acts| && Play(cfg, acts[..n]).shared.log == Play(cfg, acts).shared.log[..k]
    ensures Play(cfg, acts[..n + 1]).shared.log == Play(cfg, acts).shared.log[..k + 1]
    ensures var e := Play(cfg, acts).shared.log[k];
            e.gate == Some(Executing) <==> !CompletedOnRecord(cfg, acts[..n], e.via.value)
  {
    n := EntryAct(cfg, acts, k);
    GateAtEntry(cfg, acts[..n], acts[n], Play(cfg, acts).shared.log[k]);
  }

  lemma GateAtEntry(cfg: Config, acts: seq<Act>, act: Act, e: Event)
    requires e.Entered? && EntersNow(Play(cfg, acts), act, e) && e.via.Some?
    ensures e.gate == Some(Executing) <==> !CompletedOnRecord(cfg, acts, e.via.value)
    ensures e.gate != Some(Executing) ==>
              (e.run, e.call.id) in Play(cfg, acts).shared.db.tools
              && Play(cfg, acts).shared.db.tools[(e.run, e.call.id)].status == ToolCompleted
              && Play(cfg, acts).shared.db.tools[(e.run, e.call.id)].output.Some?
  {
    var w := Play(cfg, acts);
    RecordsHold(cfg, acts);
    GatesHold(cfg, acts);
    HeldAtEntry(cfg, w, act, e);
    assert HeldOk(cfg, acts, w.shared, w.workers[act.worker].pc);
    if CompletedOnRecord(cfg, acts, e.via.value) {
      assert OutputOnRecord(w.shared.db, w.shared.approvals.rows[e.via.value]);
    }
  }

  lemma HeldAtEntry(cfg: Config, w: World, act: Act, e: Event)
    requires CursorInv(w) && GateInv(cfg, w) && e.Entered? && EntersNow(w, act, e) && e.via.Some?
    ensures Held(w.workers[act.worker].pc) == e.via && e.via.value in w.shared.approvals.rows
    ensures var row := w.shared.approvals.rows[e.via.value];
            && row.run == Some(e.run) && row.call == e.call && e.gate == Some(row.status)
            && (row.status == Executing || row.status == Executed)
  {
    WorkersAreInOrder(cfg, w, act.worker);
    assert RowOk(w.shared.issued, w.shared.approvals.rows[e.via.value]);
  }
}
