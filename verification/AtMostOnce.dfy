/** Tool handlers are entered at most once per run and call, in every history of the protocol. */
module AtMostOnce {
  import opened Wrappers
  import opened RunState
  import opened Blocks
  import opened StoreSpec
  import opened StoreHistory
  import opened StoreInvariants
  import opened ApprovalSpec
  import opened Protocol

  /******* Every step is at most one store transaction *******/

  /** The counters whose step is a checkpoint save. */
  predicate Saves(pc: Pc) {
    pc.Building? || pc.Turn? || pc.Asking? || pc.Finalizing? || pc.Batch? || pc.Gate? || pc.Answered?
  }

  function SavedAt(pc: Pc, i: Input): (string, State)
    requires Saves(pc)
  {
    match pc
    case Building(ctx) => ("context_built", State(Model, i.blocks, [], None, None, 0, ctx.identity))
    case Turn(ctx) => ("before_model", State(Model, i.blocks, [], None, None, ctx.turn, ctx.identity))
    case Asking(ctx) => ("before_model_fallback", State(Model, ctx.msgs, [], None, None, ctx.turn, ctx.identity))
    case Finalizing(ctx, text) =>
      ("before_finalize", State(Finalize, ctx.msgs, [], Some(text), None, ctx.turn, ctx.identity))
    case Batch(ctx, todo) => ("before_tools", State(Tools, ctx.msgs, todo, None, None, ctx.turn, ctx.identity))
    case Gate(ctx, todo, approval) =>
      ("waiting_approval", State(AwaitApproval, ctx.msgs, [], None, Some(approval), ctx.turn, ctx.identity))
    case Answered(ctx, todo, phase) =>
      (phase, State(if todo == [] then Model else Tools, ctx.msgs, todo, None, None, ctx.turn, ctx.identity))
  }

  /** A saving step saves exactly that checkpoint, under the worker's own token, or leaves the store alone. */
  lemma SaveTransaction(cfg: Config, s: Shared, owner: OwnerId, pc: Pc, i: Input)
    requires Saves(pc)
    ensures var next := Advance(cfg, s, owner, pc, i).0.db;
            next == s.db || next == SaveCheckpoint(s.db, owner, pc.ctx.run, SavedAt(pc, i).0, SavedAt(pc, i).1,
                                                   Some(pc.ctx.token), i.now).0
  {
  }

  lemma AdvanceTransaction(cfg: Config, s: Shared, owner: OwnerId, pc: Pc, i: Input) returns (op: Op)
    ensures var next := Advance(cfg, s, owner, pc, i).0.db; next == s.db || next == Apply(s.db, op)
  {
    if Saves(pc) {
      op := Save(owner, pc.ctx.run, SavedAt(pc, i).0, SavedAt(pc, i).1, Some(pc.ctx.token), i.now);
      SaveTransaction(cfg, s, owner, pc, i);
    } else if pc.Invoking? || pc.Recording? {
      op := LedgerTransaction(cfg, s, owner, pc, i);
    } else {
      op := RunTransaction(cfg, s, owner, pc, i);
    }
  }

  lemma LedgerTransaction(cfg: Config, s: Shared, owner: OwnerId, pc: Pc, i: Input) returns (op: Op)
    requires pc.Invoking? || pc.Recording?
    ensures var next := Advance(cfg, s, owner, pc, i).0.db; next == s.db || next == Apply(s.db, op)
  {
    op := PurgeOp("", 0);
    if pc.todo != [] {
      if pc.Invoking? {
        op := Take(cfg.backend, owner, pc.ctx.run, pc.todo[0], Some(pc.ctx.token));
      } else {
        op := Record(pc.ctx.run, pc.todo[0].id, pc.outcome);
      }
    }
  }

  lemma ClaimTransaction(cfg: Config, s: Shared, owner: OwnerId, pc: Pc, i: Input) returns (op: Op)
    requires pc.Loaded? || pc.Opened?
    ensures var next := Advance(cfg, s, owner, pc, i).0.db; next == s.db || next == Apply(s.db, op)
  {
    op := PurgeOp("", 0);
    match pc
    case Loaded(run, _) => op := Claim(owner, run, false, i.lease);
    case Opened(approval, _) =>
      if approval in s.approvals.rows && s.approvals.rows[approval].run.Some? {
        op := Claim(owner, s.approvals.rows[approval].run.value, true, i.lease);
      }
  }

  lemma RunTransaction(cfg: Config, s: Shared, owner: OwnerId, pc: Pc, i: Input) returns (op: Op)
    requires !Saves(pc) && !pc.Invoking? && !pc.Recording?
    ensures var next := Advance(cfg, s, owner, pc, i).0.db; next == s.db || next == Apply(s.db, op)
  {
    op := PurgeOp("", 0);
    match pc
    case Loaded(_, _) => op := ClaimTransaction(cfg, s, owner, pc, i);
    case Opened(_, _) => op := ClaimTransaction(cfg, s, owner, pc, i);
    case Reparking(run) => op := Op.Move(owner, run, WaitingApproval, None, None);
    case Completing(ctx, text) => op := Finish(owner, ctx.run, text, Some(ctx.token), i.now);
    case Parking(ctx) => op := Op.Move(owner, ctx.run, WaitingApproval, None, Some(ctx.token));
    case Doubtful(ctx) =>
      op := Op.Move(owner, ctx.run, Failed, Some("approved tool result is uncertain"), Some(ctx.token));
    case Raising(ctx) =>
      var error := if i.outcome.Raised? then Some(i.outcome.error) else None;
      op := Op.Move(owner, ctx.run, Interrupted, error, Some(ctx.token));
    case _ =>
  }

  lemma StepTransaction(cfg: Config, w: World, act: Act) returns (op: Op)
    ensures var next := Step(cfg, w, act).shared.db; next == w.shared.db || next == Apply(w.shared.db, op)
  {
    op := PurgeOp("", 0);
    match act
    case Work(worker, move) =>
      if worker in w.workers {
        var me := w.workers[worker];
        match move
        case Begin(req, id, now, lease) => op := Start(me.owner, req, id, now, lease);
        case Next(i) => op := AdvanceTransaction(cfg, w.shared, me.owner, me.pc, i);
        case _ =>
      }
    case Store(o) => op := o;
    case _ =>
  }

  /** So what happens from any point of a history on is, for the session store, a history of its transactions:
      fencing, completion and the ledger behave in the protocol as they do in StoreHistory and StoreInvariants. */
  lemma {:induction false} ProtocolIsStoreHistory(cfg: Config, acts: seq<Act>, from: nat) returns (ops: seq<Op>)
    requires from <= |acts|
    ensures Play(cfg, acts).shared.db == Exec(Play(cfg, acts[..from]).shared.db, ops)
    decreases |acts|
  {
    ops := [];
    if from == |acts| {
      assert acts[..from] == acts;
    } else {
      var front := acts[..|acts| - 1];
      assert front[..from] == acts[..from];
      ops := ProtocolIsStoreHistory(cfg, front, from);
      var op := StepTransaction(cfg, Play(cfg, front), acts[|acts| - 1]);
      if Play(cfg, acts).shared.db != Play(cfg, front).shared.db {
        assert (ops + [op])[..|ops|] == ops;
        ops := ops + [op];
      }
    }
  }

  /** The counter of a worker that tells the model a result: at once, or after its approval was settled. */
  function Telling(ctx: Ctx, todo: seq<Call>, via: Option<ApprovalId>, result: Outcome, text: string): Pc
    requires todo != []
  {
    if via.None? then Answered(ctx.(msgs := ctx.msgs + [ToolResult(todo[0].id, text)]), todo[1..], "after_tool")
    else Settling(ctx, todo, via.value, result, text)
  }

  lemma ReplayTells(
    cfg: Config, s: Shared, owner: OwnerId, ctx: Ctx, todo: seq<Call>, via: Option<ApprovalId>, i: Input, output: string)
    requires todo != [] && !i.flag
    requires ClaimTool(s.db, cfg.backend, owner, ctx.run, todo[0], Some(ctx.token)) == (s.db, Replay(output))
    ensures Advance(cfg, s, owner, Invoking(ctx, todo, via), i) == (s, Telling(ctx, todo, via, Returned(output), output))
  {
  }

  lemma LostLeaseTells(
    cfg: Config, s: Shared, owner: OwnerId, ctx: Ctx, todo: seq<Call>, via: Option<ApprovalId>, i: Input)
    requires todo != []
    requires i.flag || ClaimTool(s.db, cfg.backend, owner, ctx.run, todo[0], Some(ctx.token)) == (s.db, LeaseLost)
    ensures Advance(cfg, s, owner, Invoking(ctx, todo, via), i)
         == (s, Telling(ctx, todo, via, Raised("Run lease lost"), "Tool execution failed: Run lease lost"))
  {
    assert "Tool execution failed: " + "Run lease lost" == "Tool execution failed: Run lease lost";
  }

  /** Once a call is recorded as completed, any later worker that invokes it tells the model the recorded output
      without entering the handler, or finds its lease lost. */
  lemma RecordedOutputIsReplayed(
    cfg: Config, acts: seq<Act>, from: nat, owner: OwnerId, ctx: Ctx, todo: seq<Call>, via: Option<ApprovalId>, i: Input)
    requires from <= |acts| && todo != []
    requires var tools := Play(cfg, acts[..from]).shared.db.tools;
             && (ctx.run, todo[0].id) in tools
             && tools[(ctx.run, todo[0].id)].status == ToolCompleted
             && tools[(ctx.run, todo[0].id)].output.Some?
             && tools[(ctx.run, todo[0].id)].name == todo[0].name
             && tools[(ctx.run, todo[0].id)].input == todo[0].input
    ensures var s := Play(cfg, acts).shared;
            var recorded := Play(cfg, acts[..from]).shared.db.tools[(ctx.run, todo[0].id)].output.value;
            var lost := i.flag || (cfg.backend == Postgres && !Owns(s.db, owner, ctx.run, Some(ctx.token)));
            Advance(cfg, s, owner, Invoking(ctx, todo, via), i)
              == (s, if lost
                     then Telling(ctx, todo, via, Raised("Run lease lost"), "Tool execution failed: Run lease lost")
                     else Telling(ctx, todo, via, Returned(recorded), recorded))
  {
    var s := Play(cfg, acts).shared;
    var ops := ProtocolIsStoreHistory(cfg, acts, from);
    CompletedCallReplays(Play(cfg, acts[..from]).shared.db, ops, ctx.run, todo[0], cfg.backend, owner, Some(ctx.token));
    if i.flag || (cfg.backend == Postgres && !Owns(s.db, owner, ctx.run, Some(ctx.token))) {
      LostLeaseTells(cfg, s, owner, ctx, todo, via, i);
    } else {
      ReplayTells(cfg, s, owner, ctx, todo, via, i,
                  Play(cfg, acts[..from]).shared.db.tools[(ctx.run, todo[0].id)].output.value);
    }
  }

  /******* At most once *******/

  function KeyOf(e: Event): (RunId, CallId)
    requires e.Entered?
  {
    (e.run, e.call.id)
  }

  /** The call a worker was cleared to execute and has not started yet. */
  function Permit(pc: Pc): Option<(RunId, CallId)> {
    if pc.Entering? && pc.todo != [] then Some((pc.ctx.run, pc.todo[0].id)) else None
  }

  predicate OncePerCall(log: seq<Event>) {
    forall i, j :: 0 <= i < j < |log| && log[i].Entered? && log[j].Entered? ==> KeyOf(log[i]) != KeyOf(log[j])
  }

  /** Entered calls and held permits are backed by ledger rows, and no two of them share a call. */
  predicate PermitInv(w: World) {
    && OncePerCall(w.shared.log)
    && (forall e :: e in w.shared.log && e.Entered? ==> KeyOf(e) in w.shared.db.tools)
    && (forall id :: id in w.workers && Permit(w.workers[id].pc).Some? ==>
          Permit(w.workers[id].pc).value in w.shared.db.tools
          && forall e :: e in w.shared.log && e.Entered? ==> KeyOf(e) != Permit(w.workers[id].pc).value)
    && (forall a, b :: a in w.workers && b in w.workers && a != b && Permit(w.workers[a].pc).Some? ==>
          Permit(w.workers[a].pc) != Permit(w.workers[b].pc))
  }

  /** Outside the ledger claim and the entry itself, a step neither gains a permit nor enters a handler. */
  lemma OtherStepsGainNothing(cfg: Config, s: Shared, owner: OwnerId, pc: Pc, i: Input)
    requires !pc.Invoking? && !pc.Entering?
    ensures Advance(cfg, s, owner, pc, i).0.log == s.log
    ensures Permit(Advance(cfg, s, owner, pc, i).1) == None
  {
  }

  /** What one step may do to permits and to the log: gain a permit for a row it creates, or trade a permit
      for an entry. */
  ghost predicate PermitMove(s: Shared, pc: Pc, next: Shared, pc': Pc) {
    || (next.log == s.log
        && (Permit(pc') == None || Permit(pc') == Permit(pc)
            || (Permit(pc').value !in s.db.tools && Permit(pc').value in next.db.tools)))
    || (Permit(pc).Some? && Permit(pc') == None
        && exists e: Event :: next.log == s.log + [e] && e.Entered? && KeyOf(e) == Permit(pc).value)
  }

  /** The ledger claim is the only source of a permit, and creates the row. */
  lemma InvokeGainsPermitWithRow(
    cfg: Config, s: Shared, owner: OwnerId, ctx: Ctx, todo: seq<Call>, via: Option<ApprovalId>, i: Input)
    requires todo != []
    ensures PermitMove(s, Invoking(ctx, todo, via), Invoke(cfg, s, owner, ctx, todo, via, i).0,
                       Invoke(cfg, s, owner, ctx, todo, via, i).1)
  {
  }

  lemma EnterSpendsPermit(s: Shared, ctx: Ctx, todo: seq<Call>, via: Option<ApprovalId>)
    requires todo != []
    ensures PermitMove(s, Entering(ctx, todo, via), Enter(s, ctx, todo, via).0, Enter(s, ctx, todo, via).1)
  {
    var (next, _) := Enter(s, ctx, todo, via);
    var e := next.log[|s.log|];
    assert next.log == s.log + [e];
  }

  lemma AdvanceMovesPermits(cfg: Config, s: Shared, owner: OwnerId, pc: Pc, i: Input)
    ensures PermitMove(s, pc, Advance(cfg, s, owner, pc, i).0, Advance(cfg, s, owner, pc, i).1)
  {
    if pc.Invoking? {
      if pc.todo != [] { InvokeGainsPermitWithRow(cfg, s, owner, pc.ctx, pc.todo, pc.via, i); }
    } else if pc.Entering? {
      if pc.todo != [] { EnterSpendsPermit(s, pc.ctx, pc.todo, pc.via); }
    } else {
      OtherStepsGainNothing(cfg, s, owner, pc, i);
    }
  }

  /** Starting, loading, failing and crashing involve neither permits nor entries. */
  lemma OtherMovesGainNothing(cfg: Config, s: Shared, owner: OwnerId, pc: Pc, move: Move)
    requires !move.Next?
    ensures PermitMove(s, pc, MoveWorker(cfg, s, owner, pc, move).0, MoveWorker(cfg, s, owner, pc, move).1)
  {
  }

  lemma LedgerKeysStay(cfg: Config, w: World, act: Act)
    ensures forall key :: key in w.shared.db.tools ==> key in Step(cfg, w, act).shared.db.tools
  {
    var op := StepTransaction(cfg, w, act);
    forall key | key in w.shared.db.tools ensures key in Step(cfg, w, act).shared.db.tools {
      LedgerStep(w.shared.db, op, key);
    }
  }

  lemma PermitFrame(w: World, worker: WorkerId, next: Shared, pc: Pc)
    requires PermitInv(w) && worker in w.workers
    requires forall key :: key in w.shared.db.tools ==> key in next.db.tools
    requires PermitMove(w.shared, w.workers[worker].pc, next, pc)
    ensures PermitInv(World(next, w.workers[worker := Worker(w.workers[worker].owner, pc)]))
  {
  }

  /** Approval clicks are logged, but enter nothing. */
  lemma OtherActsKeepPermits(w: World, next: World)
    requires PermitInv(w) && next.workers == w.workers
    requires forall key :: key in w.shared.db.tools ==> key in next.shared.db.tools
    requires next.shared.log == w.shared.log
          || exists e: Event :: e.Confirmed? && next.shared.log == w.shared.log + [e]
    ensures PermitInv(next)
  {
  }

  lemma PermitStep(cfg: Config, w: World, act: Act)
    requires PermitInv(w)
    ensures PermitInv(Step(cfg, w, act))
  {
    var next := Step(cfg, w, act);
    LedgerKeysStay(cfg, w, act);
    match act
    case Work(worker, move) =>
      if worker in w.workers {
        var me := w.workers[worker];
        if move.Next? {
          AdvanceMovesPermits(cfg, w.shared, me.owner, me.pc, move.input);
        } else {
          OtherMovesGainNothing(cfg, w.shared, me.owner, me.pc, move);
        }
        var (shared, pc) := MoveWorker(cfg, w.shared, me.owner, me.pc, move);
        PermitFrame(w, worker, shared, pc);
      }
    case Spawn(worker, owner) =>
    case Click(_, _, _, _, _) =>
      if next.shared.log != w.shared.log {
        assert next.shared.log == w.shared.log + [next.shared.log[|w.shared.log|]];
      }
      OtherActsKeepPermits(w, next);
    case _ => OtherActsKeepPermits(w, next);
  }

  lemma {:induction false} PermitsHold(cfg: Config, acts: seq<Act>)
    ensures PermitInv(Play(cfg, acts))
  {
    if acts != [] {
      PermitsHold(cfg, acts[..|acts| - 1]);
      PermitStep(cfg, Play(cfg, acts[..|acts| - 1]), acts[|acts| - 1]);
    }
  }

  /** However workers, crashes, lease expiry, reclaims, approvals, admin commands and purges interleave,
      no handler is entered twice for the same run and call. */
  lemma HandlersRunAtMostOnce(cfg: Config, acts: seq<Act>, i: nat, j: nat)
    requires i < |Play(cfg, acts).shared.log| && j < |Play(cfg, acts).shared.log|
    requires Play(cfg, acts).shared.log[i].Entered? && Play(cfg, acts).shared.log[j].Entered?
    requires KeyOf(Play(cfg, acts).shared.log[i]) == KeyOf(Play(cfg, acts).shared.log[j])
    ensures i == j
  {
    PermitsHold(cfg, acts);
  }
}
