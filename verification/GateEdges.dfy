/** The edge of the approval gate: an approval that is no longer executing when its handler is entered was completed on
    the strength of an output that an administrator recorded for the call. */
module GateEdges {
  import opened Wrappers
  import opened RunState
  import opened Blocks
  import opened StoreSpec
  import opened StoreHistory
  import opened StoreInvariants
  import opened ApprovalSpec
  import opened Protocol
  import opened AtMostOnce
  import opened ApprovalGate
  import opened GateRecord

  /** An admin command resolves the call with effect. */
  predicate Settles(w: World, act: Act, key: (RunId, CallId)) {
    && act.Store? && act.op.ResolveOp? && act.op.run == key.0 && act.op.callId == key.1
    && ResolveTool(w.shared.db, act.op.tenant, key.0, key.1, act.op.disposition, act.op.output).1 == Succeeded
  }

  predicate SettledAs(row: Tool, op: Op)
    requires op.ResolveOp?
  {
    match op.disposition
    case ConfirmedSucceeded => row.status == ToolCompleted && row.output == op.output
    case ConfirmedNotExecuted => row.status == ToolFailed
  }

  /** Some step of the history did, and gave the row its final content. */
  predicate AdminSettled(cfg: Config, acts: seq<Act>, key: (RunId, CallId), row: Tool) {
    acts != []
    && (AdminSettled(cfg, acts[..|acts| - 1], key, row)
        || (Settles(Play(cfg, acts[..|acts| - 1]), acts[|acts| - 1], key) && SettledAs(row, acts[|acts| - 1].op)))
  }

  /** The call a worker has started and not yet recorded. */
  function Started(pc: Pc): Option<(RunId, CallId)> {
    if (pc.InHandler? || pc.Recording?) && pc.todo != [] then Some((pc.ctx.run, pc.todo[0].id)) else None
  }

  predicate HasEntered(log: seq<Event>, key: (RunId, CallId)) {
    exists e :: e in log && e.Entered? && KeyOf(e) == key
  }

  predicate RunningOrSettled(cfg: Config, acts: seq<Act>, db: Db, key: (RunId, CallId)) {
    key in db.tools && (db.tools[key].status == ToolRunning || AdminSettled(cfg, acts, key, db.tools[key]))
  }

  predicate EdgeInv(cfg: Config, acts: seq<Act>, w: World) {
    && (forall id :: id in w.workers && Permit(w.workers[id].pc).Some? ==>
          RunningOrSettled(cfg, acts, w.shared.db, Permit(w.workers[id].pc).value))
    && (forall id :: id in w.workers && Started(w.workers[id].pc).Some? ==>
          HasEntered(w.shared.log, Started(w.workers[id].pc).value))
  }

  lemma MoreActs(cfg: Config, acts: seq<Act>, act: Act, key: (RunId, CallId), row: Tool)
    ensures AdminSettled(cfg, acts, key, row) ==> AdminSettled(cfg, acts + [act], key, row)
    ensures Settles(Play(cfg, acts), act, key) && SettledAs(row, act.op) ==> AdminSettled(cfg, acts + [act], key, row)
  {
    assert (acts + [act])[..|acts|] == acts;
  }

  /** The steps that write the ledger. */
  predicate WritesLedger(pc: Pc) {
    pc.Invoking? || pc.Recording?
  }

  lemma OtherStepsKeepLedger(cfg: Config, s: Shared, owner: OwnerId, pc: Pc, i: Input)
    requires !WritesLedger(pc)
    ensures Advance(cfg, s, owner, pc, i).0.db.tools == s.db.tools
  {
  }

  /** A claim only adds rows, and a recording changes the row of its own call. */
  lemma ClaimsKeepRows(cfg: Config, s: Shared, owner: OwnerId, pc: Pc, i: Input, key: (RunId, CallId))
    requires pc.Invoking? && key in s.db.tools
    ensures var next := Advance(cfg, s, owner, pc, i).0; key in next.db.tools && next.db.tools[key] == s.db.tools[key]
  {
  }

  lemma RecordsKeepOtherRows(cfg: Config, s: Shared, owner: OwnerId, pc: Pc, i: Input, key: (RunId, CallId))
    requires pc.Recording? && key in s.db.tools && Started(pc) != Some(key)
    ensures var next := Advance(cfg, s, owner, pc, i).0; key in next.db.tools && next.db.tools[key] == s.db.tools[key]
  {
  }

  lemma OtherMovesKeepLedger(cfg: Config, s: Shared, owner: OwnerId, pc: Pc, move: Move)
    requires !move.Next?
    ensures MoveWorker(cfg, s, owner, pc, move).0.db.tools == s.db.tools
  {
  }

  /** Only the recording of its own worker and the administrator change a running row. */
  lemma WhoFinishesRows(cfg: Config, s: Shared, owner: OwnerId, pc: Pc, move: Move, key: (RunId, CallId))
    requires key in s.db.tools && s.db.tools[key].status == ToolRunning
    requires Started(pc) != Some(key)
    ensures var next := MoveWorker(cfg, s, owner, pc, move).0;
            key in next.db.tools && next.db.tools[key].status == ToolRunning
  {
    if !move.Next? {
      OtherMovesKeepLedger(cfg, s, owner, pc, move);
    } else if pc.Invoking? {
      ClaimsKeepRows(cfg, s, owner, pc, move.input, key);
    } else if pc.Recording? {
      RecordsKeepOtherRows(cfg, s, owner, pc, move.input, key);
    } else {
      OtherStepsKeepLedger(cfg, s, owner, pc, move.input);
    }
  }

  lemma PermitsAreForRunningRows(cfg: Config, s: Shared, owner: OwnerId, pc: Pc, move: Move)
    requires Permit(MoveWorker(cfg, s, owner, pc, move).1).Some?
    ensures var (next, pc') := MoveWorker(cfg, s, owner, pc, move);
            Permit(pc') == Permit(pc)
            || (Permit(pc').value in next.db.tools && next.db.tools[Permit(pc').value].status == ToolRunning)
  {
    if move.Next? && !pc.Invoking? && !pc.Entering? {
      OtherStepsGainNothing(cfg, s, owner, pc, move.input);
    }
  }

  lemma OtherStepsStartNothing(cfg: Config, s: Shared, owner: OwnerId, pc: Pc, i: Input)
    requires !pc.Entering? && !pc.InHandler? && !pc.Recording?
    ensures Started(Advance(cfg, s, owner, pc, i).1) == None
  {
  }

  lemma HandlersStartByEntry(cfg: Config, s: Shared, owner: OwnerId, pc: Pc, move: Move)
    requires Started(MoveWorker(cfg, s, owner, pc, move).1).Some?
    ensures Started(MoveWorker(cfg, s, owner, pc, move).1) == Started(pc)
         || Started(MoveWorker(cfg, s, owner, pc, move).1) == Permit(pc)
  {
    if move.Next? && !pc.Entering? && !pc.InHandler? && !pc.Recording? {
      OtherStepsStartNothing(cfg, s, owner, pc, move.input);
    }
  }

  lemma EntryRecordsTheRow(cfg: Config, s: Shared, owner: OwnerId, pc: Pc, move: Move)
    ensures var next := MoveWorker(cfg, s, owner, pc, move).0;
            next.log == s.log
            || (Permit(pc).Some? && |next.log| == |s.log| + 1 && next.log[..|s.log|] == s.log
                && next.log[|s.log|].Entered? && KeyOf(next.log[|s.log|]) == Permit(pc).value
                && (Permit(pc).value in s.db.tools ==> next.log[|s.log|].row == s.db.tools[Permit(pc).value].status))
  {
    if move.Next? && !pc.Invoking? && !pc.Entering? {
      OtherStepsGainNothing(cfg, s, owner, pc, move.input);
    }
  }

  lemma PermitEntersLog(cfg: Config, s: Shared, owner: OwnerId, pc: Pc, move: Move)
    requires Permit(pc).Some? && Permit(pc) == Started(MoveWorker(cfg, s, owner, pc, move).1)
    ensures HasEntered(MoveWorker(cfg, s, owner, pc, move).0.log, Permit(pc).value)
  {
    var next := MoveWorker(cfg, s, owner, pc, move).0;
    assert next.log[|s.log|] in next.log;
  }

  lemma LogOnlyGrows(cfg: Config, w: World, act: Act)
    ensures w.shared.log <= Step(cfg, w, act).shared.log
    ensures forall key :: HasEntered(w.shared.log, key) ==> HasEntered(Step(cfg, w, act).shared.log, key)
  {
    if act.Work? && act.worker in w.workers {
      EntryRecordsTheRow(cfg, w.shared, w.workers[act.worker].owner, w.workers[act.worker].pc, act.move);
    }
    var next := Step(cfg, w, act).shared.log;
    forall key | HasEntered(w.shared.log, key) ensures HasEntered(next, key) {
      var e :| e in w.shared.log && e.Entered? && KeyOf(e) == key;
      assert e in next;
    }
  }

  /** An effective resolution says what becomes of the row; nothing else of the environment touches it. */
  lemma EnvironmentSettles(cfg: Config, w: World, act: Act, key: (RunId, CallId))
    requires !act.Work? && key in w.shared.db.tools && w.shared.db.tools[key].status == ToolRunning
    ensures var next := Step(cfg, w, act).shared.db;
            && key in next.tools
            && (next.tools[key].status == ToolRunning || (Settles(w, act, key) && SettledAs(next.tools[key], act.op)))
  {
    if act.Store? && ByEnvironment(act.op) && !act.op.ResolveOp? {
      OthersLeaveLedgerAlone(w.shared.db, act.op);
    }
  }

  lemma FinishedRowStays(cfg: Config, w: World, act: Act, key: (RunId, CallId))
    requires key in w.shared.db.tools && w.shared.db.tools[key].status != ToolRunning
    ensures key in Step(cfg, w, act).shared.db.tools
    ensures Step(cfg, w, act).shared.db.tools[key] == w.shared.db.tools[key]
  {
    var op := StepTransaction(cfg, w, act);
    LedgerStep(w.shared.db, op, key);
  }

  lemma PermitStays(cfg: Config, w: World, acts: seq<Act>, act: Act, key: (RunId, CallId))
    requires w == Play(cfg, acts) && RunningOrSettled(cfg, acts, w.shared.db, key)
    requires act.Work? && act.worker in w.workers ==> Started(w.workers[act.worker].pc) != Some(key)
    ensures RunningOrSettled(cfg, acts + [act], Step(cfg, w, act).shared.db, key)
  {
    var next := Step(cfg, w, act).shared.db;
    if w.shared.db.tools[key].status != ToolRunning {
      FinishedRowStays(cfg, w, act, key);
      MoreActs(cfg, acts, act, key, w.shared.db.tools[key]);
    } else if !act.Work? {
      EnvironmentSettles(cfg, w, act, key);
      MoreActs(cfg, acts, act, key, next.tools[key]);
    } else if act.worker in w.workers {
      WhoFinishesRows(cfg, w.shared, w.workers[act.worker].owner, w.workers[act.worker].pc, act.move, key);
    }
  }

  lemma OthersKeepPermits(cfg: Config, w: World, acts: seq<Act>, act: Act, id: WorkerId)
    requires w == Play(cfg, acts) && PermitInv(w) && EdgeInv(cfg, acts, w)
    requires id in w.workers && Permit(w.workers[id].pc).Some?
    ensures RunningOrSettled(cfg, acts + [act], Step(cfg, w, act).shared.db, Permit(w.workers[id].pc).value)
  {
    var key := Permit(w.workers[id].pc).value;
    assert act.Work? && act.worker in w.workers ==> Started(w.workers[act.worker].pc) != Some(key) by {
      if act.Work? && act.worker in w.workers && Started(w.workers[act.worker].pc).Some? {
        assert HasEntered(w.shared.log, Started(w.workers[act.worker].pc).value);
      }
    }
    PermitStays(cfg, w, acts, act, key);
  }

  lemma EdgeWorkerStep(cfg: Config, w: World, acts: seq<Act>, act: Act)
    requires w == Play(cfg, acts) && PermitInv(w) && EdgeInv(cfg, acts, w) && act.Work? && act.worker in w.workers
    ensures EdgeInv(cfg, acts + [act], Step(cfg, w, act))
  {
    var next, me := Step(cfg, w, act), w.workers[act.worker];
    LogOnlyGrows(cfg, w, act);
    forall id | id in next.workers && Permit(next.workers[id].pc).Some?
      ensures RunningOrSettled(cfg, acts + [act], next.shared.db, Permit(next.workers[id].pc).value)
    {
      if id != act.worker || Permit(next.workers[id].pc) == Permit(me.pc) {
        OthersKeepPermits(cfg, w, acts, act, id);
      } else {
        PermitsAreForRunningRows(cfg, w.shared, me.owner, me.pc, act.move);
      }
    }
    if Started(next.workers[act.worker].pc).Some? && Started(next.workers[act.worker].pc) != Started(me.pc) {
      HandlersStartByEntry(cfg, w.shared, me.owner, me.pc, act.move);
      PermitEntersLog(cfg, w.shared, me.owner, me.pc, act.move);
    }
  }

  lemma EdgeStep(cfg: Config, w: World, acts: seq<Act>, act: Act)
    requires w == Play(cfg, acts) && PermitInv(w) && EdgeInv(cfg, acts, w)
    ensures EdgeInv(cfg, acts + [act], Step(cfg, w, act))
  {
    if act.Work? && act.worker in w.workers {
      EdgeWorkerStep(cfg, w, acts, act);
    } else {
      var next := Step(cfg, w, act);
      LogOnlyGrows(cfg, w, act);
      forall id | id in next.workers && Permit(next.workers[id].pc).Some?
        ensures RunningOrSettled(cfg, acts + [act], next.shared.db, Permit(next.workers[id].pc).value)
      {
        OthersKeepPermits(cfg, w, acts, act, id);
      }
    }
  }

  lemma {:induction false} EdgesHold(cfg: Config, acts: seq<Act>)
    ensures EdgeInv(cfg, acts, Play(cfg, acts))
  {
    if acts != [] {
      var front := acts[..|acts| - 1];
      EdgesHold(cfg, front);
      PermitsHold(cfg, front);
      EdgeStep(cfg, Play(cfg, front), front, acts[|acts| - 1]);
      assert front + [acts[|acts| - 1]] == acts;
    }
  }

  /** An effective admin command recorded this output for the call. */
  predicate AdminRecorded(cfg: Config, acts: seq<Act>, key: (RunId, CallId), output: string) {
    acts != []
    && (AdminRecorded(cfg, acts[..|acts| - 1], key, output)
        || (Settles(Play(cfg, acts[..|acts| - 1]), acts[|acts| - 1], key)
            && acts[|acts| - 1].op.disposition == ConfirmedSucceeded && acts[|acts| - 1].op.output == Some(output)))
  }

  lemma {:induction false} SettledMeansRecorded(cfg: Config, acts: seq<Act>, key: (RunId, CallId), row: Tool)
    requires AdminSettled(cfg, acts, key, row) && row.status == ToolCompleted && row.output.Some?
    ensures AdminRecorded(cfg, acts, key, row.output.value)
  {
    if AdminSettled(cfg, acts[..|acts| - 1], key, row) {
      SettledMeansRecorded(cfg, acts[..|acts| - 1], key, row);
    }
  }

  /** An approved handler is entered while its approval is executing, unless strictly before the entry an administrator
      resolved this very call with effect and recorded an output for it. */
  lemma EntriesRunUnderTheirApproval(cfg: Config, acts: seq<Act>, k: nat) returns (n: nat, output: string)
    requires k < |Play(cfg, acts).shared.log| && Play(cfg, acts).shared.log[k].Entered?
    requires Play(cfg, acts).shared.log[k].via.Some?
    ensures n < |acts| && Play(cfg, acts[..n]).shared.log == Play(cfg, acts).shared.log[..k]
    ensures Play(cfg, acts).shared.log[k].gate == Some(Executing)
         || AdminRecorded(cfg, acts[..n], KeyOf(Play(cfg, acts).shared.log[k]), output)
  {
    var e := Play(cfg, acts).shared.log[k];
    n := EntryAct(cfg, acts, k);
    output := LateEntry(cfg, acts[..n], acts[n], e);
  }

  lemma LateEntry(cfg: Config, acts: seq<Act>, act: Act, e: Event) returns (output: string)
    requires e.Entered? && e.via.Some? && EntersNow(Play(cfg, acts), act, e)
    ensures e.gate == Some(Executing) || AdminRecorded(cfg, acts, KeyOf(e), output)
  {
    output := "";
    if e.gate != Some(Executing) {
      var w := Play(cfg, acts);
      GateAtEntry(cfg, acts, act, e);
      EdgesHold(cfg, acts);
      assert Permit(w.workers[act.worker].pc) == Some(KeyOf(e));
      output := w.shared.db.tools[KeyOf(e)].output.value;
      SettledMeansRecorded(cfg, acts, KeyOf(e), w.shared.db.tools[KeyOf(e)]);
    }
  }

  /******* The edge is real *******/

  const ASK_ALWAYS: Config := Config(Sqlite, c => RequireApproval, true, 5)
  const PLAIN := Input(1, 100, 9, 100, [], Returned(""), false)

  const HI := [Dict("user", "hi", None)]
  const ASKED := [Dict("user", "hi", None), ToolUse(SOME_CALL)]

  predicate Row(w: World, status: ApprovalStatus) {
    9 in w.shared.approvals.rows
    && var row := w.shared.approvals.rows[9];
    row == NewApproval(SOME_SENDER, SOME_CALL, Some(0), ASKED, [SOME_CALL], 1, 100)
             .(status := status, decidedBy := row.decidedBy, decidedAt := row.decidedAt)
  }

  predicate TheRun(w: World, status: RunStatus, token: nat) {
    0 in w.shared.db.runs
    && var row := w.shared.db.runs[0];
    row.session == SOME_SESSION && row.status == status && row.owner == (if status == Interrupted then None else Some(1))
    && row.token == token
  }

  /** The workers of two processes. */
  function Two(first: Pc, second: Pc): map<WorkerId, Worker> {
    map[1 := Worker(1, first), 2 := Worker(2, second)]
  }

  lemma ReachWorkers() returns (acts: seq<Act>, w: World)
    ensures w == Play(ASK_ALWAYS, acts)
    ensures w == INITIAL_WORLD.(workers := Two(Idle, Idle))
  {
    acts, w := [], INITIAL_WORLD;
    acts, w := Then(ASK_ALWAYS, acts, w, Spawn(1, 1));
    acts, w := Then(ASK_ALWAYS, acts, w, Spawn(2, 2));
  }

  lemma OneMessageHistory()
    ensures History([Message(1, SOME_SESSION, 0, "user", "hi", 0)], SOME_SESSION, 20) == HI
  {
    var messages := [Message(1, SOME_SESSION, 0, "user", "hi", 0)];
    assert messages[..|messages| - 1] == [];
    assert History([], SOME_SESSION, 19) + HI == HI;
  }

  lemma ReachBuilding() returns (acts: seq<Act>, w: World)
    ensures w == Play(ASK_ALWAYS, acts)
    ensures w.workers == Two(Building(Ctx(0, 1, HI, 0, false, Some(SOME_SENDER))), Idle)
    ensures w.shared.log == [] && w.shared.issued == map[] && w.shared.approvals == NO_APPROVALS
    ensures TheRun(w, Running, 1) && w.shared.db.tools == map[]
  {
    acts, w := ReachWorkers();
    acts, w := Then(ASK_ALWAYS, acts, w, Work(1, Begin(SOME_START, 0, 0, 100)));
    assert w.shared.db.messages == [Message(1, SOME_SESSION, 0, "user", "hi", 0)];
    OneMessageHistory();
  }

  lemma ReachTurn() returns (acts: seq<Act>, w: World)
    ensures w == Play(ASK_ALWAYS, acts)
    ensures w.workers == Two(Turn(Ctx(0, 1, HI, 0, true, Some(SOME_SENDER))), Idle)
    ensures w.shared.log == [] && w.shared.issued == map[] && w.shared.approvals == NO_APPROVALS
    ensures TheRun(w, Running, 1) && w.shared.db.tools == map[]
  {
    acts, w := ReachBuilding();
    acts, w := Then(ASK_ALWAYS, acts, w, Work(1, Next(PLAIN)));
  }

  /** A run starts and asks the model. */
  lemma ReachModel() returns (acts: seq<Act>, w: World)
    ensures w == Play(ASK_ALWAYS, acts)
    ensures w.workers == Two(Asking(Ctx(0, 1, HI, 0, true, Some(SOME_SENDER))), Idle)
    ensures w.shared.log == [] && w.shared.issued == map[] && w.shared.approvals == NO_APPROVALS
    ensures TheRun(w, Running, 1) && w.shared.db.tools == map[]
  {
    acts, w := ReachTurn();
    OnlyDictsTrimThemselves(HI);
    acts, w := Then(ASK_ALWAYS, acts, w, Work(1, Next(PLAIN.(blocks := HI))));
  }

  lemma ReachBatch() returns (acts: seq<Act>, w: World)
    ensures w == Play(ASK_ALWAYS, acts)
    ensures w.workers == Two(Batch(Ctx(0, 1, ASKED, 1, true, Some(SOME_SENDER)), [SOME_CALL]), Idle)
    ensures w.shared.log == [] && w.shared.approvals == NO_APPROVALS
    ensures TheRun(w, Running, 1) && w.shared.db.tools == map[]
  {
    acts, w := ReachModel();
    assert CallsIn([ToolUse(SOME_CALL)]) == [SOME_CALL] by { assert [ToolUse(SOME_CALL)][1..] == []; }
    acts, w := Then(ASK_ALWAYS, acts, w, Work(1, Next(PLAIN.(blocks := [ToolUse(SOME_CALL)]))));
    assert w.workers[1].pc == Batch(Ctx(0, 1, ASKED, 1, true, Some(SOME_SENDER)), [SOME_CALL]);
  }

  /** It answers with one call. */
  lemma ReachCalls() returns (acts: seq<Act>, w: World)
    ensures w == Play(ASK_ALWAYS, acts)
    ensures w.workers == Two(Calls(Ctx(0, 1, ASKED, 1, true, Some(SOME_SENDER)), [SOME_CALL]), Idle)
    ensures w.shared.log == [] && w.shared.approvals == NO_APPROVALS
    ensures TheRun(w, Running, 1) && w.shared.db.tools == map[]
  {
    acts, w := ReachBatch();
    acts, w := Then(ASK_ALWAYS, acts, w, Work(1, Next(PLAIN)));
  }

  /** The call reaches its gate. */
  lemma ReachGate() returns (acts: seq<Act>, w: World)
    ensures w == Play(ASK_ALWAYS, acts)
    ensures w.workers == Two(Gate(Ctx(0, 1, ASKED, 1, true, Some(SOME_SENDER)), [SOME_CALL], 9), Idle)
    ensures w.shared.log == [] && TheRun(w, Running, 1) && w.shared.db.tools == map[]
    ensures Row(w, Undecided) && w.shared.approvals.events == map[]
  {
    acts, w := ReachCalls();
    acts, w := Then(ASK_ALWAYS, acts, w, Work(1, Next(PLAIN)));
  }

  lemma ReachParking() returns (acts: seq<Act>, w: World)
    ensures w == Play(ASK_ALWAYS, acts)
    ensures w.workers == Two(Parking(Ctx(0, 1, ASKED, 1, true, Some(SOME_SENDER))), Idle)
    ensures w.shared.log == [] && TheRun(w, Running, 1) && w.shared.db.tools == map[]
    ensures Row(w, Undecided) && w.shared.approvals.events == map[]
  {
    acts, w := ReachGate();
    acts, w := Then(ASK_ALWAYS, acts, w, Work(1, Next(PLAIN)));
  }

  lemma ReachWaiting() returns (acts: seq<Act>, w: World)
    ensures w == Play(ASK_ALWAYS, acts)
    ensures w.workers == Two(Idle, Idle)
    ensures w.shared.log == [] && TheRun(w, WaitingApproval, 1) && w.shared.db.tools == map[]
    ensures Row(w, Undecided) && w.shared.approvals.events == map[]
  {
    acts, w := ReachParking();
    acts, w := Then(ASK_ALWAYS, acts, w, Work(1, Next(PLAIN)));
  }

  /** The run waits, and its sender confirms. */
  lemma ReachConfirmation() returns (acts: seq<Act>, w: World)
    ensures w == Play(ASK_ALWAYS, acts)
    ensures w.workers == Two(Idle, Idle)
    ensures |w.shared.log| == 1 && TheRun(w, WaitingApproval, 1) && w.shared.db.tools == map[] && Row(w, Approved)
  {
    acts, w := ReachWaiting();
    acts, w := Then(ASK_ALWAYS, acts, w, Click(9, Some(Confirm), SOME_SENDER, "e", 1));
  }

  /** The first worker claims the run for the approval. */
  lemma ReachClaim() returns (acts: seq<Act>, w: World)
    ensures w == Play(ASK_ALWAYS, acts)
    ensures w.workers == Two(Claimed(0, FromApproval(9, Approved)), Idle)
    ensures |w.shared.log| == 1 && TheRun(w, Running, 2) && w.shared.db.tools == map[] && Row(w, Approved)
  {
    acts, w := ReachConfirmation();
    acts, w := Then(ASK_ALWAYS, acts, w, Work(1, Open(9)));
    acts, w := Then(ASK_ALWAYS, acts, w, Work(1, Next(PLAIN)));
    assert w.workers[1].pc == Opened(9, Approved);
    acts, w := Then(ASK_ALWAYS, acts, w, Work(1, Next(PLAIN)));
  }

  const RESUMED := Ctx(0, 2, ASKED, 1, false, Some(SOME_SENDER))

  lemma ReachResuming() returns (acts: seq<Act>, w: World)
    ensures w == Play(ASK_ALWAYS, acts)
    ensures w.workers == Two(Resuming(RESUMED, [SOME_CALL], 9, Approved), Idle)
    ensures |w.shared.log| == 1 && TheRun(w, Running, 2) && w.shared.db.tools == map[] && Row(w, Approved)
  {
    acts, w := ReachClaim();
    acts, w := Then(ASK_ALWAYS, acts, w, Work(1, Next(PLAIN)));
  }

  lemma ReachInvoking() returns (acts: seq<Act>, w: World)
    ensures w == Play(ASK_ALWAYS, acts)
    ensures w.workers == Two(Invoking(RESUMED, [SOME_CALL], Some(9)), Idle)
    ensures |w.shared.log| == 1 && TheRun(w, Running, 2) && w.shared.db.tools == map[] && Row(w, Executing)
  {
    acts, w := ReachResuming();
    acts, w := Then(ASK_ALWAYS, acts, w, Work(1, Next(PLAIN)));
  }

  /** It claims execution and the ledger row, and stalls before the handler. */
  lemma ReachHandler() returns (acts: seq<Act>, w: World)
    ensures w == Play(ASK_ALWAYS, acts) && |w.shared.log| == 1
    ensures w.workers == Two(Entering(RESUMED, [SOME_CALL], Some(9)), Idle)
    ensures TheRun(w, Running, 2) && Row(w, Executing)
    ensures w.shared.db.tools == map[(0, "call") := Tool("tool", "{}", ToolRunning, None, None)]
  {
    acts, w := ReachInvoking();
    acts, w := Then(ASK_ALWAYS, acts, w, Work(1, Next(PLAIN)));
  }

  /** Meanwhile an administrator confirms the call as succeeded and pauses the run. */
  lemma ReachIntervention() returns (acts: seq<Act>, w: World)
    ensures w == Play(ASK_ALWAYS, acts) && |w.shared.log| == 1
    ensures w.workers == Two(Entering(RESUMED, [SOME_CALL], Some(9)), Idle)
    ensures TheRun(w, Interrupted, 3) && Row(w, Executing)
    ensures w.shared.db.tools == map[(0, "call") := Tool("tool", "{}", ToolCompleted, Some("ok"), None)]
  {
    acts, w := ReachHandler();
    acts, w := Then(ASK_ALWAYS, acts, w, Store(ResolveOp("t", 0, "call", ConfirmedSucceeded, Some("ok"))));
    acts, w := Then(ASK_ALWAYS, acts, w, Store(ControlOp("t", 0, Pause)));
  }

  /** A second worker resumes the approval. */
  lemma ReachSecondClaim() returns (acts: seq<Act>, w: World)
    ensures w == Play(ASK_ALWAYS, acts) && |w.shared.log| == 1
    ensures w.workers == map[1 := Worker(1, Entering(RESUMED, [SOME_CALL], Some(9))),
                             2 := Worker(2, Claimed(0, FromApproval(9, Executing)))]
    ensures Row(w, Executing) && 0 in w.shared.db.runs
    ensures w.shared.db.tools == map[(0, "call") := Tool("tool", "{}", ToolCompleted, Some("ok"), None)]
  {
    acts, w := ReachIntervention();
    acts, w := Then(ASK_ALWAYS, acts, w, Work(2, Open(9)));
    acts, w := Then(ASK_ALWAYS, acts, w, Work(2, Next(PLAIN)));
    assert w.workers[2].pc == Opened(9, Executing);
    acts, w := Then(ASK_ALWAYS, acts, w, Work(2, Next(PLAIN)));
  }

  const STALLED := Entering(RESUMED, [SOME_CALL], Some(9))

  /** The second worker completes the approval from the record. */
  lemma ReachExecuted() returns (acts: seq<Act>, w: World)
    ensures w == Play(ASK_ALWAYS, acts) && |w.shared.log| == 1
    ensures 1 in w.workers && w.workers[1] == Worker(1, STALLED) && Row(w, Executed)
    ensures w.shared.db.tools == map[(0, "call") := Tool("tool", "{}", ToolCompleted, Some("ok"), None)]
  {
    acts, w := ReachSecondClaim();
    acts, w := Then(ASK_ALWAYS, acts, w, Work(2, Next(PLAIN)));
    assert w.workers[2].pc.Resuming?;
    acts, w := Then(ASK_ALWAYS, acts, w, Work(2, Next(PLAIN)));
  }

  /** Then the first one enters the handler. */
  lemma CompletedApprovalStillEnters() returns (acts: seq<Act>)
    ensures var log := Play(ASK_ALWAYS, acts).shared.log;
            && |log| == 2 && log[1].Entered? && log[1].via == Some(9)
            && log[1].gate == Some(Executed) && log[1].row == ToolCompleted
  {
    var w;
    acts, w := ReachExecuted();
    acts, w := Then(ASK_ALWAYS, acts, w, Work(1, Next(PLAIN)));
  }
}
