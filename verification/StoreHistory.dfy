/**
 Whole histories of the session database: any sequence of transactions, by any callers, in any order.
 Each transaction is atomic. A SQLite tool completion is two of them, a check and a bare row update.
 */
module StoreHistory {
  import opened Wrappers
  import opened RunState
  import opened Blocks
  import opened StoreSpec

  datatype Op =
    | Start(caller: OwnerId, req: InboundRequest, id: RunId, now: Time, lease: Time)
    | Save(caller: OwnerId, run: RunId, phase: string, state: State, token: Option<nat>, now: Time)
    | Move(caller: OwnerId, run: RunId, target: RunStatus, error: Option<string>, token: Option<nat>)
    | Claim(caller: OwnerId, run: RunId, approved: bool, lease: Time)
    | Renew(caller: OwnerId, run: RunId, heldToken: nat, lease: Time)
    | Interrupt(caller: OwnerId, now: Time)
    | Finish(caller: OwnerId, run: RunId, text: string, token: Option<nat>, now: Time)
    | Take(backend: Backend, caller: OwnerId, run: RunId, call: Call, token: Option<nat>)
    | Record(run: RunId, callId: CallId, outcome: Outcome)
    | RecordLocked(caller: OwnerId, run: RunId, callId: CallId, outcome: Outcome, token: Option<nat>)
    | Summarize(session: SessionKey, text: string, through: nat)
    | Attach(attachment: Attachment)
    | ControlOp(tenant: string, run: RunId, control: Control)
    | ResolveOp(tenant: string, run: RunId, callId: CallId, disposition: Disposition, output: Option<string>)
    | PurgeOp(tenant: string, before: Time)

  /** The statuses from which the runtime claims a run: after an approval, or when it resumes an interrupted one. */
  function ClaimSources(approved: bool): set<RunStatus> {
    if approved then {WaitingApproval, Interrupted} else {Interrupted}
  }

  /** Run ids are fresh uuids, so a start with a used id does not occur. */
  function Apply(db: Db, op: Op): Db {
    match op
    case Start(caller, req, id, now, lease) =>
      if id in db.runs then db else StartInbound(db, caller, req, id, now, lease).0
    case Save(caller, run, phase, state, token, now) => SaveCheckpoint(db, caller, run, phase, state, token, now).0
    case Move(caller, run, target, error, token) => TransitionRun(db, caller, run, target, error, token).0
    case Claim(caller, run, approved, lease) => ClaimRun(db, caller, run, ClaimSources(approved), lease).0
    case Renew(caller, run, token, lease) => RenewRun(db, caller, run, token, lease).0
    case Interrupt(caller, now) => InterruptIncomplete(db, caller, now)
    case Finish(caller, run, text, token, now) => CompleteRun(db, caller, run, text, token, now).0
    case Take(backend, caller, run, call, token) => ClaimTool(db, backend, caller, run, call, token).0
    case Record(run, callId, outcome) => FinishRow(db, run, callId, outcome).0
    case RecordLocked(caller, run, callId, outcome, token) => FinishTool(db, caller, run, callId, outcome, token).0
    case Summarize(session, text, through) => SaveSummary(db, session, text, through).0
    case Attach(attachment) =>
      if attachment.session in db.sessions then db.(attachments := db.attachments + [attachment]) else db
    case ControlOp(tenant, run, control) => ControlRun(db, tenant, run, control).0
    case ResolveOp(tenant, run, callId, disposition, output) =>
      ResolveTool(db, tenant, run, callId, disposition, output).0
    case PurgeOp(tenant, before) => Purge(db, tenant, before)
  }

  function Exec(db: Db, ops: seq<Op>): Db {
    if ops == [] then db else Apply(Exec(db, ops[..|ops| - 1]), ops[|ops| - 1])
  }

  lemma {:induction false} ExecAppend(db: Db, a: seq<Op>, b: seq<Op>)
    ensures Exec(db, a + b) == Exec(Exec(db, a), b)
  {
    if b == [] {
      assert a + b == a;
    } else {
      var front := b[..|b| - 1];
      assert (a + b)[..|a + b| - 1] == a + front;
      ExecAppend(db, a, front);
    }
  }

  lemma ExecOne(db: Db, op: Op)
    ensures Exec(db, [op]) == Apply(db, op)
  {
    assert [op][..0] == [];
  }

  /******* Tokens *******/

  lemma RunsStay(db: Db, op: Op, run: RunId)
    requires run in db.runs
    ensures run in Apply(db, op).runs
    ensures Apply(db, op).runs[run].session == db.runs[run].session
    ensures Apply(db, op).runs[run].inbound == db.runs[run].inbound
  {
  }

  /** One transaction never lowers a token, and an unchanged token keeps its owner or loses it. */
  lemma TokenStep(db: Db, op: Op, run: RunId)
    requires run in db.runs
    ensures run in Apply(db, op).runs
    ensures Apply(db, op).runs[run].token >= db.runs[run].token
    ensures Apply(db, op).runs[run].token == db.runs[run].token ==>
              Apply(db, op).runs[run].owner == db.runs[run].owner || Apply(db, op).runs[run].owner == None
  {
  }

  lemma {:induction false} TokensOnlyGrow(db: Db, ops: seq<Op>, run: RunId)
    requires run in db.runs
    ensures run in Exec(db, ops).runs
    ensures Exec(db, ops).runs[run].token >= db.runs[run].token
    ensures Exec(db, ops).runs[run].token == db.runs[run].token ==>
              Exec(db, ops).runs[run].owner == db.runs[run].owner || Exec(db, ops).runs[run].owner == None
  {
    if ops != [] {
      TokensOnlyGrow(db, ops[..|ops| - 1], run);
      TokenStep(Exec(db, ops[..|ops| - 1]), ops[|ops| - 1], run);
    }
  }

  /** Over any history, a token value of a run is held by at most one owner. */
  lemma OneOwnerPerToken(ops: seq<Op>, i: nat, j: nat, run: RunId)
    requires i <= j <= |ops|
    requires run in Exec(EMPTY_DB, ops[..i]).runs && run in Exec(EMPTY_DB, ops[..j]).runs
    requires Exec(EMPTY_DB, ops[..i]).runs[run].token == Exec(EMPTY_DB, ops[..j]).runs[run].token
    requires Exec(EMPTY_DB, ops[..j]).runs[run].owner.Some?
    ensures Exec(EMPTY_DB, ops[..i]).runs[run].owner == Exec(EMPTY_DB, ops[..j]).runs[run].owner
  {
    var early, between := ops[..i], ops[i..j];
    assert ops[..j] == early + between;
    ExecAppend(EMPTY_DB, early, between);
    TokensOnlyGrow(Exec(EMPTY_DB, early), between, run);
  }

  /** A write that passes an explicit token of a run: checkpoint save, completion, renewal, owned transition,
      new tool claim, and the locked tool completion of PostgreSQL. */
  predicate OwnedWrite(op: Op, run: RunId, caller: OwnerId, token: nat) {
    token > 0 &&
    match op
    case Save(c, r, _, _, t, _) => c == caller && r == run && t == Some(token)
    case Finish(c, r, _, t, _) => c == caller && r == run && t == Some(token)
    case Renew(c, r, t, _) => c == caller && r == run && t == token
    case Move(c, r, _, _, t) => c == caller && r == run && t == Some(token)
    case Take(_, c, r, _, t) => c == caller && r == run && t == Some(token)
    case RecordLocked(c, r, _, _, t) => c == caller && r == run && t == Some(token)
    case _ => false
  }

  /** An owned write changes the store only for the current owner under the current token. */
  lemma OwnedWriteNeedsTheHolder(db: Db, op: Op, run: RunId, caller: OwnerId, token: nat)
    requires OwnedWrite(op, run, caller, token)
    requires Apply(db, op) != db
    ensures run in db.runs && db.runs[run].owner == Some(caller) && db.runs[run].token == token
  {
  }

  /** Once the token of a run passed `token`, no write with it ever changes the store again. */
  lemma StaleWritesChangeNothing(db: Db, ops: seq<Op>, op: Op, run: RunId, caller: OwnerId, token: nat)
    requires run in db.runs && db.runs[run].token > token
    requires OwnedWrite(op, run, caller, token)
    ensures Apply(Exec(db, ops), op) == Exec(db, ops)
  {
    TokensOnlyGrow(db, ops, run);
    if Apply(Exec(db, ops), op) != Exec(db, ops) {
      OwnedWriteNeedsTheHolder(Exec(db, ops), op, run, caller, token);
    }
  }

  /** What really stands between two states of a run: later claims and effective admin commands raise the token. */
  lemma TokenRisesExactlyWhen(db: Db, op: Op, run: RunId)
    requires run in db.runs
    ensures Apply(db, op).runs[run].token > db.runs[run].token <==>
              || (op.Claim? && op.run == run && db.runs[run].status in ClaimSources(op.approved))
              || (op.ControlOp? && op.run == run && ControlRun(db, op.tenant, run, op.control).1 == Succeeded)
  {
  }

  /******* SQLite completes a tool in two steps *******/

  /** A completion whose ownership check saw `checked` and whose update runs on `db`. */
  function SplitCompletion(checked: Db, db: Db, caller: OwnerId, run: RunId, call: CallId, outcome: Outcome, token: nat)
    : Db
  {
    if Owns(checked, caller, run, Some(token)) then FinishRow(db, run, call, outcome).0 else db
  }

  /** The split completion agrees with the locked one exactly when the ownership check
      would give the same answer at the update, or the row can no longer change. */
  lemma SplitAgreesExactlyWhen(
    checked: Db, db: Db, caller: OwnerId, run: RunId, call: CallId, outcome: Outcome, token: nat)
    ensures SplitCompletion(checked, db, caller, run, call, outcome, token)
              == FinishTool(db, caller, run, call, outcome, Some(token)).0
            <==>
              || Owns(checked, caller, run, Some(token)) == Owns(db, caller, run, Some(token))
              || (run, call) !in db.tools
              || db.tools[(run, call)].status != ToolRunning
  {
    var key := (run, call);
    if key in db.tools && db.tools[key].status == ToolRunning {
      assert FinishRow(db, run, call, outcome).0.tools[key].status != ToolRunning;
    }
  }

  const SOME_SESSION := SessionKey("t", "p", "c")
  const SOME_SENDER := Identity("t", "p", "c", "s", "m")
  const SOME_START := InboundRequest(SOME_SENDER, "hi", State(Model, [], [], None, None, 0, Some(SOME_SENDER)), 20)
  const SOME_CALL := Call("call", "tool", "{}")

  /** SQLite is not fenced there: a paused run, whose token moved on, still gets its tool row completed
      by the old holder. */
  lemma StaleCompletionLandsInSqlite()
    ensures var checked := Exec(EMPTY_DB, [Start(7, SOME_START, 0, 0, 30), Take(Sqlite, 7, 0, SOME_CALL, Some(1))]);
            var db := Apply(checked, ControlOp("t", 0, Pause));
            && 0 in db.runs && db.runs[0].token > 1
            && SplitCompletion(checked, db, 7, 0, "call", Returned("ok"), 1) != db
            && FinishTool(db, 7, 0, "call", Returned("ok"), Some(1)).0 == db
  {
    var start, take := Start(7, SOME_START, 0, 0, 30), Take(Sqlite, 7, 0, SOME_CALL, Some(1));
    assert [start, take][..1] == [start];
    ExecOne(EMPTY_DB, start);
    var checked := Exec(EMPTY_DB, [start, take]);
    assert checked == Apply(Apply(EMPTY_DB, start), take);
    var db := Apply(checked, ControlOp("t", 0, Pause));
    assert db.tools[(0, "call")].status == ToolRunning;
    assert SplitCompletion(checked, db, 7, 0, "call", Returned("ok"), 1).tools[(0, "call")].status == ToolCompleted;
  }
}
