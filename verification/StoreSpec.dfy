/**
 The session database as a value, and every transaction of the store as a function on it.
 A `None` token, like a zero one, means that the caller passed no usable token.
 */
module StoreSpec {
  import opened Wrappers
  import opened RunState
  import opened Blocks

  type RunId = nat
  type OwnerId = nat
  type ApprovalId = nat
  type Time = nat

  /** Session ids are a hash of these three parts, taken to be injective. */
  datatype SessionKey = SessionKey(tenant: string, platform: string, conversation: string)
  datatype InboundKey = InboundKey(platform: string, message: string)

  datatype Run = Run(
    session: SessionKey, inbound: InboundKey, status: RunStatus, error: Option<string>,
    owner: Option<OwnerId>, lease: Option<Time>, token: nat)

  datatype Inbound = Inbound(run: RunId, sender: string, response: Option<string>)

  datatype Message = Message(id: nat, session: SessionKey, run: RunId, role: string, content: string, at: Time)

  datatype Action = Model | Tools | Finalize | AwaitApproval

  /** Who is talking to the runtime, and with which message; the tenant comes from the metadata. */
  datatype Identity = Identity(tenant: string, platform: string, conversation: string, sender: string, message: string) {
    function Session(): SessionKey {
      SessionKey(tenant, platform, conversation)
    }

    function Key(): InboundKey {
      InboundKey(platform, message)
    }
  }

  /** The recoverable part of a checkpoint. */
  datatype State = State(
    action: Action, messages: seq<Block>, remaining: seq<Call>, response: Option<string>,
    approval: Option<ApprovalId>, nextTurn: nat, identity: Option<Identity>)

  datatype Checkpoint = Checkpoint(run: RunId, sequence: nat, phase: string, state: State, at: Time)

  datatype ToolStatus = ToolRunning | ToolCompleted | ToolFailed

  datatype Tool = Tool(name: string, input: string, status: ToolStatus, output: Option<string>, error: Option<string>)

  datatype Summary = Summary(session: SessionKey, version: nat, content: string, through: nat)

  datatype Attachment = Attachment(tenant: string, session: SessionKey, at: Time)

  datatype Db = Db(
    sessions: set<SessionKey>,
    runs: map<RunId, Run>,
    inbound: map<InboundKey, Inbound>,
    messages: seq<Message>,
    nextMessage: nat,
    checkpoints: seq<Checkpoint>,
    tools: map<(RunId, CallId), Tool>,
    summaries: seq<Summary>,
    attachments: seq<Attachment>)

  const EMPTY_DB := Db({}, map[], map[], [], 1, [], map[], [], [])

  /******* Ownership *******/

  /** A missing or zero token falls back to the current one. */
  function EffectiveToken(token: Option<nat>, current: nat): nat {
    if token.None? || token.value == 0 then current else token.value
  }

  /** The check every owned write starts with. */
  predicate Owns(db: Db, caller: OwnerId, run: RunId, token: Option<nat>) {
    run in db.runs
    && var row := db.runs[run];
    row.status == Running && row.owner == Some(caller) && row.token == EffectiveToken(token, row.token)
  }

  /******* Inbound messages *******/

  datatype InboundRequest = InboundRequest(
    identity: Identity, content: string, state: State, recentLimit: nat)

  datatype InboundStart = InboundStart(isNew: bool, run: RunId, response: Option<string>)

  /** The last `limit` messages of a session, oldest first, as history blocks. */
  function History(messages: seq<Message>, session: SessionKey, limit: nat): seq<Block> {
    if messages == [] || limit == 0 then []
    else
      var last := messages[|messages| - 1];
      var before := messages[..|messages| - 1];
      if last.session == session
      then History(before, session, limit - 1) + [Dict(last.role, last.content, None)]
      else History(before, session, limit)
  }

  function StartInbound(db: Db, caller: OwnerId, req: InboundRequest, id: RunId, now: Time, lease: Time)
    : (Db, InboundStart)
    requires id !in db.runs
  {
    if req.identity.Key() in db.inbound then
      (db, InboundStart(false, db.inbound[req.identity.Key()].run, db.inbound[req.identity.Key()].response))
    else
      var messages := db.messages + [Message(db.nextMessage, req.identity.Session(), id, "user", req.content, now)];
      var state := req.state.(messages := History(messages, req.identity.Session(), req.recentLimit));
      (db.(sessions := db.sessions + {req.identity.Session()},
           runs := db.runs[id := Run(req.identity.Session(), req.identity.Key(), Running, None, Some(caller),
                                     Some(lease), 1)],
           inbound := db.inbound[req.identity.Key() := Inbound(id, req.identity.sender, None)],
           messages := messages,
           nextMessage := db.nextMessage + 1,
           checkpoints := db.checkpoints + [Checkpoint(id, 1, "inbound_started", state, now)]),
       InboundStart(true, id, None))
  }

  /******* Checkpoints *******/

  function MaxSequence(checkpoints: seq<Checkpoint>, run: RunId): nat {
    if checkpoints == [] then 0
    else
      var last := checkpoints[|checkpoints| - 1];
      var before := MaxSequence(checkpoints[..|checkpoints| - 1], run);
      if last.run == run && last.sequence > before then last.sequence else before
  }

  function SaveCheckpoint(db: Db, caller: OwnerId, run: RunId, phase: string, state: State, token: Option<nat>, now: Time)
    : (Db, bool)
  {
    if Owns(db, caller, run, token) then
      var sequence := MaxSequence(db.checkpoints, run) + 1;
      (db.(checkpoints := db.checkpoints + [Checkpoint(run, sequence, phase, state, now)]), true)
    else (db, false)
  }

  /******* Run rows *******/

  /** Stored error texts are cut to 1000 characters. */
  function Clip(error: string): string {
    if |error| > 1000 then error[..1000] else error
  }

  function ClipOption(error: Option<string>): Option<string> {
    if error.Some? && error.value != "" then Some(Clip(error.value)) else None
  }

  /** Unlike the other writes, a token here is compared even when it is zero. */
  function TransitionRun(db: Db, caller: OwnerId, run: RunId, target: RunStatus, error: Option<string>, token: Option<nat>)
    : (Db, bool)
  {
    if run in db.runs && db.runs[run].status in SourcesFor(target)
       && (token.Some? ==> db.runs[run].owner == Some(caller) && db.runs[run].token == token.value)
    then (db.(runs := db.runs[run := db.runs[run].(status := target, error := ClipOption(error))]), true)
    else (db, false)
  }

  function ClaimRun(db: Db, caller: OwnerId, run: RunId, expected: set<RunStatus>, lease: Time): (Db, bool) {
    if run in db.runs && db.runs[run].status in expected then
      var row := db.runs[run].(status := Running, error := None, owner := Some(caller), lease := Some(lease),
                               token := db.runs[run].token + 1);
      (db.(runs := db.runs[run := row]), true)
    else (db, false)
  }

  function RenewRun(db: Db, caller: OwnerId, run: RunId, token: nat, lease: Time): (Db, bool) {
    if run in db.runs && db.runs[run].status == Running && db.runs[run].owner == Some(caller)
       && db.runs[run].token == token
    then (db.(runs := db.runs[run := db.runs[run].(lease := Some(lease))]), true)
    else (db, false)
  }

  /** The rows a starting process takes over: its own, those without a lease, and those whose lease lapsed. */
  predicate Abandoned(row: Run, caller: OwnerId, now: Time) {
    row.status == Running
    && (row.owner == Some(caller) || row.lease.None? || row.lease.value <= now)
  }

  function InterruptedRow(row: Run): Run {
    row.(status := Interrupted, owner := None, lease := None)
  }

  function InterruptIncomplete(db: Db, caller: OwnerId, now: Time): Db {
    db.(runs := map r | r in db.runs ::
                  if Abandoned(db.runs[r], caller, now) then InterruptedRow(db.runs[r]) else db.runs[r])
  }

  function CompleteRun(db: Db, caller: OwnerId, run: RunId, response: string, token: Option<nat>, now: Time)
    : (Db, bool)
  {
    if run !in db.runs then (db, false)
    else if db.runs[run].status == Completed then (db, ResponseOf(db, run) == Some(response))
    else if !Owns(db, caller, run, token) then (db, false)
    else
      var row := db.runs[run];
      (db.(runs := db.runs[run := row.(status := Completed, error := None, owner := None, lease := None)],
           messages := db.messages + [Message(db.nextMessage, row.session, run, "assistant", response, now)],
           nextMessage := db.nextMessage + 1,
           inbound := map k | k in db.inbound ::
             if db.inbound[k].run == run then db.inbound[k].(response := Some(response)) else db.inbound[k]),
       true)
  }

  /** The cached response of the inbound row that points at a run. */
  function ResponseOf(db: Db, run: RunId): Option<string> {
    if run in db.runs && db.runs[run].inbound in db.inbound && db.inbound[db.runs[run].inbound].run == run
    then db.inbound[db.runs[run].inbound].response else None
  }

  /******* The tool ledger *******/

  datatype Backend = Sqlite | Postgres

  datatype ToolClaim =
    | Execute
    | Replay(output: string)
    | Uncertain
    | Blocked
    | Conflict
    | LeaseLost

  /** What an existing ledger row tells a caller. */
  function RowClaim(row: Tool, name: string, input: string): ToolClaim {
    if row.name != name || row.input != input then Conflict
    else if row.status == ToolCompleted && row.output.Some? then Replay(row.output.value)
    else if row.status == ToolRunning then Uncertain
    else Blocked
  }

  /** SQLite looks at the row before it checks ownership, PostgreSQL the other way round. */
  function ClaimTool(db: Db, backend: Backend, caller: OwnerId, run: RunId, call: Call, token: Option<nat>)
    : (Db, ToolClaim)
  {
    var key := (run, call.id);
    if backend == Postgres && !Owns(db, caller, run, token) then (db, LeaseLost)
    else if key in db.tools then (db, RowClaim(db.tools[key], call.name, call.input))
    else if !Owns(db, caller, run, token) then (db, LeaseLost)
    else (db.(tools := db.tools[key := Tool(call.name, call.input, ToolRunning, None, None)]), Execute)
  }

  function GetTool(db: Db, run: RunId, call: Call): Option<ToolClaim> {
    if (run, call.id) in db.tools then Some(RowClaim(db.tools[(run, call.id)], call.name, call.input)) else None
  }

  datatype Outcome = Returned(output: string) | Raised(error: string)

  /** The ledger update alone, without the ownership check: the second half of a SQLite completion or failure. */
  function FinishRow(db: Db, run: RunId, call: CallId, outcome: Outcome): (Db, bool) {
    var key := (run, call);
    if key in db.tools && db.tools[key].status == ToolRunning then
      var row := match outcome
        case Returned(output) => db.tools[key].(status := ToolCompleted, output := Some(output))
        case Raised(error) => db.tools[key].(status := ToolFailed, error := Some(Clip(error)));
      (db.(tools := db.tools[key := row]), true)
    else (db, false)
  }

  /** Check and update under one row lock, as PostgreSQL does. */
  function FinishTool(db: Db, caller: OwnerId, run: RunId, call: CallId, outcome: Outcome, token: Option<nat>)
    : (Db, bool)
  {
    if Owns(db, caller, run, token) then FinishRow(db, run, call, outcome) else (db, false)
  }

  /******* Summaries *******/

  function LatestSummary(summaries: seq<Summary>, session: SessionKey): Option<Summary> {
    if summaries == [] then None
    else
      var last := summaries[|summaries| - 1];
      var before := LatestSummary(summaries[..|summaries| - 1], session);
      if last.session == session && (before.None? || last.version > before.value.version) then Some(last) else before
  }

  predicate HasMessage(messages: seq<Message>, session: SessionKey, id: nat) {
    exists m :: m in messages && m.session == session && m.id == id
  }

  function SaveSummary(db: Db, session: SessionKey, content: string, through: nat): (Db, bool) {
    var latest := LatestSummary(db.summaries, session);
    if !HasMessage(db.messages, session, through) then (db, false)
    else if latest.Some? && through <= latest.value.through then (db, false)
    else
      var version := if latest.Some? then latest.value.version + 1 else 1;
      (db.(summaries := db.summaries + [Summary(session, version, content, through)]), true)
  }

  /******* Administration *******/

  datatype Control = Pause | Cancel | Recover

  function ControlTarget(control: Control): RunStatus {
    match control case Pause => Interrupted case Cancel => Cancelled case Recover => Interrupted
  }

  function ControlSources(control: Control): set<RunStatus> {
    match control
    case Pause => {Running, WaitingApproval}
    case Cancel => {Running, WaitingApproval, Interrupted, Failed}
    case Recover => {Failed}
  }

  datatype AdminOutcome = NotFound | AlreadyApplied | InvalidState | Succeeded | AlreadyResolved

  function ControlRun(db: Db, tenant: string, run: RunId, control: Control): (Db, AdminOutcome) {
    if run !in db.runs || db.runs[run].session.tenant != tenant then (db, NotFound)
    else
      var row := db.runs[run];
      if row.status == ControlTarget(control) then (db, AlreadyApplied)
      else if row.status !in ControlSources(control) then (db, InvalidState)
      else
        (db.(runs := db.runs[run := row.(status := ControlTarget(control), owner := None, lease := None,
                                         token := row.token + 1)]),
         Succeeded)
  }

  datatype Disposition = ConfirmedSucceeded | ConfirmedNotExecuted

  function ResolveTool(db: Db, tenant: string, run: RunId, call: CallId, disposition: Disposition, output: Option<string>)
    : (Db, AdminOutcome)
  {
    var key := (run, call);
    if key !in db.tools || run !in db.runs || db.runs[run].session.tenant != tenant then (db, NotFound)
    else if db.tools[key].status != ToolRunning then (db, AlreadyResolved)
    else
      var row := match disposition
        case ConfirmedSucceeded => db.tools[key].(status := ToolCompleted, output := output, error := None)
        case ConfirmedNotExecuted =>
          db.tools[key].(status := ToolFailed, error := Some("manually confirmed not executed"));
      (db.(tools := db.tools[key := row]), Succeeded)
  }

  /******* Retention *******/

  /** A session may be purged when it belongs to the tenant and none of its runs can continue. */
  predicate Purgeable(db: Db, tenant: string, session: SessionKey) {
    session in db.sessions && session.tenant == tenant
    && forall r :: r in db.runs && db.runs[r].session == session ==> Terminal(db.runs[r].status)
  }

  predicate OldMessage(db: Db, tenant: string, before: Time, m: Message) {
    Purgeable(db, tenant, m.session) && m.at < before
  }

  predicate OldSummary(db: Db, tenant: string, before: Time, s: Summary) {
    exists m :: m in db.messages && m.id == s.through && OldMessage(db, tenant, before, m)
  }

  predicate OldCheckpoint(db: Db, tenant: string, before: Time, c: Checkpoint) {
    c.run in db.runs && Purgeable(db, tenant, db.runs[c.run].session) && c.at < before
  }

  predicate OldAttachment(db: Db, tenant: string, before: Time, a: Attachment) {
    a.tenant == tenant && Purgeable(db, tenant, a.session) && a.at < before
  }

  function Keep<T(!new)>(rows: seq<T>, drop: T -> bool): (kept: seq<T>)
    ensures forall x :: x in kept <==> x in rows && !drop(x)
    ensures |kept| <= |rows|
  {
    if rows == [] then []
    else Keep(rows[..|rows| - 1], drop) + (if drop(rows[|rows| - 1]) then [] else [rows[|rows| - 1]])
  }

  function Purge(db: Db, tenant: string, before: Time): Db {
    db.(summaries := Keep(db.summaries, s => OldSummary(db, tenant, before, s)),
        messages := Keep(db.messages, m => OldMessage(db, tenant, before, m)),
        checkpoints := Keep(db.checkpoints, c => OldCheckpoint(db, tenant, before, c)),
        attachments := Keep(db.attachments, a => OldAttachment(db, tenant, before, a)))
  }
}
