/** The approval database as a value, and every transaction of the approval store as a function on it. */
module ApprovalSpec {
  import opened Wrappers
  import opened Blocks
  import opened StoreSpec

  datatype ApprovalStatus = Undecided | Approved | Rejected | Expired | Executing | Executed | ExecutionFailed

  /** A request with its continuation: the messages so far and the calls still to run, the gated one first.
      The argument hash is taken to be injective, so it is represented by the name and input of `call`. */
  datatype Approval = Approval(
    identity: Identity, call: Call, run: Option<RunId>, messages: seq<Block>, remaining: seq<Call>, nextTurn: nat,
    status: ApprovalStatus, expires: Time, decidedBy: Option<string>, decidedAt: Option<Time>,
    error: Option<string>, consumedAt: Option<Time>)

  datatype ApprovalDb = ApprovalDb(
    rows: map<ApprovalId, Approval>,
    events: map<string, ApprovalId>,
    links: map<(RunId, CallId), ApprovalId>)

  const NO_APPROVALS := ApprovalDb(map[], map[], map[])

  function NewApproval(identity: Identity, call: Call, run: Option<RunId>, messages: seq<Block>,
                       remaining: seq<Call>, nextTurn: nat, expires: Time): Approval
  {
    Approval(identity, call, run, messages, remaining, nextTurn, Undecided, expires, None, None, None, None)
  }

  /** At most one approval per run and call: a second request gets the first one back. */
  function Create(db: ApprovalDb, id: ApprovalId, item: Approval): (ApprovalDb, ApprovalId) {
    if item.run.Some? && (item.run.value, item.call.id) in db.links then
      (db, db.links[(item.run.value, item.call.id)])
    else
      (db.(rows := db.rows[id := item],
           links := if item.run.Some? then db.links[(item.run.value, item.call.id) := id] else db.links),
       id)
  }

  datatype ApprovalAction = Confirm | Reject

  datatype Verdict =
    | Unsupported
    | NoSuchApproval
    | Unauthorized
    | TooLate
    | EventHandled
    | AlreadyHandled
    | Accepted(action: ApprovalAction)

  predicate SameSender(a: Identity, b: Identity) {
    a.platform == b.platform && a.conversation == b.conversation && a.sender == b.sender
  }

  function WithStatus(db: ApprovalDb, id: ApprovalId, status: ApprovalStatus): ApprovalDb
    requires id in db.rows
  {
    db.(rows := db.rows[id := db.rows[id].(status := status)])
  }

  function DecideApproval(
    db: ApprovalDb, id: ApprovalId, action: Option<ApprovalAction>, identity: Identity, event: string, now: Time)
    : (ApprovalDb, Verdict)
  {
    if action.None? then (db, Unsupported)
    else if id !in db.rows then (db, NoSuchApproval)
    else if !SameSender(db.rows[id].identity, identity) then (db, Unauthorized)
    else if db.rows[id].status == Undecided && db.rows[id].expires <= now then (WithStatus(db, id, Expired), TooLate)
    else if event in db.events then (db, EventHandled)
    else if db.rows[id].status != Undecided then (db, AlreadyHandled)
    else
      var row := db.rows[id].(status := if action.value == Confirm then Approved else Rejected,
                              decidedBy := Some(identity.sender), decidedAt := Some(now));
      (db.(rows := db.rows[id := row], events := db.events[event := id]), Accepted(action.value))
  }

  predicate Lapsed(row: Approval, now: Time) {
    row.status == Undecided && row.expires <= now
  }

  function ExpirePending(db: ApprovalDb, now: Time): ApprovalDb {
    db.(rows := map id | id in db.rows ::
                  if Lapsed(db.rows[id], now) then db.rows[id].(status := Expired) else db.rows[id])
  }

  function ClaimExecution(db: ApprovalDb, id: ApprovalId): (ApprovalDb, bool) {
    if id in db.rows && db.rows[id].status == Approved then (WithStatus(db, id, Executing), true) else (db, false)
  }

  function CompleteExecution(db: ApprovalDb, id: ApprovalId): (ApprovalDb, bool) {
    if id in db.rows && db.rows[id].status == Executing then (WithStatus(db, id, Executed), true) else (db, false)
  }

  function FailExecution(db: ApprovalDb, id: ApprovalId, error: string): (ApprovalDb, bool) {
    if id in db.rows && db.rows[id].status == Executing then
      (db.(rows := db.rows[id := db.rows[id].(status := ExecutionFailed, error := Some(Clip(error)))]), true)
    else (db, false)
  }

  /** After its handler returned or raised, an executing approval is completed or failed. */
  function SettleExecution(db: ApprovalDb, id: ApprovalId, result: Outcome): ApprovalDb {
    match result
    case Returned(_) => CompleteExecution(db, id).0
    case Raised(error) => FailExecution(db, id, error).0
  }

  function MarkConsumed(db: ApprovalDb, id: ApprovalId, now: Time): (ApprovalDb, bool) {
    if id in db.rows && db.rows[id].status in {Rejected, Expired} && db.rows[id].consumedAt.None? then
      (db.(rows := db.rows[id := db.rows[id].(consumedAt := Some(now))]), true)
    else (db, false)
  }

  /** The coordinator's check that a call is the one that was approved. */
  predicate Matches(row: Approval, call: Call) {
    call.name == row.call.name && call.input == row.call.input
  }
}
