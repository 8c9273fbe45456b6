/** Whole histories of the approval store: any sequence of its transactions, by any callers, at any times. */
module ApprovalHistory {
  import opened Wrappers
  import opened Blocks
  import opened StoreSpec
  import opened ApprovalSpec

  datatype ApprovalOp =
    | Request(id: ApprovalId, item: Approval)
    | Click(id: ApprovalId, action: Option<ApprovalAction>, identity: Identity, event: string, now: Time)
    | Sweep(now: Time)
    | Begin(id: ApprovalId)
    | Succeed(id: ApprovalId)
    | Break(id: ApprovalId, error: string)
    | Consume(id: ApprovalId, now: Time)

  /** Ids are fresh uuids, and a request starts undecided. */
  function Apply(a: ApprovalDb, op: ApprovalOp): ApprovalDb {
    match op
    case Request(id, item) => if id in a.rows || !IsFresh(item) then a else Create(a, id, item).0
    case Click(id, action, identity, event, now) => DecideApproval(a, id, action, identity, event, now).0
    case Sweep(now) => ExpirePending(a, now)
    case Begin(id) => ClaimExecution(a, id).0
    case Succeed(id) => CompleteExecution(a, id).0
    case Break(id, error) => FailExecution(a, id, error).0
    case Consume(id, now) => MarkConsumed(a, id, now).0
  }

  predicate IsFresh(item: Approval) {
    item.status == Undecided && item.decidedBy.None? && item.decidedAt.None? && item.error.None? && item.consumedAt.None?
  }

  function Run(ops: seq<ApprovalOp>): ApprovalDb {
    if ops == [] then NO_APPROVALS else Apply(Run(ops[..|ops| - 1]), ops[|ops| - 1])
  }

  function From(a: ApprovalDb, ops: seq<ApprovalOp>): ApprovalDb {
    if ops == [] then a else Apply(From(a, ops[..|ops| - 1]), ops[|ops| - 1])
  }

  /******* Expiry *******/

  /** A sweep changes exactly the undecided requests whose time has come, and of these only the status; afterwards no
      request is undecided and overdue. */
  lemma SweepExpiresExactly(a: ApprovalDb, now: Time, id: ApprovalId)
    requires id in a.rows
    ensures var next := ExpirePending(a, now);
            && next == a.(rows := next.rows) && next.rows.Keys == a.rows.Keys
            && (next.rows[id] != a.rows[id] <==> a.rows[id].status == Undecided && a.rows[id].expires <= now)
            && (next.rows[id] != a.rows[id] ==> next.rows[id] == a.rows[id].(status := Expired))
            && !(next.rows[id].status == Undecided && next.rows[id].expires <= now)
  {
  }

  /** A sweep, or a click on the request, at or after a time. */
  predicate LooksAt(op: ApprovalOp, id: ApprovalId, from: Time) {
    (op.Sweep? || (op.Click? && op.id == id)) && op.now >= from
  }

  /** Over any history a request is expired only if somebody looked at it at or after its expiry. */
  lemma {:induction false} ExpiredOnlyWhenDue(ops: seq<ApprovalOp>, id: ApprovalId) returns (k: nat)
    requires id in Run(ops).rows && Run(ops).rows[id].status == Expired
    ensures k < |ops| && LooksAt(ops[k], id, Run(ops).rows[id].expires)
  {
    var front, last := ops[..|ops| - 1], ops[|ops| - 1];
    if id in Run(front).rows && Run(front).rows[id].status == Expired {
      RowStep(Run(front), last, id);
      k := ExpiredOnlyWhenDue(front, id);
      assert front[k] == ops[k];
    } else {
      k := |front|;
      ExpiryStep(Run(front), last, id);
    }
  }

  lemma ExpiryStep(a: ApprovalDb, op: ApprovalOp, id: ApprovalId)
    requires id in Apply(a, op).rows && Apply(a, op).rows[id].status == Expired
    requires !(id in a.rows && a.rows[id].status == Expired)
    ensures LooksAt(op, id, Apply(a, op).rows[id].expires)
  {
  }

  /******* The life of a request *******/

  /** What a request asks for. */
  predicate SameQuestion(a: Approval, b: Approval) {
    b == a.(status := b.status, decidedBy := b.decidedBy, decidedAt := b.decidedAt, error := b.error,
            consumedAt := b.consumedAt)
  }

  predicate Final(status: ApprovalStatus) {
    status == Rejected || status == Expired || status == Executed || status == ExecutionFailed
  }

  /** The steps a status can take: decided once, then begun once, then ended once. */
  predicate Follows(a: ApprovalStatus, b: ApprovalStatus) {
    || b == a
    || (a == Undecided && (b == Approved || b == Rejected || b == Expired))
    || (a == Approved && b == Executing)
    || (a == Executing && (b == Executed || b == ExecutionFailed))
  }

  /** One transaction moves a request at most one step on, and never changes what it asks for, who decided it and when,
      how it failed, or when it was consumed, once that is known. */
  lemma RowStep(a: ApprovalDb, op: ApprovalOp, id: ApprovalId)
    requires id in a.rows
    ensures id in Apply(a, op).rows
    ensures var before, after := a.rows[id], Apply(a, op).rows[id];
            && SameQuestion(before, after) && Follows(before.status, after.status)
            && (before.status != Undecided ==> after.decidedBy == before.decidedBy && after.decidedAt == before.decidedAt)
            && (before.status == ExecutionFailed ==> after.error == before.error)
            && (before.consumedAt.Some? ==> after.consumedAt == before.consumedAt)
            && (before.status == after.status && before.status != Rejected && before.status != Expired ==> after == before)
  {
  }

  /** Rows stay; a request that was rejected, expired, executed or failed stays so, with its error. */
  lemma {:induction false} FinalIsForever(a: ApprovalDb, ops: seq<ApprovalOp>, id: ApprovalId)
    requires id in a.rows
    ensures id in From(a, ops).rows && SameQuestion(a.rows[id], From(a, ops).rows[id])
    ensures Final(a.rows[id].status) ==> From(a, ops).rows[id].status == a.rows[id].status
    ensures a.rows[id].status == ExecutionFailed ==> From(a, ops).rows[id].error == a.rows[id].error
  {
    if ops != [] {
      FinalIsForever(a, ops[..|ops| - 1], id);
      RowStep(From(a, ops[..|ops| - 1]), ops[|ops| - 1], id);
    }
  }

  /** A click that decides a request as its sender, in time. */
  predicate DecidesInTime(op: ApprovalOp, id: ApprovalId, row: Approval, action: ApprovalAction) {
    && op.Click? && op.id == id && op.action == Some(action) && op.now < row.expires
    && op.identity.platform == row.identity.platform && op.identity.conversation == row.identity.conversation
    && op.identity.sender == row.identity.sender
    && row.decidedBy == Some(op.identity.sender) && row.decidedAt == Some(op.now)
  }

  predicate WasDecided(row: Approval) {
    row.status == Rejected || row.status == Approved || row.status == Executing || row.status == Executed
    || row.status == ExecutionFailed
  }

  /** Whatever is rejected, or agreed to in any later form, was decided so by one click of its sender before expiry. */
  lemma {:induction false} DecidedByItsSenderInTime(ops: seq<ApprovalOp>, id: ApprovalId) returns (k: nat)
    requires id in Run(ops).rows && WasDecided(Run(ops).rows[id])
    ensures k < |ops|
    ensures var row := Run(ops).rows[id];
            DecidesInTime(ops[k], id, row, if row.status == Rejected then Reject else Confirm)
  {
    var front, last := ops[..|ops| - 1], ops[|ops| - 1];
    if id in Run(front).rows && WasDecided(Run(front).rows[id]) {
      RowStep(Run(front), last, id);
      k := DecidedByItsSenderInTime(front, id);
      assert front[k] == ops[k];
    } else {
      k := |front|;
      DecisionStep(Run(front), last, id);
    }
  }

  lemma DecisionStep(a: ApprovalDb, op: ApprovalOp, id: ApprovalId)
    requires id in Apply(a, op).rows && WasDecided(Apply(a, op).rows[id])
    requires !(id in a.rows && WasDecided(a.rows[id]))
    ensures var row := Apply(a, op).rows[id];
            DecidesInTime(op, id, row, if row.status == Rejected then Reject else Confirm)
  {
  }

  /******* One event decides once *******/

  /** A transaction that decides something: a request that was undecided is approved or rejected. */
  predicate Decides(a: ApprovalDb, op: ApprovalOp, id: ApprovalId) {
    id in a.rows && a.rows[id].status == Undecided && id in Apply(a, op).rows && WasDecided(Apply(a, op).rows[id])
  }

  lemma DecisionLeavesItsEvent(a: ApprovalDb, op: ApprovalOp, id: ApprovalId)
    requires Decides(a, op, id)
    ensures op.Click? && op.event !in a.events && op.event in Apply(a, op).events
  {
  }

  lemma {:induction false} EventsStay(a: ApprovalDb, ops: seq<ApprovalOp>, event: string)
    requires event in a.events
    ensures event in From(a, ops).events
  {
    if ops != [] {
      EventsStay(a, ops[..|ops| - 1], event);
    }
  }

  /** Whatever comes in between, the same event never decides a second time, neither this request nor another. */
  lemma OneDecisionPerEvent(
    a: ApprovalDb, op: ApprovalOp, id: ApprovalId, ops: seq<ApprovalOp>, again: ApprovalOp, other: ApprovalId)
    requires Decides(a, op, id) && again.Click? && again.event == op.event
    ensures !Decides(From(Apply(a, op), ops), again, other)
  {
    DecisionLeavesItsEvent(a, op, id);
    EventsStay(Apply(a, op), ops, op.event);
    var later := From(Apply(a, op), ops);
    if Decides(later, again, other) {
      DecisionLeavesItsEvent(later, again, other);
    }
  }

  /******* One execution and one consumption *******/

  /** A request begins execution at most once, and is consumed at most once and only when nobody may execute it. */
  lemma ExecutionBeginsOnce(a: ApprovalDb, id: ApprovalId, ops: seq<ApprovalOp>)
    requires ClaimExecution(a, id).1
    ensures !ClaimExecution(From(ClaimExecution(a, id).0, ops), id).1
  {
    NeverApprovedAgain(ClaimExecution(a, id).0, ops, id);
  }

  lemma {:induction false} NeverApprovedAgain(a: ApprovalDb, ops: seq<ApprovalOp>, id: ApprovalId)
    requires id in a.rows && a.rows[id].status != Approved && a.rows[id].status != Undecided
    ensures id in From(a, ops).rows
    ensures From(a, ops).rows[id].status != Approved && From(a, ops).rows[id].status != Undecided
  {
    if ops != [] {
      NeverApprovedAgain(a, ops[..|ops| - 1], id);
      RowStep(From(a, ops[..|ops| - 1]), ops[|ops| - 1], id);
    }
  }

  lemma ConsumedOnce(a: ApprovalDb, id: ApprovalId, now: Time, ops: seq<ApprovalOp>, later: Time)
    requires MarkConsumed(a, id, now).1
    ensures a.rows[id].status == Rejected || a.rows[id].status == Expired
    ensures var next := From(MarkConsumed(a, id, now).0, ops);
            && !MarkConsumed(next, id, later).1 && id in next.rows && next.rows[id].consumedAt == Some(now)
            && !ClaimExecution(next, id).1
  {
    ConsumptionStays(MarkConsumed(a, id, now).0, ops, id, now);
  }

  lemma {:induction false} ConsumptionStays(a: ApprovalDb, ops: seq<ApprovalOp>, id: ApprovalId, now: Time)
    requires id in a.rows && (a.rows[id].status == Rejected || a.rows[id].status == Expired)
    requires a.rows[id].consumedAt == Some(now)
    ensures id in From(a, ops).rows && From(a, ops).rows[id].consumedAt == Some(now)
    ensures From(a, ops).rows[id].status == a.rows[id].status
  {
    if ops != [] {
      ConsumptionStays(a, ops[..|ops| - 1], id, now);
      RowStep(From(a, ops[..|ops| - 1]), ops[|ops| - 1], id);
    }
  }
}
