/** The approval store: its methods update rows, events and links in place. */
module ApprovalStore {
  import opened Wrappers
  import opened Blocks
  import opened StoreSpec
  import Spec = ApprovalSpec
  import opened ApprovalSpec

  class Store {
    var rows: map<ApprovalId, Approval>
    var events: map<string, ApprovalId>
    var links: map<(RunId, CallId), ApprovalId>

    ghost function Contents(): ApprovalDb
      reads this
    {
      ApprovalDb(rows, events, links)
    }

    constructor ()
      ensures Contents() == NO_APPROVALS
    {
      rows, events, links := map[], map[], map[];
    }

    method Create(id: ApprovalId, item: Approval) returns (stored: ApprovalId)
      modifies this
      ensures (Contents(), stored) == Spec.Create(old(Contents()), id, item)
    {
      if item.run.Some? && (item.run.value, item.call.id) in links {
        return links[(item.run.value, item.call.id)];
      }
      rows := rows[id := item];
      if item.run.Some? {
        links := links[(item.run.value, item.call.id) := id];
      }
      stored := id;
    }

    method Decide(id: ApprovalId, action: Option<ApprovalAction>, identity: Identity, event: string, now: Time)
      returns (verdict: Verdict)
      modifies this
      ensures (Contents(), verdict) == DecideApproval(old(Contents()), id, action, identity, event, now)
    {
      if action.None? {
        return Unsupported;
      }
      if id !in rows {
        return NoSuchApproval;
      }
      var item := rows[id];
      if (item.identity.platform, item.identity.conversation, item.identity.sender)
         != (identity.platform, identity.conversation, identity.sender) {
        return Unauthorized;
      }
      if item.status == Undecided && item.expires <= now {
        rows := rows[id := item.(status := Expired)];
        return TooLate;
      }
      if event in events {
        return EventHandled;
      }
      if item.status != Undecided {
        return AlreadyHandled;
      }
      events := events[event := id];
      var target := if action.value == Confirm then Approved else Rejected;
      rows := rows[id := item.(status := target, decidedBy := Some(identity.sender), decidedAt := Some(now))];
      verdict := Accepted(action.value);
    }

    method ExpirePending(now: Time) returns (expired: set<ApprovalId>)
      modifies this
      ensures Contents() == Spec.ExpirePending(old(Contents()), now)
      ensures expired == set id | id in old(rows) && Lapsed(old(rows)[id], now)
    {
      expired := set id | id in rows && rows[id].status == Undecided && rows[id].expires <= now;
      rows := map id | id in rows :: if id in expired then rows[id].(status := Expired) else rows[id];
    }

    method Transition(id: ApprovalId, source: ApprovalStatus, target: ApprovalStatus) returns (ok: bool)
      modifies this
      ensures ok == (id in old(rows) && old(rows)[id].status == source)
      ensures Contents() == if ok then WithStatus(old(Contents()), id, target) else old(Contents())
    {
      ok := id in rows && rows[id].status == source;
      if ok {
        rows := rows[id := rows[id].(status := target)];
      }
    }

    method ClaimExecution(id: ApprovalId) returns (ok: bool)
      modifies this
      ensures (Contents(), ok) == Spec.ClaimExecution(old(Contents()), id)
    {
      ok := Transition(id, Approved, Executing);
    }

    method Complete(id: ApprovalId) returns (ok: bool)
      modifies this
      ensures (Contents(), ok) == CompleteExecution(old(Contents()), id)
    {
      ok := Transition(id, Executing, Executed);
    }

    method Fail(id: ApprovalId, error: string) returns (ok: bool)
      modifies this
      ensures (Contents(), ok) == FailExecution(old(Contents()), id, error)
    {
      ok := id in rows && rows[id].status == Executing;
      if ok {
        rows := rows[id := rows[id].(status := ExecutionFailed, error := Some(Clip(error)))];
      }
    }

    method MarkConsumed(id: ApprovalId, now: Time) returns (ok: bool)
      modifies this
      ensures (Contents(), ok) == Spec.MarkConsumed(old(Contents()), id, now)
    {
      ok := id in rows && rows[id].status in {Rejected, Expired} && rows[id].consumedAt.None?;
      if ok {
        rows := rows[id := rows[id].(consumedAt := Some(now))];
      }
    }
  }
}
