/** The session store of one process: its methods update the shared tables in place, and each is proved to
    perform exactly one transaction of StoreSpec. */
module SessionStore {
  import opened Wrappers
  import opened RunState
  import opened Blocks
  import Spec = StoreSpec
  import opened StoreSpec

  class Store {
    const owner: OwnerId
    const backend: Backend
    const leaseSeconds: nat

    var sessions: set<SessionKey>
    var runs: map<RunId, Run>
    var inbound: map<InboundKey, Inbound>
    var messages: seq<Message>
    var nextMessage: nat
    var checkpoints: seq<Checkpoint>
    var tools: map<(RunId, CallId), Tool>
    var summaries: seq<Summary>
    var attachments: seq<Attachment>

    ghost function Contents(): Db
      reads this
    {
      Db(sessions, runs, inbound, messages, nextMessage, checkpoints, tools, summaries, attachments)
    }

    constructor (owner: OwnerId, backend: Backend, leaseSeconds: nat)
      ensures Contents() == EMPTY_DB
      ensures this.owner == owner && this.backend == backend && this.leaseSeconds == leaseSeconds
    {
      this.owner, this.backend, this.leaseSeconds := owner, backend, leaseSeconds;
      sessions, runs, inbound := {}, map[], map[];
      messages, nextMessage, checkpoints := [], 1, [];
      tools, summaries, attachments := map[], [], [];
    }

    method StartInbound(req: InboundRequest, id: RunId, now: Time) returns (start: InboundStart)
      requires id !in runs
      modifies this
      ensures (Contents(), start) == Spec.StartInbound(old(Contents()), owner, req, id, now, now + leaseSeconds)
    {
      if req.identity.Key() in inbound {
        var row := inbound[req.identity.Key()];
        return InboundStart(false, row.run, row.response);
      }
      sessions := sessions + {req.identity.Session()};
      runs := runs[id := Run(req.identity.Session(), req.identity.Key(), Running, None, Some(owner),
                             Some(now + leaseSeconds), 1)];
      inbound := inbound[req.identity.Key() := Inbound(id, req.identity.sender, None)];
      messages := messages + [Message(nextMessage, req.identity.Session(), id, "user", req.content, now)];
      nextMessage := nextMessage + 1;
      var history := History(messages, req.identity.Session(), req.recentLimit);
      checkpoints := checkpoints + [Checkpoint(id, 1, "inbound_started", req.state.(messages := history), now)];
      start := InboundStart(true, id, None);
    }

    method AssertOwner(run: RunId, token: Option<nat>) returns (ok: bool)
      ensures ok == Owns(Contents(), owner, run, token)
    {
      if run !in runs {
        return false;
      }
      var row := runs[run];
      var wanted := if token.Some? && token.value != 0 then token.value else row.token;
      ok := row.status == Running && row.owner == Some(owner) && row.token == wanted;
    }

    method SaveCheckpoint(run: RunId, phase: string, state: State, token: Option<nat>, now: Time) returns (ok: bool)
      modifies this
      ensures (Contents(), ok) == Spec.SaveCheckpoint(old(Contents()), owner, run, phase, state, token, now)
    {
      ok := AssertOwner(run, token);
      if ok {
        var sequence := MaxSequence(checkpoints, run) + 1;
        checkpoints := checkpoints + [Checkpoint(run, sequence, phase, state, now)];
      }
    }

    method TransitionRun(run: RunId, target: RunStatus, error: Option<string>, token: Option<nat>) returns (ok: bool)
      modifies this
      ensures (Contents(), ok) == Spec.TransitionRun(old(Contents()), owner, run, target, error, token)
    {
      var sources := SourcesFor(target);
      if sources == {} || run !in runs || runs[run].status !in sources {
        return false;
      }
      if token.Some? && (runs[run].owner != Some(owner) || runs[run].token != token.value) {
        return false;
      }
      runs := runs[run := runs[run].(status := target, error := ClipOption(error))];
      ok := true;
    }

    method ClaimRun(run: RunId, expected: set<RunStatus>, now: Time) returns (ok: bool)
      modifies this
      ensures (Contents(), ok) == Spec.ClaimRun(old(Contents()), owner, run, expected, now + leaseSeconds)
    {
      if run !in runs || runs[run].status !in expected {
        return false;
      }
      runs := runs[run := runs[run].(status := Running, error := None, owner := Some(owner),
                                     lease := Some(now + leaseSeconds), token := runs[run].token + 1)];
      ok := true;
    }

    method RenewRun(run: RunId, token: nat, now: Time) returns (ok: bool)
      modifies this
      ensures (Contents(), ok) == Spec.RenewRun(old(Contents()), owner, run, token, now + leaseSeconds)
    {
      ok := run in runs && runs[run].status == Running && runs[run].owner == Some(owner) && runs[run].token == token;
      if ok {
        runs := runs[run := runs[run].(lease := Some(now + leaseSeconds))];
      }
    }

    /** Without a token the current one is read first; a run of another process is left alone. */
    method RenewCurrent(run: RunId, now: Time) returns (ok: bool)
      modifies this
      ensures ok <==> run in old(runs) && old(runs)[run].status == Running && old(runs)[run].owner == Some(owner)
      ensures Contents() == if ok then Spec.RenewRun(old(Contents()), owner, run, old(runs)[run].token, now + leaseSeconds).0
                            else old(Contents())
    {
      if run !in runs || runs[run].owner != Some(owner) {
        return false;
      }
      ok := RenewRun(run, runs[run].token, now);
    }

    method CompleteRun(run: RunId, response: string, token: Option<nat>, now: Time) returns (ok: bool)
      modifies this
      ensures (Contents(), ok) == Spec.CompleteRun(old(Contents()), owner, run, response, token, now)
    {
      if run !in runs {
        return false;
      }
      var row := runs[run];
      if row.status == Completed {
        return ResponseOf(Db(sessions, runs, inbound, messages, nextMessage, checkpoints, tools, summaries, attachments),
                          run) == Some(response);
      }
      var owned := AssertOwner(run, token);
      if !owned {
        return false;
      }
      runs := runs[run := row.(status := Completed, error := None, owner := None, lease := None)];
      messages := messages + [Message(nextMessage, row.session, run, "assistant", response, now)];
      nextMessage := nextMessage + 1;
      inbound := map k | k in inbound ::
        if inbound[k].run == run then inbound[k].(response := Some(response)) else inbound[k];
      ok := true;
    }

    /** Selects the abandoned runs, then updates them one row at a time. */
    method InterruptIncomplete(now: Time) returns (interrupted: set<RunId>)
      modifies this
      ensures Contents() == Spec.InterruptIncomplete(old(Contents()), owner, now)
      ensures forall r :: r in interrupted <==> r in old(runs) && Abandoned(old(runs)[r], owner, now)
    {
      interrupted := set r | r in runs && Abandoned(runs[r], owner, now);
      var todo := interrupted;
      while todo != {}
        invariant todo <= interrupted && runs.Keys == old(runs).Keys
        invariant forall r :: r in runs ==>
                    runs[r] == if r in interrupted && r !in todo then InterruptedRow(old(runs)[r]) else old(runs)[r]
        invariant Contents() == old(Contents()).(runs := runs)
        decreases todo
      {
        var r :| r in todo;
        runs := runs[r := runs[r].(status := Interrupted, owner := None, lease := None)];
        todo := todo - {r};
      }
      assert runs == Spec.InterruptIncomplete(old(Contents()), owner, now).runs;
    }

    method ClaimTool(run: RunId, call: Call, token: Option<nat>) returns (claim: ToolClaim)
      modifies this
      ensures (Contents(), claim) == Spec.ClaimTool(old(Contents()), backend, owner, run, call, token)
    {
      var owned := AssertOwner(run, token);
      if backend == Postgres && !owned {
        return LeaseLost;
      }
      if (run, call.id) in tools {
        var row := tools[(run, call.id)];
        if row.name != call.name || row.input != call.input {
          return Conflict;
        }
        if row.status == ToolCompleted {
          return if row.output.Some? then Replay(row.output.value) else Blocked;
        }
        return if row.status == ToolRunning then Uncertain else Blocked;
      }
      if !owned {
        return LeaseLost;
      }
      tools := tools[(run, call.id) := Tool(call.name, call.input, ToolRunning, None, None)];
      claim := Execute;
    }

    /** The row update of a completion or failure; SQLite runs it outside the ownership check. */
    method FinishRow(run: RunId, call: CallId, outcome: Outcome) returns (ok: bool)
      modifies this
      ensures (Contents(), ok) == Spec.FinishRow(old(Contents()), run, call, outcome)
    {
      var key := (run, call);
      ok := key in tools && tools[key].status == ToolRunning;
      if ok {
        match outcome
        case Returned(output) => tools := tools[key := tools[key].(status := ToolCompleted, output := Some(output))];
        case Raised(error) => tools := tools[key := tools[key].(status := ToolFailed, error := Some(Clip(error)))];
      }
    }

    /** `complete_tool` and `fail_tool` without interference. */
    method FinishTool(run: RunId, call: CallId, outcome: Outcome, token: Option<nat>) returns (ok: bool)
      modifies this
      ensures (Contents(), ok) == Spec.FinishTool(old(Contents()), owner, run, call, outcome, token)
    {
      ok := AssertOwner(run, token);
      if ok {
        ok := FinishRow(run, call, outcome);
      }
    }

    method SaveSummary(session: SessionKey, content: string, through: nat) returns (ok: bool)
      modifies this
      ensures (Contents(), ok) == Spec.SaveSummary(old(Contents()), session, content, through)
    {
      var covered := exists m :: m in messages && m.session == session && m.id == through;
      if !covered {
        return false;
      }
      var latest := LatestSummary(summaries, session);
      if latest.Some? && through <= latest.value.through {
        return false;
      }
      var version := if latest.Some? then latest.value.version + 1 else 1;
      summaries := summaries + [Summary(session, version, content, through)];
      ok := true;
    }

    method ControlRun(tenant: string, run: RunId, control: Control) returns (outcome: AdminOutcome)
      modifies this
      ensures (Contents(), outcome) == Spec.ControlRun(old(Contents()), tenant, run, control)
    {
      if run !in runs || runs[run].session.tenant != tenant {
        return NotFound;
      }
      var row := runs[run];
      var target := ControlTarget(control);
      if row.status == target {
        return AlreadyApplied;
      }
      if row.status !in ControlSources(control) {
        return InvalidState;
      }
      runs := runs[run := row.(status := target, owner := None, lease := None, token := row.token + 1)];
      outcome := Succeeded;
    }

    method ResolveTool(tenant: string, run: RunId, call: CallId, disposition: Disposition, output: Option<string>)
      returns (outcome: AdminOutcome)
      modifies this
      ensures (Contents(), outcome) == Spec.ResolveTool(old(Contents()), tenant, run, call, disposition, output)
    {
      var key := (run, call);
      if key !in tools || run !in runs || runs[run].session.tenant != tenant {
        return NotFound;
      }
      if tools[key].status != ToolRunning {
        return AlreadyResolved;
      }
      if disposition == ConfirmedSucceeded {
        tools := tools[key := tools[key].(status := ToolCompleted, output := output, error := None)];
      } else {
        tools := tools[key := tools[key].(status := ToolFailed, error := Some("manually confirmed not executed"))];
      }
      outcome := Succeeded;
    }

    method DeleteSummaries(tenant: string, before: Time) returns (deleted: nat)
      modifies this`summaries
      ensures summaries == Spec.Purge(old(Contents()), tenant, before).summaries
      ensures deleted == |old(summaries)| - |summaries|
    {
      ghost var db := Contents();
      var free := FreeSessions(sessions, runs, tenant);
      var ids := set m | m in messages && m.session in free && m.at < before :: m.id;
      var drop := (s: Summary) => s.through in ids;
      SameDrop(summaries, drop, (s: Summary) => OldSummary(db, tenant, before, s));
      var kept := Keep(summaries, drop);
      deleted, summaries := |summaries| - |kept|, kept;
    }

    method DeleteMessages(tenant: string, before: Time) returns (deleted: nat)
      modifies this`messages
      ensures messages == Keep(old(messages), m => OldMessage(old(Contents()), tenant, before, m))
      ensures deleted == |old(messages)| - |messages|
    {
      ghost var db := Contents();
      var free := FreeSessions(sessions, runs, tenant);
      var drop := (m: Message) => m.session in free && m.at < before;
      SameDrop(messages, drop, (m: Message) => OldMessage(db, tenant, before, m));
      var kept := Keep(messages, drop);
      deleted, messages := |messages| - |kept|, kept;
    }

    method DeleteCheckpoints(tenant: string, before: Time) returns (deleted: nat)
      modifies this`checkpoints
      ensures checkpoints == Keep(old(checkpoints), c => OldCheckpoint(old(Contents()), tenant, before, c))
      ensures deleted == |old(checkpoints)| - |checkpoints|
    {
      ghost var db := Contents();
      var free, rows := FreeSessions(sessions, runs, tenant), runs;
      var drop := (c: Checkpoint) => c.run in rows && rows[c.run].session in free && c.at < before;
      SameDrop(checkpoints, drop, (c: Checkpoint) => OldCheckpoint(db, tenant, before, c));
      var kept := Keep(checkpoints, drop);
      deleted, checkpoints := |checkpoints| - |kept|, kept;
    }

    method DeleteAttachments(tenant: string, before: Time) returns (deleted: nat)
      modifies this`attachments
      ensures attachments == Keep(old(attachments), a => OldAttachment(old(Contents()), tenant, before, a))
      ensures deleted == |old(attachments)| - |attachments|
    {
      ghost var db := Contents();
      var free := FreeSessions(sessions, runs, tenant);
      var drop := (a: Attachment) => a.tenant == tenant && a.session in free && a.at < before;
      SameDrop(attachments, drop, (a: Attachment) => OldAttachment(db, tenant, before, a));
      var kept := Keep(attachments, drop);
      deleted, attachments := |attachments| - |kept|, kept;
    }

    /** Four deletes in foreign-key order; each looks at the tables the earlier ones left. */
    method Purge(tenant: string, before: Time)
      returns (summariesDeleted: nat, messagesDeleted: nat, checkpointsDeleted: nat, attachmentsDeleted: nat)
      modifies this
      ensures Contents() == Spec.Purge(old(Contents()), tenant, before)
      ensures summariesDeleted == |old(summaries)| - |summaries|
      ensures messagesDeleted == |old(messages)| - |messages|
      ensures checkpointsDeleted == |old(checkpoints)| - |checkpoints|
      ensures attachmentsDeleted == |old(attachments)| - |attachments|
    {
      ghost var db := Contents();
      summariesDeleted := DeleteSummaries(tenant, before);
      ghost var db1 := Contents();
      messagesDeleted := DeleteMessages(tenant, before);
      ghost var db2 := Contents();
      SameDrop(db.messages, (m: Message) => OldMessage(db1, tenant, before, m), (m: Message) => OldMessage(db, tenant, before, m));
      checkpointsDeleted := DeleteCheckpoints(tenant, before);
      ghost var db3 := Contents();
      SameDrop(db.checkpoints, (c: Checkpoint) => OldCheckpoint(db2, tenant, before, c),
               (c: Checkpoint) => OldCheckpoint(db, tenant, before, c));
      attachmentsDeleted := DeleteAttachments(tenant, before);
      SameDrop(db.attachments, (a: Attachment) => OldAttachment(db3, tenant, before, a),
               (a: Attachment) => OldAttachment(db, tenant, before, a));
    }
  }

  /** The sessions a purge may touch. */
  function FreeSessions(sessions: set<SessionKey>, runs: map<RunId, Run>, tenant: string): (free: set<SessionKey>)
    ensures forall db: Db, s: SessionKey :: db.sessions == sessions && db.runs == runs ==>
              (s in free <==> Purgeable(db, tenant, s))
  {
    set s | s in sessions && s.tenant == tenant
            && forall r :: r in runs && runs[r].session == s ==> Terminal(runs[r].status)
  }

  /** Filters that drop the same rows agree. */
  lemma {:induction false} SameDrop<T(!new)>(rows: seq<T>, drop: T -> bool, drop': T -> bool)
    requires forall x :: x in rows ==> drop(x) == drop'(x)
    ensures Keep(rows, drop) == Keep(rows, drop')
  {
    if rows != [] {
      SameDrop(rows[..|rows| - 1], drop, drop');
    }
  }
}
