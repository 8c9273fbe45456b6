/** A call that requires approval enters its handler only after exactly one confirmation by its original sender
    before expiry, and only under its own approval. */
module ApprovalGate {
  import opened Wrappers
  import opened RunState
  import opened Blocks
  import opened StoreSpec
  import opened StoreHistory
  import opened StoreInvariants
  import opened ApprovalSpec
  import opened Protocol
  import opened AtMostOnce
  import opened Cursor
  import opened RunIdentity

  /** Reached only through an execution claim. */
  predicate Ran(status: ApprovalStatus) {
    status == Executing || status == Executed || status == ExecutionFailed
  }

  /** Reached only through a confirmation. */
  predicate Agreed(status: ApprovalStatus) {
    status == Approved || Ran(status)
  }

  function Confirmations(log: seq<Event>, id: ApprovalId): nat {
    if log == [] then 0
    else
      var last := log[|log| - 1];
      Confirmations(log[..|log| - 1], id) + (if last.Confirmed? && last.approval == id then 1 else 0)
  }

  lemma OneMoreEvent(log: seq<Event>, e: Event, id: ApprovalId)
    ensures Confirmations(log + [e], id) == Confirmations(log, id) + (if e.Confirmed? && e.approval == id then 1 else 0)
  {
    assert (log + [e])[..|log|] == log;
  }

  /** The approval under which a worker executes a call, from its execution claim until it settled it. */
  function ViaOf(pc: Pc): Option<ApprovalId> {
    match pc
    case Invoking(_, _, via) => via
    case Entering(_, _, via) => via
    case InHandler(_, _, via) => via
    case Recording(_, _, via, _, _) => via
    case Settling(_, _, id, _, _) => Some(id)
    case _ => None
  }

  predicate Executes(pc: Pc) {
    pc.Invoking? || pc.Entering? || pc.InHandler? || pc.Recording?
  }

  /** The ledger has the call of an approval as completed. */
  predicate OnRecord(db: Db, row: Approval) {
    row.run.Some? && (row.run.value, row.call.id) in db.tools
    && db.tools[(row.run.value, row.call.id)].status == ToolCompleted
  }

  /** The approval is executing, or someone completed it on the strength of a completed ledger row. */
  predicate Open(s: Shared, id: ApprovalId)
    requires id in s.approvals.rows
  {
    var row := s.approvals.rows[id];
    row.status == Executing || (row.status == Executed && OnRecord(s.db, row))
  }

  predicate PcGated(cfg: Config, s: Shared, pc: Pc) {
    && (Executes(pc) && pc.todo != [] ==> cfg.policy(pc.todo[0]) == if pc.via.None? then Allow else RequireApproval)
    && (ViaOf(pc).Some? ==>
          var id := ViaOf(pc).value;
          WaitsAt(s.approvals, id, pc.ctx.run, pc.todo) && Ran(s.approvals.rows[id].status))
    && ((pc.Invoking? || pc.Entering?) && pc.via.Some? ==> Open(s, pc.via.value))
  }

  /** What every entry into a handler satisfies; `before` is the log up to it. */
  predicate EntryOk(cfg: Config, s: Shared, before: seq<Event>, e: Event)
    requires e.Entered?
  {
    && (e.run, e.call.id) in s.issued && s.issued[(e.run, e.call.id)] != []
    && s.issued[(e.run, e.call.id)][0] == e.call
    && (if e.via.None? then cfg.policy(e.call) == Allow
        else
          var id := e.via.value;
          && cfg.policy(e.call) == RequireApproval
          && id in s.approvals.rows && s.approvals.rows[id].run == Some(e.run) && s.approvals.rows[id].call == e.call
          && Ran(s.approvals.rows[id].status)
          && Confirmations(before, id) == 1
          && (e.gate == Some(Executing) || (e.gate == Some(Executed) && e.row == ToolCompleted)))
  }

  predicate LogOk(cfg: Config, s: Shared) {
    && (forall k :: 0 <= k < |s.log| && s.log[k].Entered? ==> EntryOk(cfg, s, s.log[..k], s.log[k]))
    && (forall e :: e in s.log && e.Confirmed? ==>
          e.approval in s.approvals.rows
          && SameSender(s.approvals.rows[e.approval].identity, e.identity)
          && e.at < s.approvals.rows[e.approval].expires)
  }

  /** An approval was confirmed exactly once if its status says so, and never otherwise. */
  ghost predicate CountsOk(s: Shared) {
    forall id :: Confirmations(s.log, id)
      == if id in s.approvals.rows && Agreed(s.approvals.rows[id].status) then 1 else 0
  }

  /** One approval per run and call, for calls that require one. */
  predicate LinksOk(cfg: Config, approvals: ApprovalDb) {
    forall id :: id in approvals.rows ==>
      var row := approvals.rows[id];
      && row.run.Some? && (row.run.value, row.call.id) in approvals.links
      && approvals.links[(row.run.value, row.call.id)] == id
      && cfg.policy(row.call) == RequireApproval && cfg.approvals
  }

  ghost predicate GateInv(cfg: Config, w: World) {
    && LogOk(cfg, w.shared) && CountsOk(w.shared) && LinksOk(cfg, w.shared.approvals)
    && WorkersGated(cfg, w.shared, w.workers) && Apart(w.workers)
  }

  /******* One step *******/

  /** Rows keep their request; being agreed to and having run are kept; new rows are undecided. */
  predicate Progress(a: ApprovalDb, b: ApprovalDb) {
    && (forall id :: id in a.rows ==>
          && id in b.rows && SameRequest(a.rows[id], b.rows[id])
          && (Agreed(a.rows[id].status) <==> Agreed(b.rows[id].status))
          && (Ran(a.rows[id].status) ==> Ran(b.rows[id].status))
          && (a.rows[id].status == Executed ==> b.rows[id].status == Executed))
    && (forall id :: id in b.rows && id !in a.rows ==> b.rows[id].status == Undecided)
  }

  /** Approvals leave `Executing` only in the hands of their executor, or on record. */
  predicate LeavesFairly(s: Shared, pc: Pc, next: Shared) {
    forall id :: id in s.approvals.rows && s.approvals.rows[id].status == Executing && id in next.approvals.rows
                 && next.approvals.rows[id].status != Executing ==>
      ViaOf(pc) == Some(id) || (next.approvals.rows[id].status == Executed && OnRecord(s.db, s.approvals.rows[id]))
  }

  predicate ViaMove(s: Shared, pc: Pc, pc': Pc) {
    ViaOf(pc') == None || ViaOf(pc') == ViaOf(pc)
    || (ViaOf(pc').value in s.approvals.rows && s.approvals.rows[ViaOf(pc').value].status == Approved)
  }

  predicate LedgerGrows(db: Db, next: Db) {
    forall key :: key in db.tools && db.tools[key].status == ToolCompleted ==>
      key in next.tools && next.tools[key].status == ToolCompleted
  }

  ghost predicate LogMove(cfg: Config, s: Shared, next: Shared) {
    next.log == s.log || exists e: Event :: next.log == s.log + [e] && e.Entered? && EntryOk(cfg, next, s.log, e)
  }

  ghost predicate GateMove(cfg: Config, s: Shared, pc: Pc, next: Shared, pc': Pc) {
    && Grows(s, next) && Progress(s.approvals, next.approvals) && LinksOk(cfg, next.approvals)
    && LeavesFairly(s, pc, next) && ViaMove(s, pc, pc') && LedgerGrows(s.db, next.db)
    && LogMove(cfg, s, next) && PcGated(cfg, next, pc')
  }

  lemma EntriesStayOk(cfg: Config, s: Shared, next: Shared, before: seq<Event>, e: Event)
    requires e.Entered? && EntryOk(cfg, s, before, e) && Grows(s, next) && Progress(s.approvals, next.approvals)
    ensures EntryOk(cfg, next, before, e)
  {
  }

  lemma CountsStayOk(cfg: Config, s: Shared, next: Shared)
    requires CountsOk(s) && Progress(s.approvals, next.approvals) && LogMove(cfg, s, next)
    ensures CountsOk(next)
  {
    forall id
      ensures Confirmations(next.log, id)
           == if id in next.approvals.rows && Agreed(next.approvals.rows[id].status) then 1 else 0
    {
      if next.log != s.log {
        var e: Event :| next.log == s.log + [e] && e.Entered?;
        OneMoreEvent(s.log, e, id);
      }
      assert Confirmations(s.log, id) == if id in s.approvals.rows && Agreed(s.approvals.rows[id].status) then 1 else 0;
    }
  }

  lemma OldEntriesStayOk(cfg: Config, s: Shared, next: Shared, k: nat)
    requires LogOk(cfg, s) && Grows(s, next) && Progress(s.approvals, next.approvals)
    requires s.log <= next.log && k < |s.log| && s.log[k].Entered?
    ensures EntryOk(cfg, next, next.log[..k], next.log[k])
  {
    assert next.log[..k] == s.log[..k];
    EntriesStayOk(cfg, s, next, s.log[..k], s.log[k]);
  }

  lemma LogStaysOk(cfg: Config, s: Shared, next: Shared)
    requires LogOk(cfg, s) && Grows(s, next) && Progress(s.approvals, next.approvals) && LogMove(cfg, s, next)
    ensures LogOk(cfg, next)
  {
    forall k | 0 <= k < |next.log| && next.log[k].Entered?
      ensures EntryOk(cfg, next, next.log[..k], next.log[k])
    {
      if k < |s.log| {
        OldEntriesStayOk(cfg, s, next, k);
      } else {
        var e: Event :| next.log == s.log + [e] && e.Entered? && EntryOk(cfg, next, s.log, e);
        assert next.log[..k] == s.log && next.log[k] == e;
      }
    }
    forall e | e in next.log && e.Confirmed?
      ensures e.approval in next.approvals.rows
           && SameSender(next.approvals.rows[e.approval].identity, e.identity)
           && e.at < next.approvals.rows[e.approval].expires
    {
      assert e in s.log;
    }
  }

  lemma OthersStayGated(cfg: Config, s: Shared, pc: Pc, next: Shared, other: Pc)
    requires Grows(s, next) && Progress(s.approvals, next.approvals)
    requires LeavesFairly(s, pc, next) && LedgerGrows(s.db, next.db)
    requires ViaOf(other).Some? ==> ViaOf(other) != ViaOf(pc)
    requires PcGated(cfg, s, other)
    ensures PcGated(cfg, next, other)
  {
  }

  predicate WorkersGated(cfg: Config, s: Shared, workers: map<WorkerId, Worker>) {
    forall id :: id in workers ==> PcGated(cfg, s, workers[id].pc)
  }

  /** No two workers execute under the same approval. */
  predicate Apart(workers: map<WorkerId, Worker>) {
    forall a, b :: a in workers && b in workers && a != b && ViaOf(workers[a].pc).Some? ==>
      ViaOf(workers[a].pc) != ViaOf(workers[b].pc)
  }

  lemma WorkersStayGated(cfg: Config, s: Shared, workers: map<WorkerId, Worker>, worker: WorkerId, next: Shared, pc: Pc)
    requires WorkersGated(cfg, s, workers) && Apart(workers) && worker in workers
    requires Grows(s, next) && Progress(s.approvals, next.approvals) && LeavesFairly(s, workers[worker].pc, next)
    requires ViaMove(s, workers[worker].pc, pc) && LedgerGrows(s.db, next.db) && PcGated(cfg, next, pc)
    ensures var workers' := workers[worker := Worker(workers[worker].owner, pc)];
            WorkersGated(cfg, next, workers') && Apart(workers')
  {
    forall id | id in workers && id != worker
      ensures PcGated(cfg, next, workers[id].pc)
      ensures ViaOf(workers[id].pc).Some? ==> ViaOf(workers[id].pc) != ViaOf(pc)
    {
      var other := workers[id].pc;
      assert PcGated(cfg, s, other);
      assert ViaOf(other).Some? ==> ViaOf(other) != ViaOf(workers[worker].pc);
      OthersStayGated(cfg, s, workers[worker].pc, next, other);
    }
  }

  lemma GateFrame(cfg: Config, w: World, worker: WorkerId, next: Shared, pc: Pc)
    requires GateInv(cfg, w) && worker in w.workers
    requires GateMove(cfg, w.shared, w.workers[worker].pc, next, pc)
    ensures GateInv(cfg, World(next, w.workers[worker := Worker(w.workers[worker].owner, pc)]))
  {
    LogStaysOk(cfg, w.shared, next);
    CountsStayOk(cfg, w.shared, next);
    WorkersStayGated(cfg, w.shared, w.workers, worker, next, pc);
  }

  /** A step that leaves approvals and log alone. */
  lemma PlainMove(cfg: Config, s: Shared, pc: Pc, next: Shared, pc': Pc)
    requires LinksOk(cfg, s.approvals)
    requires next.approvals == s.approvals && next.issued == s.issued && next.log == s.log
    requires LedgerGrows(s.db, next.db) && (ViaOf(pc') == None || ViaOf(pc') == ViaOf(pc))
    requires PcGated(cfg, next, pc')
    ensures GateMove(cfg, s, pc, next, pc')
  {
  }

  /** A step that changes statuses only, and leaves the worker outside any execution. */
  lemma StatusMove(cfg: Config, s: Shared, pc: Pc, approvals: ApprovalDb, pc': Pc)
    requires Grows(s, s.(approvals := approvals)) && Progress(s.approvals, approvals) && LinksOk(cfg, approvals)
    requires LeavesFairly(s, pc, s.(approvals := approvals)) && ViaOf(pc') == None && !Executes(pc')
    ensures GateMove(cfg, s, pc, s.(approvals := approvals), pc')
  {
  }

  lemma CreateIsProgress(cfg: Config, s: Shared, item: Approval, id: ApprovalId)
    requires LinksOk(cfg, s.approvals) && id !in s.approvals.rows && item.run.Some?
    requires item.status == Undecided && cfg.policy(item.call) == RequireApproval && cfg.approvals
    ensures var approvals := Create(s.approvals, id, item).0;
            && Grows(s, s.(approvals := approvals)) && Progress(s.approvals, approvals) && LinksOk(cfg, approvals)
            && forall a :: a in s.approvals.rows ==> approvals.rows[a] == s.approvals.rows[a]
  {
  }

  lemma DecideGated(cfg: Config, s: Shared, ctx: Ctx, todo: seq<Call>, i: Input)
    requires LinksOk(cfg, s.approvals) && todo != []
    ensures var (next, pc) := DecideCall(cfg, s, ctx, todo, i);
            GateMove(cfg, s, Calls(ctx, todo), next, pc)
  {
    if cfg.policy(todo[0]) == RequireApproval && cfg.approvals && ctx.identity.Some? && i.id !in s.approvals.rows {
      var item := NewApproval(ctx.identity.value, todo[0], Some(ctx.run), ctx.msgs, todo, ctx.turn, i.expires);
      CreateIsProgress(cfg, s, item, i.id);
    } else {
      var (next, pc) := DecideCall(cfg, s, ctx, todo, i);
      PlainMove(cfg, s, Calls(ctx, todo), next, pc);
    }
  }

  /** A status change of one approval. */
  lemma StatusIsProgress(cfg: Config, s: Shared, id: ApprovalId, row: Approval)
    requires LinksOk(cfg, s.approvals) && id in s.approvals.rows && SameRequest(s.approvals.rows[id], row)
    requires Agreed(s.approvals.rows[id].status) <==> Agreed(row.status)
    requires Ran(s.approvals.rows[id].status) ==> Ran(row.status)
    requires s.approvals.rows[id].status == Executed ==> row.status == Executed
    ensures var approvals := s.approvals.(rows := s.approvals.rows[id := row]);
            Grows(s, s.(approvals := approvals)) && Progress(s.approvals, approvals) && LinksOk(cfg, approvals)
  {
  }

  /** What the transactions of a resume do to the approvals. */
  lemma ResumeIsProgress(cfg: Config, s: Shared, id: ApprovalId, now: Time)
    requires LinksOk(cfg, s.approvals) && id in s.approvals.rows
    ensures forall approvals :: approvals in {s.approvals, ClaimExecution(s.approvals, id).0,
                                              CompleteExecution(s.approvals, id).0, MarkConsumed(s.approvals, id, now).0} ==>
              Grows(s, s.(approvals := approvals)) && Progress(s.approvals, approvals) && LinksOk(cfg, approvals)
  {
    var row := s.approvals.rows[id];
    if row.status == Approved { StatusIsProgress(cfg, s, id, row.(status := Executing)); }
    if row.status == Executing { StatusIsProgress(cfg, s, id, row.(status := Executed)); }
    if row.status == Rejected || row.status == Expired { StatusIsProgress(cfg, s, id, row.(consumedAt := Some(now))); }
  }

  lemma ResumeIsFair(
    cfg: Config, s: Shared, ctx: Ctx, todo: seq<Call>, id: ApprovalId, status: ApprovalStatus, i: Input)
    requires todo != [] && WaitsAt(s.approvals, id, ctx.run, todo) && s.approvals.rows[id].call == todo[0]
    ensures LeavesFairly(s, Resuming(ctx, todo, id, status), ResumeRequest(cfg, s, ctx, todo, id, status, i).0)
  {
  }

  lemma ResumePc(
    cfg: Config, s: Shared, ctx: Ctx, todo: seq<Call>, id: ApprovalId, status: ApprovalStatus, i: Input)
    requires todo != [] && WaitsAt(s.approvals, id, ctx.run, todo)
    ensures var (next, pc) := ResumeRequest(cfg, s, ctx, todo, id, status, i);
            ViaMove(s, Resuming(ctx, todo, id, status), pc) && PcGated(cfg, next, pc)
  {
  }

  lemma ResumeGated(
    cfg: Config, s: Shared, ctx: Ctx, todo: seq<Call>, id: ApprovalId, status: ApprovalStatus, i: Input)
    requires LinksOk(cfg, s.approvals) && ApprovalsOk(s.issued, s.approvals)
    requires todo != [] && WaitsAt(s.approvals, id, ctx.run, todo)
    ensures var (next, pc) := ResumeRequest(cfg, s, ctx, todo, id, status, i);
            GateMove(cfg, s, Resuming(ctx, todo, id, status), next, pc)
  {
    assert RowOk(s.issued, s.approvals.rows[id]);
    ResumeIsProgress(cfg, s, id, i.now);
    ResumeChangesStatus(cfg, s, ctx, todo, id, status, i);
    ResumeIsFair(cfg, s, ctx, todo, id, status, i);
    ResumePc(cfg, s, ctx, todo, id, status, i);
  }

  lemma SettleIsProgress(cfg: Config, s: Shared, id: ApprovalId, error: string)
    requires LinksOk(cfg, s.approvals) && id in s.approvals.rows
    ensures forall approvals :: approvals in {CompleteExecution(s.approvals, id).0, FailExecution(s.approvals, id, error).0} ==>
              Grows(s, s.(approvals := approvals)) && Progress(s.approvals, approvals) && LinksOk(cfg, approvals)
  {
    var row := s.approvals.rows[id];
    if row.status == Executing {
      StatusIsProgress(cfg, s, id, row.(status := Executed));
      StatusIsProgress(cfg, s, id, row.(status := ExecutionFailed, error := Some(Clip(error))));
    } else {
      StatusIsProgress(cfg, s, id, row);
      assert s.approvals.(rows := s.approvals.rows[id := row]) == s.approvals;
    }
  }

  lemma SettleIsFair(s: Shared, ctx: Ctx, todo: seq<Call>, id: ApprovalId, result: Outcome, answer: string)
    ensures LeavesFairly(s, Settling(ctx, todo, id, result, answer),
                         s.(approvals := SettleExecution(s.approvals, id, result)))
  {
  }

  lemma SettleGated(
    cfg: Config, s: Shared, ctx: Ctx, todo: seq<Call>, id: ApprovalId, result: Outcome, answer: string)
    requires LinksOk(cfg, s.approvals) && id in s.approvals.rows && todo != []
    ensures GateMove(cfg, s, Settling(ctx, todo, id, result, answer),
                     s.(approvals := SettleExecution(s.approvals, id, result)),
                     Answered(Answer(ctx, todo[0], answer), todo[1..], "after_approval"))
  {
    SettleIsProgress(cfg, s, id, if result.Raised? then result.error else "");
    SettleIsFair(s, ctx, todo, id, result, answer);
    StatusMove(cfg, s, Settling(ctx, todo, id, result, answer), SettleExecution(s.approvals, id, result),
               Answered(Answer(ctx, todo[0], answer), todo[1..], "after_approval"));
  }

  lemma FinishedGated(cfg: Config, s: Shared, pc: Pc, result: Outcome)
    requires Executes(pc) && pc.todo != [] && PcGated(cfg, s, pc)
    ensures PcGated(cfg, s, Finished(pc.ctx, pc.todo, pc.via, result))
    ensures ViaOf(Finished(pc.ctx, pc.todo, pc.via, result)) == pc.via
  {
  }

  lemma ClaimGrowsLedger(db: Db, backend: Backend, owner: OwnerId, run: RunId, call: Call, token: Option<nat>)
    ensures LedgerGrows(db, ClaimTool(db, backend, owner, run, call, token).0)
  {
  }

  /** Writes to the ledger do not unsettle who may execute. */
  lemma LedgerKeepsGated(cfg: Config, s: Shared, db: Db, pc: Pc)
    requires LedgerGrows(s.db, db) && PcGated(cfg, s, pc)
    ensures PcGated(cfg, s.(db := db), pc)
  {
  }

  lemma InvokeGated(
    cfg: Config, s: Shared, owner: OwnerId, ctx: Ctx, todo: seq<Call>, via: Option<ApprovalId>, i: Input)
    requires LinksOk(cfg, s.approvals) && ApprovalsOk(s.issued, s.approvals)
    requires PcGated(cfg, s, Invoking(ctx, todo, via)) && todo != []
    ensures var (next, pc) := Invoke(cfg, s, owner, ctx, todo, via, i);
            GateMove(cfg, s, Invoking(ctx, todo, via), next, pc)
  {
    var before := Invoking(ctx, todo, via);
    var (next, pc) := Invoke(cfg, s, owner, ctx, todo, via, i);
    var (db, claim) := ClaimTool(s.db, cfg.backend, owner, ctx.run, todo[0], Some(ctx.token));
    ClaimGrowsLedger(s.db, cfg.backend, owner, ctx.run, todo[0], Some(ctx.token));
    LedgerKeepsGated(cfg, s, db, before);
    FinishedGated(cfg, s, before, Raised("Run lease lost"));
    if claim != Execute {
      FinishedGated(cfg, s.(db := db), before, ClaimResult(claim));
    }
    PlainMove(cfg, s, before, next, pc);
  }

  lemma EnterGated(cfg: Config, s: Shared, ctx: Ctx, todo: seq<Call>, via: Option<ApprovalId>)
    requires LinksOk(cfg, s.approvals) && ApprovalsOk(s.issued, s.approvals) && CountsOk(s) && IssuedOk(s.issued)
    requires PcGated(cfg, s, Entering(ctx, todo, via)) && todo != [] && TailOk(s.issued, ctx.run, todo)
    ensures var (next, pc) := Enter(s, ctx, todo, via);
            GateMove(cfg, s, Entering(ctx, todo, via), next, pc)
  {
    var (next, pc) := Enter(s, ctx, todo, via);
    var e := next.log[|s.log|];
    assert next == s.(log := s.log + [e]);
    EnteredIsOk(cfg, s, ctx, todo, via, e);
    EntryMove(cfg, s, Entering(ctx, todo, via), e, InHandler(ctx, todo, via));
  }

  /** A step that does nothing but log an entry. */
  lemma EntryMove(cfg: Config, s: Shared, pc: Pc, e: Event, pc': Pc)
    requires LinksOk(cfg, s.approvals) && e.Entered? && EntryOk(cfg, s, s.log, e)
    requires ViaOf(pc') == ViaOf(pc) && PcGated(cfg, s, pc) && pc.Entering? && pc' == InHandler(pc.ctx, pc.todo, pc.via)
    ensures GateMove(cfg, s, pc, s.(log := s.log + [e]), pc')
  {
    var next := s.(log := s.log + [e]);
    assert Grows(s, next) && Progress(s.approvals, next.approvals);
    EntriesStayOk(cfg, s, next, s.log, e);
  }

  /** The event of an entry, judged by the state it finds. */
  lemma EnteredIsOk(cfg: Config, s: Shared, ctx: Ctx, todo: seq<Call>, via: Option<ApprovalId>, e: Event)
    requires ApprovalsOk(s.issued, s.approvals) && CountsOk(s) && IssuedOk(s.issued)
    requires PcGated(cfg, s, Entering(ctx, todo, via)) && todo != [] && TailOk(s.issued, ctx.run, todo)
    requires Enter(s, ctx, todo, via).0.log == s.log + [e]
    ensures e.Entered? && EntryOk(cfg, s, s.log, e)
  {
    assert (s.log + [e])[|s.log|] == e && Enter(s, ctx, todo, via).0.log[|s.log|] == e;
    if via.Some? {
      assert RowOk(s.issued, s.approvals.rows[via.value]);
    }
  }

  lemma RecordGated(
    cfg: Config, s: Shared, owner: OwnerId, ctx: Ctx, todo: seq<Call>, via: Option<ApprovalId>, outcome: Outcome,
    checked: bool, i: Input)
    requires LinksOk(cfg, s.approvals) && PcGated(cfg, s, Recording(ctx, todo, via, outcome, checked)) && todo != []
    ensures var (next, pc) := RecordOutcome(cfg, s, owner, ctx, todo, via, outcome, checked, i);
            GateMove(cfg, s, Recording(ctx, todo, via, outcome, checked), next, pc)
  {
    var before := Recording(ctx, todo, via, outcome, checked);
    if !checked && (!Owns(s.db, owner, ctx.run, Some(ctx.token)) || cfg.backend == Sqlite) {
      FinishedGated(cfg, s, before, Raised("Run lease lost"));
      PlainMove(cfg, s, before, s, RecordOutcome(cfg, s, owner, ctx, todo, via, outcome, checked, i).1);
    } else {
      var (db, ok) := FinishRow(s.db, ctx.run, todo[0].id, outcome);
      var result := RecordedResult(todo[0].id, outcome, ok, i.flag);
      assert LedgerGrows(s.db, db);
      LedgerKeepsGated(cfg, s, db, before);
      FinishedGated(cfg, s.(db := db), before, result);
      PlainMove(cfg, s, before, s.(db := db), Finished(ctx, todo, via, result));
    }
  }

  /** The steps that concern neither approvals nor handlers. */
  predicate Ungated(pc: Pc) {
    !pc.Calls? && !pc.Resuming? && !pc.Invoking? && !pc.Entering? && !pc.InHandler? && !pc.Recording? && !pc.Settling?
  }

  lemma UngatedShared(cfg: Config, s: Shared, owner: OwnerId, pc: Pc, i: Input)
    requires Ungated(pc)
    ensures var next := Advance(cfg, s, owner, pc, i).0;
            next.approvals == s.approvals && next.log == s.log && next.db.tools == s.db.tools
  {
  }

  lemma UngatedPc(cfg: Config, s: Shared, owner: OwnerId, pc: Pc, i: Input)
    requires Ungated(pc)
    ensures ViaOf(Advance(cfg, s, owner, pc, i).1) == None && !Executes(Advance(cfg, s, owner, pc, i).1)
  {
  }

  lemma UngatedMove(cfg: Config, s: Shared, owner: OwnerId, pc: Pc, i: Input)
    requires SharedOk(s) && PcOk(s.issued, s.approvals, pc) && LinksOk(cfg, s.approvals) && Ungated(pc)
    ensures GateMove(cfg, s, pc, Advance(cfg, s, owner, pc, i).0, Advance(cfg, s, owner, pc, i).1)
  {
    UngatedShared(cfg, s, owner, pc, i);
    UngatedPc(cfg, s, owner, pc, i);
    WorkerKeeps(cfg, s, owner, pc, Next(i));
    assert MoveWorker(cfg, s, owner, pc, Next(i)) == Advance(cfg, s, owner, pc, i);
  }

  lemma EmptyMove(cfg: Config, s: Shared, owner: OwnerId, pc: Pc, i: Input)
    requires !Ungated(pc) && pc.todo == []
    ensures Advance(cfg, s, owner, pc, i).0 == s
    ensures var pc' := Advance(cfg, s, owner, pc, i).1;
            (ViaOf(pc') == None && !Executes(pc')) || (pc.InHandler? && pc' == Recording(pc.ctx, [], pc.via, i.outcome, false))
  {
  }

  /** The steps that create, resume and settle approvals. */
  lemma ApprovalMove(cfg: Config, s: Shared, owner: OwnerId, pc: Pc, i: Input)
    requires SharedOk(s) && PcOk(s.issued, s.approvals, pc) && LinksOk(cfg, s.approvals) && PcGated(cfg, s, pc)
    requires (pc.Calls? || pc.Resuming? || pc.Settling?) && pc.todo != []
    ensures GateMove(cfg, s, pc, Advance(cfg, s, owner, pc, i).0, Advance(cfg, s, owner, pc, i).1)
  {
    match pc
    case Calls(ctx, todo) => DecideGated(cfg, s, ctx, todo, i);
    case Resuming(ctx, todo, id, status) => ResumeGated(cfg, s, ctx, todo, id, status, i);
    case Settling(ctx, todo, id, result, answer) => SettleGated(cfg, s, ctx, todo, id, result, answer);
  }

  /** The steps around a handler. */
  lemma HandlerMove(cfg: Config, s: Shared, owner: OwnerId, pc: Pc, i: Input)
    requires SharedOk(s) && PcOk(s.issued, s.approvals, pc)
    requires LinksOk(cfg, s.approvals) && CountsOk(s) && PcGated(cfg, s, pc)
    requires Executes(pc) && pc.todo != []
    ensures GateMove(cfg, s, pc, Advance(cfg, s, owner, pc, i).0, Advance(cfg, s, owner, pc, i).1)
  {
    match pc
    case Invoking(ctx, todo, via) => InvokeGated(cfg, s, owner, ctx, todo, via, i);
    case Entering(ctx, todo, via) => EnterGated(cfg, s, ctx, todo, via);
    case InHandler(ctx, todo, via) => PlainMove(cfg, s, pc, s, Recording(ctx, todo, via, i.outcome, false));
    case Recording(ctx, todo, via, outcome, checked) => RecordGated(cfg, s, owner, ctx, todo, via, outcome, checked, i);
  }

  /** The steps of a worker with a call at hand. */
  lemma HeadMove(cfg: Config, s: Shared, owner: OwnerId, pc: Pc, i: Input)
    requires SharedOk(s) && PcOk(s.issued, s.approvals, pc)
    requires LinksOk(cfg, s.approvals) && CountsOk(s) && PcGated(cfg, s, pc)
    requires !Ungated(pc) && pc.todo != []
    ensures GateMove(cfg, s, pc, Advance(cfg, s, owner, pc, i).0, Advance(cfg, s, owner, pc, i).1)
  {
    if pc.Calls? || pc.Resuming? || pc.Settling? {
      ApprovalMove(cfg, s, owner, pc, i);
    } else {
      HandlerMove(cfg, s, owner, pc, i);
    }
  }

  lemma AdvanceGated(cfg: Config, s: Shared, owner: OwnerId, pc: Pc, i: Input)
    requires SharedOk(s) && PcOk(s.issued, s.approvals, pc)
    requires LinksOk(cfg, s.approvals) && CountsOk(s) && PcGated(cfg, s, pc)
    ensures GateMove(cfg, s, pc, Advance(cfg, s, owner, pc, i).0, Advance(cfg, s, owner, pc, i).1)
  {
    if Ungated(pc) {
      UngatedMove(cfg, s, owner, pc, i);
    } else if pc.todo != [] {
      HeadMove(cfg, s, owner, pc, i);
    } else {
      EmptyMove(cfg, s, owner, pc, i);
      PlainMove(cfg, s, pc, s, Advance(cfg, s, owner, pc, i).1);
    }
  }

  /******* The environment *******/

  /** Row by row: the request stays, and so do having agreed, having run and being executed. */
  predicate RowProgress(a: Approval, b: Approval) {
    && SameRequest(a, b) && (Agreed(a.status) <==> Agreed(b.status)) && (Ran(a.status) ==> Ran(b.status))
    && (a.status == Executed ==> b.status == Executed) && (a.status == Executing ==> b.status == Executing)
  }

  lemma RowsMakeProgress(cfg: Config, s: Shared, approvals: ApprovalDb)
    requires LinksOk(cfg, s.approvals)
    requires approvals.rows.Keys == s.approvals.rows.Keys && approvals.links == s.approvals.links
    requires forall id {:trigger RowProgress(s.approvals.rows[id], approvals.rows[id])} ::
               id in s.approvals.rows ==> RowProgress(s.approvals.rows[id], approvals.rows[id])
    ensures Grows(s, s.(approvals := approvals)) && Progress(s.approvals, approvals) && LinksOk(cfg, approvals)
    ensures LeavesFairly(s, Idle, s.(approvals := approvals))
  {
    forall id | id in s.approvals.rows ensures RowProgress(s.approvals.rows[id], approvals.rows[id]) {}
  }

  lemma ExpiryIsProgress(cfg: Config, s: Shared, now: Time)
    requires LinksOk(cfg, s.approvals)
    ensures var approvals := ExpirePending(s.approvals, now);
            && Grows(s, s.(approvals := approvals)) && Progress(s.approvals, approvals) && LinksOk(cfg, approvals)
            && LeavesFairly(s, Idle, s.(approvals := approvals))
  {
    var approvals := ExpirePending(s.approvals, now);
    assert approvals.rows.Keys == s.approvals.rows.Keys;
    RowsMakeProgress(cfg, s, approvals);
  }

  lemma ConsumeIsProgress(cfg: Config, s: Shared, id: ApprovalId, now: Time)
    requires LinksOk(cfg, s.approvals)
    ensures var approvals := MarkConsumed(s.approvals, id, now).0;
            && Grows(s, s.(approvals := approvals)) && Progress(s.approvals, approvals) && LinksOk(cfg, approvals)
            && LeavesFairly(s, Idle, s.(approvals := approvals))
  {
    if id in s.approvals.rows { ResumeIsProgress(cfg, s, id, now); }
  }

  /** An environment step, seen as the step of a worker that stays out of every execution. */
  lemma QuietEnvironment(cfg: Config, w: World, next: Shared)
    requires GateInv(cfg, w)
    requires Grows(w.shared, next) && Progress(w.shared.approvals, next.approvals) && LinksOk(cfg, next.approvals)
    requires LeavesFairly(w.shared, Idle, next) && LedgerGrows(w.shared.db, next.db) && next.log == w.shared.log
    ensures GateInv(cfg, w.(shared := next))
  {
    LogStaysOk(cfg, w.shared, next);
    CountsStayOk(cfg, w.shared, next);
    forall id | id in w.workers ensures PcGated(cfg, next, w.workers[id].pc) {
      OthersStayGated(cfg, w.shared, Idle, next, w.workers[id].pc);
    }
  }

  lemma StoreGrowsLedger(db: Db, op: Op)
    ensures LedgerGrows(db, Apply(db, op))
  {
    forall key | key in db.tools && db.tools[key].status == ToolCompleted
      ensures key in Apply(db, op).tools && Apply(db, op).tools[key].status == ToolCompleted
    {
      LedgerStep(db, op, key);
    }
  }

  /** A click that is not an accepted confirmation rejects, expires or leaves its approval. */
  lemma OtherClickRows(
    a: ApprovalDb, id: ApprovalId, action: Option<ApprovalAction>, identity: Identity, event: string, now: Time,
    other: ApprovalId)
    requires DecideApproval(a, id, action, identity, event, now).1 != Accepted(Confirm)
    ensures var approvals := DecideApproval(a, id, action, identity, event, now).0;
            && approvals.links == a.links && (other in approvals.rows <==> other in a.rows)
            && (other in a.rows ==> RowProgress(a.rows[other], approvals.rows[other]))
  {
  }

  lemma OtherClickIsProgress(
    cfg: Config, s: Shared, id: ApprovalId, action: Option<ApprovalAction>, identity: Identity, event: string, now: Time)
    requires LinksOk(cfg, s.approvals)
    requires DecideApproval(s.approvals, id, action, identity, event, now).1 != Accepted(Confirm)
    ensures var next := s.(approvals := DecideApproval(s.approvals, id, action, identity, event, now).0);
            Grows(s, next) && Progress(s.approvals, next.approvals) && LinksOk(cfg, next.approvals)
            && LeavesFairly(s, Idle, next)
  {
    var approvals := DecideApproval(s.approvals, id, action, identity, event, now).0;
    OtherClickRows(s.approvals, id, action, identity, event, now, id);
    forall other ensures other in approvals.rows <==> other in s.approvals.rows
                 ensures other in s.approvals.rows ==> RowProgress(s.approvals.rows[other], approvals.rows[other])
    {
      OtherClickRows(s.approvals, id, action, identity, event, now, other);
    }
    RowsMakeProgress(cfg, s, approvals);
  }

  /** A click that is not an accepted confirmation. */
  lemma OtherClickGated(
    cfg: Config, w: World, id: ApprovalId, action: Option<ApprovalAction>, identity: Identity, event: string, now: Time)
    requires GateInv(cfg, w)
    requires DecideApproval(w.shared.approvals, id, action, identity, event, now).1 != Accepted(Confirm)
    ensures GateInv(cfg, Step(cfg, w, Click(id, action, identity, event, now)))
  {
    OtherClickIsProgress(cfg, w.shared, id, action, identity, event, now);
    QuietEnvironment(cfg, w, w.shared.(approvals := DecideApproval(w.shared.approvals, id, action, identity, event, now).0));
  }

  /** What an accepted confirmation does to the world. */
  ghost predicate Confirms(s: Shared, next: Shared, id: ApprovalId, identity: Identity, now: Time) {
    && id in s.approvals.rows && s.approvals.rows[id].status == Undecided && now < s.approvals.rows[id].expires
    && SameSender(s.approvals.rows[id].identity, identity)
    && next.db == s.db && next.issued == s.issued && next.log == s.log + [Confirmed(id, identity, now)]
    && next.approvals.links == s.approvals.links
    && next.approvals.rows.Keys == s.approvals.rows.Keys
    && SameRequest(s.approvals.rows[id], next.approvals.rows[id]) && next.approvals.rows[id].status == Approved
    && forall a :: a in s.approvals.rows && a != id ==> next.approvals.rows[a] == s.approvals.rows[a]
  }

  lemma AcceptedConfirms(
    w: World, cfg: Config, id: ApprovalId, action: Option<ApprovalAction>, identity: Identity, event: string, now: Time)
    requires DecideApproval(w.shared.approvals, id, action, identity, event, now).1 == Accepted(Confirm)
    ensures Confirms(w.shared, Step(cfg, w, Click(id, action, identity, event, now)).shared, id, identity, now)
  {
  }

  lemma ConfirmCounts(s: Shared, next: Shared, id: ApprovalId, identity: Identity, now: Time)
    requires CountsOk(s) && Confirms(s, next, id, identity, now)
    ensures CountsOk(next)
  {
    forall other
      ensures Confirmations(next.log, other)
           == if other in next.approvals.rows && Agreed(next.approvals.rows[other].status) then 1 else 0
    {
      OneMoreEvent(s.log, Confirmed(id, identity, now), other);
      assert Confirmations(s.log, other)
          == if other in s.approvals.rows && Agreed(s.approvals.rows[other].status) then 1 else 0;
    }
  }

  lemma ConfirmLogs(cfg: Config, s: Shared, next: Shared, id: ApprovalId, identity: Identity, now: Time)
    requires LogOk(cfg, s) && Confirms(s, next, id, identity, now)
    ensures LogOk(cfg, next)
  {
    forall k | 0 <= k < |next.log| && next.log[k].Entered? ensures EntryOk(cfg, next, next.log[..k], next.log[k]) {
      assert k < |s.log| && next.log[..k] == s.log[..k];
      assert EntryOk(cfg, s, s.log[..k], s.log[k]);
    }
  }

  lemma ConfirmKeepsGated(cfg: Config, s: Shared, next: Shared, id: ApprovalId, identity: Identity, now: Time, pc: Pc)
    requires Confirms(s, next, id, identity, now) && PcGated(cfg, s, pc)
    ensures PcGated(cfg, next, pc)
  {
  }

  /** An accepted confirmation: the one event that makes an approval agreed to. */
  lemma ConfirmGated(
    cfg: Config, w: World, id: ApprovalId, action: Option<ApprovalAction>, identity: Identity, event: string, now: Time)
    requires GateInv(cfg, w)
    requires DecideApproval(w.shared.approvals, id, action, identity, event, now).1 == Accepted(Confirm)
    ensures GateInv(cfg, Step(cfg, w, Click(id, action, identity, event, now)))
  {
    var next := Step(cfg, w, Click(id, action, identity, event, now)).shared;
    AcceptedConfirms(w, cfg, id, action, identity, event, now);
    ConfirmCounts(w.shared, next, id, identity, now);
    ConfirmLogs(cfg, w.shared, next, id, identity, now);
    forall worker | worker in w.workers ensures PcGated(cfg, next, w.workers[worker].pc) {
      ConfirmKeepsGated(cfg, w.shared, next, id, identity, now, w.workers[worker].pc);
    }
  }

  lemma ClickGated(
    cfg: Config, w: World, id: ApprovalId, action: Option<ApprovalAction>, identity: Identity, event: string, now: Time)
    requires GateInv(cfg, w)
    ensures GateInv(cfg, Step(cfg, w, Click(id, action, identity, event, now)))
  {
    if DecideApproval(w.shared.approvals, id, action, identity, event, now).1 == Accepted(Confirm) {
      ConfirmGated(cfg, w, id, action, identity, event, now);
    } else {
      OtherClickGated(cfg, w, id, action, identity, event, now);
    }
  }

  lemma SpawnGated(cfg: Config, w: World, worker: WorkerId, owner: OwnerId)
    requires GateInv(cfg, w)
    ensures GateInv(cfg, Step(cfg, w, Spawn(worker, owner)))
  {
  }

  lemma EnvironmentGated(cfg: Config, w: World, act: Act)
    requires CursorInv(w) && GateInv(cfg, w) && !act.Work?
    ensures GateInv(cfg, Step(cfg, w, act))
  {
    var s := w.shared;
    match act
    case Spawn(worker, owner) => SpawnGated(cfg, w, worker, owner);
    case Store(op) =>
      if ByEnvironment(op) {
        StoreGrowsLedger(s.db, op);
        QuietEnvironment(cfg, w, s.(db := Apply(s.db, op)));
      }
    case Click(id, action, identity, event, now) => ClickGated(cfg, w, id, action, identity, event, now);
    case Expire(now) =>
      ExpiryIsProgress(cfg, s, now);
      QuietEnvironment(cfg, w, s.(approvals := ExpirePending(s.approvals, now)));
    case Consume(id, now) =>
      ConsumeIsProgress(cfg, s, id, now);
      QuietEnvironment(cfg, w, s.(approvals := MarkConsumed(s.approvals, id, now).0));
  }

  /** Starting, loading, failing and crashing. */
  lemma OtherMoveGated(cfg: Config, s: Shared, owner: OwnerId, pc: Pc, move: Move)
    requires LinksOk(cfg, s.approvals) && PcGated(cfg, s, pc) && !move.Next?
    ensures GateMove(cfg, s, pc, MoveWorker(cfg, s, owner, pc, move).0, MoveWorker(cfg, s, owner, pc, move).1)
  {
    var (next, pc') := MoveWorker(cfg, s, owner, pc, move);
    PlainMove(cfg, s, pc, next, pc');
  }

  lemma GateStep(cfg: Config, w: World, act: Act)
    requires CursorInv(w) && GateInv(cfg, w)
    ensures GateInv(cfg, Step(cfg, w, act))
  {
    if !act.Work? {
      EnvironmentGated(cfg, w, act);
    } else if act.worker in w.workers {
      var me := w.workers[act.worker];
      assert PcGated(cfg, w.shared, me.pc) && PcOk(w.shared.issued, w.shared.approvals, me.pc);
      var (next, pc) := MoveWorker(cfg, w.shared, me.owner, me.pc, act.move);
      if act.move.Next? {
        AdvanceGated(cfg, w.shared, me.owner, me.pc, act.move.input);
      } else {
        OtherMoveGated(cfg, w.shared, me.owner, me.pc, act.move);
      }
      GateFrame(cfg, w, act.worker, next, pc);
    }
  }

  lemma {:induction false} GatesHold(cfg: Config, acts: seq<Act>)
    ensures CursorInv(Play(cfg, acts)) && GateInv(cfg, Play(cfg, acts))
  {
    CursorsHold(cfg, acts);
    if acts != [] {
      GatesHold(cfg, acts[..|acts| - 1]);
      GateStep(cfg, Play(cfg, acts[..|acts| - 1]), acts[|acts| - 1]);
    }
  }

  /******* The theorems *******/

  /** Who confirmed: with exactly one confirmation in a log, it can be named. */
  lemma {:induction false} TheConfirmation(log: seq<Event>, id: ApprovalId) returns (k: nat)
    requires Confirmations(log, id) == 1
    ensures k < |log| && log[k].Confirmed? && log[k].approval == id
    ensures forall j :: 0 <= j < |log| && j != k ==> !(log[j].Confirmed? && log[j].approval == id)
  {
    var front, last := log[..|log| - 1], log[|log| - 1];
    if last.Confirmed? && last.approval == id {
      k := |log| - 1;
      NoConfirmation(front, id);
      assert forall j :: 0 <= j < |front| ==> front[j] == log[j];
    } else {
      k := TheConfirmation(front, id);
    }
  }

  lemma {:induction false} NoConfirmation(log: seq<Event>, id: ApprovalId)
    requires Confirmations(log, id) == 0
    ensures forall j :: 0 <= j < |log| ==> !(log[j].Confirmed? && log[j].approval == id)
  {
    if log != [] {
      NoConfirmation(log[..|log| - 1], id);
    }
  }

  /** What the invariants say about one entry. */
  lemma ApprovedEntry(cfg: Config, s: Shared, k: nat) returns (c: nat)
    requires LogOk(cfg, s) && k < |s.log| && s.log[k].Entered?
    ensures var e := s.log[k];
            if e.via.None? then cfg.policy(e.call) == Allow
            else
              && cfg.policy(e.call) == RequireApproval
              && e.via.value in s.approvals.rows
              && var row := s.approvals.rows[e.via.value];
              && row.run == Some(e.run) && row.call == e.call
              && c < k && s.log[c].Confirmed? && s.log[c].approval == e.via.value
              && SameSender(row.identity, s.log[c].identity) && s.log[c].at < row.expires
              && (forall j :: 0 <= j < k && j != c ==> !(s.log[j].Confirmed? && s.log[j].approval == e.via.value))
              && (e.gate == Some(Executing) || (e.gate == Some(Executed) && e.row == ToolCompleted))
  {
    c := 0;
    assert EntryOk(cfg, s, s.log[..k], s.log[k]);
    if s.log[k].via.Some? {
      var before, id := s.log[..k], s.log[k].via.value;
      c := TheConfirmation(before, id);
      assert s.log[c] == before[c] && s.log[c] in s.log;
      forall j | 0 <= j < k && j != c ensures !(s.log[j].Confirmed? && s.log[j].approval == id) {
        assert s.log[j] == before[j];
      }
    }
  }

  /** Whatever happens, an entered handler belongs to a call the policy allows, or to one that requires approval and
      has an approval of its own run and arguments, confirmed by exactly one click before the entry, made strictly before
      expiry by whoever sent the message of the run, in the conversation of its session; and that approval was executing,
      or already completed on record. */
  lemma EntriesAreApproved(cfg: Config, acts: seq<Act>, k: nat) returns (c: nat)
    requires k < |Play(cfg, acts).shared.log| && Play(cfg, acts).shared.log[k].Entered?
    ensures var s := Play(cfg, acts).shared;
            var e := s.log[k];
            if e.via.None? then cfg.policy(e.call) == Allow
            else
              && cfg.policy(e.call) == RequireApproval
              && e.via.value in s.approvals.rows
              && var row := s.approvals.rows[e.via.value];
              && row.run == Some(e.run) && row.call == e.call
              && c < k && s.log[c].Confirmed? && s.log[c].approval == e.via.value
              && BySender(s.db, e.run, s.log[c].identity) && s.log[c].at < row.expires
              && (forall j :: 0 <= j < k && j != c ==> !(s.log[j].Confirmed? && s.log[j].approval == e.via.value))
              && (e.gate == Some(Executing) || (e.gate == Some(Executed) && e.row == ToolCompleted))
  {
    GatesHold(cfg, acts);
    var s := Play(cfg, acts).shared;
    c := ApprovedEntry(cfg, s, k);
    if s.log[k].via.Some? {
      ApprovalsAskTheSender(cfg, acts, s.log[k].via.value, s.log[c].identity);
    }
  }

  /** A call whose approval is undecided, rejected, expired or merely agreed to was never entered, by any route. */
  lemma UnapprovedCallsNeverRun(cfg: Config, acts: seq<Act>, id: ApprovalId, k: nat)
    requires id in Play(cfg, acts).shared.approvals.rows && !Ran(Play(cfg, acts).shared.approvals.rows[id].status)
    requires k < |Play(cfg, acts).shared.log| && Play(cfg, acts).shared.log[k].Entered?
    ensures var row := Play(cfg, acts).shared.approvals.rows[id];
            Some(Play(cfg, acts).shared.log[k].run) != row.run || Play(cfg, acts).shared.log[k].call.id != row.call.id
  {
    GatesHold(cfg, acts);
    var s := Play(cfg, acts).shared;
    assert EntryOk(cfg, s, s.log[..k], s.log[k]);
    assert RowOk(s.issued, s.approvals.rows[id]);
  }

  /** A denied call is never entered. */
  lemma DeniedCallsNeverRun(cfg: Config, acts: seq<Act>, k: nat)
    requires k < |Play(cfg, acts).shared.log| && Play(cfg, acts).shared.log[k].Entered?
    ensures !cfg.policy(Play(cfg, acts).shared.log[k].call).Deny?
  {
    var _ := EntriesAreApproved(cfg, acts, k);
  }

  /** No approval lets two handlers run. */
  lemma OneEntryPerApproval(cfg: Config, acts: seq<Act>, i: nat, j: nat)
    requires i < |Play(cfg, acts).shared.log| && j < |Play(cfg, acts).shared.log|
    requires Play(cfg, acts).shared.log[i].Entered? && Play(cfg, acts).shared.log[j].Entered?
    requires Play(cfg, acts).shared.log[i].via.Some?
    requires Play(cfg, acts).shared.log[i].via == Play(cfg, acts).shared.log[j].via
    ensures i == j
  {
    var _ := EntriesAreApproved(cfg, acts, i);
    var _ := EntriesAreApproved(cfg, acts, j);
    HandlersRunAtMostOnce(cfg, acts, i, j);
  }
}
