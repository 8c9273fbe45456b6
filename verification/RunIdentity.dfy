/** Who a run talks to: the identity in its checkpoints, approvals and workers is that of its session and message. */
module RunIdentity {
  import opened Wrappers
  import opened RunState
  import opened Blocks
  import opened StoreSpec
  import opened StoreHistory
  import opened ApprovalSpec
  import opened Protocol
  import opened AtMostOnce
  import opened Cursor

  /** What session and message of a run say about its identity. */
  function IdentityOf(db: Db, run: RunId): Identity
    requires run in db.runs && db.runs[run].inbound in db.inbound
  {
    var row := db.runs[run];
    Identity(row.session.tenant, row.session.platform, row.session.conversation, db.inbound[row.inbound].sender,
             row.inbound.message)
  }

  /** The identity is that of the run, whose message points back at it and came over the platform of its session. */
  predicate Known(db: Db, run: RunId, identity: Option<Identity>) {
    && run in db.runs && db.runs[run].inbound in db.inbound && db.inbound[db.runs[run].inbound].run == run
    && db.runs[run].inbound.platform == db.runs[run].session.platform
    && identity == Some(IdentityOf(db, run))
  }

  /** The run a worker is working on, and for whom it thinks it does. */
  datatype Client = Client(run: RunId, identity: Option<Identity>)

  function ClientOf(pc: Pc): Option<Client> {
    match pc
    case Loaded(run, state) => Some(Client(run, state.identity))
    case Claimed(run, FromCheckpoint(state)) => Some(Client(run, state.identity))
    case _ => if CtxOf(pc).Some? then Some(Client(CtxOf(pc).value.run, CtxOf(pc).value.identity)) else None
  }

  predicate PcKnown(db: Db, pc: Pc) {
    ClientOf(pc).Some? ==> Known(db, ClientOf(pc).value.run, ClientOf(pc).value.identity)
  }

  predicate RowKnown(db: Db, row: Approval) {
    row.run.Some? ==> Known(db, row.run.value, Some(row.identity))
  }

  predicate CheckpointsKnown(db: Db, checkpoints: seq<Checkpoint>) {
    forall c {:trigger Known(db, c.run, c.state.identity)} :: c in checkpoints ==> Known(db, c.run, c.state.identity)
  }

  predicate ApprovalsKnown(db: Db, approvals: ApprovalDb) {
    forall id {:trigger RowKnown(db, approvals.rows[id])} :: id in approvals.rows ==> RowKnown(db, approvals.rows[id])
  }

  predicate IdentityInv(w: World) {
    && CheckpointsKnown(w.shared.db, w.shared.db.checkpoints) && ApprovalsKnown(w.shared.db, w.shared.approvals)
    && forall id {:trigger PcKnown(w.shared.db, w.workers[id].pc)} ::
         id in w.workers ==> PcKnown(w.shared.db, w.workers[id].pc)
  }

  /******* Rows keep what identifies them *******/

  ghost predicate RowsStay(db: Db, next: Db) {
    && (forall r :: r in db.runs ==>
          r in next.runs && next.runs[r].session == db.runs[r].session && next.runs[r].inbound == db.runs[r].inbound)
    && (forall k :: k in db.inbound ==>
          k in next.inbound && next.inbound[k].run == db.inbound[k].run && next.inbound[k].sender == db.inbound[k].sender)
  }

  lemma InboundStays(db: Db, op: Op, key: InboundKey)
    requires key in db.inbound
    ensures var next := Apply(db, op).inbound;
            key in next && next[key].run == db.inbound[key].run && next[key].sender == db.inbound[key].sender
  {
  }

  lemma TransactionsKeepRows(db: Db, op: Op)
    ensures RowsStay(db, Apply(db, op))
  {
    forall r | r in db.runs ensures r in Apply(db, op).runs && Apply(db, op).runs[r].session == db.runs[r].session
                                    && Apply(db, op).runs[r].inbound == db.runs[r].inbound
    {
      RunsStay(db, op, r);
    }
    forall k | k in db.inbound
      ensures k in Apply(db, op).inbound && Apply(db, op).inbound[k].run == db.inbound[k].run
           && Apply(db, op).inbound[k].sender == db.inbound[k].sender
    {
      InboundStays(db, op, k);
    }
  }

  lemma StepsKeepRows(cfg: Config, w: World, act: Act)
    ensures RowsStay(w.shared.db, Step(cfg, w, act).shared.db)
  {
    var op := StepTransaction(cfg, w, act);
    TransactionsKeepRows(w.shared.db, op);
  }

  lemma KnownStays(db: Db, next: Db, run: RunId, identity: Option<Identity>)
    requires RowsStay(db, next) && Known(db, run, identity)
    ensures Known(next, run, identity)
  {
  }

  lemma AllKnownStay(db: Db, next: Db)
    requires RowsStay(db, next)
    ensures forall checkpoints: seq<Checkpoint> :: CheckpointsKnown(db, checkpoints) ==> CheckpointsKnown(next, checkpoints)
    ensures forall approvals: ApprovalDb :: ApprovalsKnown(db, approvals) ==> ApprovalsKnown(next, approvals)
    ensures forall pc: Pc :: PcKnown(db, pc) ==> PcKnown(next, pc)
  {
    forall run, identity | Known(db, run, identity) ensures Known(next, run, identity) {
      KnownStays(db, next, run, identity);
    }
    forall checkpoints: seq<Checkpoint> | CheckpointsKnown(db, checkpoints) ensures CheckpointsKnown(next, checkpoints) {
      forall c | c in checkpoints ensures Known(next, c.run, c.state.identity) {
        assert Known(db, c.run, c.state.identity);
      }
    }
    forall approvals: ApprovalDb | ApprovalsKnown(db, approvals) ensures ApprovalsKnown(next, approvals) {
      forall id | id in approvals.rows ensures RowKnown(next, approvals.rows[id]) {
        assert RowKnown(db, approvals.rows[id]);
      }
    }
  }

  /******* A worker stays with its client *******/

  lemma DecideKeepsClient(cfg: Config, s: Shared, ctx: Ctx, todo: seq<Call>, i: Input)
    requires todo != []
    ensures var pc := DecideCall(cfg, s, ctx, todo, i).1;
            CtxOf(pc).Some? && CtxOf(pc).value.run == ctx.run && CtxOf(pc).value.identity == ctx.identity
  {
  }

  lemma ResumeKeepsClient(
    cfg: Config, s: Shared, ctx: Ctx, todo: seq<Call>, approval: ApprovalId, status: ApprovalStatus, i: Input)
    requires todo != []
    ensures var pc := ResumeRequest(cfg, s, ctx, todo, approval, status, i).1;
            ClientOf(pc) == None || ClientOf(pc) == Some(Client(ctx.run, ctx.identity))
  {
  }

  lemma ExecutionKeepsClient(cfg: Config, s: Shared, owner: OwnerId, pc: Pc, i: Input)
    requires pc.Invoking? || pc.Entering? || pc.InHandler? || pc.Recording? || pc.Settling?
    ensures var pc' := Advance(cfg, s, owner, pc, i).1; ClientOf(pc') == None || ClientOf(pc') == ClientOf(pc)
  {
  }

  lemma OtherStepsKeepClient(cfg: Config, s: Shared, owner: OwnerId, pc: Pc, i: Input)
    requires !pc.Calls? && !pc.Resuming? && !(pc.Claimed? && pc.origin.FromApproval?)
    requires !pc.Invoking? && !pc.Entering? && !pc.InHandler? && !pc.Recording? && !pc.Settling?
    ensures var pc' := Advance(cfg, s, owner, pc, i).1; ClientOf(pc') == None || ClientOf(pc') == ClientOf(pc)
  {
  }

  /** Only a resumed approval gives a worker a client it did not have, that of the approval. */
  lemma AdvanceKeepsClient(cfg: Config, s: Shared, owner: OwnerId, pc: Pc, i: Input)
    ensures var pc' := Advance(cfg, s, owner, pc, i).1;
            if pc.Claimed? && pc.origin.FromApproval? then
              ClientOf(pc').Some? ==>
                pc.origin.approval in s.approvals.rows
                && ClientOf(pc').value == Client(pc.run, Some(s.approvals.rows[pc.origin.approval].identity))
            else ClientOf(pc') == None || ClientOf(pc') == ClientOf(pc)
  {
    if pc.Calls? {
      if pc.todo != [] { DecideKeepsClient(cfg, s, pc.ctx, pc.todo, i); }
    } else if pc.Resuming? {
      if pc.todo != [] { ResumeKeepsClient(cfg, s, pc.ctx, pc.todo, pc.approval, pc.status, i); }
    } else if pc.Invoking? || pc.Entering? || pc.InHandler? || pc.Recording? || pc.Settling? {
      ExecutionKeepsClient(cfg, s, owner, pc, i);
    } else if !(pc.Claimed? && pc.origin.FromApproval?) {
      OtherStepsKeepClient(cfg, s, owner, pc, i);
    }
  }

  /******* Checkpoints and approvals name the client of the worker that writes them *******/

  lemma SavesItsClient(pc: Pc, i: Input)
    requires Saves(pc)
    ensures SavedAt(pc, i).1.identity == pc.ctx.identity
  {
  }

  lemma OthersSaveNothing(cfg: Config, s: Shared, owner: OwnerId, pc: Pc, i: Input)
    requires !Saves(pc)
    ensures Advance(cfg, s, owner, pc, i).0.db.checkpoints == s.db.checkpoints
  {
  }

  /** A save for a known client adds a known checkpoint. */
  lemma SavedIsKnown(db: Db, caller: OwnerId, run: RunId, phase: string, state: State, token: Option<nat>, now: Time)
    requires CheckpointsKnown(db, db.checkpoints) && Known(db, run, state.identity)
    ensures var next := SaveCheckpoint(db, caller, run, phase, state, token, now).0; CheckpointsKnown(next, next.checkpoints)
  {
    var next := SaveCheckpoint(db, caller, run, phase, state, token, now).0;
    AllKnownStay(db, next);
    forall c | c in next.checkpoints ensures Known(next, c.run, c.state.identity) {
      if c !in db.checkpoints {
        assert c.run == run && c.state == state;
      }
    }
  }

  lemma SavesAreKnown(db: Db, owner: OwnerId, pc: Pc, i: Input, next: Db)
    requires Saves(pc) && CheckpointsKnown(db, db.checkpoints) && PcKnown(db, pc)
    requires next == db || next == SaveCheckpoint(db, owner, pc.ctx.run, SavedAt(pc, i).0, SavedAt(pc, i).1,
                                                  Some(pc.ctx.token), i.now).0
    ensures CheckpointsKnown(next, next.checkpoints)
  {
    SavesItsClient(pc, i);
    SavedIsKnown(db, owner, pc.ctx.run, SavedAt(pc, i).0, SavedAt(pc, i).1, Some(pc.ctx.token), i.now);
  }

  lemma NewCheckpointsAreKnown(cfg: Config, s: Shared, owner: OwnerId, pc: Pc, i: Input, next: Db)
    requires next == Advance(cfg, s, owner, pc, i).0.db
    requires RowsStay(s.db, next) && CheckpointsKnown(s.db, s.db.checkpoints) && PcKnown(s.db, pc)
    ensures CheckpointsKnown(next, next.checkpoints)
  {
    if Saves(pc) {
      SaveTransaction(cfg, s, owner, pc, i);
      SavesAreKnown(s.db, owner, pc, i, next);
    } else {
      OthersSaveNothing(cfg, s, owner, pc, i);
      AllKnownStay(s.db, next);
    }
  }

  lemma ResumesCreateNothing(
    cfg: Config, s: Shared, ctx: Ctx, todo: seq<Call>, approval: ApprovalId, status: ApprovalStatus, i: Input)
    requires todo != []
    ensures ResumeRequest(cfg, s, ctx, todo, approval, status, i).0.approvals.rows.Keys == s.approvals.rows.Keys
  {
    ResumeChangesStatus(cfg, s, ctx, todo, approval, status, i);
    StatusChangesKeepRequests(s.approvals, approval, "", i.now);
  }

  lemma OthersCreateNothing(cfg: Config, s: Shared, owner: OwnerId, pc: Pc, i: Input)
    requires !pc.Calls?
    ensures Advance(cfg, s, owner, pc, i).0.approvals.rows.Keys == s.approvals.rows.Keys
  {
    if pc.Resuming? {
      if pc.todo != [] { ResumesCreateNothing(cfg, s, pc.ctx, pc.todo, pc.approval, pc.status, i); }
    } else if pc.Settling? {
      StatusChangesKeepRequests(s.approvals, pc.approval, if pc.result.Raised? then pc.result.error else "", 0);
    } else {
      OthersLeaveApprovals(cfg, s, owner, pc, i);
    }
  }

  lemma OthersLeaveApprovals(cfg: Config, s: Shared, owner: OwnerId, pc: Pc, i: Input)
    requires !pc.Calls? && !pc.Resuming? && !pc.Settling?
    ensures Advance(cfg, s, owner, pc, i).0.approvals == s.approvals
  {
  }

  lemma CreatesForItsClient(cfg: Config, s: Shared, ctx: Ctx, todo: seq<Call>, i: Input, id: ApprovalId)
    requires todo != [] && id in DecideCall(cfg, s, ctx, todo, i).0.approvals.rows
    ensures var row := DecideCall(cfg, s, ctx, todo, i).0.approvals.rows[id];
            (id in s.approvals.rows && row == s.approvals.rows[id])
            || (row.run == Some(ctx.run) && Some(row.identity) == ctx.identity)
  {
  }

  lemma NewApprovalsAreKnown(cfg: Config, s: Shared, owner: OwnerId, pc: Pc, i: Input, next: Shared)
    requires next == Advance(cfg, s, owner, pc, i).0 && Grows(s, next)
    requires RowsStay(s.db, next.db) && ApprovalsKnown(s.db, s.approvals) && PcKnown(s.db, pc)
    ensures ApprovalsKnown(next.db, next.approvals)
  {
    AllKnownStay(s.db, next.db);
    if !pc.Calls? {
      OthersCreateNothing(cfg, s, owner, pc, i);
    }
    forall id | id in next.approvals.rows ensures RowKnown(next.db, next.approvals.rows[id]) {
      if id in s.approvals.rows {
        assert RowKnown(next.db, s.approvals.rows[id]) && SameRequest(s.approvals.rows[id], next.approvals.rows[id]);
      } else if pc.todo != [] {
        CreatesForItsClient(cfg, s, pc.ctx, pc.todo, i, id);
      }
    }
  }

  /******* One step *******/

  ghost predicate SharedKnown(s: Shared) {
    CheckpointsKnown(s.db, s.db.checkpoints) && ApprovalsKnown(s.db, s.approvals)
  }

  lemma AdvanceStaysKnown(cfg: Config, s: Shared, owner: OwnerId, pc: Pc, i: Input)
    requires SharedOk(s) && PcOk(s.issued, s.approvals, pc) && SharedKnown(s) && PcKnown(s.db, pc)
    requires RowsStay(s.db, Advance(cfg, s, owner, pc, i).0.db)
    ensures var (next, pc') := Advance(cfg, s, owner, pc, i); SharedKnown(next) && PcKnown(next.db, pc')
  {
    var (next, pc') := Advance(cfg, s, owner, pc, i);
    WorkerKeeps(cfg, s, owner, pc, Next(i));
    assert MoveWorker(cfg, s, owner, pc, Next(i)) == Advance(cfg, s, owner, pc, i);
    NewCheckpointsAreKnown(cfg, s, owner, pc, i, next.db);
    NewApprovalsAreKnown(cfg, s, owner, pc, i, next);
    AdvanceKeepsClient(cfg, s, owner, pc, i);
    if pc.Claimed? && pc.origin.FromApproval? && ClientOf(pc').Some? {
      assert RowKnown(s.db, s.approvals.rows[pc.origin.approval]);
    }
    AllKnownStay(s.db, next.db);
  }

  /** The first checkpoint of a run, and its first worker, know whose message started it. */
  lemma BeginIsKnown(cfg: Config, s: Shared, owner: OwnerId, pc: Pc, move: Move)
    requires SharedKnown(s) && PcKnown(s.db, pc) && move.Begin?
    requires RowsStay(s.db, MoveWorker(cfg, s, owner, pc, move).0.db)
    ensures var (next, pc') := MoveWorker(cfg, s, owner, pc, move); SharedKnown(next) && PcKnown(next.db, pc')
  {
    var (next, pc') := MoveWorker(cfg, s, owner, pc, move);
    AllKnownStay(s.db, next.db);
    if next.db != s.db {
      var (db, start) := StartInbound(s.db, owner, move.req, move.id, move.now, move.lease);
      assert next.db == db && next.approvals == s.approvals;
      StartIsKnown(s.db, owner, move.req, move.id, move.now, move.lease);
      forall c | c in db.checkpoints ensures Known(db, c.run, c.state.identity) {
        if c !in s.db.checkpoints {
          assert c.run == move.id && c.state.identity == Some(move.req.identity);
        }
      }
    }
  }

  lemma StartIsKnown(db: Db, owner: OwnerId, req: InboundRequest, id: RunId, now: Time, lease: Time)
    requires id !in db.runs && req.identity.Key() !in db.inbound
    ensures Known(StartInbound(db, owner, req, id, now, lease).0, id, Some(req.identity))
  {
  }

  lemma LocalMoveIsKnown(cfg: Config, s: Shared, owner: OwnerId, pc: Pc, move: Move)
    requires SharedKnown(s) && PcKnown(s.db, pc) && !move.Begin? && !move.Next?
    ensures var (next, pc') := MoveWorker(cfg, s, owner, pc, move); next == s && PcKnown(s.db, pc')
  {
    if move.Load? {
      var latest := LatestCheckpoint(s.db.checkpoints, move.run);
      assert latest.Some? ==> Known(s.db, latest.value.run, latest.value.state.identity);
    }
  }

  lemma WorkerStaysKnown(cfg: Config, s: Shared, owner: OwnerId, pc: Pc, move: Move)
    requires SharedOk(s) && PcOk(s.issued, s.approvals, pc) && SharedKnown(s) && PcKnown(s.db, pc)
    requires RowsStay(s.db, MoveWorker(cfg, s, owner, pc, move).0.db)
    ensures var (next, pc') := MoveWorker(cfg, s, owner, pc, move); SharedKnown(next) && PcKnown(next.db, pc')
  {
    match move
    case Begin(_, _, _, _) => BeginIsKnown(cfg, s, owner, pc, move);
    case Next(i) =>
      assert MoveWorker(cfg, s, owner, pc, move) == Advance(cfg, s, owner, pc, i);
      AdvanceStaysKnown(cfg, s, owner, pc, i);
    case _ => LocalMoveIsKnown(cfg, s, owner, pc, move);
  }

  lemma EnvironmentCreatesNothing(cfg: Config, w: World, act: Act)
    requires !act.Work?
    ensures Step(cfg, w, act).shared.approvals.rows.Keys == w.shared.approvals.rows.Keys
    ensures forall c :: c in Step(cfg, w, act).shared.db.checkpoints ==> c in w.shared.db.checkpoints
  {
    if act.Store? && ByEnvironment(act.op) {
      OldCheckpointsOnly(w.shared.db, act.op);
    }
  }

  lemma EnvironmentStaysKnown(cfg: Config, w: World, act: Act)
    requires SharedOk(w.shared) && SharedKnown(w.shared) && !act.Work?
    requires RowsStay(w.shared.db, Step(cfg, w, act).shared.db)
    ensures SharedKnown(Step(cfg, w, act).shared)
  {
    var s, next := w.shared, Step(cfg, w, act).shared;
    AllKnownStay(s.db, next.db);
    EnvironmentKeeps(cfg, w, act);
    EnvironmentCreatesNothing(cfg, w, act);
    forall id | id in next.approvals.rows ensures RowKnown(next.db, next.approvals.rows[id]) {
      assert RowKnown(next.db, s.approvals.rows[id]) && SameRequest(s.approvals.rows[id], next.approvals.rows[id]);
    }
  }

  lemma IdentityStep(cfg: Config, w: World, act: Act)
    requires CursorInv(w) && IdentityInv(w)
    ensures IdentityInv(Step(cfg, w, act))
  {
    var next := Step(cfg, w, act);
    StepsKeepRows(cfg, w, act);
    AllKnownStay(w.shared.db, next.shared.db);
    if !act.Work? {
      EnvironmentStaysKnown(cfg, w, act);
    } else if act.worker in w.workers {
      var me := w.workers[act.worker];
      assert PcKnown(w.shared.db, me.pc) && PcOk(w.shared.issued, w.shared.approvals, me.pc);
      WorkerStaysKnown(cfg, w.shared, me.owner, me.pc, act.move);
    }
    forall id | id in next.workers ensures PcKnown(next.shared.db, next.workers[id].pc) {
      if id in w.workers {
        assert PcKnown(w.shared.db, w.workers[id].pc);
      }
    }
  }

  lemma {:induction false} IdentitiesHold(cfg: Config, acts: seq<Act>)
    ensures IdentityInv(Play(cfg, acts))
  {
    if acts != [] {
      IdentitiesHold(cfg, acts[..|acts| - 1]);
      CursorsHold(cfg, acts[..|acts| - 1]);
      IdentityStep(cfg, Play(cfg, acts[..|acts| - 1]), acts[|acts| - 1]);
    }
  }

  /** In every reachable world, every checkpoint and every approval of a run, through whatever crashes and resumes it
      came, names the conversation of the run's session and the sender of the run's message. */
  lemma RunsKeepTheirIdentity(cfg: Config, acts: seq<Act>)
    ensures var s := Play(cfg, acts).shared;
            && (forall c :: c in s.db.checkpoints ==>
                  c.run in s.db.runs && s.db.runs[c.run].inbound in s.db.inbound
                  && c.state.identity == Some(IdentityOf(s.db, c.run)))
            && (forall id :: id in s.approvals.rows && s.approvals.rows[id].run.Some? ==>
                  var run := s.approvals.rows[id].run.value;
                  run in s.db.runs && s.db.runs[run].inbound in s.db.inbound
                  && s.approvals.rows[id].identity == IdentityOf(s.db, run))
  {
    IdentitiesHold(cfg, acts);
    var s := Play(cfg, acts).shared;
    forall c | c in s.db.checkpoints ensures Known(s.db, c.run, c.state.identity) {}
    forall id | id in s.approvals.rows ensures RowKnown(s.db, s.approvals.rows[id]) {}
  }

  /** A click by whoever sent the run's message, in the conversation of its session. */
  predicate BySender(db: Db, run: RunId, clicker: Identity) {
    && run in db.runs && db.runs[run].inbound in db.inbound
    && clicker.platform == db.runs[run].session.platform && clicker.conversation == db.runs[run].session.conversation
    && clicker.sender == db.inbound[db.runs[run].inbound].sender
  }

  lemma ApprovalsAskTheSender(cfg: Config, acts: seq<Act>, id: ApprovalId, clicker: Identity)
    requires id in Play(cfg, acts).shared.approvals.rows && Play(cfg, acts).shared.approvals.rows[id].run.Some?
    ensures var s := Play(cfg, acts).shared;
            SameSender(s.approvals.rows[id].identity, clicker) <==> BySender(s.db, s.approvals.rows[id].run.value, clicker)
  {
    RunsKeepTheirIdentity(cfg, acts);
  }
}
