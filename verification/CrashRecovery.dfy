/** A run whose worker crashed goes on where that worker last saved, in the hands of another worker. */
module CrashRecovery {
  import opened Wrappers
  import opened RunState
  import opened Blocks
  import opened StoreSpec
  import opened StoreHistory
  import opened ApprovalSpec
  import Life = ApprovalHistory
  import opened Protocol
  import opened AtMostOnce
  import opened Resumption
  import opened Replies

  /** The same place in the program for a worker that took the run over with a new token. */
  function TakenOver(pc: Pc, token: nat): Pc {
    match pc
    case Turn(ctx) => Turn(ctx.(token := token, guarded := true))
    case Asking(ctx) => Turn(ctx.(token := token, guarded := true))
    case Completing(ctx, text) => Completing(ctx.(token := token, guarded := true), text)
    case Calls(ctx, todo) =>
      var mine := ctx.(token := token, guarded := true);
      if todo == [] then Turn(mine) else Calls(mine, todo)
    case _ => Idle
  }

  /** A save that is not a wait for an approval went through. */
  predicate JustSaved(cfg: Config, s: Shared, owner: OwnerId, pc: Pc, i: Input) {
    Saves(pc) && !pc.Gate? && (pc.Building? ==> pc.ctx.turn == 0) && (pc.Batch? ==> pc.todo != [])
    && Advance(cfg, s, owner, pc, i).0.db != s.db
  }

  /** What a save leaves behind leads whoever claims the run back to where the save led its worker. */
  lemma SavedStateLeadsBack(
    cfg: Config, s: Shared, owner: OwnerId, pc: Pc, i: Input, later: Shared, other: OwnerId, j: Input)
    requires JustSaved(cfg, s, owner, pc, i) && pc.ctx.run in later.db.runs
    ensures var (next, after) := Advance(cfg, s, owner, pc, i);
            && |next.db.checkpoints| == |s.db.checkpoints| + 1 && s.db.checkpoints <= next.db.checkpoints
            && next.db == s.db.(checkpoints := next.db.checkpoints)
            && var c := next.db.checkpoints[|s.db.checkpoints|];
            && c.run == pc.ctx.run && c.state.action != AwaitApproval
            && Advance(cfg, later, other, Claimed(c.run, FromCheckpoint(c.state)), j)
                 == (later, TakenOver(after, later.db.runs[c.run].token))
  {
  }

  /** A call that is parked for an approval is taken up again, with the calls behind it, by whoever resumes the run once
      the request was decided. */
  lemma ParkedCallIsTakenUp(
    cfg: Config, s: Shared, owner: OwnerId, ctx: Ctx, todo: seq<Call>, i: Input, later: Shared, other: OwnerId, j: Input)
    requires todo != [] && cfg.policy(todo[0]) == RequireApproval && cfg.approvals && ctx.identity.Some?
    requires i.id !in s.approvals.rows && (ctx.run, todo[0].id) !in s.approvals.links
    requires i.id in later.approvals.rows && ctx.run in later.db.runs
    requires i.id in Advance(cfg, s, owner, Calls(ctx, todo), i).0.approvals.rows ==>
               Life.SameQuestion(Advance(cfg, s, owner, Calls(ctx, todo), i).0.approvals.rows[i.id], later.approvals.rows[i.id])
    ensures var (next, after) := Advance(cfg, s, owner, Calls(ctx, todo), i);
            && after == Gate(ctx, todo, i.id) && i.id in next.approvals.rows
            && next.approvals.rows[i.id].status == Undecided && next.approvals.rows[i.id].call == todo[0]
            && next.approvals.rows[i.id].expires == i.expires
    ensures var status := later.approvals.rows[i.id].status;
            Advance(cfg, later, other, Claimed(ctx.run, FromApproval(i.id, status)), j)
              == (later, Resuming(ctx.(token := later.db.runs[ctx.run].token, guarded := false), todo, i.id, status))
  {
  }

  /** A worker that fails while it holds its run interrupts it with the error, so that it can be resumed at once; only
      while the first context of a message is built, and after an approval, a failure leaves it running. */
  lemma FailuresInterrupt(cfg: Config, s: Shared, owner: OwnerId, pc: Pc, error: string, i: Input)
    requires CtxOf(pc).Some? && Owns(s.db, owner, CtxOf(pc).value.run, Some(CtxOf(pc).value.token))
    requires CtxOf(pc).value.token != 0 && error != "" && i.outcome == Raised(error)
    ensures var ctx := CtxOf(pc).value;
            var (same, failing) := MoveWorker(cfg, s, owner, pc, Fail);
            && same == s
            && (!ctx.guarded ==> failing == Idle)
            && (ctx.guarded ==>
                  var (next, after) := Advance(cfg, s, owner, failing, i);
                  && after == Idle && ctx.run in next.db.runs
                  && next == s.(db := s.db.(runs := s.db.runs[ctx.run := next.db.runs[ctx.run]]))
                  && var row := next.db.runs[ctx.run];
                  && row == s.db.runs[ctx.run].(status := Interrupted, error := row.error)
                  && row.error.Some? && row.error.value <= error && (|error| <= 1000 ==> row.error.value == error))
  {
  }

  /** A parked run waits for its approval. */
  lemma ParkedRunsWait(cfg: Config, s: Shared, owner: OwnerId, ctx: Ctx, i: Input)
    requires Owns(s.db, owner, ctx.run, Some(ctx.token)) && ctx.token != 0
    ensures var (next, after) := Advance(cfg, s, owner, Parking(ctx), i);
            && after == Idle && next == s.(db := s.db.(runs := next.db.runs))
            && next.db.runs == s.db.runs[ctx.run := s.db.runs[ctx.run].(status := WaitingApproval, error := None)]
  {
  }

  /******* A crash right after a save *******/

  /** The takeover of a starting process leaves the checkpoints, and the run of a crashed worker interrupted. */
  lemma TakeoverInterrupts(db: Db, caller: OwnerId, now: Time, run: RunId)
    requires run in db.runs && db.runs[run].status == Running
    requires db.runs[run].owner == Some(caller) || db.runs[run].lease.None? || db.runs[run].lease.value <= now
    ensures var next := Apply(db, Interrupt(caller, now));
            && next.checkpoints == db.checkpoints && run in next.runs
            && next.runs[run] == db.runs[run].(status := Interrupted, owner := None, lease := None)
  {
  }

  /** Loading and claiming an interrupted run. */
  lemma LoadAndClaim(cfg: Config, s: Shared, owner: OwnerId, run: RunId, state: State, j: Input)
    requires run in s.db.runs && s.db.runs[run].status == Interrupted && state.action != AwaitApproval
    requires var latest := LatestCheckpoint(s.db.checkpoints, run); latest.Some? && latest.value.state == state
    ensures MoveWorker(cfg, s, owner, Idle, Load(run)) == (s, Loaded(run, state))
    ensures var (next, pc) := Advance(cfg, s, owner, Loaded(run, state), j);
            && pc == Claimed(run, FromCheckpoint(state)) && next.approvals == s.approvals
            && run in next.db.runs && next.db.runs[run].status == Running && next.db.runs[run].owner == Some(owner)
            && next.db.runs[run].token == s.db.runs[run].token + 1
  {
  }

  /** The worker saves and crashes, a process starts, and another worker of it takes the run over. */
  function Takeover(
    worker: WorkerId, other: WorkerId, caller: OwnerId, run: RunId, i: Input, now: Time, j: Input): seq<Act>
  {
    [Work(worker, Next(i)), Work(worker, Crash), Store(Interrupt(caller, now)),
     Work(other, Load(run)), Work(other, Next(j)), Work(other, Next(j))]
  }

  /** One step of the world, as a value. */
  ghost predicate IsStep(cfg: Config, step: (World, Act) -> World) {
    forall w, act {:trigger Step(cfg, w, act)} :: step(w, act) == Step(cfg, w, act)
  }

  lemma OneStep(cfg: Config, step: (World, Act) -> World, acts: seq<Act>, w: World, act: Act)
    returns (acts': seq<Act>, w': World)
    requires IsStep(cfg, step) && w == Play(cfg, acts)
    ensures acts' == acts + [act] && w' == step(w, act) && w' == Play(cfg, acts')
  {
    acts', w' := Then(cfg, acts, w, act);
  }

  /** The worlds a history goes through when it is continued. */
  lemma {:induction false} Path(cfg: Config, step: (World, Act) -> World, acts: seq<Act>, more: seq<Act>)
    returns (w: seq<World>)
    requires IsStep(cfg, step)
    ensures |w| == |more| + 1 && w[0] == Play(cfg, acts) && w[|more|] == Play(cfg, acts + more)
    ensures forall k {:trigger step(w[k], more[k])} :: 0 <= k < |more| ==> w[k + 1] == step(w[k], more[k])
    decreases |more|
  {
    if more == [] {
      assert acts + more == acts;
      w := [Play(cfg, acts)];
    } else {
      var front, last := more[..|more| - 1], more[|more| - 1];
      var before := Path(cfg, step, acts, front);
      var _, after := OneStep(cfg, step, acts + front, before[|front|], last);
      assert acts + front + [last] == acts + more;
      w := before + [after];
    }
  }

  lemma SavingIsOwned(cfg: Config, s: Shared, owner: OwnerId, pc: Pc, i: Input)
    requires JustSaved(cfg, s, owner, pc, i)
    ensures Owns(s.db, owner, pc.ctx.run, Some(pc.ctx.token))
  {
  }

  /** What a save leaves in the world. */
  lemma SavedWorld(cfg: Config, step: (World, Act) -> World, w: World, worker: WorkerId, i: Input)
    returns (next: World, c: Checkpoint)
    requires IsStep(cfg, step)
    requires worker in w.workers && JustSaved(cfg, w.shared, w.workers[worker].owner, w.workers[worker].pc, i)
    ensures next == step(w, Work(worker, Next(i)))
    ensures worker in next.workers && next.workers == w.workers[worker := next.workers[worker]]
    ensures next.shared.db == w.shared.db.(checkpoints := w.shared.db.checkpoints + [c])
    ensures var me := w.workers[worker];
            && (next.shared, next.workers[worker].pc) == Advance(cfg, w.shared, me.owner, me.pc, i)
            && c.run == me.pc.ctx.run && c.state.action != AwaitApproval
            && Owns(w.shared.db, me.owner, c.run, Some(me.pc.ctx.token))
  {
    var me := w.workers[worker];
    SavingIsOwned(cfg, w.shared, me.owner, me.pc, i);
    SavedStateLeadsBack(cfg, w.shared, me.owner, me.pc, i, w.shared, me.owner, i);
    next := Step(cfg, w, Work(worker, Next(i)));
    c := next.shared.db.checkpoints[|w.shared.db.checkpoints|];
  }

  lemma SavedLeadsBack(
    cfg: Config, w: World, saved: World, worker: WorkerId, i: Input, c: Checkpoint, later: Shared, caller: OwnerId, j: Input)
    requires worker in w.workers && JustSaved(cfg, w.shared, w.workers[worker].owner, w.workers[worker].pc, i)
    requires worker in saved.workers
    requires var me := w.workers[worker];
             (saved.shared, saved.workers[worker].pc) == Advance(cfg, w.shared, me.owner, me.pc, i)
    requires saved.shared.db.checkpoints == w.shared.db.checkpoints + [c]
    requires c.run == w.workers[worker].pc.ctx.run && c.run in later.db.runs
    ensures Advance(cfg, later, caller, Claimed(c.run, FromCheckpoint(c.state)), j)
         == (later, TakenOver(saved.workers[worker].pc, later.db.runs[c.run].token))
  {
    var me := w.workers[worker];
    SavedStateLeadsBack(cfg, w.shared, me.owner, me.pc, i, later, caller, j);
  }

  /** After the crash and the restart the run is interrupted, and its newest checkpoint is what was saved. */
  lemma CrashAndRestart(
    cfg: Config, step: (World, Act) -> World, w: World, worker: WorkerId, other: WorkerId, c: Checkpoint, now: Time)
    returns (next: World)
    requires IsStep(cfg, step)
    requires worker in w.workers && other in w.workers && worker != other && w.workers[other].pc == Idle
    requires LatestCheckpoint(w.shared.db.checkpoints, c.run) == Some(c)
    requires c.run in w.shared.db.runs
    requires var row := w.shared.db.runs[c.run];
             && row.status == Running
             && (row.owner == Some(w.workers[other].owner) || row.lease.None? || row.lease.value <= now)
    ensures next == step(step(w, Work(worker, Crash)), Store(Interrupt(w.workers[other].owner, now)))
    ensures other in next.workers && next.workers[other] == w.workers[other]
    ensures LatestCheckpoint(next.shared.db.checkpoints, c.run) == Some(c)
    ensures c.run in next.shared.db.runs && next.shared.db.runs[c.run].status == Interrupted
    ensures next.shared.db.runs[c.run].token == w.shared.db.runs[c.run].token
  {
    TakeoverInterrupts(w.shared.db, w.workers[other].owner, now, c.run);
    next := Step(cfg, Step(cfg, w, Work(worker, Crash)), Store(Interrupt(w.workers[other].owner, now)));
  }

  lemma Reclaim(cfg: Config, step: (World, Act) -> World, w: World, other: WorkerId, c: Checkpoint, j: Input)
    returns (next: World)
    requires IsStep(cfg, step)
    requires other in w.workers && w.workers[other].pc == Idle && c.state.action != AwaitApproval
    requires LatestCheckpoint(w.shared.db.checkpoints, c.run) == Some(c)
    requires c.run in w.shared.db.runs && w.shared.db.runs[c.run].status == Interrupted
    ensures next == step(step(w, Work(other, Load(c.run))), Work(other, Next(j)))
    ensures other in next.workers && next.workers[other] == Worker(w.workers[other].owner, Claimed(c.run, FromCheckpoint(c.state)))
    ensures c.run in next.shared.db.runs && next.shared.db.runs[c.run].token == w.shared.db.runs[c.run].token + 1
    ensures Owns(next.shared.db, w.workers[other].owner, c.run, Some(next.shared.db.runs[c.run].token))
  {
    LoadAndClaim(cfg, w.shared, w.workers[other].owner, c.run, c.state, j);
    next := Step(cfg, Step(cfg, w, Work(other, Load(c.run))), Work(other, Next(j)));
  }

  lemma ReadsBack(cfg: Config, step: (World, Act) -> World, w: World, other: WorkerId, j: Input)
    requires IsStep(cfg, step)
    requires other in w.workers && w.workers[other].pc.Claimed?
    ensures var next := step(w, Work(other, Next(j)));
            && other in next.workers
            && (next.shared, next.workers[other].pc) == Advance(cfg, w.shared, w.workers[other].owner, w.workers[other].pc, j)
  {
    var next := Step(cfg, w, Work(other, Next(j)));
  }

  /** The worker is about to save a checkpoint, other than one that waits for an approval, and another worker could take
      its run over if it crashed then: at once if it is of the same process, or else when the lease is over. */
  predicate CanTakeOver(cfg: Config, w: World, worker: WorkerId, other: WorkerId, i: Input, now: Time) {
    && worker in w.workers && other in w.workers && worker != other && w.workers[other].pc == Idle
    && Saves(w.workers[worker].pc) && !w.workers[worker].pc.Gate?
    && Step(cfg, w, Work(worker, Next(i))).shared.db != w.shared.db
    && IsFree(w.shared.db, w.workers[worker].pc.ctx.run, w.workers[other].owner, now)
  }

  predicate IsFree(db: Db, run: RunId, caller: OwnerId, now: Time) {
    run in db.runs
    && (db.runs[run].owner == Some(caller) || db.runs[run].lease.None? || db.runs[run].lease.value <= now)
  }

  /** From the save to the moment when the other worker goes on. */
  lemma FromSaveToResume(
    cfg: Config, step: (World, Act) -> World, w: World, worker: WorkerId, other: WorkerId, i: Input, now: Time, j: Input)
    returns (saved: World, end: World)
    requires IsStep(cfg, step) && worker in w.workers && other in w.workers && worker != other && w.workers[other].pc == Idle
    requires JustSaved(cfg, w.shared, w.workers[worker].owner, w.workers[worker].pc, i)
    requires IsFree(w.shared.db, w.workers[worker].pc.ctx.run, w.workers[other].owner, now)
    ensures var run, caller := w.workers[worker].pc.ctx.run, w.workers[other].owner;
            && saved == step(w, Work(worker, Next(i)))
            && end == step(step(step(step(step(saved, Work(worker, Crash)), Store(Interrupt(caller, now))),
                                     Work(other, Load(run))), Work(other, Next(j))), Work(other, Next(j)))
            && worker in saved.workers && other in end.workers
            && end.workers[other].pc == TakenOver(saved.workers[worker].pc, w.shared.db.runs[run].token + 1)
            && Owns(end.shared.db, caller, run, Some(w.shared.db.runs[run].token + 1))
  {
    var c;
    var run := w.workers[worker].pc.ctx.run;
    saved, c := SavedWorld(cfg, step, w, worker, i);
    LatestOfAppend(w.shared.db.checkpoints, c, run);
    var restarted := CrashAndRestart(cfg, step, saved, worker, other, c, now);
    var claimed := Reclaim(cfg, step, restarted, other, c, j);
    SavedLeadsBack(cfg, w, saved, worker, i, c, claimed.shared, w.workers[other].owner, j);
    ReadsBack(cfg, step, claimed, other, j);
    end := step(claimed, Work(other, Next(j)));
  }

  lemma ReachedSaves(cfg: Config, acts: seq<Act>, worker: WorkerId, other: WorkerId, i: Input, now: Time)
    requires CanTakeOver(cfg, Play(cfg, acts), worker, other, i, now)
    ensures var w := Play(cfg, acts); JustSaved(cfg, w.shared, w.workers[worker].owner, w.workers[worker].pc, i)
  {
    RepliesHold(cfg, acts);
    assert PcReplies(cfg, Play(cfg, acts).shared.heard, Play(cfg, acts).workers[worker].pc);
  }

  lemma StepAsValue(cfg: Config) returns (step: (World, Act) -> World)
    ensures IsStep(cfg, step)
  {
    step := (w: World, act: Act) => Step(cfg, w, act);
  }

  /** In any reachable world: a worker that crashes right after a save loses nothing. The run goes on in other hands exactly
      where the save had led its worker: with the same messages, the same turn, the same calls to make or the same text to
      answer with, under a new token. */
  lemma CrashedRunsGoOnWhereTheyWere(
    cfg: Config, acts: seq<Act>, w: World, worker: WorkerId, other: WorkerId, i: Input, now: Time, j: Input)
    returns (saved: World, end: World)
    requires w == Play(cfg, acts) && CanTakeOver(cfg, w, worker, other, i, now)
    ensures var run, caller := w.workers[worker].pc.ctx.run, w.workers[other].owner;
            && saved == Step(cfg, w, Work(worker, Next(i)))
            && end == Play(cfg, acts + Takeover(worker, other, caller, run, i, now, j))
            && worker in saved.workers && other in end.workers
            && end.workers[other].pc == TakenOver(saved.workers[worker].pc, w.shared.db.runs[run].token + 1)
            && Owns(end.shared.db, caller, run, Some(w.shared.db.runs[run].token + 1))
  {
    var step := StepAsValue(cfg);
    ReachedSaves(cfg, acts, worker, other, i, now);
    var run, caller := w.workers[worker].pc.ctx.run, w.workers[other].owner;
    var a := Takeover(worker, other, caller, run, i, now, j);
    var worlds := Path(cfg, step, acts, a);
    saved, end := FromSaveToResume(cfg, step, w, worker, other, i, now, j);
    assert worlds[1] == step(worlds[0], a[0]) && worlds[2] == step(worlds[1], a[1]) && worlds[3] == step(worlds[2], a[2]);
    assert worlds[4] == step(worlds[3], a[3]) && worlds[5] == step(worlds[4], a[4]) && worlds[6] == step(worlds[5], a[5]);
  }
}
