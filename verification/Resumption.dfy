/** What a run is resumed from: its newest checkpoint at the time it was loaded, which need not be the newest one any
    more when the run is claimed. */
module Resumption {
  import opened Wrappers
  import opened RunState
  import opened Blocks
  import opened StoreSpec
  import opened StoreHistory
  import opened StoreInvariants
  import opened Protocol
  import opened AtMostOnce
  import opened Coordinators

  /******* The newest checkpoint *******/

  /** The last row of a run in the order of the table, if it has one. */
  lemma {:induction false} LastRowOfRun(checkpoints: seq<Checkpoint>, run: RunId)
    ensures var latest := LatestCheckpoint(checkpoints, run);
            && (latest.None? <==> forall c :: c in checkpoints ==> c.run != run)
            && (latest.Some? ==>
                  exists k :: 0 <= k < |checkpoints| && checkpoints[k] == latest.value && latest.value.run == run
                              && forall j :: k < j < |checkpoints| ==> checkpoints[j].run != run)
  {
    if checkpoints != [] {
      var last := |checkpoints| - 1;
      LastRowOfRun(checkpoints[..last], run);
      assert checkpoints[last] in checkpoints;
      if checkpoints[last].run != run && LatestCheckpoint(checkpoints, run).Some? {
        var front, latest := checkpoints[..last], LatestCheckpoint(checkpoints, run).value;
        var k :| 0 <= k < |front| && front[k] == latest && forall j :: k < j < |front| ==> front[j].run != run;
        assert checkpoints[k] == latest;
        forall j | k < j < |checkpoints| ensures checkpoints[j].run != run {
          assert j < last ==> front[j] == checkpoints[j];
        }
      }
    }
  }

  /** It has the highest sequence of its run. */
  lemma LatestIsNewest(db: Db, run: RunId)
    requires OrderInv(db)
    ensures var latest := LatestCheckpoint(db.checkpoints, run);
            && (latest.None? <==> forall c :: c in db.checkpoints ==> c.run != run)
            && (latest.Some? ==>
                  && latest.value in db.checkpoints && latest.value.run == run
                  && latest.value.sequence == MaxSequence(db.checkpoints, run)
                  && forall c :: c in db.checkpoints && c.run == run && c != latest.value ==>
                       c.sequence < latest.value.sequence)
  {
    LastRowOfRun(db.checkpoints, run);
    var latest := LatestCheckpoint(db.checkpoints, run);
    if latest.Some? {
      var k :| 0 <= k < |db.checkpoints| && db.checkpoints[k] == latest.value
               && forall j :: k < j < |db.checkpoints| ==> db.checkpoints[j].run != run;
      forall c | c in db.checkpoints && c.run == run && c != latest.value ensures c.sequence < latest.value.sequence {
        var j :| 0 <= j < |db.checkpoints| && db.checkpoints[j] == c;
      }
      MaxSequenceBounds(db.checkpoints, run);
      MaxIsTaken(db.checkpoints, run);
    }
  }

  lemma {:induction false} MaxIsTaken(checkpoints: seq<Checkpoint>, run: RunId)
    ensures MaxSequence(checkpoints, run) > 0 ==>
              exists c :: c in checkpoints && c.run == run && c.sequence == MaxSequence(checkpoints, run)
  {
    if checkpoints != [] {
      var front, last := checkpoints[..|checkpoints| - 1], checkpoints[|checkpoints| - 1];
      MaxIsTaken(front, run);
      if MaxSequence(checkpoints, run) == MaxSequence(front, run) && MaxSequence(checkpoints, run) > 0 {
        var c :| c in front && c.run == run && c.sequence == MaxSequence(front, run);
        assert c in checkpoints;
      } else {
        assert last in checkpoints;
      }
    }
  }

  /** A worker that loads a run in any reachable world gets the state of the newest checkpoint of that run, and nothing
      if and only if there is none. */
  lemma LoadFindsTheNewest(cfg: Config, acts: seq<Act>, worker: WorkerId, run: RunId)
    requires worker in Play(cfg, acts).workers && Play(cfg, acts).workers[worker].pc == Idle
    ensures var w, next := Play(cfg, acts), Play(cfg, acts + [Work(worker, Load(run))]);
            && next.shared == w.shared && worker in next.workers
            && match next.workers[worker].pc
               case Idle => forall c :: c in w.shared.db.checkpoints ==> c.run != run
               case Loaded(r, state) =>
                 r == run
                 && exists c :: c in w.shared.db.checkpoints && c.run == run && c.state == state
                                && forall other :: other in w.shared.db.checkpoints && other.run == run && other != c ==>
                                     other.sequence < c.sequence
               case _ => false
  {
    var w := Play(cfg, acts);
    var ops := ProtocolIsStoreHistory(cfg, acts, 0);
    assert acts[..0] == [];
    Reachable(ops);
    LatestIsNewest(w.shared.db, run);
    assert (acts + [Work(worker, Load(run))])[..|acts|] == acts;
  }

  /******* Between loading and claiming *******/

  /** The transaction saves a checkpoint of the run. */
  predicate SavesFor(db: Db, op: Op, run: RunId) {
    (op.Save? && op.run == run && Owns(db, op.caller, run, op.token))
    || (op.Start? && op.id == run && run !in db.runs && op.req.identity.Key() !in db.inbound)
  }

  predicate SavedSince(db: Db, ops: seq<Op>, run: RunId) {
    ops != []
    && (SavedSince(db, ops[..|ops| - 1], run) || SavesFor(Exec(db, ops[..|ops| - 1]), ops[|ops| - 1], run))
  }

  lemma LatestOfAppend(checkpoints: seq<Checkpoint>, c: Checkpoint, run: RunId)
    ensures LatestCheckpoint(checkpoints + [c], run) == if c.run == run then Some(c) else LatestCheckpoint(checkpoints, run)
  {
    assert (checkpoints + [c])[..|checkpoints|] == checkpoints;
  }

  lemma OneSave(db: Db, op: Op, run: RunId)
    requires !op.PurgeOp?
    ensures var next := Apply(db, op).checkpoints;
            && (!SavesFor(db, op, run) ==> LatestCheckpoint(next, run) == LatestCheckpoint(db.checkpoints, run))
            && (SavesFor(db, op, run) ==>
                  |next| == |db.checkpoints| + 1 && LatestCheckpoint(next, run) == Some(next[|db.checkpoints|]))
            && db.checkpoints <= next
  {
    if LeavesLogs(op) {
      LeavesLogsAlone(db, op);
    } else {
      var next := Apply(db, op).checkpoints;
      if next != db.checkpoints {
        var c := next[|db.checkpoints|];
        assert next == db.checkpoints + [c];
        LatestOfAppend(db.checkpoints, c, run);
      }
    }
  }

  lemma {:induction false} NewestStaysExactlyWhen(db: Db, ops: seq<Op>, run: RunId, c: Checkpoint)
    requires OrderInv(db) && ReferenceInv(db) && LatestCheckpoint(db.checkpoints, run) == Some(c)
    requires forall op :: op in ops ==> !op.PurgeOp?
    ensures var later := Exec(db, ops);
            && OrderInv(later) && ReferenceInv(later) && db.checkpoints <= later.checkpoints
            && (LatestCheckpoint(later.checkpoints, run) == Some(c) <==> !SavedSince(db, ops, run))
            && (SavedSince(db, ops, run) ==>
                  LatestCheckpoint(later.checkpoints, run).Some?
                  && LatestCheckpoint(later.checkpoints, run).value.sequence > c.sequence)
  {
    if ops != [] {
      var front, op := ops[..|ops| - 1], ops[|ops| - 1];
      var before := Exec(db, front);
      assert forall o :: o in front ==> o in ops;
      NewestStaysExactlyWhen(db, front, run, c);
      OneSave(before, op, run);
      OrderStep(before, op);
      ReferenceStep(before, op);
      var next := Apply(before, op);
      if SavesFor(before, op, run) {
        LatestIsNewest(next, run);
        LatestIsNewest(db, run);
        assert c in next.checkpoints;
        var newest := next.checkpoints[|before.checkpoints|];
        var k :| 0 <= k < |db.checkpoints| && db.checkpoints[k] == c;
        assert next.checkpoints[k] == c;
      }
    }
  }

  /** What a worker loaded is still the newest checkpoint at any later moment if and only if nobody saved one for the run
      since, as long as retention removes none. */
  lemma LoadedIsStillNewestExactlyWhen(cfg: Config, acts: seq<Act>, n: nat, worker: WorkerId, run: RunId)
    returns (ops: seq<Op>)
    requires n <= |acts| && worker in Play(cfg, acts[..n]).workers && Play(cfg, acts[..n]).workers[worker].pc == Idle
    requires Step(cfg, Play(cfg, acts[..n]), Work(worker, Load(run))).workers[worker].pc.Loaded?
    ensures var db := Play(cfg, acts[..n]).shared.db;
            var loaded := LatestCheckpoint(db.checkpoints, run);
            && Play(cfg, acts).shared.db == Exec(db, ops)
            && loaded.Some?
            && Step(cfg, Play(cfg, acts[..n]), Work(worker, Load(run))).workers[worker].pc == Loaded(run, loaded.value.state)
            && ((forall op :: op in ops ==> !op.PurgeOp?) ==>
                  (LatestCheckpoint(Play(cfg, acts).shared.db.checkpoints, run) == loaded <==> !SavedSince(db, ops, run)))
  {
    ops := ProtocolIsStoreHistory(cfg, acts, n);
    var before := ProtocolIsStoreHistory(cfg, acts[..n], 0);
    assert acts[..n][..0] == [];
    Reachable(before);
    var db := Play(cfg, acts[..n]).shared.db;
    if forall op :: op in ops ==> !op.PurgeOp? {
      NewestStaysExactlyWhen(db, ops, run, LatestCheckpoint(db.checkpoints, run).value);
    }
  }

  /******* A stale resume *******/

  const CALLED := FIRST_STATE.messages + [ToolUse(SOME_CALL)]

  predicate Saved(w: World, status: RunStatus, token: nat) {
    && w.shared.approvals.rows == map[] && 0 in w.shared.db.runs && w.shared.db.runs[0].status == status
    && w.shared.db.runs[0].token == token && (status == Running ==> w.shared.db.runs[0].owner == Some(7))
  }

  predicate NewestHasCall(w: World) {
    var latest := LatestCheckpoint(w.shared.db.checkpoints, 0);
    latest.Some? && latest.value.state.action == Tools && latest.value.state.remaining == [SOME_CALL]
    && latest.value.state.messages == CALLED
  }

  lemma ReachLoaded() returns (acts: seq<Act>, w: World)
    ensures w == Play(ALLOW_ALL, acts) && Saved(w, Running, 1) && w.shared.issued == map[]
    ensures w.workers == Two(Turn(Ctx(0, 1, FIRST_STATE.messages, 0, true, Some(SOME_SENDER))), Loaded(0, FIRST_STATE))
  {
    acts, w := ReachTurn();
    acts, w := Then(ALLOW_ALL, acts, w, Work(2, Load(0)));
  }

  /** The first worker asks the model. */
  lemma ReachAsking() returns (acts: seq<Act>, w: World)
    ensures w == Play(ALLOW_ALL, acts) && Saved(w, Running, 1) && w.shared.issued == map[]
    ensures w.workers == Two(Asking(Ctx(0, 1, FIRST_STATE.messages, 0, true, Some(SOME_SENDER))), Loaded(0, FIRST_STATE))
  {
    acts, w := ReachLoaded();
    OnlyDictsTrimThemselves(FIRST_STATE.messages);
    acts, w := Then(ALLOW_ALL, acts, w, Work(1, Next(SOME_INPUT.(blocks := FIRST_STATE.messages))));
  }

  lemma ReachCall() returns (acts: seq<Act>, w: World)
    ensures w == Play(ALLOW_ALL, acts) && Saved(w, Running, 1)
    ensures w.workers == Two(Batch(Ctx(0, 1, CALLED, 1, true, Some(SOME_SENDER)), [SOME_CALL]), Loaded(0, FIRST_STATE))
  {
    acts, w := ReachAsking();
    assert CallsIn([ToolUse(SOME_CALL)]) == [SOME_CALL] by { assert [ToolUse(SOME_CALL)][1..] == []; }
    acts, w := Then(ALLOW_ALL, acts, w, Work(1, Next(SOME_INPUT.(blocks := [ToolUse(SOME_CALL)]))));
    assert w.workers[1].pc == Batch(Ctx(0, 1, CALLED, 1, true, Some(SOME_SENDER)), [SOME_CALL]);
  }

  /** The model answers with a call, and the first worker saves that. */
  lemma ReachSavedCall() returns (acts: seq<Act>, w: World)
    ensures w == Play(ALLOW_ALL, acts) && Saved(w, Running, 1) && NewestHasCall(w)
    ensures w.workers == Two(Calls(Ctx(0, 1, CALLED, 1, true, Some(SOME_SENDER)), [SOME_CALL]), Loaded(0, FIRST_STATE))
  {
    var before;
    acts, before := ReachCall();
    acts, w := Then(ALLOW_ALL, acts, before, Work(1, Next(SOME_INPUT)));
    LatestOfAppend(before.shared.db.checkpoints, w.shared.db.checkpoints[|before.shared.db.checkpoints|], 0);
  }

  lemma ReachFailing() returns (acts: seq<Act>, w: World)
    ensures w == Play(ALLOW_ALL, acts) && Saved(w, Running, 1) && NewestHasCall(w)
    ensures w.workers == Two(Raising(Ctx(0, 1, CALLED, 1, true, Some(SOME_SENDER))), Loaded(0, FIRST_STATE))
  {
    acts, w := ReachSavedCall();
    acts, w := Then(ALLOW_ALL, acts, w, Work(1, Fail));
  }

  /** Then it fails, which interrupts the run. */
  lemma ReachInterrupted() returns (acts: seq<Act>, w: World)
    ensures w == Play(ALLOW_ALL, acts) && Saved(w, Interrupted, 1) && NewestHasCall(w)
    ensures w.workers == Two(Idle, Loaded(0, FIRST_STATE))
  {
    acts, w := ReachFailing();
    acts, w := Then(ALLOW_ALL, acts, w, Work(1, Next(SOME_INPUT)));
  }

  lemma ReachStaleClaim() returns (acts: seq<Act>, w: World)
    ensures w == Play(ALLOW_ALL, acts) && Saved(w, Running, 2) && NewestHasCall(w)
    ensures w.workers == Two(Idle, Claimed(0, FromCheckpoint(FIRST_STATE)))
  {
    acts, w := ReachInterrupted();
    acts, w := Then(ALLOW_ALL, acts, w, Work(2, Next(SOME_INPUT)));
  }

  /** A worker that loaded a run while another one was still going on with it claims it after that one was interrupted: it
      starts over from the first message, although the newest checkpoint has a call to execute. */
  lemma ResumeCanFallBehind() returns (acts: seq<Act>)
    ensures var w := Play(ALLOW_ALL, acts);
            && 2 in w.workers && w.workers[2].pc.Turn? && w.workers[2].pc.ctx.msgs == FIRST_STATE.messages
            && Owns(w.shared.db, w.workers[2].owner, 0, Some(w.workers[2].pc.ctx.token))
            && NewestHasCall(w)
  {
    var w;
    acts, w := ReachStaleClaim();
    acts, w := Then(ALLOW_ALL, acts, w, Work(2, Next(SOME_INPUT)));
  }
}
