/** The coordinators around the store: a ledger claim, a handler and a record; a claim and the read that follows it. */
module Coordinators {
  import opened Wrappers
  import opened RunState
  import opened Blocks
  import opened StoreSpec
  import opened StoreHistory
  import opened StoreInvariants
  import opened SessionStore
  import opened ApprovalSpec
  import opened Protocol

  /** An invocation that nothing interrupts: the new database, what the caller gets, and whether the handler ran. */
  function Invoked(
    db: Db, backend: Backend, owner: OwnerId, run: RunId, call: Call, token: nat, handler: Outcome): (Db, Outcome, bool)
  {
    var (claimed, claim) := ClaimTool(db, backend, owner, run, call, Some(token));
    if claim != Execute then (claimed, ClaimResult(claim), false)
    else
      var (next, recorded) := FinishTool(claimed, owner, run, call.id, handler, Some(token));
      (next, RecordedResult(call.id, handler, recorded, false), true)
  }

  class ToolExecutionCoordinator {
    const store: Store

    constructor (store: Store)
      ensures this.store == store
    {
      this.store := store;
    }

    /** `handler` is what the tool would do; it is asked for at most once. */
    method Invoke(run: RunId, call: Call, token: nat, handler: Outcome) returns (r: Outcome, entered: bool)
      modifies store
      ensures (store.Contents(), r, entered)
                == Invoked(old(store.Contents()), store.backend, store.owner, run, call, token, handler)
    {
      var claim := store.ClaimTool(run, call, Some(token));
      if claim != Execute {
        return ClaimResult(claim), false;
      }
      match handler
      case Raised(error) =>
        var recorded := store.FinishTool(run, call.id, handler, Some(token));
        return handler, true;
      case Returned(output) =>
        var recorded := store.FinishTool(run, call.id, handler, Some(token));
        if !recorded {
          return Raised("Failed to persist tool result: " + call.id), true;
        }
        return handler, true;
    }
  }

  /** Without interference an invocation records exactly what the handler did. */
  lemma UninterruptedInvocation(
    db: Db, backend: Backend, owner: OwnerId, run: RunId, call: Call, token: nat, handler: Outcome)
    ensures var (next, r, entered) := Invoked(db, backend, owner, run, call, token, handler);
            && (entered <==> (run, call.id) !in db.tools && Owns(db, owner, run, Some(token)))
            && (entered ==>
                  && r == handler && (run, call.id) in next.tools
                  && var row := next.tools[(run, call.id)];
                  && row.name == call.name && row.input == call.input
                  && match handler
                     case Returned(output) => row.status == ToolCompleted && row.output == Some(output)
                     case Raised(error) => row.status == ToolFailed && row.error == Some(Clip(error)))
            && (!entered ==> next == db)
  {
  }

  /** Whatever happens after an invocation entered its handler, no later invocation of the call enters one again, and
      every later one with the same call gets the recorded output, unless PostgreSQL turns the caller away. */
  lemma SecondInvocationReplays(
    db: Db, backend: Backend, owner: OwnerId, run: RunId, call: Call, token: nat, output: string, ops: seq<Op>,
    owner': OwnerId, token': nat, handler': Outcome)
    requires Invoked(db, backend, owner, run, call, token, Returned(output)).2
    ensures var later := Exec(Invoked(db, backend, owner, run, call, token, Returned(output)).0, ops);
            var (next, r, entered) := Invoked(later, backend, owner', run, call, token', handler');
            && !entered && next == later
            && r == if backend == Postgres && !Owns(later, owner', run, Some(token')) then Raised("Run lease lost")
                    else Returned(output)
  {
    var done := Invoked(db, backend, owner, run, call, token, Returned(output)).0;
    UninterruptedInvocation(db, backend, owner, run, call, token, Returned(output));
    CompletedCallReplays(done, ops, run, call, backend, owner', Some(token'));
  }

  /******* Claiming a run *******/

  class RunCoordinator {
    const store: Store

    constructor (store: Store)
      ensures this.store == store
    {
      this.store := store;
    }

    /** Claims, then reads the row. */
    method ClaimAndRead(run: RunId, expected: set<RunStatus>, now: Time) returns (row: Option<Run>)
      modifies store
      ensures var (db, ok) := ClaimRun(old(store.Contents()), store.owner, run, expected, now + store.leaseSeconds);
              && store.Contents() == db
              && row == if ok then Some(db.runs[run]) else None
    {
      var ok := store.ClaimRun(run, expected, now);
      return if ok then Some(store.runs[run]) else None;
    }

    /** Completion without ownership is an error. */
    method Complete(run: RunId, token: nat, response: string, now: Time) returns (r: Result<(), string>)
      modifies store
      ensures var (db, ok) := CompleteRun(old(store.Contents()), store.owner, run, response, Some(token), now);
              store.Contents() == db && (r.Ok? <==> ok)
    {
      var ok := store.CompleteRun(run, response, Some(token), now);
      return if ok then Ok(()) else Err("Cannot complete run without ownership");
    }

    method InterruptRun(run: RunId, token: nat, error: string)
      modifies store
      ensures store.Contents()
                == TransitionRun(old(store.Contents()), store.owner, run, Interrupted, Some(error), Some(token)).0
    {
      var ok := store.TransitionRun(run, Interrupted, Some(error), Some(token));
    }
  }

  /** Some transaction in between raises the token of the run. */
  predicate Raises(db: Db, ops: seq<Op>, run: RunId)
  {
    ops != [] &&
    (Raises(db, ops[..|ops| - 1], run) || RaisesToken(Exec(db, ops[..|ops| - 1]), ops[|ops| - 1], run))
  }

  /** A later claim of the run, or an admin command that takes effect on it. */
  predicate RaisesToken(db: Db, op: Op, run: RunId) {
    run in db.runs
    && ((op.Claim? && op.run == run && db.runs[run].status in ClaimSources(op.approved))
        || (op.ControlOp? && op.run == run && ControlRun(db, op.tenant, run, op.control).1 == Succeeded))
  }

  lemma {:induction false} TokenKeptExactlyWhen(db: Db, ops: seq<Op>, run: RunId)
    requires run in db.runs
    ensures run in Exec(db, ops).runs
    ensures Exec(db, ops).runs[run].token == db.runs[run].token <==> !Raises(db, ops, run)
  {
    if ops != [] {
      var front, last := ops[..|ops| - 1], ops[|ops| - 1];
      TokenKeptExactlyWhen(db, front, run);
      TokensOnlyGrow(db, front, run);
      TokenStep(Exec(db, front), last, run);
      TokenRisesExactlyWhen(Exec(db, front), last, run);
    }
  }

  /** The read that follows a claim gives the claimed token exactly when nothing raised it in between. */
  lemma ReadBackGivesTheClaimedTokenExactlyWhen(
    db: Db, owner: OwnerId, run: RunId, expected: set<RunStatus>, lease: Time, ops: seq<Op>)
    requires ClaimRun(db, owner, run, expected, lease).1
    ensures var claimed := ClaimRun(db, owner, run, expected, lease).0;
            var read := Exec(claimed, ops);
            && run in read.runs
            && (read.runs[run].token == db.runs[run].token + 1 <==> !Raises(claimed, ops, run))
            && (!Raises(claimed, ops, run) ==> read.runs[run].owner in {Some(owner), None})
  {
    var claimed := ClaimRun(db, owner, run, expected, lease).0;
    TokenKeptExactlyWhen(claimed, ops, run);
    TokensOnlyGrow(claimed, ops, run);
  }

  /******* One process can share a token *******/

  const ALLOW_ALL: Config := Config(Sqlite, c => Allow, true, 5)
  const SOME_INPUT := Input(1, 100, 9, 100, [], Raised("network"), false)
  const FIRST_STATE := SOME_START.state.(messages := [Dict("user", "hi", None)])

  /** One run, held by process 7 if anyone holds it, with its first checkpoint. */
  predicate OneRun(w: World, status: RunStatus, token: nat) {
    && w.shared.approvals == NO_APPROVALS && w.shared.issued == map[] && 0 in w.shared.db.runs
    && w.shared.db.runs[0].session == SOME_SESSION && w.shared.db.runs[0].status == status
    && w.shared.db.runs[0].token == token && (status == Running ==> w.shared.db.runs[0].owner == Some(7))
    && w.shared.db.checkpoints == [Checkpoint(0, 1, "inbound_started", FIRST_STATE, 0)]
  }

  function Two(first: Pc, second: Pc): map<WorkerId, Worker> {
    map[1 := Worker(7, first), 2 := Worker(7, second)]
  }

  lemma FirstHistory()
    ensures History([Message(1, SOME_SESSION, 0, "user", "hi", 0)], SOME_SESSION, 20) == FIRST_STATE.messages
  {
    var messages := [Message(1, SOME_SESSION, 0, "user", "hi", 0)];
    assert messages[..|messages| - 1] == [];
    assert History([], SOME_SESSION, 19) + FIRST_STATE.messages == FIRST_STATE.messages;
  }

  lemma ReachStart() returns (acts: seq<Act>, w: World)
    ensures w == Play(ALLOW_ALL, acts) && OneRun(w, Running, 1)
    ensures w.workers == Two(Building(Ctx(0, 1, FIRST_STATE.messages, 0, false, Some(SOME_SENDER))), Idle)
  {
    acts, w := [], INITIAL_WORLD;
    acts, w := Then(ALLOW_ALL, acts, w, Spawn(1, 7));
    acts, w := Then(ALLOW_ALL, acts, w, Spawn(2, 7));
    acts, w := Then(ALLOW_ALL, acts, w, Work(1, Begin(SOME_START, 0, 0, 100)));
    assert w.shared.db.messages == [Message(1, SOME_SESSION, 0, "user", "hi", 0)];
    FirstHistory();
  }

  lemma ReachTurn() returns (acts: seq<Act>, w: World)
    ensures w == Play(ALLOW_ALL, acts) && OneRun(w, Running, 1)
    ensures w.workers == Two(Turn(Ctx(0, 1, FIRST_STATE.messages, 0, true, Some(SOME_SENDER))), Idle)
  {
    acts, w := ReachStart();
    acts, w := Then(ALLOW_ALL, acts, w, Work(1, Next(SOME_INPUT)));
  }

  lemma ReachRaising() returns (acts: seq<Act>, w: World)
    ensures w == Play(ALLOW_ALL, acts) && OneRun(w, Running, 1)
    ensures w.workers == Two(Raising(Ctx(0, 1, FIRST_STATE.messages, 0, true, Some(SOME_SENDER))), Idle)
  {
    acts, w := ReachTurn();
    acts, w := Then(ALLOW_ALL, acts, w, Work(1, Fail));
  }

  /** The first worker fails, which interrupts the run. */
  lemma ReachFailure() returns (acts: seq<Act>, w: World)
    ensures w == Play(ALLOW_ALL, acts) && OneRun(w, Interrupted, 1) && w.workers == Two(Idle, Idle)
  {
    acts, w := ReachRaising();
    acts, w := Then(ALLOW_ALL, acts, w, Work(1, Next(SOME_INPUT)));
  }

  /** Both workers load its checkpoint. */
  lemma ReachBothLoaded() returns (acts: seq<Act>, w: World)
    ensures w == Play(ALLOW_ALL, acts) && OneRun(w, Interrupted, 1)
    ensures w.workers == Two(Loaded(0, FIRST_STATE), Loaded(0, FIRST_STATE))
  {
    acts, w := ReachFailure();
    acts, w := Then(ALLOW_ALL, acts, w, Work(1, Load(0)));
    acts, w := Then(ALLOW_ALL, acts, w, Work(2, Load(0)));
  }

  /** The first one claims the run, an administrator pauses it, the second one claims it again. */
  lemma ReachBothClaimed() returns (acts: seq<Act>, w: World)
    ensures w == Play(ALLOW_ALL, acts) && OneRun(w, Running, 4)
    ensures w.workers == Two(Claimed(0, FromCheckpoint(FIRST_STATE)), Claimed(0, FromCheckpoint(FIRST_STATE)))
  {
    acts, w := ReachBothLoaded();
    acts, w := Then(ALLOW_ALL, acts, w, Work(1, Next(SOME_INPUT)));
    assert OneRun(w, Running, 2);
    acts, w := Then(ALLOW_ALL, acts, w, Store(ControlOp("t", 0, Pause)));
    assert OneRun(w, Interrupted, 3);
    acts, w := Then(ALLOW_ALL, acts, w, Work(2, Next(SOME_INPUT)));
  }

  /** Only now both read the row: two workers of one process go on with the run under the same token, and the store
      takes either for its owner. */
  lemma OneProcessCanShareAToken() returns (acts: seq<Act>)
    ensures var w := Play(ALLOW_ALL, acts);
            && 1 in w.workers && 2 in w.workers && w.workers[1].pc.Turn? && w.workers[2].pc.Turn?
            && var first, second := w.workers[1], w.workers[2];
            && first.pc.ctx.run == second.pc.ctx.run && first.pc.ctx.token == second.pc.ctx.token
            && Owns(w.shared.db, first.owner, first.pc.ctx.run, Some(first.pc.ctx.token))
            && Owns(w.shared.db, second.owner, second.pc.ctx.run, Some(second.pc.ctx.token))
  {
    var w;
    acts, w := ReachBothClaimed();
    acts, w := Then(ALLOW_ALL, acts, w, Work(1, Next(SOME_INPUT)));
    acts, w := Then(ALLOW_ALL, acts, w, Work(2, Next(SOME_INPUT)));
  }
}
