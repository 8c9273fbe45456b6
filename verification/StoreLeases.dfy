/** Leases: a starting process takes over exactly the runs that nobody holds any longer. */
module StoreLeases {
  import opened Wrappers
  import opened RunState
  import opened Blocks
  import opened StoreSpec
  import opened StoreHistory

  /** A takeover changes no run that is not running; of the running ones it changes those of the starting process and
      those without a lease, and one of another process exactly when its lease is over. A changed row is interrupted
      and belongs to nobody, and is otherwise as before. */
  lemma TakeoverExactlyWhen(db: Db, caller: OwnerId, now: Time, run: RunId)
    requires run in db.runs
    ensures var next := InterruptIncomplete(db, caller, now);
            && next == db.(runs := next.runs) && next.runs.Keys == db.runs.Keys
            && var before, after := db.runs[run], next.runs[run];
            && (before.status != Running ==> after == before)
            && (before.status == Running && (before.owner == Some(caller) || before.lease.None?) ==> after != before)
            && (before.status == Running && before.owner != Some(caller) && before.lease.Some? ==>
                  (after != before <==> before.lease.value <= now))
            && (after != before ==>
                  after.status == Interrupted && after.owner == None && after.lease == None
                  && after.session == before.session && after.inbound == before.inbound && after.error == before.error
                  && after.token == before.token)
  {
  }

  /** A start, a claim or a renewal that gives a process the run until some time. */
  function Granted(db: Db, op: Op, run: RunId): Option<Time> {
    match op
    case Start(_, req, id, _, lease) =>
      if id == run && run !in db.runs && req.identity.Key() !in db.inbound then Some(lease) else None
    case Claim(_, r, approved, lease) =>
      if r == run && run in db.runs
         && (db.runs[run].status == Interrupted || (approved && db.runs[run].status == WaitingApproval))
      then Some(lease) else None
    case Renew(caller, r, token, lease) =>
      if r == run && run in db.runs && db.runs[run].status == Running && db.runs[run].owner == Some(caller)
         && db.runs[run].token == token
      then Some(lease) else None
    case _ => None
  }

  /** The time until which the run was last given to a process. */
  function LastGranted(ops: seq<Op>, run: RunId): Option<Time> {
    if ops == [] then None
    else
      var now := Granted(Exec(EMPTY_DB, ops[..|ops| - 1]), ops[|ops| - 1], run);
      if now.Some? then now else LastGranted(ops[..|ops| - 1], run)
  }

  /** A lease is given and taken away together with the owner, and is the last one given. */
  predicate LeaseOk(row: Run, granted: Option<Time>) {
    (row.owner.Some? <==> row.lease.Some?) && (row.lease.Some? ==> row.lease == granted)
  }

  lemma LeaseStep(db: Db, op: Op, run: RunId, granted: Option<Time>)
    requires run in db.runs ==> LeaseOk(db.runs[run], granted)
    ensures var now := Granted(db, op, run);
            run in Apply(db, op).runs ==> LeaseOk(Apply(db, op).runs[run], if now.Some? then now else granted)
  {
  }

  lemma {:induction false} LeasesHold(ops: seq<Op>, run: RunId)
    ensures run in Exec(EMPTY_DB, ops).runs ==> LeaseOk(Exec(EMPTY_DB, ops).runs[run], LastGranted(ops, run))
  {
    if ops != [] {
      LeasesHold(ops[..|ops| - 1], run);
      LeaseStep(Exec(EMPTY_DB, ops[..|ops| - 1]), ops[|ops| - 1], run, LastGranted(ops[..|ops| - 1], run));
    }
  }

  /** After any history, another process that starts takes over a held run if and only if the time until which its holder
      last got or renewed it is over. */
  lemma HeldRunsAreTakenOverExactlyWhen(ops: seq<Op>, run: RunId, holder: OwnerId, caller: OwnerId, now: Time)
    requires run in Exec(EMPTY_DB, ops).runs && caller != holder
    requires Exec(EMPTY_DB, ops).runs[run].status == Running && Exec(EMPTY_DB, ops).runs[run].owner == Some(holder)
    ensures var until := LastGranted(ops, run);
            var row := Exec(EMPTY_DB, ops).runs[run];
            var after := Exec(EMPTY_DB, ops + [Interrupt(caller, now)]).runs;
            && until.Some? && run in after
            && after[run] == if until.value <= now then row.(status := Interrupted, owner := None, lease := None) else row
  {
    LeasesHold(ops, run);
    assert (ops + [Interrupt(caller, now)])[..|ops|] == ops;
    TakeoverExactlyWhen(Exec(EMPTY_DB, ops), caller, now, run);
  }
}
