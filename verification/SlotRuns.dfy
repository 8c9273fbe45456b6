/** Dispatches, executions, restarts and recoveries over the session database: a slot has at most one run. */
module SlotRuns {
  import opened Wrappers
  import opened StoreSpec
  import opened StoreHistory
  import opened StoreInvariants
  import opened IsoTime
  import opened Scheduler

  /** An execution or recovery of a trigger starts a turn whose inbound message is the trigger. */
  datatype Act =
    | Transaction(op: Op)
    | Dispatch(schedules: seq<Schedule>, at: Utc, outcomes: TriggerId -> Ending)
    | Turn(trigger: TriggerId, caller: OwnerId, req: InboundRequest, id: RunId, now: Time, lease: Time)
    | SetStatus(settled: TriggerId, outcome: Ending)

  /** `started` says for which trigger the executions and recoveries started a run. */
  datatype Snapshot = Snapshot(triggers: map<TriggerId, Trigger>, db: Db, started: map<RunId, TriggerId>)

  function InboundOf(trigger: TriggerId): InboundKey {
    InboundKey("task", trigger)
  }

  function Next(s: Snapshot, act: Act): Snapshot {
    match act
    case Transaction(op) => s.(db := Apply(s.db, op))
    case Dispatch(schedules, at, outcomes) =>
      if Valid(at) then s.(triggers := Dispatched(schedules, s.triggers, at, outcomes).0) else s
    case Turn(trigger, caller, req, id, now, lease) =>
      if trigger in s.triggers && req.identity.Key() == InboundOf(trigger)
      then Turned(s, trigger, caller, req, id, now, lease) else s
    case SetStatus(id, outcome) =>
      if id in s.triggers then s.(triggers := s.triggers[id := Finished(s.triggers[id], outcome)]) else s
  }

  /** A turn starts a run unless its message already has one. */
  function Turned(
    s: Snapshot, trigger: TriggerId, caller: OwnerId, req: InboundRequest, id: RunId, now: Time, lease: Time): Snapshot
  {
    var db := Apply(s.db, Start(caller, req, id, now, lease));
    s.(db := db, started := if id in db.runs && id !in s.db.runs then s.started[id := trigger] else s.started)
  }

  function Play(acts: seq<Act>): Snapshot {
    if acts == [] then Snapshot(map[], EMPTY_DB, map[]) else Next(Play(acts[..|acts| - 1]), acts[|acts| - 1])
  }

  /** The runs that were started are those of trigger rows that are there. */
  predicate StartedOk(s: Snapshot) {
    forall r :: r in s.started ==>
      s.started[r] in s.triggers && r in s.db.runs && s.db.runs[r].inbound == InboundOf(s.started[r])
  }

  predicate Sound(s: Snapshot) {
    WellKeyed(s.triggers) && Inv(s.db) && StartedOk(s)
  }

  lemma RunsKeepTheirMessage(s: Snapshot, op: Op)
    requires StartedOk(s)
    ensures StartedOk(s.(db := Apply(s.db, op)))
  {
    forall r | r in s.started
      ensures r in Apply(s.db, op).runs && Apply(s.db, op).runs[r].inbound == s.db.runs[r].inbound
    {
      RunsStay(s.db, op, r);
    }
  }

  lemma TurnKeepsStarted(
    s: Snapshot, trigger: TriggerId, caller: OwnerId, req: InboundRequest, id: RunId, now: Time, lease: Time)
    requires StartedOk(s) && trigger in s.triggers && req.identity.Key() == InboundOf(trigger)
    ensures StartedOk(Turned(s, trigger, caller, req, id, now, lease))
  {
    RunsKeepTheirMessage(s, Start(caller, req, id, now, lease));
  }

  lemma StoreStep(db: Db, op: Op)
    requires Inv(db)
    ensures Inv(Apply(db, op))
  {
    InboundStep(db, op);
    OrderStep(db, op);
    ReferenceStep(db, op);
  }

  lemma {:induction false} SlotsHold(acts: seq<Act>)
    ensures Sound(Play(acts))
  {
    if acts == [] {
      Reachable([]);
    } else {
      var s, act := Play(acts[..|acts| - 1]), acts[|acts| - 1];
      SlotsHold(acts[..|acts| - 1]);
      match act
      case Transaction(op) =>
        StoreStep(s.db, op);
        RunsKeepTheirMessage(s, op);
      case Dispatch(schedules, at, outcomes) =>
        if Valid(at) { DispatchAddsNewTriggers(schedules, s.triggers, at, outcomes); }
      case Turn(trigger, caller, req, id, now, lease) =>
        StoreStep(s.db, Start(caller, req, id, now, lease));
        if trigger in s.triggers && req.identity.Key() == InboundOf(trigger) {
          TurnKeepsStarted(s, trigger, caller, req, id, now, lease);
        }
      case SetStatus(_, _) =>
    }
  }

  /** A trigger row of a schedule and minute. */
  predicate IsTriggerFor(s: Snapshot, id: TriggerId, schedule: string, at: Utc) {
    id in s.triggers && s.triggers[id].schedule == schedule && s.triggers[id].slot == Slot(at)
  }

  /** A run that an execution or a recovery started for a schedule and minute. */
  predicate IsRunFor(s: Snapshot, run: RunId, schedule: string, at: Utc) {
    run in s.started && IsTriggerFor(s, s.started[run], schedule, at)
  }

  /** In every reachable state, two trigger rows of one schedule and minute are the same row. */
  lemma OneTriggerPerSlot(acts: seq<Act>, schedule: string, a: Utc, b: Utc, t: TriggerId, t': TriggerId)
    requires Valid(a) && Valid(b) && SameMinute(a, b)
    ensures IsTriggerFor(Play(acts), t, schedule, a) && IsTriggerFor(Play(acts), t', schedule, b) ==> t == t'
  {
    SlotsHold(acts);
    SlotsAreMinutes(a, b);
  }

  /** Every run that was ever started by a dispatch or a recovery belongs to a trigger row that is there, of one schedule
      and minute, and to that row's message; and no other run of that message exists. */
  lemma StartedRunsHaveTriggers(acts: seq<Act>, run: RunId)
    requires run in Play(acts).started
    ensures var s := Play(acts);
            var id := s.started[run];
            && id in s.triggers && id == IdOf(s.triggers[id].schedule, s.triggers[id].slot)
            && run in s.db.runs && s.db.runs[run].inbound == InboundOf(id)
            && forall other :: other in s.db.runs && s.db.runs[other].inbound == InboundOf(id) ==> other == run
  {
    SlotsHold(acts);
  }

  /** Two runs started for one schedule and minute, by whatever dispatches and recoveries, are the same run. */
  lemma OneRunPerSlot(acts: seq<Act>, schedule: string, a: Utc, b: Utc, r: RunId, r': RunId)
    requires Valid(a) && Valid(b) && SameMinute(a, b)
    ensures IsRunFor(Play(acts), r, schedule, a) && IsRunFor(Play(acts), r', schedule, b) ==> r == r'
  {
    if IsRunFor(Play(acts), r, schedule, a) && IsRunFor(Play(acts), r', schedule, b) {
      OneTriggerPerSlot(acts, schedule, a, b, Play(acts).started[r], Play(acts).started[r']);
      StartedRunsHaveTriggers(acts, r);
      StartedRunsHaveTriggers(acts, r');
    }
  }

  lemma {:induction false} TriggersStay(acts: seq<Act>, n: nat, id: TriggerId)
    requires n <= |acts| && id in Play(acts[..n]).triggers
    ensures id in Play(acts).triggers
    ensures Play(acts).triggers[id].schedule == Play(acts[..n]).triggers[id].schedule
    ensures Play(acts).triggers[id].slot == Play(acts[..n]).triggers[id].slot
    decreases |acts|
  {
    if n == |acts| {
      assert acts[..n] == acts;
    } else {
      var front := acts[..|acts| - 1];
      assert front[..n] == acts[..n];
      TriggersStay(front, n, id);
      SlotsHold(front);
      if acts[|acts| - 1].Dispatch? && Valid(acts[|acts| - 1].at) {
        var d := acts[|acts| - 1];
        DispatchAddsNewTriggers(d.schedules, Play(front).triggers, d.at, d.outcomes);
      }
    }
  }

  /** A trigger is dispatched at most once over any history, restarts included. */
  lemma DispatchedOnce(
    acts: seq<Act>, n: nat, id: TriggerId, schedules: seq<Schedule>, at: Utc, outcomes: TriggerId -> Ending)
    requires n < |acts| && acts[n].Dispatch? && Valid(acts[n].at) && Valid(at)
    requires id in Dispatched(acts[n].schedules, Play(acts[..n]).triggers, acts[n].at, acts[n].outcomes).1
    ensures id !in Play(acts[..n]).triggers
    ensures id !in Dispatched(schedules, Play(acts).triggers, at, outcomes).1
  {
    SlotsHold(acts[..n]);
    DispatchAddsNewTriggers(acts[n].schedules, Play(acts[..n]).triggers, acts[n].at, acts[n].outcomes);
    assert acts[..n + 1][..n] == acts[..n];
    assert id in Play(acts[..n + 1]).triggers;
    TriggersStay(acts, n + 1, id);
    SlotsHold(acts);
    DispatchAddsNewTriggers(schedules, Play(acts).triggers, at, outcomes);
  }
}
