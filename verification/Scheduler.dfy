/** Cron dispatch: a trigger row per schedule and minute, and an execution per trigger row. */
module Scheduler {
  import opened Wrappers
  import opened IsoTime
  import Tasks = TaskSpec

  type TriggerId = string

  /** A parsed cron field. */
  datatype Field = Every | Step(n: nat) | OneOf(values: set<nat>)

  datatype Cron = Cron(minute: Field, hour: Field, day: Field, month: Field, weekday: Field)

  datatype Schedule = Schedule(id: string, task: string, cron: Cron, enabled: bool)

  datatype TriggerStatus = Running | Deferred | Interrupted | Failed | Cancelled | Completed

  datatype Trigger = Trigger(schedule: string, task: string, slot: string, status: TriggerStatus, error: Option<string>)

  /** How the execution of a task ends: with the task in some status, or with an exception that also ends the dispatch. */
  datatype Ending = Ended(task: Tasks.TaskStatus) | Raised(error: string)

  /** A task that could not start yet defers its trigger; one that is under way keeps it running. */
  function StatusAfter(task: Tasks.TaskStatus): TriggerStatus {
    match task
    case Pending => Deferred
    case Interrupted => Interrupted
    case Failed => Failed
    case Cancelled => Cancelled
    case Completed => Completed
    case _ => Running
  }

  predicate FieldMatches(field: Field, value: nat) {
    match field
    case Every => true
    case Step(n) => n > 0 && value % n == 0
    case OneOf(values) => value in values
  }

  /** Monday is 0; the first day of the calendar was one. */
  function Weekday(t: Utc): nat
    requires t.year >= 1 && t.month >= 1
  {
    (Days(t) + 6) % 7
  }

  predicate Matches(cron: Cron, t: Utc)
    requires Valid(t)
  {
    && FieldMatches(cron.minute, t.minute) && FieldMatches(cron.hour, t.hour) && FieldMatches(cron.day, t.day)
    && FieldMatches(cron.month, t.month) && FieldMatches(cron.weekday, Weekday(t))
  }

  /******* Days and weekdays *******/

  predicate HasNextDay(t: Utc) {
    Valid(t) && (t.year < 9999 || t.month < 12 || t.day < 31)
  }

  /** The same time of the day after, across the ends of months and years. */
  function NextDay(t: Utc): Utc
    requires HasNextDay(t)
  {
    if t.day < DaysIn(t.year, t.month) then t.(day := t.day + 1)
    else if t.month < 12 then t.(month := t.month + 1, day := 1)
    else t.(year := t.year + 1, month := 1, day := 1)
  }

  /** The first of month `month + 1` comes a month after that of `month`. */
  lemma MonthIsOver(year: nat, month: nat)
    requires month >= 1
    ensures DaysBeforeMonth(year, month + 1) == DaysBeforeMonth(year, month) + DaysIn(year, month)
  {
  }

  lemma YearIsOver(year: nat)
    requires year >= 1
    ensures DaysBeforeYear(year + 1) == DaysBeforeYear(year) + DaysBeforeMonth(year, 12) + 31
  {
    MonthIsOver(year, 1);
    MonthIsOver(year, 2);
    MonthIsOver(year, 3);
    MonthIsOver(year, 4);
    MonthIsOver(year, 5);
    MonthIsOver(year, 6);
    MonthIsOver(year, 7);
    MonthIsOver(year, 8);
    MonthIsOver(year, 9);
    MonthIsOver(year, 10);
    MonthIsOver(year, 11);
    LeapYears(year);
  }

  /** The quotients in the count of leap days grow by one exactly at the multiples. */
  lemma LeapYears(year: nat)
    requires year >= 1
    ensures DaysBeforeYear(year + 1) == DaysBeforeYear(year) + 365 + if IsLeap(year) then 1 else 0
  {
    ByFour(year);
    ByHundred(year);
    ByFourHundred(year);
    CenturiesAreMultiples(year);
  }

  lemma ByFour(n: nat)
    requires n >= 1
    ensures n / 4 == (n - 1) / 4 + if n % 4 == 0 then 1 else 0
  {
  }

  lemma ByHundred(n: nat)
    requires n >= 1
    ensures n / 100 == (n - 1) / 100 + (if n % 100 == 0 then 1 else 0)
  {
  }

  lemma ByFourHundred(n: nat)
    requires n >= 1
    ensures n / 400 == (n - 1) / 400 + (if n % 400 == 0 then 1 else 0)
  {
  }

  lemma CenturiesAreMultiples(n: nat)
    ensures n % 100 == 0 ==> n % 4 == 0
    ensures n % 400 == 0 ==> n % 100 == 0
  {
    var centuries, cycles := n / 100, n / 400;
    assert n % 100 == 0 ==> n == 4 * (25 * centuries);
    assert n % 400 == 0 ==> n == 100 * (4 * cycles);
  }

  /** The next day exists, and is the next one in the count of days. */
  lemma NextDayFollows(t: Utc)
    requires HasNextDay(t)
    ensures Valid(NextDay(t)) && Days(NextDay(t)) == Days(t) + 1
  {
    if t.day == DaysIn(t.year, t.month) && t.month == 12 {
      YearIsOver(t.year);
    }
  }

  /** Weekdays follow one another, across the ends of months, leap years and centuries, starting from a Monday. */
  lemma WeekdaysFollow(t: Utc)
    requires HasNextDay(t)
    ensures Valid(NextDay(t)) && Weekday(NextDay(t)) == (if Weekday(t) == 6 then 0 else Weekday(t) + 1)
    ensures t.year == 1 && t.month == 1 && t.day == 1 ==> Weekday(t) == 0
  {
    NextDayFollows(t);
    OneDayOn(Days(t), 7);
    FirstIsMonday();
  }

  lemma FirstIsMonday()
    ensures DaysBeforeYear(1) == 0 && DaysBeforeMonth(1, 1) == 0
  {
  }

  lemma OneDayOn(first: nat, k: nat)
    requires k > 0
    ensures (first + k) % 7 == if (first + (k - 1)) % 7 == 6 then 0 else (first + (k - 1)) % 7 + 1
  {
  }

  /** Seven days in a row, at one time of the day. */
  predicate IsWeek(week: seq<Utc>) {
    |week| == 7 && forall k :: 0 <= k < 6 ==> HasNextDay(week[k]) && week[k + 1] == NextDay(week[k])
  }

  lemma {:induction false} WeekdayAt(week: seq<Utc>, k: nat)
    requires IsWeek(week) && k < 7
    ensures Valid(week[k]) && Weekday(week[k]) == (Weekday(week[0]) + k) % 7
    ensures week[k].minute == week[0].minute && week[k].hour == week[0].hour
  {
    assert HasNextDay(week[0]);
    if k > 0 {
      WeekdayAt(week, k - 1);
      WeekdaysFollow(week[k - 1]);
      OneDayOn(Weekday(week[0]), k);
    }
  }

  /** A weekly schedule is due on exactly one of any seven days in a row. */
  lemma WeeklyScheduleIsDueOnce(cron: Cron, weekday: nat, week: seq<Utc>) returns (due: nat)
    requires IsWeek(week) && weekday < 7
    requires cron.day == Every && cron.month == Every && cron.weekday == OneOf({weekday})
    requires FieldMatches(cron.minute, week[0].minute) && FieldMatches(cron.hour, week[0].hour)
    ensures due < 7 && forall k :: 0 <= k < 7 ==> Valid(week[k]) && (Matches(cron, week[k]) <==> k == due)
  {
    assert HasNextDay(week[0]);
    due := (weekday + 7 - Weekday(week[0])) % 7;
    forall k | 0 <= k < 7 ensures Valid(week[k]) && (Matches(cron, week[k]) <==> k == due) {
      WeekdayAt(week, k);
    }
  }

  /** A schedule for one minute of one day of the year is due then and at no other time, in any year. */
  lemma YearlyScheduleIsDueOnce(cron: Cron, at: Utc, t: Utc)
    requires Valid(at) && Valid(t)
    requires cron.minute == OneOf({at.minute}) && cron.hour == OneOf({at.hour})
    requires cron.day == OneOf({at.day}) && cron.month == OneOf({at.month}) && cron.weekday == Every
    ensures Matches(cron, t) <==> t == at.(year := t.year, second := t.second, micro := t.micro)
  {
  }

  predicate Times(q: nat, n: nat, x: nat) {
    q * n == x
  }

  ghost predicate IsMultiple(x: nat, n: nat) {
    exists q: nat :: Times(q, n, x)
  }

  lemma AtLeast(d: nat, n: nat)
    requires d >= 1
    ensures d * n >= n
  {
  }

  lemma MoreTimes(a: nat, b: nat, n: nat)
    requires a < b
    ensures a * n + n <= b * n
  {
    AtLeast(b - a, n);
    assert (b - a) * n == b * n - a * n;
  }

  /** A multiple has no rest. */
  lemma NoRest(q: nat, n: nat, quotient: nat, rest: nat)
    requires rest < n && q * n == quotient * n + rest
    ensures rest == 0
  {
    if q < quotient {
      MoreTimes(q, quotient, n);
    } else if q > quotient {
      MoreTimes(quotient, q, n);
    }
  }

  lemma Divided(x: nat, n: nat)
    requires n > 0
    ensures x == (x / n) * n + x % n
  {
  }

  /** A schedule for every `n`-th minute is due exactly at the multiples, counted from the full hour. */
  lemma StepScheduleIsDueAtMultiples(cron: Cron, n: nat, t: Utc)
    requires Valid(t) && n > 0 && cron == Cron(Step(n), Every, Every, Every, Every)
    ensures Matches(cron, t) <==> IsMultiple(t.minute, n)
  {
    var minute := t.minute;
    Divided(minute, n);
    if minute % n == 0 {
      assert Times(minute / n, n, minute);
    }
    if IsMultiple(minute, n) {
      var q: nat :| Times(q, n, minute);
      NoRest(q, n, minute / n, minute % n);
    }
  }

  function Minute(t: Utc): Utc {
    t.(second := 0, micro := 0)
  }

  function Slot(t: Utc): string {
    Text(Minute(t))
  }

  /** The digest of schedule and slot, taken to be injective, stands for the text it digests. */
  function IdOf(schedule: string, slot: string): TriggerId {
    "trigger_" + (schedule + (":" + slot))
  }

  /** INSERT OR IGNORE: nothing happens if the id or the pair of schedule and slot is taken. */
  predicate Taken(triggers: map<TriggerId, Trigger>, schedule: string, slot: string) {
    IdOf(schedule, slot) in triggers
    || exists id :: id in triggers && triggers[id].schedule == schedule && triggers[id].slot == slot
  }

  predicate Due(triggers: map<TriggerId, Trigger>, s: Schedule, at: Utc)
    requires Valid(at)
  {
    s.enabled && Matches(s.cron, at) && !Taken(triggers, s.id, Slot(at))
  }

  function Finished(trigger: Trigger, outcome: Ending): Trigger {
    match outcome
    case Ended(task) => trigger.(status := StatusAfter(task), error := None)
    case Raised(error) => trigger.(status := Interrupted, error := Some(error))
  }

  /** A trigger that was executed keeps what it is for, and tells how far its task came, or the exception. */
  lemma TriggersTellTheirTask(trigger: Trigger, outcome: Ending)
    ensures var after := Finished(trigger, outcome);
            && after == trigger.(status := after.status, error := after.error)
            && (outcome.Raised? ==> after.status == Interrupted && after.error == Some(outcome.error))
            && (outcome.Ended? ==>
                  && after.error == None
                  && (after.status == Completed <==> outcome.task == Tasks.Completed)
                  && (after.status == Failed <==> outcome.task == Tasks.Failed)
                  && (after.status == Cancelled <==> outcome.task == Tasks.Cancelled)
                  && (after.status == Interrupted <==> outcome.task == Tasks.Interrupted)
                  && (after.status == Deferred <==> outcome.task == Tasks.Pending)
                  && (after.status == Running <==> outcome.task == Tasks.InProgress || outcome.task == Tasks.Paused))
  {
  }

  /** The trigger of a due schedule, inserted and executed. */
  function Executed(triggers: map<TriggerId, Trigger>, s: Schedule, at: Utc, outcomes: TriggerId -> Ending)
    : map<TriggerId, Trigger>
  {
    var id := IdOf(s.id, Slot(at));
    triggers[id := Finished(Trigger(s.id, s.task, Slot(at), Running, None), outcomes(id))]
  }

  /** What one dispatch leaves behind, and the triggers it executed; it stops at the first exception. */
  function Dispatched(
    schedules: seq<Schedule>, triggers: map<TriggerId, Trigger>, at: Utc, outcomes: TriggerId -> Ending)
    : (map<TriggerId, Trigger>, seq<TriggerId>)
    requires Valid(at)
  {
    if schedules == [] then (triggers, [])
    else
      var s := schedules[0];
      if !Due(triggers, s, at) then Dispatched(schedules[1..], triggers, at, outcomes)
      else
        var id, next := IdOf(s.id, Slot(at)), Executed(triggers, s, at, outcomes);
        if outcomes(id).Raised? then (next, [id])
        else
          var (last, ids) := Dispatched(schedules[1..], next, at, outcomes);
          (last, [id] + ids)
  }

  lemma DispatchedHead(
    schedules: seq<Schedule>, triggers: map<TriggerId, Trigger>, at: Utc, outcomes: TriggerId -> Ending)
    requires Valid(at) && schedules != []
    ensures var s, all := schedules[0], Dispatched(schedules, triggers, at, outcomes);
            var id, next := IdOf(s.id, Slot(at)), Executed(triggers, s, at, outcomes);
            if !Due(triggers, s, at) then all == Dispatched(schedules[1..], triggers, at, outcomes)
            else if outcomes(id).Raised? then all.0 == next && all.1 == [id]
            else
              && all.0 == Dispatched(schedules[1..], next, at, outcomes).0
              && all.1 == [id] + Dispatched(schedules[1..], next, at, outcomes).1
  {
  }

  class SchedulerService {
    var schedules: seq<Schedule>
    var triggers: map<TriggerId, Trigger>

    constructor (schedules: seq<Schedule>)
      ensures this.schedules == schedules && triggers == map[]
    {
      this.schedules, triggers := schedules, map[];
    }

    method ClaimTrigger(schedule: string, task: string, at: Utc) returns (id: Option<TriggerId>)
      modifies this`triggers
      ensures id == if Taken(old(triggers), schedule, Slot(at)) then None else Some(IdOf(schedule, Slot(at)))
      ensures triggers == if id.None? then old(triggers)
                          else old(triggers)[id.value := Trigger(schedule, task, Slot(at), Running, None)]
    {
      if Taken(triggers, schedule, Slot(at)) {
        return None;
      }
      triggers := triggers[IdOf(schedule, Slot(at)) := Trigger(schedule, task, Slot(at), Running, None)];
      return Some(IdOf(schedule, Slot(at)));
    }

    method Execute(id: TriggerId, outcome: Ending) returns (ok: bool)
      requires id in triggers
      modifies this`triggers
      ensures ok == outcome.Ended?
      ensures triggers == old(triggers)[id := Finished(old(triggers)[id], outcome)]
    {
      match outcome
      case Ended(task) =>
        triggers := triggers[id := triggers[id].(status := StatusAfter(task), error := None)];
        return true;
      case Raised(error) =>
        triggers := triggers[id := triggers[id].(status := Interrupted, error := Some(error))];
        return false;
    }

    /** Claims and executes one schedule if it is due. */
    method DispatchOne(s: Schedule, at: Utc, outcomes: TriggerId -> Ending) returns (id: Option<TriggerId>, ok: bool)
      requires Valid(at)
      modifies this`triggers
      ensures id == if Due(old(triggers), s, at) then Some(IdOf(s.id, Slot(at))) else None
      ensures ok == (id.Some? ==> outcomes(id.value).Ended?)
      ensures triggers == if id.None? then old(triggers)
                          else Executed(old(triggers), s, at, outcomes)
    {
      id, ok := None, true;
      if s.enabled && Matches(s.cron, at) {
        id := ClaimTrigger(s.id, s.task, at);
        if id.Some? {
          ok := Execute(id.value, outcomes(id.value));
        }
      }
    }

    /** Goes through the schedules in order; `outcomes` is what the executions will do. */
    method DispatchDue(at: Utc, outcomes: TriggerId -> Ending) returns (dispatched: seq<TriggerId>)
      requires Valid(at)
      modifies this`triggers
      ensures triggers == Dispatched(schedules, old(triggers), at, outcomes).0
      ensures dispatched == Dispatched(schedules, old(triggers), at, outcomes).1
    {
      dispatched := [];
      var i := 0;
      ghost var last, ids := Dispatched(schedules, triggers, at, outcomes).0, Dispatched(schedules, triggers, at, outcomes).1;
      assert schedules[0..] == schedules;
      while i < |schedules|
        invariant 0 <= i <= |schedules|
        invariant Dispatched(schedules[i..], triggers, at, outcomes).0 == last
        invariant ids == dispatched + Dispatched(schedules[i..], triggers, at, outcomes).1
      {
        assert schedules[i..][0] == schedules[i] && schedules[i..][1..] == schedules[i + 1..];
        DispatchedHead(schedules[i..], triggers, at, outcomes);
        var id, ok := DispatchOne(schedules[i], at, outcomes);
        i := i + 1;
        if id.Some? {
          dispatched := dispatched + [id.value];
          if !ok {
            return;
          }
        }
      }
    }
  }

  /******* Slots *******/

  predicate SameMinute(a: Utc, b: Utc) {
    Minute(a) == Minute(b)
  }

  lemma SlotsAreMinutes(a: Utc, b: Utc)
    requires Valid(a) && Valid(b)
    ensures Slot(a) == Slot(b) <==> SameMinute(a, b)
    ensures |Slot(a)| == 25
  {
    TextOrderIsTimeOrder(Minute(a), Minute(b));
  }

  /** Trigger ids differ as soon as schedule or minute differ, whatever characters a schedule id has. */
  lemma TriggerIdsAreInjective(s: string, a: Utc, s': string, b: Utc)
    requires Valid(a) && Valid(b)
    ensures IdOf(s, Slot(a)) == IdOf(s', Slot(b)) <==> s == s' && SameMinute(a, b)
  {
    SlotsAreMinutes(a, b);
    SlotsAreMinutes(b, a);
    if IdOf(s, Slot(a)) == IdOf(s', Slot(b)) {
      var prefix := "trigger_";
      var x, y := s + (":" + Slot(a)), s' + (":" + Slot(b));
      assert (prefix + x)[|prefix|..] == x && (prefix + y)[|prefix|..] == y;
      assert |s| == |s'|;
      assert x[..|s|] == s && y[..|s|] == s';
      assert x[|s| + 1..] == Slot(a) && y[|s| + 1..] == Slot(b);
    }
  }

  /******* Histories of dispatches *******/

  /** Every row sits under the id of its schedule and slot. */
  predicate WellKeyed(triggers: map<TriggerId, Trigger>) {
    forall id :: id in triggers ==> id == IdOf(triggers[id].schedule, triggers[id].slot)
  }

  /** A dispatch keeps all earlier rows as they are, and executes only triggers that had none. */
  lemma {:induction false} DispatchAddsNewTriggers(
    schedules: seq<Schedule>, triggers: map<TriggerId, Trigger>, at: Utc, outcomes: TriggerId -> Ending)
    requires Valid(at) && WellKeyed(triggers)
    ensures var (next, ids) := Dispatched(schedules, triggers, at, outcomes);
            && WellKeyed(next)
            && (forall id :: id in triggers ==> id in next && next[id] == triggers[id])
            && (forall id :: id in next ==> id in triggers || id in ids)
            && (forall k :: 0 <= k < |ids| ==> ids[k] !in triggers && ids[k] in next && next[ids[k]].slot == Slot(at))
            && (forall j, k :: 0 <= j < k < |ids| ==> ids[j] != ids[k])
  {
    if schedules != [] {
      var s := schedules[0];
      if !Due(triggers, s, at) {
        DispatchAddsNewTriggers(schedules[1..], triggers, at, outcomes);
      } else {
        DispatchAddsNewTriggers(schedules[1..], Executed(triggers, s, at, outcomes), at, outcomes);
      }
    }
  }
}
