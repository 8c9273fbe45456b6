/** Any interleaving of store transactions and compactions, without purges: what the summaries then hold. */
module CompactionHistory {
  import opened Wrappers
  import opened Blocks
  import opened StoreSpec
  import opened StoreHistory
  import opened StoreInvariants
  import opened Compaction

  /** A compaction reads the latest summary, then the messages after it, and saves its plan in a third transaction. */
  datatype Step =
    | Transaction(op: Op)
    | ReadSummary(worker: nat, session: SessionKey)
    | ReadMessages(worker: nat, current: Option<RunId>, recentLimit: int)
    | Write(worker: nat)

  datatype Look = Look(session: SessionKey, previous: Option<Summary>)

  datatype Draft = Draft(plan: Plan, current: Option<RunId>)

  /** The database, what each compaction has read, what it is about to save, and what was saved for which run. */
  datatype Snapshot = Snapshot(db: Db, looks: map<nat, Look>, plans: map<nat, Draft>, saved: seq<Draft>)

  /** The plan of a worker that now reads the messages. */
  function PlanNow(s: Snapshot, step: Step): Option<Plan>
    requires step.ReadMessages?
  {
    if step.worker !in s.looks then None
    else
      var look := s.looks[step.worker];
      PlanFrom(look.previous, s.db.messages, look.session, step.current, step.recentLimit)
  }

  function Next(s: Snapshot, step: Step): Snapshot {
    match step
    case Transaction(op) => if op.Summarize? || op.PurgeOp? then s else s.(db := Apply(s.db, op))
    case ReadSummary(worker, session) =>
      s.(looks := s.looks[worker := Look(session, LatestSummary(s.db.summaries, session))])
    case ReadMessages(worker, current, _) =>
      var plan := PlanNow(s, step);
      if plan.Some? then s.(plans := s.plans[worker := Draft(plan.value, current)]) else s
    case Write(worker) =>
      if worker !in s.plans then s
      else
        var (db, ok) := SavePlan(s.db, s.plans[worker].plan);
        s.(db := db, plans := s.plans - {worker}, saved := if ok then s.saved + [s.plans[worker]] else s.saved)
  }

  function Run(steps: seq<Step>): Snapshot {
    if steps == [] then Snapshot(EMPTY_DB, map[], map[], []) else Next(Run(steps[..|steps| - 1]), steps[|steps| - 1])
  }

  /** Before each compaction reads the messages, it holds that it will skip none of its current run. */
  ghost predicate Disciplined(steps: seq<Step>) {
    steps == [] ||
    (Disciplined(steps[..|steps| - 1]) && Careful(Run(steps[..|steps| - 1]), steps[|steps| - 1]))
  }

  ghost predicate Careful(s: Snapshot, step: Step) {
    step.ReadMessages? && step.worker in s.looks ==>
      NothingToSkip(s.looks[step.worker].previous, s.db.messages, s.looks[step.worker].session, step.current,
                    step.recentLimit)
  }

  predicate Points(db: Db, session: SessionKey, content: string, through: nat) {
    Exact(db.messages, session, content, through) && HasMessage(db.messages, session, through) && through < db.nextMessage
  }

  predicate PlanPoints(db: Db, plan: Plan) {
    Points(db, plan.session, plan.content, plan.through)
  }

  predicate LookPoints(db: Db, look: Look) {
    look.previous.Some? ==> Points(db, look.session, look.previous.value.content, look.previous.value.through)
  }

  ghost predicate InOrder(db: Db) {
    OrderInv(db) && ReferenceInv(db) && (forall m :: m in db.messages ==> m.id > 0) && db.nextMessage > 0
  }

  ghost predicate Summarised(s: Snapshot) {
    && InOrder(s.db)
    && (forall x :: x in s.db.summaries ==> Points(s.db, x.session, x.content, x.through))
    && (forall w {:trigger LookPoints(s.db, s.looks[w])} :: w in s.looks ==> LookPoints(s.db, s.looks[w]))
    && (forall w {:trigger PlanPoints(s.db, s.plans[w].plan)} :: w in s.plans ==> PlanPoints(s.db, s.plans[w].plan))
  }

  /** Transactions other than purges append messages under new ids, and only compactions save summaries. */
  lemma MessagesAreAppended(db: Db, op: Op)
    requires !op.Summarize? && !op.PurgeOp?
    ensures var next := Apply(db, op);
            && next.summaries == db.summaries && next.nextMessage >= db.nextMessage
            && (next.messages == db.messages
                || exists m :: next.messages == db.messages + [m] && m.id == db.nextMessage)
  {
    if LeavesLogs(op) {
      LeavesLogsAlone(db, op);
    }
  }

  lemma NewMessagesAreOutside(messages: seq<Message>, m: Message, session: SessionKey, high: nat)
    requires m.id > high
    ensures Between(messages + [m], session, 0, high) == Between(messages, session, 0, high)
  {
    assert (messages + [m])[..|messages|] == messages;
  }

  lemma PointsStay(db: Db, next: Db, session: SessionKey, content: string, through: nat)
    requires Points(db, session, content, through) && next.nextMessage >= db.nextMessage
    requires next.messages == db.messages
             || exists m :: next.messages == db.messages + [m] && m.id == db.nextMessage
    ensures Points(next, session, content, through)
  {
    MessagesGrow(db, next);
    if next.messages != db.messages {
      var m :| next.messages == db.messages + [m] && m.id == db.nextMessage;
      NewMessagesAreOutside(db.messages, m, session, through);
    }
  }

  lemma TransactionKeepsOrder(db: Db, op: Op)
    requires InOrder(db) && !op.Summarize? && !op.PurgeOp?
    ensures InOrder(Apply(db, op))
  {
    OrderStep(db, op);
    ReferenceStep(db, op);
    MessagesAreAppended(db, op);
  }

  lemma TransactionKeepsSummaries(s: Snapshot, op: Op)
    requires Summarised(s) && !op.Summarize? && !op.PurgeOp?
    ensures Summarised(s.(db := Apply(s.db, op)))
  {
    var next := Apply(s.db, op);
    TransactionKeepsOrder(s.db, op);
    MessagesAreAppended(s.db, op);
    forall x | x in next.summaries ensures Points(next, x.session, x.content, x.through) {
      PointsStay(s.db, next, x.session, x.content, x.through);
    }
    forall w | w in s.looks ensures LookPoints(next, s.looks[w]) {
      assert LookPoints(s.db, s.looks[w]);
      if s.looks[w].previous.Some? {
        PointsStay(s.db, next, s.looks[w].session, s.looks[w].previous.value.content, s.looks[w].previous.value.through);
      }
    }
    forall w | w in s.plans ensures PlanPoints(next, s.plans[w].plan) {
      assert PlanPoints(s.db, s.plans[w].plan);
      PointsStay(s.db, next, s.plans[w].plan.session, s.plans[w].plan.content, s.plans[w].plan.through);
    }
  }

  lemma {:induction false} LatestIsASummary(summaries: seq<Summary>, session: SessionKey)
    ensures var latest := LatestSummary(summaries, session);
            latest.Some? ==> latest.value in summaries && latest.value.session == session
  {
    if summaries != [] {
      LatestIsASummary(summaries[..|summaries| - 1], session);
    }
  }

  lemma LookKeepsSummaries(s: Snapshot, worker: nat, session: SessionKey)
    requires Summarised(s)
    ensures Summarised(Next(s, ReadSummary(worker, session)))
  {
    LatestIsASummary(s.db.summaries, session);
    var next := Next(s, ReadSummary(worker, session));
    forall w | w in next.looks ensures LookPoints(next.db, next.looks[w]) {
      assert w in s.looks ==> LookPoints(s.db, s.looks[w]);
    }
    forall w | w in next.plans ensures PlanPoints(next.db, next.plans[w].plan) {
      assert PlanPoints(s.db, s.plans[w].plan);
    }
  }

  /** A plan of someone who looked at an exact summary, however long ago, is exact. */
  lemma PlanIsExact(db: Db, look: Look, current: Option<RunId>, recentLimit: int)
    requires InOrder(db) && LookPoints(db, look)
    requires PlanFrom(look.previous, db.messages, look.session, current, recentLimit).Some?
    requires NothingToSkip(look.previous, db.messages, look.session, current, recentLimit)
    ensures PlanPoints(db, PlanFrom(look.previous, db.messages, look.session, current, recentLimit).value)
  {
    PlanIsExactExactlyWhen(look.previous, db.messages, look.session, current, recentLimit);
    PlanPointsAtAMessage(look.previous, db.messages, look.session, current, recentLimit);
  }

  lemma ReadKeepsSummaries(s: Snapshot, step: Step)
    requires Summarised(s) && step.ReadMessages? && Careful(s, step)
    ensures Summarised(Next(s, step))
  {
    var next := Next(s, step);
    if step.worker in s.looks {
      assert LookPoints(s.db, s.looks[step.worker]);
      if PlanNow(s, step).Some? {
        PlanIsExact(s.db, s.looks[step.worker], step.current, step.recentLimit);
      }
    }
    forall w | w in next.looks ensures LookPoints(next.db, next.looks[w]) {
      assert LookPoints(s.db, s.looks[w]);
    }
    forall w | w in next.plans ensures PlanPoints(next.db, next.plans[w].plan) {
      assert w in s.plans ==> PlanPoints(s.db, s.plans[w].plan);
    }
  }

  lemma SavedPlan(db: Db, plan: Plan)
    ensures var next := SavePlan(db, plan).0;
            && next.messages == db.messages && next.nextMessage == db.nextMessage
            && next == Apply(db, Summarize(plan.session, plan.content, plan.through))
            && forall x :: x in next.summaries ==>
                 x in db.summaries || (x.session == plan.session && x.content == plan.content && x.through == plan.through)
  {
  }

  lemma WriteKeepsSummaries(s: Snapshot, worker: nat)
    requires Summarised(s)
    ensures Summarised(Next(s, Write(worker)))
  {
    if worker in s.plans {
      var plan := s.plans[worker].plan;
      var next := SavePlan(s.db, plan).0;
      SavedPlan(s.db, plan);
      OrderStep(s.db, Summarize(plan.session, plan.content, plan.through));
      ReferenceStep(s.db, Summarize(plan.session, plan.content, plan.through));
      assert PlanPoints(s.db, plan);
      forall x | x in next.summaries ensures Points(next, x.session, x.content, x.through) {
        assert x in s.db.summaries ==> Points(s.db, x.session, x.content, x.through);
      }
      forall w | w in s.looks ensures LookPoints(next, s.looks[w]) {
        assert LookPoints(s.db, s.looks[w]);
      }
      forall w | w in s.plans ensures PlanPoints(next, s.plans[w].plan) {
        assert PlanPoints(s.db, s.plans[w].plan);
      }
    }
  }

  lemma {:induction false} SummariesHold(steps: seq<Step>)
    requires Disciplined(steps)
    ensures Summarised(Run(steps))
  {
    if steps != [] {
      var front, last := steps[..|steps| - 1], steps[|steps| - 1];
      SummariesHold(front);
      match last
      case Transaction(op) => if !op.Summarize? && !op.PurgeOp? { TransactionKeepsSummaries(Run(front), op); }
      case ReadSummary(worker, session) => LookKeepsSummaries(Run(front), worker, session);
      case ReadMessages(_, _, _) => ReadKeepsSummaries(Run(front), last);
      case Write(worker) => WriteKeepsSummaries(Run(front), worker);
    }
  }

  /** After any interleaving of compactions that skip nothing of their current run, every summary is the joined text
      of all messages of its session up to the one it points at, and these and the remaining messages are the whole
      session in order. */
  lemma IncrementalIsOneShot(steps: seq<Step>, x: Summary)
    requires Disciplined(steps) && x in Run(steps).db.summaries
    ensures var messages := Run(steps).db.messages;
            var covered, remaining := Between(messages, x.session, 0, x.through), MessagesAfter(messages, x.session, x.through);
            && x.content == Join(Lines(covered))
            && covered + remaining == MessagesAfter(messages, x.session, 0)
  {
    SummariesHold(steps);
    assert Points(Run(steps).db, x.session, x.content, x.through);
    CoveredAndRemaining(Run(steps).db.messages, x.session, x.through);
  }

  lemma {:induction false} CoveredAndRemaining(messages: seq<Message>, session: SessionKey, through: nat)
    requires Ascending(messages) && forall m :: m in messages ==> m.id > 0
    ensures Between(messages, session, 0, through) + MessagesAfter(messages, session, through)
              == MessagesAfter(messages, session, 0)
  {
    var covered, remaining := Between(messages, session, 0, through), MessagesAfter(messages, session, through);
    var both := covered + remaining;
    KeepAscends(messages, Outside(session, 0, through));
    KeepAscends(messages, NotAfter(session, through));
    KeepAscends(messages, NotAfter(session, 0));
    forall i, j | 0 <= i < j < |both| ensures both[i].id < both[j].id {
      assert i < |covered| ==> both[i] in covered;
      assert j >= |covered| ==> both[j] in remaining;
    }
    SameMessagesSameList(both, MessagesAfter(messages, session, 0));
  }

  /******* One run at a time *******/

  /** Whenever a compaction reads the messages, those of its current run have the highest ids of the session. */
  ghost predicate OneRunAtATime(steps: seq<Step>) {
    steps == [] ||
    (OneRunAtATime(steps[..|steps| - 1]) && CurrentIsHighest(Run(steps[..|steps| - 1]), steps[|steps| - 1]))
  }

  ghost predicate CurrentIsHighest(s: Snapshot, step: Step) {
    step.ReadMessages? && step.worker in s.looks ==>
      HighestIds(s.db.messages, s.looks[step.worker].session, step.current)
  }

  /** A plan covers no message of the run it was made for, and is older than any message to come. */
  ghost predicate Spares(db: Db, p: Draft) {
    && p.plan.through < db.nextMessage
    && forall m :: m in db.messages && m.session == p.plan.session && p.current == Some(m.run) ==> p.plan.through < m.id
  }

  ghost predicate AllSpared(s: Snapshot) {
    && InOrder(s.db)
    && (forall w {:trigger Spares(s.db, s.plans[w])} :: w in s.plans ==> Spares(s.db, s.plans[w]))
    && (forall p {:trigger Spares(s.db, p)} :: p in s.saved ==> Spares(s.db, p))
  }

  lemma SparesStays(db: Db, op: Op, p: Draft)
    requires Spares(db, p) && !op.Summarize? && !op.PurgeOp?
    ensures Spares(Apply(db, op), p)
  {
    MessagesAreAppended(db, op);
  }

  lemma HighestIsSpared(s: Snapshot, step: Step)
    requires InOrder(s.db) && step.ReadMessages? && CurrentIsHighest(s, step) && PlanNow(s, step).Some?
    ensures Careful(s, step) && Spares(s.db, Draft(PlanNow(s, step).value, step.current))
  {
    var look := s.looks[step.worker];
    HighestIdsAreSpared(look.previous, s.db.messages, look.session, step.current, step.recentLimit);
    PlanPointsAtAMessage(look.previous, s.db.messages, look.session, step.current, step.recentLimit);
  }

  lemma SparedStep(s: Snapshot, step: Step)
    requires AllSpared(s) && CurrentIsHighest(s, step)
    ensures AllSpared(Next(s, step)) && Careful(s, step)
  {
    var next := Next(s, step);
    match step
    case Transaction(op) =>
      if !op.Summarize? && !op.PurgeOp? {
        TransactionKeepsOrder(s.db, op);
        forall p | Spares(s.db, p) ensures Spares(next.db, p) {
          SparesStays(s.db, op, p);
        }
      }
    case ReadSummary(_, _) =>
    case ReadMessages(worker, current, recentLimit) =>
      if worker in s.looks {
        HighestIdsAreSpared(s.looks[worker].previous, s.db.messages, s.looks[worker].session, current, recentLimit);
        if PlanNow(s, step).Some? {
          HighestIsSpared(s, step);
        }
      }
    case Write(worker) =>
      if worker in s.plans {
        var plan := s.plans[worker].plan;
        SavedPlan(s.db, plan);
        OrderStep(s.db, Summarize(plan.session, plan.content, plan.through));
        ReferenceStep(s.db, Summarize(plan.session, plan.content, plan.through));
        assert Spares(s.db, s.plans[worker]);
        forall p | Spares(s.db, p) ensures Spares(next.db, p) {}
      }
  }

  lemma {:induction false} SparedHolds(steps: seq<Step>)
    requires OneRunAtATime(steps)
    ensures AllSpared(Run(steps)) && Disciplined(steps)
  {
    if steps != [] {
      SparedHolds(steps[..|steps| - 1]);
      SparedStep(Run(steps[..|steps| - 1]), steps[|steps| - 1]);
    }
  }

  /** As long as the current run of each compaction has the highest ids when its messages are read, no summary ever
      covers a message of the run it was saved for, be it older or newer than the summary, and all summaries are exact. */
  lemma CurrentRunIsNeverCovered(steps: seq<Step>, p: Draft, m: Message)
    requires OneRunAtATime(steps) && p in Run(steps).saved
    requires m in Run(steps).db.messages && m.session == p.plan.session && p.current == Some(m.run)
    ensures p.plan.through < m.id && Disciplined(steps)
  {
    SparedHolds(steps);
    assert Spares(Run(steps).db, p);
  }

  /******* The discipline matters *******/

  const SESSION := SessionKey("t", "p", "c")
  const EARLY_START := InboundRequest(Identity("t", "p", "c", "s", "1"), "a",
                                      State(Model, [], [], None, None, 0, None), 20)
  const LATE_START := InboundRequest(Identity("t", "p", "c", "s", "2"), "b",
                                     State(Model, [], [], None, None, 0, None), 20)

  const EARLY_MESSAGE := Message(1, SESSION, 0, "user", "a", 0)
  const LATE_MESSAGE := Message(2, SESSION, 1, "user", "b", 0)
  const TWO_STARTS := [Transaction(Start(1, EARLY_START, 0, 0, 30)), Transaction(Start(1, LATE_START, 1, 0, 30))]
  const SKIPPING_COMPACTION := [ReadSummary(0, SESSION), ReadMessages(0, Some(0), 0), Write(0)]

  /** Two runs of one conversation: a compaction during the first covers the second one's later message, after which
      the first one's message is neither in the summary nor among the messages that remain. */
  lemma SkippedMessagesAreLost()
    ensures var db := Run(TWO_STARTS + SKIPPING_COMPACTION).db;
            && LatestSummary(db.summaries, SESSION) == Some(Summary(SESSION, 1, "user: b", 2))
            && EARLY_MESSAGE in db.messages && MessagesAfter(db.messages, SESSION, 2) == []
  {
    AfterTwoStarts();
    RunThreeMore(TWO_STARTS, SKIPPING_COMPACTION[0], SKIPPING_COMPACTION[1], SKIPPING_COMPACTION[2]);
    AfterCompaction(Run(TWO_STARTS));
    KeepingNone([EARLY_MESSAGE, LATE_MESSAGE], NotAfter(SESSION, 2));
  }

  lemma RunThreeMore(steps: seq<Step>, a: Step, b: Step, c: Step)
    ensures Run(steps + [a, b, c]) == Next(Next(Next(Run(steps), a), b), c)
  {
    assert steps + [a, b, c] == steps + [a] + [b] + [c];
    RunOneMore(steps, a);
    RunOneMore(steps + [a], b);
    RunOneMore(steps + [a] + [b], c);
  }

  lemma AfterCompaction(s: Snapshot)
    requires s.db.messages == [EARLY_MESSAGE, LATE_MESSAGE] && s.db.summaries == []
    ensures var last := Next(Next(Next(s, SKIPPING_COMPACTION[0]), SKIPPING_COMPACTION[1]), SKIPPING_COMPACTION[2]);
            last.db.messages == s.db.messages
            && LatestSummary(last.db.summaries, SESSION) == Some(Summary(SESSION, 1, "user: b", 2))
  {
    PlanOfTwo(s.db.messages);
    SavedSummary(s.db);
    var looked := Next(s, SKIPPING_COMPACTION[0]);
    assert looked.looks[0] == Look(SESSION, None);
    var planned := Next(looked, SKIPPING_COMPACTION[1]);
    assert planned.plans[0].plan == Plan(SESSION, "user: b", 2);
  }

  lemma SavedSummary(db: Db)
    requires db.messages == [EARLY_MESSAGE, LATE_MESSAGE] && db.summaries == []
    ensures var saved := SavePlan(db, Plan(SESSION, "user: b", 2)).0;
            saved.messages == db.messages
            && LatestSummary(saved.summaries, SESSION) == Some(Summary(SESSION, 1, "user: b", 2))
  {
    assert LATE_MESSAGE in db.messages;
    var saved := SavePlan(db, Plan(SESSION, "user: b", 2)).0;
    assert saved.summaries == [Summary(SESSION, 1, "user: b", 2)];
    assert saved.summaries[..0] == [];
  }

  lemma RunOneMore(steps: seq<Step>, step: Step)
    ensures Run(steps + [step]) == Next(Run(steps), step)
  {
    assert (steps + [step])[..|steps|] == steps;
  }

  lemma AfterTwoStarts()
    ensures Run(TWO_STARTS).db.messages == [EARLY_MESSAGE, LATE_MESSAGE] && Run(TWO_STARTS).db.summaries == []
  {
    RunOneMore([], TWO_STARTS[0]);
    RunOneMore([TWO_STARTS[0]], TWO_STARTS[1]);
    assert TWO_STARTS == [TWO_STARTS[0]] + [TWO_STARTS[1]] && [TWO_STARTS[0]] == [] + [TWO_STARTS[0]];
    var db := Run([TWO_STARTS[0]]).db;
    assert db == Apply(EMPTY_DB, TWO_STARTS[0].op);
    assert db.messages == [EARLY_MESSAGE] && 1 !in db.runs && LATE_START.identity.Key() !in db.inbound;
  }

  lemma KeepOfTwo(a: Message, b: Message, drop: Message -> bool)
    ensures Keep([a, b], drop) == (if drop(a) then [] else [a]) + (if drop(b) then [] else [b])
  {
    var both, first := [a, b], [a];
    assert both[..|both| - 1] == first && first[..|first| - 1] == [];
    assert Keep(first, drop) == if drop(a) then [] else [a];
  }

  lemma FoldedOfTwo(messages: seq<Message>)
    requires messages == [EARLY_MESSAGE, LATE_MESSAGE]
    ensures OldMessages(None, messages, SESSION, Some(0), 0) == [LATE_MESSAGE]
  {
    KeepingAll(messages, NotAfter(SESSION, 0));
    KeepOfTwo(EARLY_MESSAGE, LATE_MESSAGE, OfRun(0));
    assert [] + [LATE_MESSAGE] == [LATE_MESSAGE];
    assert WithoutRun(MessagesAfter(messages, SESSION, 0), Some(0)) == [LATE_MESSAGE];
    assert [LATE_MESSAGE][..1] == [LATE_MESSAGE];
  }

  lemma PlanOfTwo(messages: seq<Message>)
    requires messages == [EARLY_MESSAGE, LATE_MESSAGE]
    ensures PlanFrom(None, messages, SESSION, Some(0), 0) == Some(Plan(SESSION, "user: b", 2))
  {
    FoldedOfTwo(messages);
    assert Line(LATE_MESSAGE) == "user: b";
    var last := [LATE_MESSAGE];
    assert last[..|last| - 1] == [];
    assert Lines(last) == Lines([]) + [Line(LATE_MESSAGE)];
    FirstSummary(last);
  }
}
