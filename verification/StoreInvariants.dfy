/** What every history of the session database keeps: deduplication, completion, the ledger, references. */
module StoreInvariants {
  import opened Wrappers
  import opened RunState
  import opened Blocks
  import opened StoreSpec
  import opened StoreHistory

  /** Runs and inbound rows point at each other, and a run is completed iff its message has a response. */
  predicate InboundInv(db: Db) {
    && (forall r :: r in db.runs ==>
          db.runs[r].inbound in db.inbound && db.inbound[db.runs[r].inbound].run == r)
    && (forall k :: k in db.inbound ==>
          db.inbound[k].run in db.runs && db.runs[db.inbound[k].run].inbound == k)
    && (forall r :: r in db.runs ==>
          (db.runs[r].status == Completed <==> db.inbound[db.runs[r].inbound].response.Some?))
  }

  /** Message ids ascend below the next id, checkpoint sequences ascend within a run. */
  predicate OrderInv(db: Db) {
    && (forall i, j :: 0 <= i < j < |db.messages| ==> db.messages[i].id < db.messages[j].id)
    && (forall i :: 0 <= i < |db.messages| ==> db.messages[i].id < db.nextMessage)
    && (forall i, j :: 0 <= i < j < |db.checkpoints| && db.checkpoints[i].run == db.checkpoints[j].run ==>
          db.checkpoints[i].sequence < db.checkpoints[j].sequence)
  }

  /** The foreign keys. */
  predicate ReferenceInv(db: Db) {
    && (forall r :: r in db.runs ==> db.runs[r].session in db.sessions)
    && (forall m :: m in db.messages ==> m.run in db.runs && m.session == db.runs[m.run].session)
    && (forall c :: c in db.checkpoints ==> c.run in db.runs)
    && (forall key :: key in db.tools ==> key.0 in db.runs)
    && (forall s :: s in db.summaries ==> HasMessage(db.messages, s.session, s.through))
    && (forall a :: a in db.attachments ==> a.session in db.sessions)
  }

  predicate Inv(db: Db) {
    InboundInv(db) && OrderInv(db) && ReferenceInv(db)
  }

  /** A change of one run row that neither completes nor reopens it. */
  lemma RowUpdateKeepsInbound(db: Db, run: RunId, row: Run)
    requires InboundInv(db) && run in db.runs && row.inbound == db.runs[run].inbound
    requires row.status == Completed <==> db.runs[run].status == Completed
    ensures InboundInv(db.(runs := db.runs[run := row]))
  {
  }

  lemma StartKeepsInbound(db: Db, caller: OwnerId, req: InboundRequest, id: RunId, now: Time, lease: Time)
    requires InboundInv(db) && id !in db.runs
    ensures InboundInv(StartInbound(db, caller, req, id, now, lease).0)
  {
  }

  lemma FinishKeepsInbound(db: Db, caller: OwnerId, run: RunId, text: string, token: Option<nat>, now: Time)
    requires InboundInv(db)
    ensures InboundInv(CompleteRun(db, caller, run, text, token, now).0)
  {
    if run in db.runs {
      assert db.runs[run].inbound in db.inbound;
    }
  }

  lemma InterruptKeepsInbound(db: Db, caller: OwnerId, now: Time)
    requires InboundInv(db)
    ensures InboundInv(InterruptIncomplete(db, caller, now))
  {
  }

  /** The transactions that touch neither run nor inbound rows. */
  predicate LeavesRuns(op: Op) {
    op.Save? || op.Take? || op.Record? || op.RecordLocked? || op.Summarize? || op.Attach? || op.ResolveOp? || op.PurgeOp?
  }

  lemma LeavesRunsAlone(db: Db, op: Op)
    requires LeavesRuns(op)
    ensures Apply(db, op).runs == db.runs && Apply(db, op).inbound == db.inbound
    ensures Apply(db, op).sessions == db.sessions && Apply(db, op).nextMessage == db.nextMessage
  {
  }

  predicate OneRow(op: Op) {
    op.Move? || op.Claim? || op.Renew? || op.ControlOp?
  }

  /** What the four single-row updates have in common. */
  lemma OneRowUpdate(db: Db, op: Op)
    requires OneRow(op)
    ensures Apply(db, op) == db
         || (op.run in db.runs && op.run in Apply(db, op).runs
             && var row := Apply(db, op).runs[op.run];
             && Apply(db, op) == db.(runs := db.runs[op.run := row])
             && row.inbound == db.runs[op.run].inbound && row.session == db.runs[op.run].session
             && row.status != Completed && db.runs[op.run].status != Completed
             && (Terminal(db.runs[op.run].status) ==> op.ControlOp? && db.runs[op.run].status == Failed))
  {
  }

  lemma InboundStep(db: Db, op: Op)
    requires InboundInv(db)
    ensures InboundInv(Apply(db, op))
  {
    if LeavesRuns(op) {
      LeavesRunsAlone(db, op);
    } else if OneRow(op) {
      OneRowUpdate(db, op);
      if Apply(db, op) != db {
        RowUpdateKeepsInbound(db, op.run, Apply(db, op).runs[op.run]);
      }
    } else {
      match op
      case Start(caller, req, id, now, lease) =>
        if id !in db.runs { StartKeepsInbound(db, caller, req, id, now, lease); }
      case Finish(caller, run, text, token, now) => FinishKeepsInbound(db, caller, run, text, token, now);
      case Interrupt(caller, now) => InterruptKeepsInbound(db, caller, now);
    }
  }

  lemma {:induction false} MaxSequenceBounds(checkpoints: seq<Checkpoint>, run: RunId)
    ensures forall c :: c in checkpoints && c.run == run ==> c.sequence <= MaxSequence(checkpoints, run)
  {
    if checkpoints != [] {
      var front := checkpoints[..|checkpoints| - 1];
      MaxSequenceBounds(front, run);
      assert forall c :: c in checkpoints ==> c in front || c == checkpoints[|checkpoints| - 1];
    }
  }

  /** Filtering keeps any order between rows. */
  lemma {:induction false} KeepIsOrdered<T(!new)>(rows: seq<T>, drop: T -> bool, before: (T, T) -> bool)
    requires forall i, j :: 0 <= i < j < |rows| ==> before(rows[i], rows[j])
    ensures forall i, j :: 0 <= i < j < |Keep(rows, drop)| ==> before(Keep(rows, drop)[i], Keep(rows, drop)[j])
  {
    if rows != [] {
      var front, last := rows[..|rows| - 1], rows[|rows| - 1];
      KeepIsOrdered(front, drop, before);
      var kept, tail := Keep(front, drop), if drop(last) then [] else [last];
      assert Keep(rows, drop) == kept + tail;
      forall i, j | 0 <= i < j < |kept + tail| ensures before((kept + tail)[i], (kept + tail)[j]) {
        if j == |kept| {
          assert kept[i] in front;
          var k :| 0 <= k < |front| && front[k] == kept[i];
          assert before(rows[k], rows[|front|]);
        }
      }
    }
  }

  predicate IdBelow(a: Message, b: Message) {
    a.id < b.id
  }

  predicate SequenceBelow(a: Checkpoint, b: Checkpoint) {
    a.run == b.run ==> a.sequence < b.sequence
  }

  lemma PurgeKeepsOrder(db: Db, tenant: string, before: Time)
    requires OrderInv(db)
    ensures OrderInv(Purge(db, tenant, before))
  {
    var next := Purge(db, tenant, before);
    var oldMessage := m => OldMessage(db, tenant, before, m);
    var oldCheckpoint := c => OldCheckpoint(db, tenant, before, c);
    assert forall i, j :: 0 <= i < j < |db.messages| ==> IdBelow(db.messages[i], db.messages[j]);
    KeepIsOrdered(db.messages, oldMessage, IdBelow);
    assert next.messages == Keep(db.messages, oldMessage);
    assert forall i, j :: 0 <= i < j < |db.checkpoints| ==> SequenceBelow(db.checkpoints[i], db.checkpoints[j]);
    KeepIsOrdered(db.checkpoints, oldCheckpoint, SequenceBelow);
    assert next.checkpoints == Keep(db.checkpoints, oldCheckpoint);
    forall i, j | 0 <= i < j < |next.messages| ensures next.messages[i].id < next.messages[j].id {
      assert IdBelow(next.messages[i], next.messages[j]);
    }
    forall i, j | 0 <= i < j < |next.checkpoints| && next.checkpoints[i].run == next.checkpoints[j].run
      ensures next.checkpoints[i].sequence < next.checkpoints[j].sequence
    {
      assert SequenceBelow(next.checkpoints[i], next.checkpoints[j]);
    }
    forall i | 0 <= i < |next.messages| ensures next.messages[i].id < next.nextMessage {
      assert next.messages[i] in db.messages;
    }
  }

  /** Appending a message under the next id, and a checkpoint under the next sequence, keeps the order. */
  lemma AppendKeepsOrder(db: Db, m: Message, c: Checkpoint)
    requires OrderInv(db) && m.id == db.nextMessage
    requires forall c' :: c' in db.checkpoints && c'.run == c.run ==> c'.sequence < c.sequence
    ensures OrderInv(db.(messages := db.messages + [m], nextMessage := db.nextMessage + 1))
    ensures OrderInv(db.(checkpoints := db.checkpoints + [c]))
    ensures OrderInv(db.(messages := db.messages + [m], nextMessage := db.nextMessage + 1,
                         checkpoints := db.checkpoints + [c]))
  {
  }

  lemma SaveKeepsOrder(db: Db, caller: OwnerId, run: RunId, phase: string, state: State, token: Option<nat>, now: Time)
    requires OrderInv(db)
    ensures OrderInv(SaveCheckpoint(db, caller, run, phase, state, token, now).0)
  {
    MaxSequenceBounds(db.checkpoints, run);
    AppendKeepsOrder(db, Message(db.nextMessage, SessionKey("", "", ""), 0, "", "", 0),
                     Checkpoint(run, MaxSequence(db.checkpoints, run) + 1, phase, state, now));
  }

  lemma StartKeepsOrder(db: Db, caller: OwnerId, req: InboundRequest, id: RunId, now: Time, lease: Time)
    requires OrderInv(db) && ReferenceInv(db) && id !in db.runs
    ensures OrderInv(StartInbound(db, caller, req, id, now, lease).0)
  {
    var m := Message(db.nextMessage, req.identity.Session(), id, "user", req.content, now);
    var history := History(db.messages + [m], req.identity.Session(), req.recentLimit);
    AppendKeepsOrder(db, m, Checkpoint(id, 1, "inbound_started", req.state.(messages := history), now));
  }

  lemma FinishKeepsOrder(db: Db, caller: OwnerId, run: RunId, text: string, token: Option<nat>, now: Time)
    requires OrderInv(db)
    ensures OrderInv(CompleteRun(db, caller, run, text, token, now).0)
  {
  }

  /** The transactions that leave messages and checkpoints alone. */
  predicate LeavesLogs(op: Op) {
    !op.PurgeOp? && !op.Save? && !op.Start? && !op.Finish?
  }

  lemma LeavesLogsAlone(db: Db, op: Op)
    requires LeavesLogs(op)
    ensures Apply(db, op).messages == db.messages && Apply(db, op).nextMessage == db.nextMessage
    ensures Apply(db, op).checkpoints == db.checkpoints && Apply(db, op).inbound == db.inbound
  {
  }

  lemma OrderStep(db: Db, op: Op)
    requires OrderInv(db) && ReferenceInv(db)
    ensures OrderInv(Apply(db, op))
  {
    if LeavesLogs(op) {
      LeavesLogsAlone(db, op);
    } else {
      match op
      case PurgeOp(tenant, before) => PurgeKeepsOrder(db, tenant, before);
      case Save(caller, run, phase, state, token, now) => SaveKeepsOrder(db, caller, run, phase, state, token, now);
      case Start(caller, req, id, now, lease) =>
        if id !in db.runs { StartKeepsOrder(db, caller, req, id, now, lease); }
      case Finish(caller, run, text, token, now) => FinishKeepsOrder(db, caller, run, text, token, now);
    }
  }

  lemma MessagesGrow(db: Db, next: Db)
    requires db.messages <= next.messages
    ensures forall session, id :: HasMessage(db.messages, session, id) ==> HasMessage(next.messages, session, id)
  {
    assert forall m :: m in db.messages ==> m in next.messages;
  }

  /** References survive when runs and sessions only grow and keep their sessions, and messages only grow. */
  lemma ReferencesGrow(db: Db, next: Db)
    requires ReferenceInv(db)
    requires db.sessions <= next.sessions && db.messages <= next.messages
    requires forall r :: r in db.runs ==> r in next.runs && next.runs[r].session == db.runs[r].session
    requires forall r :: r in next.runs ==> next.runs[r].session in next.sessions
    requires forall m :: m in next.messages ==>
               m in db.messages || (m.run in next.runs && m.session == next.runs[m.run].session)
    requires forall c :: c in next.checkpoints ==> c in db.checkpoints || c.run in next.runs
    requires forall key :: key in next.tools ==> key in db.tools || key.0 in next.runs
    requires forall s :: s in next.summaries ==> s in db.summaries || HasMessage(next.messages, s.session, s.through)
    requires forall a :: a in next.attachments ==> a in db.attachments || a.session in next.sessions
    ensures ReferenceInv(next)
  {
    MessagesGrow(db, next);
  }

  lemma StartKeepsReferences(db: Db, caller: OwnerId, req: InboundRequest, id: RunId, now: Time, lease: Time)
    requires ReferenceInv(db) && id !in db.runs
    ensures ReferenceInv(StartInbound(db, caller, req, id, now, lease).0)
  {
    ReferencesGrow(db, StartInbound(db, caller, req, id, now, lease).0);
  }

  lemma FinishKeepsReferences(db: Db, caller: OwnerId, run: RunId, text: string, token: Option<nat>, now: Time)
    requires ReferenceInv(db)
    ensures ReferenceInv(CompleteRun(db, caller, run, text, token, now).0)
  {
    ReferencesGrow(db, CompleteRun(db, caller, run, text, token, now).0);
  }

  /** The remaining transactions touch one table each, and keep what its rows refer to. */
  lemma OneTableKeepsReferences(db: Db, op: Op)
    requires ReferenceInv(db) && LeavesRuns(op) && !op.PurgeOp?
    ensures ReferenceInv(Apply(db, op))
  {
    LeavesRunsAlone(db, op);
    if LeavesLogs(op) {
      LeavesLogsAlone(db, op);
    }
  }

  lemma ReferenceStep(db: Db, op: Op)
    requires ReferenceInv(db)
    ensures ReferenceInv(Apply(db, op))
  {
    if op.PurgeOp? {
      PurgeKeepsReferences(db, op.tenant, op.before);
    } else if LeavesRuns(op) {
      OneTableKeepsReferences(db, op);
    } else if OneRow(op) {
      OneRowUpdate(db, op);
    } else {
      match op
      case Start(caller, req, id, now, lease) =>
        if id !in db.runs { StartKeepsReferences(db, caller, req, id, now, lease); }
      case Finish(caller, run, text, token, now) => FinishKeepsReferences(db, caller, run, text, token, now);
      case Interrupt(caller, now) =>
    }
  }

  /** No remaining summary loses the message it points at. */
  lemma PurgeKeepsReferences(db: Db, tenant: string, before: Time)
    requires ReferenceInv(db)
    ensures ReferenceInv(Purge(db, tenant, before))
  {
    var next := Purge(db, tenant, before);
    forall s | s in next.summaries ensures HasMessage(next.messages, s.session, s.through) {
      assert s in db.summaries && !OldSummary(db, tenant, before, s);
      var m :| m in db.messages && m.session == s.session && m.id == s.through;
      assert m in next.messages;
    }
  }

  lemma {:induction false} Reachable(ops: seq<Op>)
    ensures Inv(Exec(EMPTY_DB, ops))
  {
    if ops != [] {
      var before := ops[..|ops| - 1];
      Reachable(before);
      InboundStep(Exec(EMPTY_DB, before), ops[|ops| - 1]);
      OrderStep(Exec(EMPTY_DB, before), ops[|ops| - 1]);
      ReferenceStep(Exec(EMPTY_DB, before), ops[|ops| - 1]);
    }
  }

  /******* Exactly-once completion *******/

  /** The messages one transaction inserts. */
  function Inserted(db: Db, op: Op): seq<Message> {
    var next := Apply(db, op);
    if |next.messages| > |db.messages| then next.messages[|db.messages|..] else []
  }

  /** Every message ever inserted, whether or not it was purged since. */
  function EverInserted(ops: seq<Op>): seq<Message> {
    if ops == [] then []
    else EverInserted(ops[..|ops| - 1]) + Inserted(Exec(EMPTY_DB, ops[..|ops| - 1]), ops[|ops| - 1])
  }

  function Replies(messages: seq<Message>, run: RunId): seq<string> {
    if messages == [] then []
    else
      var last := messages[|messages| - 1];
      Replies(messages[..|messages| - 1], run)
        + (if last.run == run && last.role == "assistant" then [last.content] else [])
  }

  function OptionSeq(response: Option<string>): seq<string> {
    if response.Some? then [response.value] else []
  }

  /** In every reachable state, a run is completed iff its message has a response, and then the assistant
      messages ever appended for it are exactly that one response. */
  lemma {:induction false} CompletedExactlyOnce(ops: seq<Op>, run: RunId)
    ensures var db := Exec(EMPTY_DB, ops);
            && (run in db.runs ==> (db.runs[run].status == Completed <==> ResponseOf(db, run).Some?))
            && Replies(EverInserted(ops), run) == OptionSeq(ResponseOf(db, run))
  {
    Reachable(ops);
    if ops != [] {
      var front := ops[..|ops| - 1];
      var db, op := Exec(EMPTY_DB, front), ops[|ops| - 1];
      CompletedExactlyOnce(front, run);
      Reachable(front);
      ReplyStep(db, op, run);
      var added := Inserted(db, op);
      if added != [] {
        assert EverInserted(ops)[..|EverInserted(ops)| - 1] == EverInserted(front);
      } else {
        assert EverInserted(ops) == EverInserted(front);
      }
    }
  }

  lemma ResponseStep(db: Db, op: Op, run: RunId)
    requires InboundInv(db) && !op.Start? && !op.Finish?
    ensures ResponseOf(Apply(db, op), run) == ResponseOf(db, run)
    ensures Inserted(db, op) == []
  {
    if LeavesRuns(op) {
      LeavesRunsAlone(db, op);
    } else {
      LeavesLogsAlone(db, op);
      if OneRow(op) {
        OneRowUpdate(db, op);
      }
    }
    if LeavesLogs(op) {
      LeavesLogsAlone(db, op);
    }
  }

  /** One transaction inserts at most one message, and a reply only together with the response it caches. */
  lemma ReplyStep(db: Db, op: Op, run: RunId)
    requires InboundInv(db)
    ensures |Inserted(db, op)| <= 1
    ensures OptionSeq(ResponseOf(Apply(db, op), run))
              == OptionSeq(ResponseOf(db, run)) + Replies(Inserted(db, op), run)
  {
    if op.Start? {
      if op.id !in db.runs && op.req.identity.Key() !in db.inbound {
        assert Inserted(db, op)
            == [Message(db.nextMessage, op.req.identity.Session(), op.id, "user", op.req.content, op.now)];
      } else {
        assert Inserted(db, op) == [];
      }
    } else if op.Finish? {
      FinishReplies(db, op.caller, op.run, op.text, op.token, op.now, run);
    } else {
      ResponseStep(db, op, run);
    }
  }

  lemma FinishReplies(db: Db, caller: OwnerId, done: RunId, text: string, token: Option<nat>, now: Time, run: RunId)
    requires InboundInv(db)
    ensures var op := Finish(caller, done, text, token, now);
            && |Inserted(db, op)| <= 1
            && OptionSeq(ResponseOf(Apply(db, op), run))
                 == OptionSeq(ResponseOf(db, run)) + Replies(Inserted(db, op), run)
  {
    var op := Finish(caller, done, text, token, now);
    if done in db.runs && db.runs[done].status != Completed && Owns(db, caller, done, token) {
      assert db.runs[done].inbound in db.inbound;
      assert Inserted(db, op)
          == [Message(db.nextMessage, db.runs[done].session, done, "assistant", text, now)];
    } else {
      assert Inserted(db, op) == [];
    }
  }

  /** Completed and cancelled runs never change status again; only an admin command revives a failed one. */
  lemma {:induction false} TerminalIsFinal(db: Db, ops: seq<Op>, run: RunId)
    requires InboundInv(db) && run in db.runs && Terminal(db.runs[run].status)
    requires db.runs[run].status == Failed ==> forall op :: op in ops ==> !op.ControlOp?
    ensures InboundInv(Exec(db, ops)) && run in Exec(db, ops).runs
    ensures Exec(db, ops).runs[run].status == db.runs[run].status
    ensures ResponseOf(Exec(db, ops), run) == ResponseOf(db, run)
  {
    if ops != [] {
      var front := ops[..|ops| - 1];
      TerminalIsFinal(db, front, run);
      InboundStep(Exec(db, front), ops[|ops| - 1]);
      TerminalStep(Exec(db, front), ops[|ops| - 1], run);
    }
  }

  lemma TerminalStep(db: Db, op: Op, run: RunId)
    requires InboundInv(db) && run in db.runs && Terminal(db.runs[run].status)
    requires db.runs[run].status == Failed ==> !op.ControlOp?
    ensures run in Apply(db, op).runs
    ensures Apply(db, op).runs[run].status == db.runs[run].status
    ensures ResponseOf(Apply(db, op), run) == ResponseOf(db, run)
  {
    if !op.Start? && !op.Finish? {
      ResponseStep(db, op, run);
    }
    if LeavesRuns(op) {
      LeavesRunsAlone(db, op);
    } else if OneRow(op) {
      OneRowUpdate(db, op);
    }
  }

  lemma InboundRowStep(db: Db, op: Op, key: InboundKey)
    requires InboundInv(db) && key in db.inbound
    ensures key in Apply(db, op).inbound && Apply(db, op).inbound[key].run == db.inbound[key].run
    ensures db.inbound[key].response.Some? ==> Apply(db, op).inbound[key] == db.inbound[key]
  {
    if LeavesRuns(op) {
      LeavesRunsAlone(db, op);
    } else if LeavesLogs(op) {
      LeavesLogsAlone(db, op);
    }
  }

  lemma {:induction false} InboundRowsStay(db: Db, ops: seq<Op>, key: InboundKey)
    requires InboundInv(db) && key in db.inbound
    ensures InboundInv(Exec(db, ops))
    ensures key in Exec(db, ops).inbound && Exec(db, ops).inbound[key].run == db.inbound[key].run
    ensures db.inbound[key].response.Some? ==> Exec(db, ops).inbound[key] == db.inbound[key]
  {
    if ops != [] {
      var front := ops[..|ops| - 1];
      InboundRowsStay(db, front, key);
      InboundStep(Exec(db, front), ops[|ops| - 1]);
      InboundRowStep(Exec(db, front), ops[|ops| - 1], key);
    }
  }

  /** A message that arrives again changes nothing and is answered with the same run, and with its response
      once there is one. */
  lemma DuplicatesMeetTheSameRun(
    db: Db, ops: seq<Op>, caller: OwnerId, req: InboundRequest, id: RunId, now: Time, lease: Time)
    requires InboundInv(db) && req.identity.Key() in db.inbound && id !in Exec(db, ops).runs
    ensures var later := Exec(db, ops);
            && StartInbound(later, caller, req, id, now, lease).0 == later
            && var start := StartInbound(later, caller, req, id, now, lease).1;
            && !start.isNew && start.run == db.inbound[req.identity.Key()].run
            && (db.inbound[req.identity.Key()].response.Some? ==> start.response == db.inbound[req.identity.Key()].response)
  {
    InboundRowsStay(db, ops, req.identity.Key());
  }

  /** Two runs never share an inbound message. */
  lemma OneRunPerMessage(ops: seq<Op>, first: RunId, second: RunId)
    requires first in Exec(EMPTY_DB, ops).runs && second in Exec(EMPTY_DB, ops).runs
    requires Exec(EMPTY_DB, ops).runs[first].inbound == Exec(EMPTY_DB, ops).runs[second].inbound
    ensures first == second
  {
    Reachable(ops);
  }

  /******* The ledger *******/

  predicate TouchesLedger(op: Op) {
    op.Take? || op.Record? || op.RecordLocked? || op.ResolveOp?
  }

  lemma OthersLeaveLedgerAlone(db: Db, op: Op)
    requires !TouchesLedger(op)
    ensures Apply(db, op).tools == db.tools
  {
  }

  lemma LedgerStep(db: Db, op: Op, key: (RunId, CallId))
    requires key in db.tools
    ensures key in Apply(db, op).tools
    ensures Apply(db, op).tools[key].name == db.tools[key].name
    ensures Apply(db, op).tools[key].input == db.tools[key].input
    ensures db.tools[key].status != ToolRunning ==> Apply(db, op).tools[key] == db.tools[key]
  {
    if !TouchesLedger(op) {
      OthersLeaveLedgerAlone(db, op);
    }
  }

  /** Ledger rows are never removed or re-identified, and a completed or failed row never changes again. */
  lemma {:induction false} LedgerRowsAreFinal(db: Db, ops: seq<Op>, key: (RunId, CallId))
    requires key in db.tools
    ensures key in Exec(db, ops).tools
    ensures Exec(db, ops).tools[key].name == db.tools[key].name
    ensures Exec(db, ops).tools[key].input == db.tools[key].input
    ensures db.tools[key].status != ToolRunning ==> Exec(db, ops).tools[key] == db.tools[key]
  {
    if ops != [] {
      LedgerRowsAreFinal(db, ops[..|ops| - 1], key);
      LedgerStep(Exec(db, ops[..|ops| - 1]), ops[|ops| - 1], key);
    }
  }

  /** A call is cleared for execution at most once in any history. */
  lemma ExecuteIsGrantedOnce(
    db: Db, ops: seq<Op>, call: Call, again: Call, run: RunId,
    backend: Backend, caller: OwnerId, token: Option<nat>, backend': Backend, caller': OwnerId, token': Option<nat>)
    requires ClaimTool(db, backend, caller, run, call, token).1 == Execute
    requires again.id == call.id
    ensures ClaimTool(Exec(ClaimTool(db, backend, caller, run, call, token).0, ops),
                      backend', caller', run, again, token').1 != Execute
  {
    LedgerRowsAreFinal(ClaimTool(db, backend, caller, run, call, token).0, ops, (run, call.id));
  }

  /** Once a call completed with an output, every later claim of it that is not fenced off replays that output. */
  lemma CompletedCallReplays(
    db: Db, ops: seq<Op>, run: RunId, call: Call, backend: Backend, caller: OwnerId, token: Option<nat>)
    requires (run, call.id) in db.tools
    requires db.tools[(run, call.id)].status == ToolCompleted && db.tools[(run, call.id)].output.Some?
    requires db.tools[(run, call.id)].name == call.name && db.tools[(run, call.id)].input == call.input
    ensures ClaimTool(Exec(db, ops), backend, caller, run, call, token)
              == (Exec(db, ops),
                  if backend == Postgres && !Owns(Exec(db, ops), caller, run, token) then LeaseLost
                  else Replay(db.tools[(run, call.id)].output.value))
  {
    LedgerRowsAreFinal(db, ops, (run, call.id));
  }

  /******* Retention *******/

  predicate Protected(db: Db, tenant: string, session: SessionKey) {
    session.tenant != tenant || exists r :: r in db.runs && db.runs[r].session == session && !Terminal(db.runs[r].status)
  }

  lemma PurgeableExactlyWhen(db: Db, tenant: string, session: SessionKey)
    requires session in db.sessions
    ensures Purgeable(db, tenant, session) <==> !Protected(db, tenant, session)
  {
  }

  lemma MessageIdsAreUnique(db: Db, a: Message, b: Message)
    requires OrderInv(db) && a in db.messages && b in db.messages && a.id == b.id
    ensures a == b
  {
  }

  /** A summary goes exactly with the message it points at. */
  lemma SummaryGoesWithItsMessage(db: Db, tenant: string, before: Time, s: Summary, m: Message)
    requires ReferenceInv(db) && OrderInv(db) && s in db.summaries
    requires m in db.messages && m.session == s.session && m.id == s.through
    ensures OldSummary(db, tenant, before, s) <==> !Protected(db, tenant, s.session) && m.at < before
  {
    forall other | other in db.messages && other.id == s.through ensures other == m {
      MessageIdsAreUnique(db, other, m);
    }
    PurgeableExactlyWhen(db, tenant, s.session);
    assert OldMessage(db, tenant, before, m) ==> OldSummary(db, tenant, before, s);
  }

  /** A session with a run that can continue, or of another tenant, loses nothing; elsewhere exactly the rows older than
      the cutoff go, and exactly the summaries that point at such a message. */
  lemma PurgeSparesProtectedSessions(db: Db, tenant: string, before: Time)
    requires ReferenceInv(db) && OrderInv(db)
    ensures var next := Purge(db, tenant, before);
            && (forall m :: m in db.messages ==>
                  (m in next.messages <==> Protected(db, tenant, m.session) || m.at >= before))
            && (forall c :: c in db.checkpoints ==>
                  (c in next.checkpoints <==> Protected(db, tenant, db.runs[c.run].session) || c.at >= before))
            && (forall a :: a in db.attachments ==>
                  (a in next.attachments <==> a.tenant != tenant || Protected(db, tenant, a.session) || a.at >= before))
            && (forall s, m :: s in db.summaries && m in db.messages && m.session == s.session && m.id == s.through ==>
                  (s in next.summaries <==> Protected(db, tenant, s.session) || m.at >= before))
            && (forall s :: s in next.summaries ==> HasMessage(next.messages, s.session, s.through))
            && next.tools == db.tools && next.runs == db.runs && next.inbound == db.inbound
  {
    PurgeKeepsReferences(db, tenant, before);
    forall session | session in db.sessions
      ensures Purgeable(db, tenant, session) <==> !Protected(db, tenant, session)
    {
      PurgeableExactlyWhen(db, tenant, session);
    }
    forall m | m in db.messages ensures m.session in db.sessions {}
    forall s, m | s in db.summaries && m in db.messages && m.session == s.session && m.id == s.through
      ensures OldSummary(db, tenant, before, s) <==> !Protected(db, tenant, s.session) && m.at < before
    {
      SummaryGoesWithItsMessage(db, tenant, before, s, m);
    }
  }
}
