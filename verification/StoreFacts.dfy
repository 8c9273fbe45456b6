/** What single transactions of the session store do, row by row. */
module StoreFacts {
  import opened Wrappers
  import opened RunState
  import opened Blocks
  import opened StoreSpec

  /******* History *******/

  function InSession(messages: seq<Message>, session: SessionKey): seq<Message> {
    if messages == [] then []
    else (if messages[0].session == session then [messages[0]] else []) + InSession(messages[1..], session)
  }

  lemma {:induction false} InSessionAppend(messages: seq<Message>, last: Message, session: SessionKey)
    ensures InSession(messages + [last], session)
         == InSession(messages, session) + (if last.session == session then [last] else [])
  {
    if messages == [] {
      assert [last][1..] == [];
    } else {
      assert (messages + [last])[1..] == messages[1..] + [last];
      InSessionAppend(messages[1..], last, session);
    }
  }

  /** The history of a session is the end of its messages, in their order, as long as the limit allows. */
  lemma {:induction false} HistoryIsTheTail(messages: seq<Message>, session: SessionKey, limit: nat)
    ensures var mine, history := InSession(messages, session), History(messages, session, limit);
            && |history| == (if |mine| < limit then |mine| else limit)
            && forall k {:trigger history[k]} :: 0 <= k < |history| ==>
                 history[k] == Dict(mine[|mine| - |history| + k].role, mine[|mine| - |history| + k].content, None)
  {
    if messages != [] && limit != 0 {
      var before, last := messages[..|messages| - 1], messages[|messages| - 1];
      assert messages == before + [last];
      InSessionAppend(before, last, session);
      HistoryIsTheTail(before, session, if last.session == session then limit - 1 else limit);
      assert last.session != session ==> InSession(messages, session) == InSession(before, session);
    }
  }

  /******* Administration *******/

  /** When an admin command takes effect, and where it leads. */
  predicate Leads(control: Control, from: RunStatus, target: RunStatus) {
    match from
    case Running => (control == Pause && target == Interrupted) || (control == Cancel && target == Cancelled)
    case WaitingApproval => (control == Pause && target == Interrupted) || (control == Cancel && target == Cancelled)
    case Interrupted => control == Cancel && target == Cancelled
    case Failed => (control == Cancel && target == Cancelled) || (control == Recover && target == Interrupted)
    case _ => false
  }

  /** A command changes a run of its tenant exactly where the table leads on; the run then has no owner, no lease and a
      new token. A command that finds its work done says so, any other is refused; neither changes anything. */
  lemma ControlFollowsTheTable(db: Db, tenant: string, run: RunId, control: Control)
    ensures var (next, outcome) := ControlRun(db, tenant, run, control);
            && (outcome == NotFound <==> !(run in db.runs && db.runs[run].session.tenant == tenant))
            && (outcome == Succeeded <==>
                  outcome != NotFound && exists target :: Leads(control, db.runs[run].status, target))
            && (outcome == AlreadyApplied <==>
                  outcome != NotFound && db.runs[run].status == if control == Cancel then Cancelled else Interrupted)
            && (outcome != Succeeded ==> next == db)
            && (outcome == Succeeded ==>
                  && run in next.runs && Leads(control, db.runs[run].status, next.runs[run].status)
                  && next.runs[run] == db.runs[run].(status := next.runs[run].status, owner := None, lease := None,
                                                     token := db.runs[run].token + 1)
                  && next == db.(runs := db.runs[run := next.runs[run]]))
  {
    if run in db.runs {
      var from := db.runs[run].status;
      assert Leads(control, from, Cancelled) || Leads(control, from, Interrupted) || forall t :: !Leads(control, from, t);
    }
  }

  /******* Stored errors and the ledger *******/

  /** The text up to its 1000th character. */
  predicate IsClipped(error: string, stored: string) {
    |stored| <= 1000 && stored <= error && (|error| <= 1000 ==> stored == error) && (|error| > 1000 ==> |stored| == 1000)
  }

  /** A transition stores the error it is given, clipped, and forgets the one before. */
  lemma TransitionStoresItsError(
    db: Db, caller: OwnerId, run: RunId, target: RunStatus, error: Option<string>, token: Option<nat>)
    requires TransitionRun(db, caller, run, target, error, token).1
    ensures var next := TransitionRun(db, caller, run, target, error, token).0;
            && run in next.runs && next.runs[run].status == target
            && (next.runs[run].error.Some? <==> error.Some? && error.value != "")
            && (next.runs[run].error.Some? ==> IsClipped(error.value, next.runs[run].error.value))
  {
  }

  /** A handler's outcome ends its row once: the output in full, or the error, clipped. */
  lemma OutcomeIsRecorded(db: Db, run: RunId, call: CallId, outcome: Outcome)
    requires FinishRow(db, run, call, outcome).1
    ensures (run, call) in db.tools && db.tools[(run, call)].status == ToolRunning
    ensures var next := FinishRow(db, run, call, outcome).0;
            && (run, call) in next.tools && next == db.(tools := db.tools[(run, call) := next.tools[(run, call)]])
            && var row := next.tools[(run, call)];
            && row.name == db.tools[(run, call)].name && row.input == db.tools[(run, call)].input
            && (outcome.Returned? ==> row.status == ToolCompleted && row.output == Some(outcome.output))
            && (outcome.Raised? ==>
                  row.status == ToolFailed && row.error.Some? && IsClipped(outcome.error, row.error.value))
  {
  }

  /** What a second claim of a call learns from its row. */
  lemma SecondClaimsLearn(db: Db, backend: Backend, caller: OwnerId, run: RunId, call: Call, token: Option<nat>)
    requires (run, call.id) in db.tools && (backend == Sqlite || Owns(db, caller, run, token))
    ensures var row := db.tools[(run, call.id)];
            var (next, claim) := ClaimTool(db, backend, caller, run, call, token);
            && next == db && claim != Execute && claim != LeaseLost
            && (claim == Conflict <==> !(row.name == call.name && row.input == call.input))
            && (claim == Uncertain ==> row.status == ToolRunning)
            && (row.status == ToolRunning ==> claim == Uncertain || claim == Conflict)
            && (claim.Replay? ==> row.status == ToolCompleted && row.output == Some(claim.output))
            && (row.status == ToolCompleted && row.output.Some? ==> claim.Replay? || claim == Conflict)
  {
  }
}
