/** Any history of commands, by administration and retention alike, between any other transactions. */
module AdminHistory {
  import opened Wrappers
  import opened RunState
  import opened Blocks
  import opened StoreSpec
  import opened StoreHistory
  import opened StoreInvariants
  import opened AdminSpec

  datatype Step = Transaction(op: Op) | Issue(req: Request, envelope: Envelope)

  datatype Snapshot = Snapshot(db: Db, books: Books)

  /** Commands reach the database only through the books; audit ids are fresh uuids. */
  function Next(s: Snapshot, step: Step): Snapshot {
    match step
    case Transaction(op) =>
      if op.ControlOp? || op.ResolveOp? || op.PurgeOp? then s else s.(db := Apply(s.db, op))
    case Issue(req, e) =>
      if e.audit in s.books.audits then s
      else
        var (db, books, _) := Serve(s.db, s.books, req, e);
        Snapshot(db, books)
  }

  function RunFrom(s: Snapshot, steps: seq<Step>): Snapshot {
    if steps == [] then s else Next(RunFrom(s, steps[..|steps| - 1]), steps[|steps| - 1])
  }

  const START := Snapshot(EMPTY_DB, Books(map[], map[]))

  /******* Operations and audit events correspond *******/

  /** The event of an operation: same id, same request, same effect. */
  predicate Describes(event: AuditEvent, operation: OperationId, row: Operation) {
    && event.operation == operation == row.result.operation
    && event.tenant == row.binding.tenant && event.actor == row.binding.actor && event.action == row.binding.action
    && event.resource == row.binding.resource == row.result.resource && event.effect == row.result.effect
  }

  predicate Balanced(books: Books) {
    && (forall o {:trigger books.operations[o]} :: o in books.operations ==>
          books.operations[o].result.audit in books.audits
          && Describes(books.audits[books.operations[o].result.audit], o, books.operations[o]))
    && (forall a {:trigger books.audits[a]} :: a in books.audits ==>
          books.audits[a].operation in books.operations && books.operations[books.audits[a].operation].result.audit == a)
  }

  lemma ServeKeepsBalance(db: Db, books: Books, req: Request, e: Envelope)
    requires Balanced(books) && e.audit !in books.audits
    ensures Balanced(Serve(db, books, req, e).1)
  {
  }

  /** In every reachable state there is one audit event for every operation and one operation for every event. */
  lemma {:induction false} BooksStayBalanced(steps: seq<Step>)
    ensures Balanced(RunFrom(START, steps).books)
  {
    if steps != [] {
      BooksStayBalanced(steps[..|steps| - 1]);
      var s, step := RunFrom(START, steps[..|steps| - 1]), steps[|steps| - 1];
      if step.Issue? && step.envelope.audit !in s.books.audits {
        ServeKeepsBalance(s.db, s.books, step.req, step.envelope);
      }
    }
  }

  /** There are as many audit events as operations. */
  lemma AsManyEventsAsOperations(steps: seq<Step>)
    ensures |RunFrom(START, steps).books.operations| == |RunFrom(START, steps).books.audits|
  {
    var books := RunFrom(START, steps).books;
    BooksStayBalanced(steps);
    SameSize(books, books.operations.Keys);
    assert (set o | o in books.operations.Keys :: books.operations[o].result.audit) == books.audits.Keys by {
      forall a | a in books.audits
        ensures a in set o | o in books.operations.Keys :: books.operations[o].result.audit
      {
        assert books.audits[a].operation in books.operations;
      }
    }
  }

  lemma {:induction false} SameSize(books: Books, operations: set<OperationId>)
    requires Balanced(books) && operations <= books.operations.Keys
    ensures |set o | o in operations :: books.operations[o].result.audit| == |operations|
    decreases |operations|
  {
    if operations != {} {
      var o :| o in operations;
      var rest := operations - {o};
      var audits := set x | x in rest :: books.operations[x].result.audit;
      SameSize(books, rest);
      assert (set x | x in operations :: books.operations[x].result.audit) == audits + {books.operations[o].result.audit};
      assert books.operations[o].result.audit !in audits;
    }
  }

  /******* Replays *******/

  lemma {:induction false} OperationsAreKept(s: Snapshot, steps: seq<Step>, operation: OperationId)
    requires operation in s.books.operations
    ensures operation in RunFrom(s, steps).books.operations
    ensures RunFrom(s, steps).books.operations[operation] == s.books.operations[operation]
  {
    if steps != [] {
      OperationsAreKept(s, steps[..|steps| - 1], operation);
    }
  }

  /** Nothing of a request is left out of what its operation id is bound to. */
  lemma BindingsTellRequestsApart(a: Request, e: Envelope, b: Request, e': Envelope)
    ensures BindingOf(a, e) == BindingOf(b, e') <==> a == b && e.actor == e'.actor
  {
  }

  /** The first use of an operation id decides: whatever happens in between, repeating the request returns the first
      result and changes nothing, and any other request under that id, by either writer, is refused and changes nothing:
      another run, command, call, disposition, output, tenant or cutoff, or the same request by someone else. */
  lemma FirstRequestWins(s: Snapshot, req: Request, e: Envelope, steps: seq<Step>, again: Request, e': Envelope)
    requires e.operation !in s.books.operations && e'.operation == e.operation
    ensures var (db, books, first) := Serve(s.db, s.books, req, e);
            var later := RunFrom(Snapshot(db, books), steps);
            && first.Ok?
            && Serve(later.db, later.books, again, e')
                 == (later.db, later.books,
                     if again == req && e'.actor == e.actor then first else Err(RebindingRefused))
  {
    var (db, books, first) := Serve(s.db, s.books, req, e);
    OperationsAreKept(Snapshot(db, books), steps, e.operation);
    BindingsTellRequestsApart(again, e', req, e);
  }

  /** What a command reports is what it did: it claims a change if and only if rows changed, and retention counts
      exactly the rows that went. */
  lemma ReportedEffectIsReal(db: Db, req: Request)
    ensures var (next, effect) := Perform(db, req);
            match effect
            case Command(changed, outcome) => (changed <==> next != db) && (changed <==> outcome == Succeeded)
            case Deleted(s, m, c, a) =>
              && |next.summaries| + s == |db.summaries| && |next.messages| + m == |db.messages|
              && |next.checkpoints| + c == |db.checkpoints| && |next.attachments| + a == |db.attachments|
              && next.tools == db.tools && next.runs == db.runs
  {
    match req
    case ControlRequest(tenant, run, control) =>
      if ControlRun(db, tenant, run, control).1 == Succeeded {
        assert ControlRun(db, tenant, run, control).0.runs[run].token != db.runs[run].token;
      }
    case ResolveRequest(tenant, run, call, disposition, output) =>
      if ResolveTool(db, tenant, run, call, disposition, output).1 == Succeeded {
        assert ResolveTool(db, tenant, run, call, disposition, output).0.tools[(run, call)].status != ToolRunning;
      }
    case PurgeRequest(_, _) =>
  }

  /** Commands are store transactions, so everything that holds over store histories holds with them. */
  lemma PerformIsATransaction(db: Db, req: Request)
    ensures var op := match req
              case ControlRequest(tenant, run, control) => ControlOp(tenant, run, control)
              case ResolveRequest(tenant, run, call, disposition, output) => ResolveOp(tenant, run, call, disposition, output)
              case PurgeRequest(tenant, before) => PurgeOp(tenant, before);
            Perform(db, req).0 == Apply(db, op)
  {
  }

  lemma {:induction false} BooksAndDatabaseStayInOrder(steps: seq<Step>)
    ensures Inv(RunFrom(START, steps).db)
  {
    if steps == [] {
      Reachable([]);
    } else {
      BooksAndDatabaseStayInOrder(steps[..|steps| - 1]);
      var s, step := RunFrom(START, steps[..|steps| - 1]), steps[|steps| - 1];
      if step.Transaction? {
        InboundStep(s.db, step.op);
        OrderStep(s.db, step.op);
        ReferenceStep(s.db, step.op);
      } else {
        var op := match step.req
          case ControlRequest(tenant, run, control) => ControlOp(tenant, run, control)
          case ResolveRequest(tenant, run, call, disposition, output) => ResolveOp(tenant, run, call, disposition, output)
          case PurgeRequest(tenant, before) => PurgeOp(tenant, before);
        PerformIsATransaction(s.db, step.req);
        InboundStep(s.db, op);
        OrderStep(s.db, op);
        ReferenceStep(s.db, op);
      }
    }
  }
}
