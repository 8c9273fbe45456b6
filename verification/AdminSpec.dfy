/**
 Audited commands of administration and retention. Each names an operation id; the id is bound to the first request
 that uses it, whose result is kept with an audit event in the same transaction.
 */
module AdminSpec {
  import opened Wrappers
  import opened RunState
  import opened Blocks
  import opened StoreSpec

  type OperationId = string
  type AuditId = nat

  datatype Action = RunAction(control: Control) | ToolAction(disposition: Disposition) | RetentionPurge

  datatype Resource = RunResource(run: RunId) | ToolResource(toolRun: RunId, call: CallId) | TenantResource(tenant: string)

  /** The digest of a request, taken to be injective, stands for the fields that are digested. */
  datatype Digest =
    | OfControl(control: Control, run: RunId)
    | OfResolution(resolvedRun: RunId, call: CallId, disposition: Disposition, output: Option<string>)
    | OfPurge(tenant: string, before: Time)

  /** What an operation id is bound to. */
  datatype Binding = Binding(tenant: string, actor: string, action: Action, resource: Resource, digest: Digest)

  datatype Effect =
    | Command(changed: bool, outcome: AdminOutcome)
    | Deleted(summaries: nat, messages: nat, checkpoints: nat, attachments: nat)

  datatype CommandResult = CommandResult(operation: OperationId, resource: Resource, effect: Effect, audit: AuditId)

  datatype Operation = Operation(binding: Binding, result: CommandResult)

  datatype AuditEvent = AuditEvent(
    operation: OperationId, tenant: string, actor: string, action: Action, resource: Resource, reason: string,
    effect: Effect)

  datatype AdminError = RebindingRefused

  datatype Books = Books(operations: map<OperationId, Operation>, audits: map<AuditId, AuditEvent>)

  /** The three commands, with what they change. */
  datatype Request =
    | ControlRequest(tenant: string, run: RunId, control: Control)
    | ResolveRequest(tenant: string, run: RunId, callId: CallId, disposition: Disposition, output: Option<string>)
    | PurgeRequest(tenant: string, before: Time)

  /** Who asks, why, and under which id; `audit` is a fresh uuid. */
  datatype Envelope = Envelope(operation: OperationId, actor: string, reason: string, audit: AuditId)

  function BindingOf(req: Request, e: Envelope): Binding {
    match req
    case ControlRequest(tenant, run, control) =>
      Binding(tenant, e.actor, RunAction(control), RunResource(run), OfControl(control, run))
    case ResolveRequest(tenant, run, call, disposition, output) =>
      Binding(tenant, e.actor, ToolAction(disposition), ToolResource(run, call),
              OfResolution(run, call, disposition, output))
    case PurgeRequest(tenant, before) =>
      Binding(tenant, e.actor, RetentionPurge, TenantResource(tenant), OfPurge(tenant, before))
  }

  /** What a request does to the session database. */
  function Perform(db: Db, req: Request): (Db, Effect) {
    match req
    case ControlRequest(tenant, run, control) =>
      var (next, outcome) := ControlRun(db, tenant, run, control);
      (next, Command(outcome == Succeeded, outcome))
    case ResolveRequest(tenant, run, call, disposition, output) =>
      var (next, outcome) := ResolveTool(db, tenant, run, call, disposition, output);
      (next, Command(outcome == Succeeded, outcome))
    case PurgeRequest(tenant, before) =>
      var next := Purge(db, tenant, before);
      (next, Deleted(|db.summaries| - |next.summaries|, |db.messages| - |next.messages|,
                     |db.checkpoints| - |next.checkpoints|, |db.attachments| - |next.attachments|))
  }

  /** The result an operation id is already bound to, or the refusal to bind it again. */
  function Existing(books: Books, operation: OperationId, binding: Binding): Option<Result<CommandResult, AdminError>> {
    if operation !in books.operations then None
    else if books.operations[operation].binding != binding then Some(Err(RebindingRefused))
    else Some(Ok(books.operations[operation].result))
  }

  function Record(books: Books, binding: Binding, e: Envelope, effect: Effect): (Books, CommandResult) {
    var result := CommandResult(e.operation, binding.resource, effect, e.audit);
    var event := AuditEvent(e.operation, binding.tenant, binding.actor, binding.action, binding.resource, e.reason, effect);
    (Books(books.operations[e.operation := Operation(binding, result)], books.audits[e.audit := event]), result)
  }

  function Serve(db: Db, books: Books, req: Request, e: Envelope): (Db, Books, Result<CommandResult, AdminError>) {
    var binding := BindingOf(req, e);
    var existing := Existing(books, e.operation, binding);
    if existing.Some? then (db, books, existing.value)
    else
      var (next, effect) := Perform(db, req);
      var (books', result) := Record(books, binding, e, effect);
      (next, books', Ok(result))
  }

  lemma PurgeIsPerformed(db: Db, tenant: string, before: Time)
    ensures var next := Purge(db, tenant, before);
            Perform(db, PurgeRequest(tenant, before))
              == (next, Deleted(|db.summaries| - |next.summaries|, |db.messages| - |next.messages|,
                                |db.checkpoints| - |next.checkpoints|, |db.attachments| - |next.attachments|))
  {
  }
}
