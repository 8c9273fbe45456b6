/** The stores of administration and retention, which share the tables of operations and audit events. */
module AdminStore {
  import opened Wrappers
  import opened Blocks
  import opened StoreSpec
  import opened SessionStore
  import opened AdminSpec

  class AdminStore {
    const store: Store
    var operations: map<OperationId, Operation>
    var audits: map<AuditId, AuditEvent>

    ghost function Contents(): Books
      reads this
    {
      Books(operations, audits)
    }

    constructor (store: Store)
      ensures this.store == store && Contents() == Books(map[], map[])
    {
      this.store, operations, audits := store, map[], map[];
    }

    method ExistingOperation(operation: OperationId, binding: Binding)
      returns (r: Option<Result<CommandResult, AdminError>>)
      ensures r == Existing(Contents(), operation, binding)
    {
      if operation !in operations {
        return None;
      }
      var row := operations[operation];
      if row.binding != binding {
        return Some(Err(RebindingRefused));
      }
      return Some(Ok(row.result));
    }

    method RecordOperation(binding: Binding, e: Envelope, effect: Effect) returns (result: CommandResult)
      modifies this
      ensures (Contents(), result) == Record(old(Contents()), binding, e, effect)
    {
      result := CommandResult(e.operation, binding.resource, effect, e.audit);
      operations := operations[e.operation := Operation(binding, result)];
      audits := audits[e.audit := AuditEvent(e.operation, binding.tenant, binding.actor, binding.action, binding.resource,
                                             e.reason, effect)];
    }

    method ControlRun(tenant: string, run: RunId, control: Control, e: Envelope)
      returns (r: Result<CommandResult, AdminError>)
      modifies this, store
      ensures (store.Contents(), Contents(), r)
                == Serve(old(store.Contents()), old(Contents()), ControlRequest(tenant, run, control), e)
    {
      var binding := Binding(tenant, e.actor, RunAction(control), RunResource(run), OfControl(control, run));
      var previous := ExistingOperation(e.operation, binding);
      if previous.Some? {
        return previous.value;
      }
      var outcome := store.ControlRun(tenant, run, control);
      var result := RecordOperation(binding, e, Command(outcome == Succeeded, outcome));
      return Ok(result);
    }

    method ResolveTool(
      tenant: string, run: RunId, call: CallId, disposition: Disposition, output: Option<string>, e: Envelope)
      returns (r: Result<CommandResult, AdminError>)
      modifies this, store
      ensures (store.Contents(), Contents(), r)
                == Serve(old(store.Contents()), old(Contents()),
                           ResolveRequest(tenant, run, call, disposition, output), e)
    {
      var binding := Binding(tenant, e.actor, ToolAction(disposition), ToolResource(run, call),
                             OfResolution(run, call, disposition, output));
      var previous := ExistingOperation(e.operation, binding);
      if previous.Some? {
        return previous.value;
      }
      var outcome := store.ResolveTool(tenant, run, call, disposition, output);
      var result := RecordOperation(binding, e, Command(outcome == Succeeded, outcome));
      return Ok(result);
    }

    method PurgeTenantData(tenant: string, before: Time, e: Envelope) returns (r: Result<CommandResult, AdminError>)
      modifies this, store
      ensures (store.Contents(), Contents(), r)
                == Serve(old(store.Contents()), old(Contents()), PurgeRequest(tenant, before), e)
    {
      var binding := Binding(tenant, e.actor, RetentionPurge, TenantResource(tenant), OfPurge(tenant, before));
      var previous := ExistingOperation(e.operation, binding);
      if previous.Some? {
        return previous.value;
      }
      var effect := PurgeRows(tenant, before);
      var result := RecordOperation(binding, e, effect);
      return Ok(result);
    }

    /** The deletes, with their counts. */
    method PurgeRows(tenant: string, before: Time) returns (effect: Effect)
      modifies store
      ensures (store.Contents(), effect) == Perform(old(store.Contents()), PurgeRequest(tenant, before))
    {
      PurgeIsPerformed(store.Contents(), tenant, before);
      var summaries, messages, checkpoints, attachments := store.Purge(tenant, before);
      effect := Deleted(summaries, messages, checkpoints, attachments);
    }
  }
}
