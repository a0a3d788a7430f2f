/** The documents of an incident and the vocabulary they are written in. */
module Models {
  import opened Prelude

  type Id = string

  datatype Status =
    | Ingested | Diagnosing | Patching | AwaitingApproval | Executing
    | Resolved | Rejected | Failed

  datatype StepKind = ModelTurn | ToolCall | ToolResult | UserDecision | Execution

  datatype Actor = Orchestrator | TriageAgent | PatchAgent | GovernanceAgent | Human | Executor

  datatype StepStatus = Running | Ok | Errored | TimedOut

  datatype PatchKind = DDL | DML | Both

  datatype ValidationStatus = SandboxPass | SandboxFail | DryRunOnly

  datatype Verdict = Pass | Warn | Block

  datatype CheckResult = CheckPass | CheckWarn | CheckFail

  datatype ColumnMode = Nullable | Required | Repeated

  datatype ColumnSpec = ColumnSpec(name: string, columnType: string, mode: ColumnMode)

  // The fields of the raw event that steer patch generation; an absent or
  // empty column name selects the default.
  datatype RawEvent = RawEvent(scenario: string, filterColumn: string, droppedColumn: string)

  datatype Incident = Incident(
    id: Id,
    resourceUri: string,
    rawEvent: RawEvent,
    status: Status,
    summary: Option<string>,
    turnCount: nat,
    error: Option<string>)

  // The keyword arguments of `update_incident`; `Keep` leaves a field alone.
  datatype Change<+T> = Keep | Set(value: T)

  datatype IncidentUpdate = IncidentUpdate(
    status: Change<Status>,
    summary: Change<Option<string>>,
    turnCount: Change<nat>,
    error: Change<Option<string>>)

  function Changed<T>(old_: T, change: Change<T>): T {
    match change
    case Keep => old_
    case Set(value) => value
  }

  function Updated(incident: Incident, u: IncidentUpdate): Incident {
    incident.(status := Changed(incident.status, u.status),
              summary := Changed(incident.summary, u.summary),
              turnCount := Changed(incident.turnCount, u.turnCount),
              error := Changed(incident.error, u.error))
  }

  const NO_UPDATE := IncidentUpdate(Keep, Keep, Keep, Keep)

  // What a step says, as far as anything depends on it.
  datatype Note =
    | NoNote
    | AttemptFailed(attempt: nat, message: string)
    | Message(message: string)
    | Approved(patchId: Id, auditId: Id, verdict: Verdict)
    | Ran(patchId: Id)
    | RunFailed(patchId: Id, message: string)

  // `sequence` is the number behind the stored `step_id`.
  datatype StepLog = StepLog(
    sequence: nat,
    parent: Id,
    kind: StepKind,
    actor: Actor,
    status: StepStatus,
    toolName: Option<string>,
    toolArgs: Args,
    note: Note)

  datatype Finding = Finding(id: Id, hypothesis: string)

  datatype Patch = Patch(
    id: Id,
    findingId: Id,
    kind: PatchKind,
    sandboxSql: string,
    productionSql: string,
    beforeSchema: seq<ColumnSpec>,
    afterSchema: seq<ColumnSpec>,
    validationStatus: ValidationStatus,
    validationErrors: seq<string>)

  datatype PolicyCheck = PolicyCheck(policyId: string, result: CheckResult)

  datatype Audit = Audit(
    id: Id,
    linkedPatchId: Id,
    verdict: Verdict,
    checks: seq<PolicyCheck>,
    piiColumnsTouched: seq<string>,
    rationale: string)

  // ---------- What the orchestrator model may say ----------

  // A JSON argument value; only its string or truth value is ever used.
  datatype Value = Text(text: string) | Flag(flag: bool) | Opaque(truthy: bool) {
    predicate Truthy() {
      match this
      case Text(text) => text != ""
      case Flag(flag) => flag
      case Opaque(truthy) => truthy
    }
  }

  type Args = map<string, Value>

  // An empty name stands for a call without one.
  datatype FunctionCall = FunctionCall(name: string, args: Args)

  datatype Response = Response(text: string, calls: seq<FunctionCall>)

  datatype ToolReply =
    | ErrorReply(code: string)
    | FindingReply(findingId: Id)
    | PatchReply(patchId: Id, validationStatus: ValidationStatus)
    | AuditReply(auditId: Id, verdict: Verdict)
  {
    // `tool_result.get("verdict") == "BLOCK"`
    predicate IsBlock() {
      AuditReply? && verdict == Block
    }
  }

  datatype Content =
    | Prompt(incident: Incident)
    | ModelContent(response: Response)
    | ToolResponses(parts: seq<(string, ToolReply)>)
}
