/** The incident protocol as a machine: what one orchestrator run and the two
    human decisions do to the documents of one incident, from one suspension
    point to the next. The model's answers, its tool arguments, the outcomes
    of the services behind the tools, timeouts and the exhaustion of the
    incident budget are inputs. */
module Lifecycle {
  import opened BqSandbox
  import opened Governance
  import opened Models
  import opened PatchSql
  import opened Prelude
  import opened Text

  // ---------- The documents of one incident ----------

  datatype Slice = Slice(
    record: Incident,
    steps: seq<StepLog>,
    findings: seq<Finding>,
    patches: seq<Patch>,
    audits: seq<Audit>)

  function Append(s: Slice, log: StepLog): Slice {
    s.(steps := s.steps + [log])
  }

  function Update(s: Slice, u: IncidentUpdate): Slice {
    s.(record := Updated(s.record, u))
  }

  // The first patch with the given id.
  function GetPatch(patches: seq<Patch>, id: Id): Option<Patch> {
    if patches == [] then None
    else
      var earlier := GetPatch(Front(patches), id);
      if earlier.Some? then earlier
      else if Last(patches).id == id then Some(Last(patches))
      else None
  }

  function AuditsFor(audits: seq<Audit>, patchId: Id): seq<Audit> {
    if audits == [] then []
    else
      AuditsFor(Front(audits), patchId)
      + if Last(audits).linkedPatchId == patchId then [Last(audits)] else []
  }

  // ---------- The environment ----------

  datatype Mode = Local | Cloud

  datatype Settings = Settings(
    mode: Mode,
    genaiConfigured: bool,
    project: Option<string>,
    sandboxPrefix: string,
    maxTurns: nat,
    maxAttempts: nat)

  datatype ModelOutcome =
    | Answer(response: Response)
    | Fault(retryable: bool, kind: string, message: string)
    | TurnTimeout

  datatype Validation = Validation(
    sandboxSql: string,
    beforeSchema: seq<ColumnSpec>,
    afterSchema: seq<ColumnSpec>,
    status: ValidationStatus,
    errors: seq<string>)

  // What the services behind a tool answer when none of them fails; `triage`
  // is `None` when the log triage timed out on its own.
  datatype Services = Services(
    newId: Id,
    triage: Option<Finding>,
    generated: GeneratedSql,
    validation: Validation,
    metadata: TableMetadata,
    rationale: string)

  datatype ToolOutcome = Raises(message: string) | TimesOut | Completes(services: Services)

  // What happens at a suspension point: the incident budget runs out there,
  // or whatever was awaited arrives.
  datatype Input = Input(interrupted: bool, model: ModelOutcome, tool: ToolOutcome)

  // ---------- The tools ----------

  datatype ToolEnd = Returned(reply: ToolReply) | Raised(message: string) | RanOutOfTime

  datatype ToolEffect = ToolEffect(slice: Slice, end: ToolEnd)

  const INVESTIGATE: string := "investigate_incident_logs"
  const GENERATE: string := "generate_and_test_patch"
  const VERIFY: string := "verify_governance_policy"

  predicate IsTool(name: string) {
    name == INVESTIGATE || name == GENERATE || name == VERIFY
  }

  function ActorFor(name: string): Actor {
    if name == INVESTIGATE then TriageAgent
    else if name == GENERATE then PatchAgent
    else if name == VERIFY then GovernanceAgent
    else Orchestrator
  }

  // Python's keyword binding: every required parameter given, none unknown.
  predicate Binds(name: string, args: Args)
    requires IsTool(name)
  {
    if name == INVESTIGATE then
      {"incident_id", "resource_uri"} <= args.Keys
      <= {"incident_id", "resource_uri", "lookback_minutes", "max_log_lines"}
    else if name == GENERATE then
      {"incident_id", "finding_id", "target_resource_uri", "drift_summary"} <= args.Keys
      <= {"incident_id", "finding_id", "target_resource_uri", "drift_summary", "allow_destructive"}
    else
      args.Keys == {"incident_id", "patch_id", "dataset_id"}
  }

  function Investigate(s: Slice, services: Services): ToolEffect {
    match services.triage
    case None => ToolEffect(s, Returned(ErrorReply("TIMEOUT")))
    case Some(finding) =>
      ToolEffect(s.(findings := s.findings + [finding]), Returned(FindingReply(finding.id)))
  }

  datatype Generation = Generated(sql: GeneratedSql) | InvalidUri | GeneratorRaised(message: string)

  function Generate(event: RawEvent, target: string, summary: Value, services: Services, settings: Settings): Generation {
    match DeterministicDemoPatch(event, target)
    case Failure(_) => InvalidUri
    case Success(Some(sql)) => Generated(sql)
    case Success(None) =>
      if settings.genaiConfigured then
        if ParseResourceUri(target).Failure? then InvalidUri else Generated(services.generated)
      else if ParseResourceUri(target).Success? && !summary.Text? then GeneratorRaised("TypeError")
      else
        match LocalHeuristicGenerate(target, if summary.Text? then summary.text else "")
        case Failure(_) => InvalidUri
        case Success(sql) => Generated(sql)
  }

  const BASE_SCHEMA: seq<ColumnSpec> := [ColumnSpec("id", "INT64", Required)]

  function LocalValidate(id: Id, table: TableRef, sql: string, settings: Settings): Validation {
    Validation(
      RewriteSqlForDataset(sql, table, SandboxDatasetId(settings.sandboxPrefix, id)),
      BASE_SCHEMA,
      BASE_SCHEMA + ParseAddedColumns(sql),
      SandboxPass,
      [])
  }

  function Validate(id: Id, target: string, sql: string, services: Services, settings: Settings): Validation {
    match (settings.mode, ParseResourceUri(target))
    case (Local, Success(table)) => LocalValidate(id, table, sql, settings)
    case _ => services.validation
  }

  const DESTRUCTIVE_REJECTED: string :=
    "Destructive statement rejected: set allow_destructive=True to permit DROP/TRUNCATE."

  function NewPatch(id: Id, findingId: Id, sql: GeneratedSql, allowDestructive: bool, v: Validation): Patch {
    if ContainsDestructiveStatement(sql.productionSql) && !allowDestructive then
      Patch(id, findingId, sql.kind, "", sql.productionSql, [], [], SandboxFail, [DESTRUCTIVE_REJECTED])
    else
      Patch(id, findingId, sql.kind, v.sandboxSql, sql.productionSql, v.beforeSchema, v.afterSchema, v.status, v.errors)
  }

  predicate AllowsDestructive(args: Args) {
    "allow_destructive" in args && args["allow_destructive"].Truthy()
  }

  function GeneratePatch(s: Slice, args: Args, services: Services, settings: Settings): ToolEffect
    requires Binds(GENERATE, args)
  {
    var target := BindToProject(s.record.resourceUri, settings.project);
    match Generate(s.record.rawEvent, target, args["drift_summary"], services, settings)
    case InvalidUri => ToolEffect(s, Returned(ErrorReply("INVALID_RESOURCE_URI")))
    case GeneratorRaised(message) => ToolEffect(s, Raised(message))
    case Generated(sql) =>
      if !args["finding_id"].Text? then ToolEffect(s, Raised("ValidationError"))
      else
        var v := Validate(s.record.id, target, sql.productionSql, services, settings);
        var patch := NewPatch(services.newId, args["finding_id"].text, sql, AllowsDestructive(args), v);
        ToolEffect(s.(patches := s.patches + [patch]), Returned(PatchReply(patch.id, patch.validationStatus)))
  }

  function MetadataSeen(services: Services, settings: Settings): TableMetadata {
    if settings.mode == Local then BENIGN else services.metadata
  }

  function NewAudit(id: Id, patchId: Id, patch: Patch, m: TableMetadata, rationale: string): Audit {
    var checks := PolicyChecks(patch.productionSql, patch.kind, m);
    Audit(id, patchId, VerdictFromChecks(checks), checks,
          if m.piiTagged then MentionsPiiLikeColumn(patch.productionSql) else [], rationale)
  }

  function VerifyGovernance(s: Slice, patchId: Value, services: Services, settings: Settings): ToolEffect {
    if !patchId.Text? then ToolEffect(s, Raised("PatchNotFoundError"))
    else match GetPatch(s.patches, patchId.text)
      case None => ToolEffect(s, Raised("PatchNotFoundError"))
      case Some(patch) =>
        var audit := NewAudit(services.newId, patchId.text, patch, MetadataSeen(services, settings), services.rationale);
        ToolEffect(s.(audits := s.audits + [audit]), Returned(AuditReply(audit.id, audit.verdict)))
  }

  // Each tool writes at most one document, last; a fault or a timeout
  // therefore leaves nothing behind.
  function RunTool(s: Slice, name: string, args: Args, outcome: ToolOutcome, settings: Settings): ToolEffect
    requires IsTool(name)
  {
    if !Binds(name, args) then ToolEffect(s, Raised("TypeError"))
    else match outcome
      case Raises(message) => ToolEffect(s, Raised(message))
      case TimesOut => ToolEffect(s, RanOutOfTime)
      case Completes(services) =>
        if name == INVESTIGATE then Investigate(s, services)
        else if name == GENERATE then GeneratePatch(s, args, services, settings)
        else VerifyGovernance(s, args["patch_id"], services, settings)
  }

  const UNKNOWN_INCIDENT := Raised("IncidentNotFoundError")

  // `impl(**args)` on the shared store: a tool looks up, and acts on, the
  // incident its arguments name.
  function Dispatch(docs: map<Id, Slice>, name: string, args: Args, outcome: ToolOutcome, settings: Settings)
    : (r: (map<Id, Slice>, ToolEnd))
    requires IsTool(name)
    ensures r.0.Keys == docs.Keys
  {
    if !Binds(name, args) then (docs, Raised("TypeError"))
    else match outcome
      case Raises(message) => (docs, Raised(message))
      case TimesOut => (docs, RanOutOfTime)
      case Completes(_) =>
        var id := args["incident_id"];
        if !id.Text? || id.text !in docs then (docs, UNKNOWN_INCIDENT)
        else
          var effect := RunTool(docs[id.text], name, args, outcome, settings);
          (docs[id.text := effect.slice], effect.end)
  }

  // ---------- Step log entries ----------

  function ModelEntry(id: Id, sequence: nat, status: StepStatus, note: Note): StepLog {
    StepLog(sequence, id, ModelTurn, Orchestrator, status, None, map[], note)
  }

  function ToolName(call: FunctionCall): string {
    if call.name == "" then "unknown_tool" else call.name
  }

  function CallEntry(id: Id, sequence: nat, call: FunctionCall): StepLog {
    var name := ToolName(call);
    StepLog(sequence, id, ToolCall, ActorFor(name), Running, Some(name), call.args, NoNote)
  }

  function ResultEntry(id: Id, sequence: nat, call: FunctionCall, status: StepStatus, note: Note): StepLog {
    var name := ToolName(call);
    StepLog(sequence, id, ToolResult, ActorFor(name), status, Some(name), map[], note)
  }

  // The incident id the tool sees is always the orchestrator's own.
  function ToolArgs(id: Id, call: FunctionCall): Args {
    call.args["incident_id" := Text(id)]
  }

  const NO_IMPLEMENTATION: string := "no implementation registered"
  const TOOL_TIMEOUT: string := "tool call exceeded WARDEN_TOOL_TIMEOUT_S"

  function CallTool(s: Slice, call: FunctionCall, sequence: nat, outcome: ToolOutcome, settings: Settings): (Slice, ToolReply) {
    var name := ToolName(call);
    var id := s.record.id;
    if !IsTool(name) then
      (Append(s, ResultEntry(id, sequence, call, Errored, Message(NO_IMPLEMENTATION))), ErrorReply("UNKNOWN_TOOL"))
    else
      var effect := RunTool(s, name, ToolArgs(id, call), outcome, settings);
      match effect.end
      case RanOutOfTime =>
        (Append(effect.slice, ResultEntry(id, sequence, call, TimedOut, Message(TOOL_TIMEOUT))), ErrorReply("TIMEOUT"))
      case Raised(message) =>
        (Append(effect.slice, ResultEntry(id, sequence, call, Errored, Message(message))), ErrorReply("TOOL_EXCEPTION"))
      case Returned(reply) =>
        (Append(effect.slice, ResultEntry(id, sequence, call, Ok, NoNote)), reply)
  }

  // ---------- One orchestrator run ----------

  datatype Exit = Finished | Blocked | OutOfTurns | Threw

  datatype Pc =
    | Fresh
    | AwaitModel(turn: nat, sequence: nat, attempt: nat, contents: seq<Content>)
    | AwaitTool(turn: nat, sequence: nat, response: Response, parts: seq<(string, ToolReply)>, blocked: bool,
                contents: seq<Content>)
    | AwaitAudit(turn: nat, response: Response, contents: seq<Content>)
    | Done(exit: Exit, contents: seq<Content>)

  datatype Run = Run(slice: Slice, pc: Pc)

  const INCIDENT_TIMEOUT: string := "incident_timeout_exceeded"
  const NO_PATCH: string := "orchestrator_finished_without_patch"
  const NO_AUDIT: string := "orchestrator_finished_without_governance_audit"
  const TURNS_EXHAUSTED: string := "turn_budget_exhausted"

  function Fail(s: Slice, error: string, contents: seq<Content>): Run {
    Run(Update(s, NO_UPDATE.(status := Set(Failed), error := Set(Some(error)))), Done(Threw, contents))
  }

  function StartTurn(s: Slice, turn: nat, sequence: nat, contents: seq<Content>, settings: Settings): Run {
    if turn <= settings.maxTurns then Run(s, AwaitModel(turn, sequence, 1, contents))
    else
      Run(Update(s, NO_UPDATE.(status := Set(Failed), error := Set(Some(TURNS_EXHAUSTED)),
                               turnCount := Set(settings.maxTurns))),
          Done(OutOfTurns, contents))
  }

  // The next call of the turn, or the end of the turn after the last one.
  function NextCall(s: Slice, turn: nat, sequence: nat, response: Response, parts: seq<(string, ToolReply)>,
                    blocked: bool, contents: seq<Content>, settings: Settings): Run {
    if |parts| < |response.calls| then
      Run(Append(s, CallEntry(s.record.id, sequence, response.calls[|parts|])),
          AwaitTool(turn, sequence + 1, response, parts, blocked, contents))
    else if blocked then
      Run(Update(s, NO_UPDATE.(status := Set(Rejected), turnCount := Set(turn))),
          Done(Blocked, contents + [ToolResponses(parts)]))
    else
      StartTurn(Update(s, NO_UPDATE.(turnCount := Set(turn))), turn + 1, sequence,
                contents + [ToolResponses(parts)], settings)
  }

  function FinishStatus(s: Slice): (Status, Option<string>) {
    if s.patches == [] then (Failed, Some(NO_PATCH))
    else
      var matching := AuditsFor(s.audits, Last(s.patches).id);
      if matching == [] then (Failed, Some(NO_AUDIT))
      else if Last(matching).verdict == Block then (Rejected, None)
      else (AwaitingApproval, None)
  }

  function Finish(s: Slice, turn: nat, response: Response, contents: seq<Content>): Run {
    var (status, error) := FinishStatus(s);
    Run(Update(s, IncidentUpdate(Set(status), Set(Some(response.text)), Set(turn), Set(error))),
        Done(Finished, contents))
  }

  // A sandbox-valid latest patch that no audit mentions.
  predicate NeedsAudit(s: Slice) {
    && s.patches != []
    && Last(s.patches).validationStatus != SandboxFail
    && AuditsFor(s.audits, Last(s.patches).id) == []
    && ParseResourceUri(s.record.resourceUri).Success?
  }

  function AutoAudit(s: Slice, outcome: ToolOutcome, settings: Settings): Slice
    requires s.patches != []
  {
    match outcome
    case Completes(services) => VerifyGovernance(s, Text(Last(s.patches).id), services, settings).slice
    case _ => s
  }

  // The turn's answer is in: finish, or work through its calls.
  function Answered(s: Slice, turn: nat, sequence: nat, response: Response, contents: seq<Content>, settings: Settings): Run {
    var contents' := contents + [ModelContent(response)];
    if response.calls != [] then NextCall(s, turn, sequence, response, [], false, contents', settings)
    else if NeedsAudit(s) then Run(s, AwaitAudit(turn, response, contents'))
    else Finish(s, turn, response, contents')
  }

  function ResumeModel(s: Slice, pc: Pc, x: ModelOutcome, settings: Settings): Run
    requires pc.AwaitModel?
  {
    var id := s.record.id;
    match x
    case Answer(response) =>
      Answered(Append(s, ModelEntry(id, pc.sequence, Ok, NoNote)), pc.turn, pc.sequence + 1, response, pc.contents, settings)
    case TurnTimeout =>
      Fail(Append(s, ModelEntry(id, pc.sequence, TimedOut, NoNote)), INCIDENT_TIMEOUT, pc.contents)
    case Fault(retryable, kind, message) =>
      if retryable && pc.attempt < settings.maxAttempts then
        Run(Append(s, ModelEntry(id, pc.sequence, Errored, AttemptFailed(pc.attempt, message))),
            pc.(attempt := pc.attempt + 1))
      else
        Fail(Append(s, ModelEntry(id, pc.sequence, Errored, Message(message))), kind + ": " + message, pc.contents)
  }

  function ResumeTool(s: Slice, pc: Pc, x: ToolOutcome, settings: Settings): Run
    requires pc.AwaitTool? && |pc.parts| < |pc.response.calls|
  {
    var call := pc.response.calls[|pc.parts|];
    var (s', reply) := CallTool(s, call, pc.sequence, x, settings);
    NextCall(s', pc.turn, pc.sequence + 1, pc.response, pc.parts + [(call.name, reply)],
             pc.blocked || reply.IsBlock(), pc.contents, settings)
  }

  // Facts about a suspended run that the code has by construction.
  predicate WellFormed(r: Run) {
    && (r.pc.AwaitTool? ==> |r.pc.parts| < |r.pc.response.calls|)
    && (r.pc.AwaitAudit? ==> NeedsAudit(r.slice))
  }

  function Resume(r: Run, x: Input, settings: Settings): (r': Run)
    requires WellFormed(r)
    ensures WellFormed(r')
  {
    var s := r.slice;
    match r.pc
    case Done(_, _) => r
    case Fresh =>
      if x.interrupted then Fail(s, INCIDENT_TIMEOUT, [])
      else
        var s' := Update(s, NO_UPDATE.(status := Set(Diagnosing)));
        StartTurn(s', 1, 1, [Prompt(s'.record)], settings)
    case AwaitModel(_, _, _, contents) =>
      if x.interrupted then Fail(s, INCIDENT_TIMEOUT, contents)
      else ResumeModel(s, r.pc, x.model, settings)
    case AwaitTool(_, _, response, parts, _, contents) =>
      // an unknown tool does not suspend, so it cannot be interrupted
      if x.interrupted && IsTool(ToolName(response.calls[|parts|])) then Fail(s, INCIDENT_TIMEOUT, contents)
      else ResumeTool(s, r.pc, x.tool, settings)
    case AwaitAudit(turn, response, contents) =>
      if x.interrupted then Fail(s, INCIDENT_TIMEOUT, contents)
      else Finish(AutoAudit(s, x.tool, settings), turn, response, contents)
  }

  // A run after its first `n` inputs.
  function Feed(r: Run, script: nat -> Input, n: nat, settings: Settings): (r': Run)
    requires WellFormed(r)
    ensures WellFormed(r')
  {
    if n == 0 then r else Resume(Feed(r, script, n - 1, settings), script(n - 1), settings)
  }

  // ---------- The human decisions ----------

  datatype Refusal = NotAwaitingApproval | NoPatchAvailable | PatchNotFound | NoGovernanceAudit | GovernanceBlock

  // Every check `execute_incident` makes before it writes anything.
  function Preflight(s: Slice, requested: Option<Id>): Result<(Patch, Audit), Refusal> {
    if s.record.status != AwaitingApproval then Failure(NotAwaitingApproval)
    else if requested.None? && s.patches == [] then Failure(NoPatchAvailable)
    else
      var id := if requested.Some? then requested.value else Last(s.patches).id;
      var patch := GetPatch(s.patches, id);
      var matching := AuditsFor(s.audits, id);
      if patch.None? then Failure(PatchNotFound)
      else if matching == [] then Failure(NoGovernanceAudit)
      else if Last(matching).verdict == Block then Failure(GovernanceBlock)
      else Success((patch.value, Last(matching)))
  }

  function DecisionEntry(s: Slice, note: Note): StepLog {
    StepLog(|s.steps| + 1, s.record.id, UserDecision, Human, Ok, None, map[], note)
  }

  // The patch is looked up under the id that was asked for.
  function PatchIdOf(s: Slice, requested: Option<Id>): Id
    requires requested.Some? || s.patches != []
  {
    if requested.Some? then requested.value else Last(s.patches).id
  }

  function Approve(s: Slice, patchId: Id, audit: Audit): Slice {
    Append(s, DecisionEntry(s, Approved(patchId, audit.id, audit.verdict)))
  }

  datatype BackendOutcome = RanOk | RaisedError(message: string)

  const EXECUTION_FAILED: string := "execution_failed: "

  function Complete(s: Slice, sequence: nat, patchId: Id, outcome: BackendOutcome): Slice {
    match outcome
    case RanOk =>
      Update(Append(s, StepLog(sequence, s.record.id, Execution, Executor, Ok, None, map[], Ran(patchId))),
             NO_UPDATE.(status := Set(Resolved)))
    case RaisedError(message) =>
      Update(Append(s, StepLog(sequence, s.record.id, Execution, Executor, Errored, None, map[], RunFailed(patchId, message))),
             NO_UPDATE.(status := Set(Failed), error := Set(Some(EXECUTION_FAILED + message))))
  }

  function Reject(s: Slice, reason: string): Slice {
    Update(Append(s, DecisionEntry(s, Message(if reason == "" then "Rejected by human reviewer." else reason))),
           NO_UPDATE.(status := Set(Rejected)))
  }
}
