/** What every tool call writes and replies, case by case, in terms of its
    arguments and of what the services behind it returned. */
module ToolResults {
  import opened BqSandbox
  import opened Governance
  import opened Lifecycle
  import opened LifecycleSafety
  import opened Models
  import opened PatchSql
  import opened PolicyRules
  import opened Prelude
  import opened SqlWords

  // The arguments a tool takes besides the incident's id, which it is given.
  predicate Takes(call: FunctionCall) {
    var keys := call.args.Keys - {"incident_id"};
    if call.name == "investigate_incident_logs" then
      {"resource_uri"} <= keys <= {"resource_uri", "lookback_minutes", "max_log_lines"}
    else if call.name == "generate_and_test_patch" then
      && {"finding_id", "target_resource_uri", "drift_summary"} <= keys
      && keys <= {"finding_id", "target_resource_uri", "drift_summary", "allow_destructive"}
    else
      call.name == "verify_governance_policy" && keys == {"patch_id", "dataset_id"}
  }

  predicate Known(call: FunctionCall) {
    call.name in {"investigate_incident_logs", "generate_and_test_patch", "verify_governance_policy"}
  }

  function AgentFor(call: FunctionCall): Actor {
    if call.name == "investigate_incident_logs" then TriageAgent
    else if call.name == "generate_and_test_patch" then PatchAgent
    else if call.name == "verify_governance_policy" then GovernanceAgent
    else Orchestrator
  }

  function NameFor(call: FunctionCall): string {
    if call.name == "" then "unknown_tool" else call.name
  }

  // The result entry of a call.
  function Logged(s: Slice, call: FunctionCall, sequence: nat, status: StepStatus, note: Note): StepLog {
    StepLog(sequence, s.record.id, ToolResult, AgentFor(call), status, Some(NameFor(call)), map[], note)
  }

  // A call that wrote nothing but its result entry.
  predicate Rebuffed(s: Slice, call: FunctionCall, sequence: nat, r: (Slice, ToolReply), status: StepStatus,
                     message: string, code: string) {
    r == (s.(steps := s.steps + [Logged(s, call, sequence, status, Message(message))]), ErrorReply(code))
  }

  lemma TakesIs(id: Id, call: FunctionCall)
    ensures Known(call) <==> IsTool(ToolName(call))
    ensures Takes(call) <==> IsTool(ToolName(call)) && Binds(ToolName(call), ToolArgs(id, call))
    ensures Known(call) ==> ToolName(call) == call.name
  {
    var keys, all := call.args.Keys - {"incident_id"}, ToolArgs(id, call).Keys;
    assert all == keys + {"incident_id"};
    assert keys == all - {"incident_id"};
  }

  lemma EntryIs(s: Slice, call: FunctionCall, sequence: nat, status: StepStatus, note: Note)
    ensures ResultEntry(s.record.id, sequence, call, status, note) == Logged(s, call, sequence, status, note)
  {
  }

  /** The calls that write no document: to a name that is no tool, with
      arguments that do not fit, and those that raise or run out of time. */
  lemma RebuffedCalls(s: Slice, call: FunctionCall, sequence: nat, x: ToolOutcome, settings: Settings)
    ensures var r := CallTool(s, call, sequence, x, settings);
            && (!Known(call) ==>
                  Rebuffed(s, call, sequence, r, Errored, "no implementation registered", "UNKNOWN_TOOL"))
            && (Known(call) && !Takes(call) ==> Rebuffed(s, call, sequence, r, Errored, "TypeError", "TOOL_EXCEPTION"))
            && (Takes(call) && x.Raises? ==> Rebuffed(s, call, sequence, r, Errored, x.message, "TOOL_EXCEPTION"))
            && (Takes(call) && x.TimesOut? ==>
                  Rebuffed(s, call, sequence, r, TimedOut, "tool call exceeded WARDEN_TOOL_TIMEOUT_S", "TIMEOUT"))
  {
    hide Takes, Known, Binds, Logged, Investigate, GeneratePatch, VerifyGovernance, ToolName, IsTool;
    TakesIs(s.record.id, call);
    forall status, note
      ensures ResultEntry(s.record.id, sequence, call, status, note) == Logged(s, call, sequence, status, note)
    {
      EntryIs(s, call, sequence, status, note);
    }
  }

  // What a tool that completes leaves of the call.
  lemma Completed(s: Slice, call: FunctionCall, sequence: nat, services: Services, settings: Settings)
    requires Takes(call)
    ensures IsTool(call.name) && Binds(call.name, ToolArgs(s.record.id, call))
    ensures var effect := RunTool(s, call.name, ToolArgs(s.record.id, call), Completes(services), settings);
            var r := CallTool(s, call, sequence, Completes(services), settings);
            && (effect.end.Returned? && effect.slice.record == s.record && effect.slice.steps == s.steps ==>
                  r == (effect.slice.(steps := s.steps + [Logged(s, call, sequence, Ok, NoNote)]), effect.end.reply))
            && (effect.end.Raised? && effect.slice == s ==>
                  Rebuffed(s, call, sequence, r, Errored, effect.end.message, "TOOL_EXCEPTION"))
  {
    hide Takes, Known, Binds, Logged, RunTool, IsTool;
    TakesIs(s.record.id, call);
    forall status, note
      ensures ResultEntry(s.record.id, sequence, call, status, note) == Logged(s, call, sequence, status, note)
    {
      EntryIs(s, call, sequence, status, note);
    }
  }

  // ---------- The governance tool ----------

  /** An audit of this patch, with the labels the services returned in cloud
      mode and the benign ones offline. */
  ghost predicate IsAuditOf(a: Audit, id: Id, patch: Patch, services: Services, settings: Settings) {
    && a.id == services.newId && a.linkedPatchId == id && a.rationale == services.rationale
    && (settings.mode == Cloud ==> Judges(a, patch.productionSql, patch.kind, services.metadata))
    && (settings.mode == Local ==> Judges(a, patch.productionSql, patch.kind, TableMetadata(false, Low, false)))
  }

  lemma NewAuditIs(id: Id, patch: Patch, services: Services, settings: Settings)
    ensures IsAuditOf(NewAudit(services.newId, id, patch, MetadataSeen(services, settings), services.rationale),
                      id, patch, services, settings)
  {
    hide PolicyChecks, VerdictFromChecks, MentionsPiiLikeColumn, Judges;
    var a := NewAudit(services.newId, id, patch, MetadataSeen(services, settings), services.rationale);
    RulesJudge(a, patch.productionSql, patch.kind, MetadataSeen(services, settings));
  }

  // One new audit, and what is said about it.
  ghost predicate Audits(s: Slice, s': Slice, id: Id, patch: Patch, services: Services, settings: Settings) {
    && s'.audits != [] && s' == s.(audits := s.audits + [Last(s'.audits)])
    && IsAuditOf(Last(s'.audits), id, patch, services, settings)
  }

  lemma VerifyIs(s: Slice, patchId: Value, services: Services, settings: Settings)
    ensures var effect := VerifyGovernance(s, patchId, services, settings);
            && (!patchId.Text? || (forall p :: p in s.patches ==> p.id != patchId.text) ==>
                  effect == ToolEffect(s, Raised("PatchNotFoundError")))
            && (patchId.Text? ==> forall patch :: EarliestWith(s.patches, patchId.text, patch) ==>
                  && Audits(s, effect.slice, patchId.text, patch, services, settings)
                  && effect.end == Returned(AuditReply(services.newId, Last(effect.slice.audits).verdict)))
  {
    hide NewAudit, IsAuditOf, EarliestWith;
    if patchId.Text? {
      GetPatchFirst(s.patches, patchId.text);
      forall patch | EarliestWith(s.patches, patchId.text, patch)
        ensures GetPatch(s.patches, patchId.text) == Some(patch)
      {
        EarliestIs(s.patches, patchId.text, patch);
      }
      if GetPatch(s.patches, patchId.text).Some? {
        var patch := GetPatch(s.patches, patchId.text).value;
        NewAuditIs(patchId.text, patch, services, settings);
        NewAuditNamed(patchId.text, patch, services, settings);
      }
    }
  }

  lemma NewAuditNamed(id: Id, patch: Patch, services: Services, settings: Settings)
    ensures NewAudit(services.newId, id, patch, MetadataSeen(services, settings), services.rationale).id == services.newId
  {
  }

  /** A completed governance call. Without a stored patch under the given id it
      raises; otherwise it adds one audit of the earliest such patch - judged
      by the labels the services returned, or benign ones offline - and
      replies with its id and verdict. */
  lemma GovernanceCall(s: Slice, call: FunctionCall, sequence: nat, services: Services, settings: Settings)
    requires call.name == "verify_governance_policy" && Takes(call)
    ensures var r := CallTool(s, call, sequence, Completes(services), settings);
            var given := call.args["patch_id"];
            && (!given.Text? || (forall p :: p in s.patches ==> p.id != given.text) ==>
                  Rebuffed(s, call, sequence, r, Errored, "PatchNotFoundError", "TOOL_EXCEPTION"))
            && (given.Text? ==> forall patch :: EarliestWith(s.patches, given.text, patch) ==>
                  && Audits(s, r.0.(steps := s.steps), given.text, patch, services, settings)
                  && r.0.steps == s.steps + [Logged(s, call, sequence, Ok, NoNote)]
                  && r.1 == AuditReply(services.newId, Last(r.0.audits).verdict))
  {
    hide CallTool, VerifyGovernance, GeneratePatch, Investigate, EarliestWith, IsAuditOf, Logged;
    Completed(s, call, sequence, services, settings);
    VerifyIs(s, call.args["patch_id"], services, settings);
  }

  // ---------- The triage tool ----------

  /** A completed triage call adds the finding, or, when the triage itself ran
      out of time, reports that as an ordinary answer. */
  lemma TriageCall(s: Slice, call: FunctionCall, sequence: nat, services: Services, settings: Settings)
    requires call.name == "investigate_incident_logs" && Takes(call)
    ensures var ok := s.(steps := s.steps + [Logged(s, call, sequence, Ok, NoNote)]);
            CallTool(s, call, sequence, Completes(services), settings)
            == match services.triage
               case None => (ok, ErrorReply("TIMEOUT"))
               case Some(finding) => (ok.(findings := s.findings + [finding]), FindingReply(finding.id))
  {
    hide CallTool, VerifyGovernance, GeneratePatch, Logged;
    Completed(s, call, sequence, services, settings);
  }

  // ---------- The patch tool ----------

  // Permission to be destructive: any truthy value.
  predicate Permits(args: Args) {
    "allow_destructive" in args && args["allow_destructive"] !in {Text(""), Flag(false), Opaque(false)}
  }

  lemma PermitsIs(args: Args)
    ensures AllowsDestructive(args) <==> Permits(args)
  {
  }

  predicate IsDemoScenario(scenario: string) {
    scenario in {"schema_drift", "slow_copy"}
  }

  /** Where the statement comes from: the preset on a demo scenario, else the
      model behind the generator if there is one, else the offline heuristic. */
  ghost predicate Proposes(event: RawEvent, table: TableRef, summary: Value, services: Services, settings: Settings,
                           g: GeneratedSql) {
    if IsDemoScenario(event.scenario) then IsPreset(event, table, g)
    else if settings.genaiConfigured then g == services.generated
    else summary.Text? && IsHeuristic(summary.text, table, g)
  }

  lemma GenerateIs(event: RawEvent, target: string, summary: Value, services: Services, settings: Settings)
    ensures var g := Generate(event, target, summary, services, settings);
            var table := ParseResourceUri(target);
            && (table.Failure? ==> g == InvalidUri)
            && (table.Success? ==>
                  if !IsDemoScenario(event.scenario) && !settings.genaiConfigured && !summary.Text?
                  then g == GeneratorRaised("TypeError")
                  else g.Generated? && Proposes(event, table.value, summary, services, settings, g.sql))
  {
    hide ParseResourceUri, IsHeuristic, IsPreset;
    if ParseResourceUri(target).Success? {
      var table := ParseResourceUri(target).value;
      PresetIs(event, target, table);
      if summary.Text? {
        LocalGeneratorIs(target, summary.text, table);
      }
    }
  }

  predicate IsRejected(p: Patch) {
    && p.validationStatus == SandboxFail && p.sandboxSql == "" && p.beforeSchema == [] && p.afterSchema == []
    && p.validationErrors == ["Destructive statement rejected: set allow_destructive=True to permit DROP/TRUNCATE."]
  }

  /** The stored patch: rejected when it destroys without permission, else as
      validated - by the services in cloud mode, by rewriting it for the
      incident's sandbox and reading the added columns off it offline. */
  ghost predicate IsPatchOf(p: Patch, s: Slice, args: Args, table: TableRef, g: GeneratedSql, services: Services,
                            settings: Settings)
  {
    && p.id == services.newId && p.kind == g.kind && p.productionSql == g.productionSql
    && "finding_id" in args && args["finding_id"] == Text(p.findingId)
    && if Destroys(g.productionSql) && !Permits(args) then
         IsRejected(p)
       else if settings.mode == Cloud then
         services.validation
         == Validation(p.sandboxSql, p.beforeSchema, p.afterSchema, p.validationStatus, p.validationErrors)
       else
         && p.sandboxSql
            == RewriteSqlForDataset(g.productionSql, table, SandboxDatasetId(settings.sandboxPrefix, s.record.id))
         && p.beforeSchema == [ColumnSpec("id", "INT64", Required)]
         && p.afterSchema == p.beforeSchema + ParseAddedColumns(g.productionSql)
         && p.validationStatus == SandboxPass && p.validationErrors == []
  }

  lemma NewPatchIs(s: Slice, args: Args, target: string, table: TableRef, g: GeneratedSql, services: Services,
                   settings: Settings)
    requires "finding_id" in args && args["finding_id"].Text? && ParseResourceUri(target) == Success(table)
    ensures var v := Validate(s.record.id, target, g.productionSql, services, settings);
            IsPatchOf(NewPatch(services.newId, args["finding_id"].text, g, AllowsDestructive(args), v), s, args, table, g,
                      services, settings)
  {
    hide ParseResourceUri, RewriteSqlForDataset, ParseAddedColumns, ContainsDestructiveStatement, Destroys, Permits,
         AllowsDestructive;
    DestructiveIff(g.productionSql);
    PermitsIs(args);
  }

  // One new patch, and nothing else.
  ghost predicate Patches(s: Slice, s': Slice, args: Args, table: TableRef, g: GeneratedSql, services: Services,
                          settings: Settings) {
    && s'.patches != [] && s' == s.(patches := s.patches + [Last(s'.patches)])
    && IsPatchOf(Last(s'.patches), s, args, table, g, services, settings)
  }

  /** The patch tool, for every scenario, mode and argument. */
  lemma GeneratePatchIs(s: Slice, args: Args, services: Services, settings: Settings)
    requires Binds(GENERATE, args)
    ensures var effect := GeneratePatch(s, args, services, settings);
            var target := ParseResourceUri(BindToProject(s.record.resourceUri, settings.project));
            var event, summary := s.record.rawEvent, args["drift_summary"];
            if target.Failure? then
              effect == ToolEffect(s, Returned(ErrorReply("INVALID_RESOURCE_URI")))
            else if !IsDemoScenario(event.scenario) && !settings.genaiConfigured && !summary.Text? then
              effect == ToolEffect(s, Raised("TypeError"))
            else if !args["finding_id"].Text? then
              effect == ToolEffect(s, Raised("ValidationError"))
            else
              exists g ::
                && Proposes(event, target.value, summary, services, settings, g)
                && Patches(s, effect.slice, args, target.value, g, services, settings)
                && effect.end == Returned(PatchReply(services.newId, Last(effect.slice.patches).validationStatus))
  {
    hide Generate, Validate, NewPatch, IsPatchOf, Proposes, ParseResourceUri, BindToProject, AllowsDestructive;
    var target := BindToProject(s.record.resourceUri, settings.project);
    var event, summary := s.record.rawEvent, args["drift_summary"];
    GenerateIs(event, target, summary, services, settings);
    var made := Generate(event, target, summary, services, settings);
    if made.Generated? && args["finding_id"].Text? {
      var g, table := made.sql, ParseResourceUri(target).value;
      NewPatchIs(s, args, target, table, g, services, settings);
      NewPatchNamed(services.newId, args["finding_id"].text, g, AllowsDestructive(args),
                    Validate(s.record.id, target, g.productionSql, services, settings));
      assert Patches(s, GeneratePatch(s, args, services, settings).slice, args, table, g, services, settings);
    }
  }

  lemma NewPatchNamed(id: Id, findingId: Id, g: GeneratedSql, allowed: bool, v: Validation)
    ensures NewPatch(id, findingId, g, allowed, v).id == id
  {
  }

  // The incident's id in the arguments makes no difference to a patch.
  lemma SamePatch(p: Patch, s: Slice, id: Id, call: FunctionCall, table: TableRef, g: GeneratedSql, services: Services,
                  settings: Settings)
    ensures IsPatchOf(p, s, ToolArgs(id, call), table, g, services, settings)
            <==> IsPatchOf(p, s, call.args, table, g, services, settings)
  {
    hide Destroys, ParseAddedColumns, RewriteSqlForDataset, IsRejected;
  }

  /** A completed patch call: the tool's effect, its result entry, and a reply
      that names the patch and its status. */
  lemma PatchCall(s: Slice, call: FunctionCall, sequence: nat, services: Services, settings: Settings)
    requires call.name == "generate_and_test_patch" && Takes(call)
    ensures var r := CallTool(s, call, sequence, Completes(services), settings);
            var target := ParseResourceUri(BindToProject(s.record.resourceUri, settings.project));
            var event, summary := s.record.rawEvent, call.args["drift_summary"];
            if target.Failure? then
              r == (s.(steps := s.steps + [Logged(s, call, sequence, Ok, NoNote)]), ErrorReply("INVALID_RESOURCE_URI"))
            else if !IsDemoScenario(event.scenario) && !settings.genaiConfigured && !summary.Text? then
              Rebuffed(s, call, sequence, r, Errored, "TypeError", "TOOL_EXCEPTION")
            else if !call.args["finding_id"].Text? then
              Rebuffed(s, call, sequence, r, Errored, "ValidationError", "TOOL_EXCEPTION")
            else
              exists g ::
                && Proposes(event, target.value, summary, services, settings, g)
                && Patches(s, r.0.(steps := s.steps), call.args, target.value, g, services, settings)
                && r.0.steps == s.steps + [Logged(s, call, sequence, Ok, NoNote)]
                && r.1 == PatchReply(services.newId, Last(r.0.patches).validationStatus)
  {
    hide CallTool, VerifyGovernance, Investigate, GeneratePatch, Logged, IsPatchOf, Proposes, ParseResourceUri,
         BindToProject;
    Completed(s, call, sequence, services, settings);
    var args := ToolArgs(s.record.id, call);
    GeneratePatchIs(s, args, services, settings);
    var effect := GeneratePatch(s, args, services, settings);
    var r := CallTool(s, call, sequence, Completes(services), settings);
    forall g, table | Patches(s, effect.slice, args, table, g, services, settings)
      ensures Patches(s, r.0.(steps := s.steps), call.args, table, g, services, settings)
    {
      SamePatch(Last(effect.slice.patches), s, s.record.id, call, table, g, services, settings);
    }
  }
}
