/** The tools the orchestrator dispatches, as they act on the shared store.
    Which incident they act on is decided by the `incident_id` argument. */
module Tools {
  import opened BqSandbox
  import opened Governance
  import opened InMemoryStore
  import opened Lifecycle
  import opened LifecycleSafety
  import opened Models
  import opened PatchSql
  import opened Prelude
  import opened Text
  import opened ToolResults

  // What a method promises when all it changed is the documents of `id`.
  ghost predicate OnlyTouches(before: map<Id, Slice>, after: map<Id, Slice>, id: Id, s: Slice) {
    id in before && after == before[id := s]
  }

  method InvestigateIncidentLogs(store: InMemoryStateManager, id: Id, services: Services) returns (end: ToolEnd)
    requires store.Valid()
    modifies store
    ensures store.Valid() && store.subscribers == old(store.subscribers)
    ensures id !in old(store.View()) ==> store.View() == old(store.View()) && end == UNKNOWN_INCIDENT
    ensures id in old(store.View()) ==>
              var effect := Investigate(old(store.View())[id], services);
              OnlyTouches(old(store.View()), store.View(), id, effect.slice) && end == effect.end
  {
    var got := store.GetIncident(id);
    if got.Failure? {
      return UNKNOWN_INCIDENT;
    }
    match services.triage {
      case None =>
        end := Returned(ErrorReply("TIMEOUT"));
      case Some(finding) =>
        var _ := store.WriteFinding(id, finding);
        end := Returned(FindingReply(finding.id));
    }
  }

  method GenerateAndTestPatch(store: InMemoryStateManager, id: Id, args: Args, services: Services, settings: Settings)
    returns (end: ToolEnd)
    requires store.Valid() && Binds(GENERATE, args)
    modifies store
    ensures store.Valid() && store.subscribers == old(store.subscribers)
    ensures id !in old(store.View()) ==> store.View() == old(store.View()) && end == UNKNOWN_INCIDENT
    ensures id in old(store.View()) ==>
              var effect := GeneratePatch(old(store.View())[id], args, services, settings);
              OnlyTouches(old(store.View()), store.View(), id, effect.slice) && end == effect.end
    ensures id in old(store.View()) && end.Returned? && end.reply.PatchReply? ==>
              var s := old(store.View())[id];
              var target := ParseResourceUri(BindToProject(s.record.resourceUri, settings.project));
              && target.Success?
              && exists g ::
                   && Proposes(s.record.rawEvent, target.value, args["drift_summary"], services, settings, g)
                   && Patches(s, store.View()[id], args, target.value, g, services, settings)
  {
    hide Generate, Validate, ContainsDestructiveStatement, ParseResourceUri, BindToProject, Proposes, Patches;
    if id in store.View() {
      GeneratePatchIs(store.View()[id], args, services, settings);
    }
    var got := store.GetIncident(id);
    if got.Failure? {
      return UNKNOWN_INCIDENT;
    }
    store.RecordId(id);
    var incident := got.value;
    var target := BindToProject(incident.resourceUri, settings.project);
    var generation := Generate(incident.rawEvent, target, args["drift_summary"], services, settings);
    if generation.InvalidUri? {
      return Returned(ErrorReply("INVALID_RESOURCE_URI"));
    }
    if generation.GeneratorRaised? {
      return Raised(generation.message);
    }
    var sql := generation.sql;
    if !args["finding_id"].Text? {
      return Raised("ValidationError");
    }
    var findingId := args["finding_id"].text;
    if ContainsDestructiveStatement(sql.productionSql) && !AllowsDestructive(args) {
      var rejected := Patch(services.newId, findingId, sql.kind, "", sql.productionSql, [], [], SandboxFail,
                            [DESTRUCTIVE_REJECTED]);
      var _ := store.WritePatch(id, rejected);
      return Returned(PatchReply(rejected.id, SandboxFail));
    }
    var v := Validate(id, target, sql.productionSql, services, settings);
    var patch := Patch(services.newId, findingId, sql.kind, v.sandboxSql, sql.productionSql, v.beforeSchema,
                       v.afterSchema, v.status, v.errors);
    var _ := store.WritePatch(id, patch);
    end := Returned(PatchReply(patch.id, patch.validationStatus));
  }

  method VerifyGovernancePolicy(store: InMemoryStateManager, id: Id, patchId: Value, services: Services, settings: Settings)
    returns (end: ToolEnd)
    requires store.Valid()
    modifies store
    ensures store.Valid() && store.subscribers == old(store.subscribers)
    ensures id !in old(store.View()) ==> store.View() == old(store.View()) && end == UNKNOWN_INCIDENT
    ensures id in old(store.View()) ==>
              var effect := VerifyGovernance(old(store.View())[id], patchId, services, settings);
              OnlyTouches(old(store.View()), store.View(), id, effect.slice) && end == effect.end
    ensures id in old(store.View()) && end.Returned? ==>
              && patchId.Text?
              && exists patch ::
                   && EarliestWith(old(store.View())[id].patches, patchId.text, patch)
                   && Audits(old(store.View())[id], store.View()[id], patchId.text, patch, services, settings)
  {
    hide EarliestWith, Audits;
    if id in store.View() && patchId.Text? {
      VerifyIs(store.View()[id], patchId, services, settings);
      StoredOrNot(store.View()[id].patches, patchId.text);
    }
    var got := store.GetIncident(id);
    if got.Failure? {
      return UNKNOWN_INCIDENT;
    }
    if !patchId.Text? {
      return Raised("PatchNotFoundError");
    }
    var found := store.GetPatchById(id, patchId.text);
    if found.Failure? {
      return Raised("PatchNotFoundError");
    }
    var patch := found.value;
    var metadata := if settings.mode == Local then BENIGN else services.metadata;
    var checks := EvaluatePolicyChecks(patch.productionSql, patch.kind, metadata);
    var verdict := VerdictFromChecks(checks);
    var touched := if metadata.piiTagged then MentionsPiiLikeColumn(patch.productionSql) else [];
    var audit := Audit(services.newId, patchId.text, verdict, checks, touched, services.rationale);
    var _ := store.WriteAudit(id, audit);
    end := Returned(AuditReply(audit.id, audit.verdict));
  }

  // `impl(**args)`: the tool acts on the incident its arguments name.
  method Invoke(store: InMemoryStateManager, name: string, args: Args, outcome: ToolOutcome, settings: Settings)
    returns (end: ToolEnd)
    requires IsTool(name) && store.Valid()
    modifies store
    ensures store.Valid() && store.subscribers == old(store.subscribers)
    ensures (store.View(), end) == Dispatch(old(store.View()), name, args, outcome, settings)
  {
    hide GeneratePatch, VerifyGovernance, Investigate;
    if !Binds(name, args) {
      return Raised("TypeError");
    }
    match outcome {
      case Raises(message) => end := Raised(message);
      case TimesOut => end := RanOutOfTime;
      case Completes(services) =>
        var id := args["incident_id"];
        if !id.Text? {
          return UNKNOWN_INCIDENT;
        }
        if name == INVESTIGATE {
          end := InvestigateIncidentLogs(store, id.text, services);
        } else if name == GENERATE {
          end := GenerateAndTestPatch(store, id.text, args, services, settings);
        } else {
          end := VerifyGovernancePolicy(store, id.text, args["patch_id"], services, settings);
        }
    }
  }
}
