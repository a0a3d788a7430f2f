/** The demo scenarios: no run on one is ever blocked, in either mode, and
    offline a run that generates a patch and finishes has something to
    approve. */
module DemoLiveness {
  import opened BqSandbox
  import opened GeneratedDdl
  import opened Governance
  import opened Lifecycle
  import opened LifecycleSafety
  import opened Models
  import opened PatchSql
  import opened Prelude
  import opened SandboxRewrite
  import opened Text

  // A preset scenario on a table URI with whitespace-free names and a column
  // made of word characters.
  predicate IsPlainDemo(record: Incident, settings: Settings) {
    var target := ParseResourceUri(BindToProject(record.resourceUri, settings.project));
    && IsDemo(record.rawEvent)
    && AllWord(DemoColumn(record.rawEvent))
    && target.Success? && PlainRef(target.value)
  }

  function Table(record: Incident, settings: Settings): TableRef
    requires IsPlainDemo(record, settings)
  {
    ParseResourceUri(BindToProject(record.resourceUri, settings.project)).value
  }

  // The preset statement; offline it passed the sandbox, and the schema
  // difference shown is exactly the column it adds.
  predicate IsDemoPatch(p: Patch, record: Incident, settings: Settings)
    requires IsPlainDemo(record, settings)
  {
    var table, column := Table(record, settings), DemoColumn(record.rawEvent);
    && p.productionSql in {AddColumnDdl(table, column), ClusteringDdl(table, column)}
    && (settings.mode == Local ==>
          && p.validationStatus == SandboxPass
          && p.afterSchema == BASE_SCHEMA + if p.productionSql == ClusteringDdl(table, column) then []
                                            else [ColumnSpec(column, "STRING", Nullable)])
  }

  lemma DemoColumnNonempty(event: RawEvent)
    ensures DemoColumn(event) != []
  {
  }

  // Rebinding a malformed URI does not repair it.
  lemma BoundParsesRaw(uri: string, project: Option<string>)
    requires ParseResourceUri(BindToProject(uri, project)).Success?
    ensures ParseResourceUri(uri).Success?
  {
    BindIdempotent(uri, project);
  }

  // The sixth character from the table on tells the statements apart.
  lemma ShapesDiffer(table: TableRef, column: string)
    ensures AddColumnDdl(table, column) != ClusteringDdl(table, column)
  {
    var n := |HEAD + table.FullyQualified()|;
    assert AddColumnDdl(table, column)[n + 2] == 'A';
    assert ClusteringDdl(table, column)[n + 2] == 'S';
  }

  /** Whatever the model asks for, the patch tool on a demo incident emits the
      preset statement, in either mode; offline it passes the sandbox, and the
      schema difference shown is exactly the column the statement adds. */
  lemma DemoPatch(s: Slice, args: Args, services: Services, settings: Settings)
    requires IsPlainDemo(s.record, settings)
    requires Binds(GENERATE, args) && args["finding_id"].Text?
    ensures var effect := GeneratePatch(s, args, services, settings);
            && effect.end.Returned? && effect.end.reply.PatchReply?
            && effect.end.reply.patchId == services.newId
            && (settings.mode == Local ==> effect.end.reply.validationStatus == SandboxPass)
            && effect.slice == s.(patches := s.patches + [Last(effect.slice.patches)])
            && IsDemoPatch(Last(effect.slice.patches), s.record, settings)
  {
    var target := BindToProject(s.record.resourceUri, settings.project);
    var table, column := Table(s.record, settings), DemoColumn(s.record.rawEvent);
    DemoColumnNonempty(s.record.rawEvent);
    var sql := DeterministicDemoPatch(s.record.rawEvent, target).value.value;
    GeneratedDdlIsHarmless(table, column, sql.productionSql, DDL, BENIGN);
    AddedColumnsOfGeneratedDdl(table, column);
    ShapesDiffer(table, column);
    hide ParseResourceUri, BindToProject, ContainsDestructiveStatement, ParseAddedColumns, RewriteSqlForDataset,
         AddColumnDdl, ClusteringDdl, PlainRef, AllWord;
    FrontOfSnoc(s.patches, NewPatch(services.newId, args["finding_id"].text, sql, AllowsDestructive(args),
                                    Validate(s.record.id, target, sql.productionSql, services, settings)));
  }

  /** What the sandbox is given for it is the same statement on the sandbox
      table, unless the names collide under the second rewriting pass. */
  lemma DemoSandboxSql(s: Slice, args: Args, services: Services, settings: Settings)
    requires settings.mode == Local && IsPlainDemo(s.record, settings) && AllWord(settings.sandboxPrefix)
    requires Binds(GENERATE, args) && args["finding_id"].Text?
    ensures var patch := Last(GeneratePatch(s, args, services, settings).slice.patches);
            var table, column := Table(s.record, settings), DemoColumn(s.record.rawEvent);
            var sandbox := SandboxDatasetId(settings.sandboxPrefix, s.record.id);
            var rebased := table.(dataset := sandbox);
            patch.sandboxSql == (if s.record.rawEvent.scenario == "slow_copy" then ClusteringDdl(rebased, column)
                                 else AddColumnDdl(rebased, column))
            <==> !Collides(HEAD, table, sandbox) || table.dataset == sandbox
  {
    var target := BindToProject(s.record.resourceUri, settings.project);
    var table, column := Table(s.record, settings), DemoColumn(s.record.rawEvent);
    var sandbox := SandboxDatasetId(settings.sandboxPrefix, s.record.id);
    var sql := DeterministicDemoPatch(s.record.rawEvent, target).value.value;
    DemoPatch(s, args, services, settings);
    GeneratedDdlIsHarmless(table, column, sql.productionSql, DDL, BENIGN);
    SandboxIsWords(settings.sandboxPrefix, s.record.id);
    assert Free(column, '.');
    RewriteOfGeneratedDdl(table, column, sandbox);
    var patch := NewPatch(services.newId, args["finding_id"].text, sql, AllowsDestructive(args),
                          LocalValidate(s.record.id, table, sql.productionSql, settings));
    hide ParseResourceUri, BindToProject, ContainsDestructiveStatement, ParseAddedColumns, RewriteSqlForDataset,
         AddColumnDdl, ClusteringDdl, PlainRef, AllWord, Collides, IsDemoPatch, SandboxDatasetId;
    FrontOfSnoc(s.patches, patch);
    assert patch.sandboxSql == RewriteSqlForDataset(sql.productionSql, table, sandbox);
  }

  predicate AllDemo(s: Slice, settings: Settings) {
    && IsPlainDemo(s.record, settings)
    && NoBlock(s.audits)
    && forall p :: p in s.patches ==> IsDemoPatch(p, s.record, settings)
  }

  lemma LookupIsDemo(s: Slice, id: Id, settings: Settings)
    requires AllDemo(s, settings) && GetPatch(s.patches, id).Some?
    ensures IsDemoPatch(GetPatch(s.patches, id).value, s.record, settings)
  {
    GetPatchFirst(s.patches, id);
  }

  lemma DemoAudit(s: Slice, patchId: Value, services: Services, settings: Settings)
    requires AllDemo(s, settings)
    ensures AllDemo(VerifyGovernance(s, patchId, services, settings).slice, settings)
    ensures var end := VerifyGovernance(s, patchId, services, settings).end;
            end.Returned? ==> !end.reply.IsBlock()
  {
    hide PolicyChecks, VerdictFromChecks, AddColumnDdl, ClusteringDdl, PlainRef, AllWord, ParseResourceUri, BindToProject;
    if patchId.Text? && GetPatch(s.patches, patchId.text).Some? {
      var patch := GetPatch(s.patches, patchId.text).value;
      LookupIsDemo(s, patchId.text, settings);
      GeneratedDdlIsHarmless(Table(s.record, settings), DemoColumn(s.record.rawEvent), patch.productionSql,
                             patch.kind, MetadataSeen(services, settings));
    }
  }

  lemma DemoTool(s: Slice, name: string, args: Args, outcome: ToolOutcome, settings: Settings)
    requires IsTool(name) && AllDemo(s, settings)
    ensures AllDemo(RunTool(s, name, args, outcome, settings).slice, settings)
    ensures var end := RunTool(s, name, args, outcome, settings).end;
            end.Returned? ==> !end.reply.IsBlock()
  {
    hide VerifyGovernance, IsDemoPatch, IsPlainDemo;
    if Binds(name, args) && outcome.Completes? {
      if name == VERIFY {
        DemoAudit(s, args["patch_id"], outcome.services, settings);
      } else if name == GENERATE {
        if args["finding_id"].Text? {
          DemoPatch(s, args, outcome.services, settings);
          hide GeneratePatch;
        } else {
          GenerateNeedsFinding(s, args, outcome.services, settings);
        }
      }
    }
  }

  lemma GenerateNeedsFinding(s: Slice, args: Args, services: Services, settings: Settings)
    requires Binds(GENERATE, args) && !args["finding_id"].Text?
    ensures var effect := GeneratePatch(s, args, services, settings);
            effect.slice == s && (effect.end.Returned? ==> !effect.end.reply.IsBlock())
  {
  }

  lemma DemoCall(s: Slice, call: FunctionCall, sequence: nat, x: ToolOutcome, settings: Settings)
    requires AllDemo(s, settings)
    ensures var (s', reply) := CallTool(s, call, sequence, x, settings);
            AllDemo(s', settings) && !reply.IsBlock()
  {
    hide RunTool, AllDemo;
    if IsTool(ToolName(call)) {
      DemoTool(s, ToolName(call), ToolArgs(s.record.id, call), x, settings);
      var effect := RunTool(s, ToolName(call), ToolArgs(s.record.id, call), x, settings);
      var (s', _) := CallTool(s, call, sequence, x, settings);
      DemoSteps(effect.slice, s', settings);
    } else {
      var (s', _) := CallTool(s, call, sequence, x, settings);
      DemoSteps(s, s', settings);
    }
  }

  lemma DemoSteps(s: Slice, s': Slice, settings: Settings)
    requires AllDemo(s, settings) && s' == s.(steps := s'.steps)
    ensures AllDemo(s', settings)
  {
  }

  // What identifies an incident never changes under updates.
  lemma DemoUpdate(s: Slice, u: IncidentUpdate, settings: Settings)
    requires AllDemo(s, settings)
    ensures AllDemo(Update(s, u), settings)
  {
    var t := Update(s, u);
    assert t.record.resourceUri == s.record.resourceUri && t.record.rawEvent == s.record.rawEvent;
    forall p | p in t.patches
      ensures IsDemoPatch(p, t.record, settings)
    {
      assert IsDemoPatch(p, s.record, settings);
    }
  }

  // A demo run is never blocked and never rejected.
  predicate DemoRun(r: Run, settings: Settings) {
    && AllDemo(r.slice, settings)
    && (r.pc.AwaitTool? ==> !r.pc.blocked)
    && (r.pc.Done? ==> r.pc.exit != Exit.Blocked && r.slice.record.status != Rejected)
  }

  lemma DemoNextCall(s: Slice, turn: nat, sequence: nat, response: Response, parts: seq<(string, ToolReply)>,
                     contents: seq<Content>, settings: Settings)
    requires AllDemo(s, settings)
    requires s.record.status == Diagnosing
    ensures DemoRun(NextCall(s, turn, sequence, response, parts, false, contents, settings), settings)
  {
    hide AllDemo;
    if |parts| < |response.calls| {
      DemoSteps(s, NextCall(s, turn, sequence, response, parts, false, contents, settings).slice, settings);
    } else {
      var s' := Update(s, NO_UPDATE.(turnCount := Set(turn)));
      DemoUpdate(s, NO_UPDATE.(turnCount := Set(turn)), settings);
      DemoUpdate(s', NO_UPDATE.(status := Set(Failed), error := Set(Some(TURNS_EXHAUSTED)),
                                turnCount := Set(settings.maxTurns)), settings);
    }
  }

  lemma DemoFinish(s: Slice, turn: nat, response: Response, contents: seq<Content>, settings: Settings)
    requires AllDemo(s, settings)
    ensures DemoRun(Finish(s, turn, response, contents), settings)
    ensures s.patches != [] && AuditsFor(s.audits, Last(s.patches).id) != [] ==>
              Finish(s, turn, response, contents).slice.record.status == AwaitingApproval
  {
    var (status, error) := FinishStatus(s);
    DemoUpdate(s, IncidentUpdate(Set(status), Set(Some(response.text)), Set(turn), Set(error)), settings);
    if s.patches != [] {
      var id := Last(s.patches).id;
      AuditsForAreAudits(s.audits, id);
      var matching := AuditsFor(s.audits, id);
      assert matching != [] ==> Last(matching) in matching;
    }
  }

  lemma DemoResume(r: Run, x: Input, settings: Settings)
    requires WellFormed(r) && InPhase(r) && DemoRun(r, settings)
    ensures DemoRun(Resume(r, x, settings), settings)
  {
    hide AllDemo, NextCall, CallTool, Finish, InPhase;
    PhaseMeans(r);
    var s := r.slice;
    DemoUpdate(s, NO_UPDATE.(status := Set(Failed), error := Set(Some(INCIDENT_TIMEOUT))), settings);
    match r.pc
    case Done(_, _) =>
    case Fresh =>
      var s' := Update(s, NO_UPDATE.(status := Set(Diagnosing)));
      DemoUpdate(s, NO_UPDATE.(status := Set(Diagnosing)), settings);
      DemoUpdate(s', NO_UPDATE.(status := Set(Failed), error := Set(Some(TURNS_EXHAUSTED)),
                                turnCount := Set(settings.maxTurns)), settings);
    case AwaitModel(_, _, _, _) => DemoResumeModel(r, x, settings);
    case AwaitTool(turn, sequence, response, parts, _, contents) =>
      var call := response.calls[|parts|];
      if !(x.interrupted && IsTool(ToolName(call))) {
        var (s', reply) := CallTool(s, call, sequence, x.tool, settings);
        DemoCall(s, call, sequence, x.tool, settings);
        CallToolWrites(s, call, sequence, x.tool, settings);
        ToolKeepsRecord(s, s', reply.IsBlock());
        DemoNextCall(s', turn, sequence + 1, response, parts + [(call.name, reply)], contents, settings);
      }
    case AwaitAudit(turn, response, contents) =>
      if !x.interrupted {
        DemoAutoAudit(s, x.tool, settings);
        DemoFinish(AutoAudit(s, x.tool, settings), turn, response, contents, settings);
      }
  }

  lemma PhaseMeans(r: Run)
    requires InPhase(r)
    ensures r.pc.AwaitModel? || r.pc.AwaitTool? || r.pc.AwaitAudit? ==> r.slice.record.status == Diagnosing
  {
  }

  lemma DemoAutoAudit(s: Slice, x: ToolOutcome, settings: Settings)
    requires AllDemo(s, settings) && s.patches != []
    ensures AllDemo(AutoAudit(s, x, settings), settings)
  {
    hide AllDemo, VerifyGovernance;
    if x.Completes? {
      DemoAudit(s, Text(Last(s.patches).id), x.services, settings);
    }
  }

  lemma DemoResumeModel(r: Run, x: Input, settings: Settings)
    requires r.pc.AwaitModel? && r.slice.record.status == Diagnosing && DemoRun(r, settings)
    ensures WellFormed(r) && DemoRun(Resume(r, x, settings), settings)
  {
    hide AllDemo, NextCall, Finish, Update;
    var s, pc := r.slice, r.pc;
    if x.interrupted {
      DemoUpdate(s, NO_UPDATE.(status := Set(Failed), error := Set(Some(INCIDENT_TIMEOUT))), settings);
      UpdatedStatus(s, INCIDENT_TIMEOUT);
    } else {
      match x.model
      case Answer(response) =>
        var s' := Append(s, ModelEntry(s.record.id, pc.sequence, Ok, NoNote));
        DemoSteps(s, s', settings);
        if response.calls != [] {
          DemoNextCall(s', pc.turn, pc.sequence + 1, response, [], pc.contents + [ModelContent(response)], settings);
        } else {
          DemoFinish(s', pc.turn, response, pc.contents + [ModelContent(response)], settings);
        }
      case TurnTimeout =>
        var s' := Append(s, ModelEntry(s.record.id, pc.sequence, TimedOut, NoNote));
        DemoSteps(s, s', settings);
        DemoUpdate(s', NO_UPDATE.(status := Set(Failed), error := Set(Some(INCIDENT_TIMEOUT))), settings);
        UpdatedStatus(s', INCIDENT_TIMEOUT);
      case Fault(retryable, kind, message) =>
        var e := ModelEntry(s.record.id, pc.sequence, Errored,
                            if retryable && pc.attempt < settings.maxAttempts then AttemptFailed(pc.attempt, message)
                            else Message(message));
        DemoSteps(s, Append(s, e), settings);
        DemoUpdate(Append(s, e), NO_UPDATE.(status := Set(Failed), error := Set(Some(kind + ": " + message))), settings);
        UpdatedStatus(Append(s, e), kind + ": " + message);
    }
  }

  lemma UpdatedStatus(s: Slice, error: string)
    ensures Update(s, NO_UPDATE.(status := Set(Failed), error := Set(Some(error)))).record.status == Failed
  {
  }

  lemma {:induction false} FeedDemo(s: Slice, script: nat -> Input, n: nat, settings: Settings)
    requires IsIngested(s) && IsPlainDemo(s.record, settings)
    ensures DemoRun(Feed(Start(s), script, n, settings), settings)
  {
    hide Resume, IsPlainDemo;
    if n > 0 {
      FeedDemo(s, script, n - 1, settings);
      FeedInvariant(s, script, n - 1, settings);
      DemoResume(Feed(Start(s), script, n - 1, settings), script(n - 1), settings);
    }
  }

  // ---------- A patch call that completes leaves a patch ----------

  // The input completes a call of the patch tool that binds.
  predicate PatchCallCompletes(r: Run, x: Input)
    requires WellFormed(r)
  {
    && r.pc.AwaitTool? && !x.interrupted && x.tool.Completes?
    && var call := r.pc.response.calls[|r.pc.parts|];
       && ToolName(call) == GENERATE
       && Binds(GENERATE, ToolArgs(r.slice.record.id, call))
       && call.args["finding_id"].Text?
  }

  lemma PatchCallLeavesPatch(r: Run, x: Input, settings: Settings)
    requires WellFormed(r) && AllDemo(r.slice, settings) && PatchCallCompletes(r, x)
    ensures Resume(r, x, settings).slice.patches != []
  {
    hide CallTool, NextCall, AllDemo, ResumeModel, StartTurn, AutoAudit, Finish, Fail, NeedsAudit, Binds;
    var s, pc := r.slice, r.pc;
    var call := pc.response.calls[|pc.parts|];
    PatchCallWrites(s, call, pc.sequence, x.tool, settings);
    var (s', reply) := CallTool(s, call, pc.sequence, x.tool, settings);
    NextCallPatches(s', pc.turn, pc.sequence + 1, pc.response, pc.parts + [(call.name, reply)],
                    pc.blocked || reply.IsBlock(), pc.contents, settings);
  }

  lemma PatchCallWrites(s: Slice, call: FunctionCall, sequence: nat, x: ToolOutcome, settings: Settings)
    requires AllDemo(s, settings) && x.Completes? && ToolName(call) == GENERATE
    requires Binds(GENERATE, ToolArgs(s.record.id, call)) && call.args["finding_id"].Text?
    ensures CallTool(s, call, sequence, x, settings).0.patches != []
  {
    DemoPatch(s, ToolArgs(s.record.id, call), x.services, settings);
    hide GeneratePatch, IsDemoPatch, AllDemo, IsPlainDemo;
  }

  lemma NextCallPatches(s: Slice, turn: nat, sequence: nat, response: Response, parts: seq<(string, ToolReply)>,
                        blocked: bool, contents: seq<Content>, settings: Settings)
    ensures NextCall(s, turn, sequence, response, parts, blocked, contents, settings).slice.patches == s.patches
  {
  }

  lemma PatchesStay(r: Run, x: Input, settings: Settings)
    requires WellFormed(r)
    ensures r.slice.patches <= Resume(r, x, settings).slice.patches
  {
    match r.pc
    case AwaitTool(_, _, _, _, _, _) => ToolPatchesStay(r, x, settings);
    case AwaitModel(_, _, _, _) => ModelPatchesStay(r, x, settings);
    case AwaitAudit(_, _, _) =>
      hide VerifyGovernance, FinishStatus, Grounded, ResumeModel, ResumeTool;
      if x.tool.Completes? {
        VerifyWrites(r.slice, Text(Last(r.slice.patches).id), x.tool.services, settings);
      }
    case _ =>
      hide ResumeModel, ResumeTool, AutoAudit, Finish;
  }

  lemma ToolPatchesStay(r: Run, x: Input, settings: Settings)
    requires WellFormed(r) && r.pc.AwaitTool?
    ensures r.slice.patches <= Resume(r, x, settings).slice.patches
  {
    hide CallTool, NextCall, ResumeModel, StartTurn, AutoAudit, Finish, NeedsAudit;
    var s, pc := r.slice, r.pc;
    var call := pc.response.calls[|pc.parts|];
    CallPatchesStay(s, call, pc.sequence, x.tool, settings);
    var (s', reply) := CallTool(s, call, pc.sequence, x.tool, settings);
    NextCallPatches(s', pc.turn, pc.sequence + 1, pc.response, pc.parts + [(call.name, reply)],
                    pc.blocked || reply.IsBlock(), pc.contents, settings);
  }

  lemma CallPatchesStay(s: Slice, call: FunctionCall, sequence: nat, x: ToolOutcome, settings: Settings)
    ensures s.patches <= CallTool(s, call, sequence, x, settings).0.patches
  {
    hide CallTool, Grounded;
    CallToolWrites(s, call, sequence, x, settings);
  }

  lemma ModelPatchesStay(r: Run, x: Input, settings: Settings)
    requires r.pc.AwaitModel?
    ensures WellFormed(r) && r.slice.patches <= Resume(r, x, settings).slice.patches
  {
    hide FinishStatus, NeedsAudit, NextCall, ResumeTool, AutoAudit;
    var s, pc := r.slice, r.pc;
    if x.model.Answer? {
      NextCallPatches(Append(s, ModelEntry(s.record.id, pc.sequence, Ok, NoNote)), pc.turn, pc.sequence + 1,
                      x.model.response, [], false, pc.contents + [ModelContent(x.model.response)], settings);
    }
  }

  lemma {:induction false} PatchesStayFrom(s: Slice, script: nat -> Input, m: nat, n: nat, settings: Settings)
    requires m <= n
    ensures Feed(Start(s), script, m, settings).slice.patches <= Feed(Start(s), script, n, settings).slice.patches
  {
    hide Resume;
    if m < n {
      PatchesStayFrom(s, script, m, n - 1, settings);
      PatchesStay(Feed(Start(s), script, n - 1, settings), script(n - 1), settings);
    }
  }

  /** Liveness, offline: a demo run in which one patch call completed and the
      model later answers without tool calls ends awaiting approval, whatever
      else it did before, in between and however often; if governance was never
      asked for, one completed audit stands between. */
  lemma DemoReachesApproval(s: Slice, script: nat -> Input, m: nat, n: nat, settings: Settings)
    requires settings.mode == Local && IsIngested(s) && IsPlainDemo(s.record, settings)
    requires m < n && PatchCallCompletes(Feed(Start(s), script, m, settings), script(m))
    requires Feed(Start(s), script, n, settings).pc.AwaitModel?
    requires !script(n).interrupted && script(n).model.Answer? && script(n).model.response.calls == []
    requires !script(n + 1).interrupted && script(n + 1).tool.Completes?
    ensures var r := Feed(Start(s), script, n + 2, settings);
            r.pc.Done? && r.slice.record.status == AwaitingApproval
  {
    hide Resume, IsPlainDemo, AllDemo, PatchCallCompletes;
    FeedDemo(s, script, m, settings);
    PatchCallLeavesPatch(Feed(Start(s), script, m, settings), script(m), settings);
    PatchesStayFrom(s, script, m + 1, n, settings);
    PatchedReachesApproval(s, script, n, settings);
  }

  lemma PatchedReachesApproval(s: Slice, script: nat -> Input, n: nat, settings: Settings)
    requires settings.mode == Local && IsIngested(s) && IsPlainDemo(s.record, settings)
    requires var r := Feed(Start(s), script, n, settings);
             r.pc.AwaitModel? && r.slice.patches != []
    requires !script(n).interrupted && script(n).model.Answer? && script(n).model.response.calls == []
    requires !script(n + 1).interrupted && script(n + 1).tool.Completes?
    ensures var r := Feed(Start(s), script, n + 2, settings);
            r.pc.Done? && r.slice.record.status == AwaitingApproval
  {
    hide Finish, NeedsAudit, AutoAudit, IsPlainDemo;
    var r := Feed(Start(s), script, n, settings);
    FeedDemo(s, script, n, settings);
    var s' := Append(r.slice, ModelEntry(r.slice.record.id, r.pc.sequence, Ok, NoNote));
    DemoSteps(r.slice, s', settings);
    var response := script(n).model.response;
    var contents := r.pc.contents + [ModelContent(response)];
    var r1 := Feed(Start(s), script, n + 1, settings);
    assert r1 == Resume(r, script(n), settings);
    DemoNeedsAudit(s', settings);
    DemoFinish(s', r.pc.turn, response, contents, settings);
    FinishIsDone(s', r.pc.turn, response, contents);
    var r2 := Feed(Start(s), script, n + 2, settings);
    assert r2 == Resume(r1, script(n + 1), settings);
    if NeedsAudit(s') {
      AuditCompletes(s', script(n + 1).tool, settings);
      var s'' := AutoAudit(s', script(n + 1).tool, settings);
      DemoAutoAudit(s', script(n + 1).tool, settings);
      DemoFinish(s'', r.pc.turn, response, contents, settings);
      FinishIsDone(s'', r.pc.turn, response, contents);
    }
  }

  // ---------- The shortest script ----------

  // Start; one patch call; the tool; an answer; the automatic audit.
  predicate IsShortScript(id: Id, script: nat -> Input) {
    && (forall i | 0 <= i < 5 :: !script(i).interrupted)
    && script(1).model.Answer? && script(3).model.Answer?
    && script(2).tool.Completes? && script(4).tool.Completes?
    && script(3).model.response.calls == []
    && |script(1).model.response.calls| == 1
    && var call := script(1).model.response.calls[0];
       ToolName(call) == GENERATE && Binds(GENERATE, ToolArgs(id, call)) && call.args["finding_id"].Text?
  }

  lemma ShortScriptPoints(s: Slice, script: nat -> Input, settings: Settings)
    requires settings.maxTurns >= 2 && s.record.status == Ingested && IsShortScript(s.record.id, script)
    ensures var r2 := Feed(Start(s), script, 2, settings);
            && r2.slice.record.id == s.record.id
            && r2.pc.AwaitTool? && r2.pc.response == script(1).model.response && r2.pc.parts == [] && !r2.pc.blocked
            && r2.pc.turn == 1
  {
    var r1 := Feed(Start(s), script, 1, settings);
    assert Feed(Start(s), script, 0, settings) == Start(s);
    assert r1 == Resume(Start(s), script(0), settings);
    assert r1.pc.AwaitModel? && r1.pc.turn == 1;
    assert Feed(Start(s), script, 2, settings) == Resume(r1, script(1), settings);
  }

  /** On a demo incident, every script that starts, makes one patch call,
      answers and lets the automatic audit complete ends awaiting approval,
      with every check of the executor passed. */
  lemma ShortScriptApproves(s: Slice, script: nat -> Input, settings: Settings)
    requires settings.mode == Local && settings.maxTurns >= 2
    requires IsIngested(s) && IsPlainDemo(s.record, settings) && IsShortScript(s.record.id, script)
    ensures var r := Feed(Start(s), script, 5, settings);
            && r.pc.Done? && r.slice.record.status == AwaitingApproval
            && Preflight(r.slice, None).Success?
  {
    ShortScriptPoints(s, script, settings);
    var r2 := Feed(Start(s), script, 2, settings);
    var r3 := Feed(Start(s), script, 3, settings);
    FeedDemo(s, script, 2, settings);
    var call := r2.pc.response.calls[0];
    var x := script(2).tool;
    DemoCall(r2.slice, call, r2.pc.sequence, x, settings);
    assert r3.pc.AwaitModel? by {
      hide CallTool, AllDemo, IsPlainDemo;
      assert r3 == Resume(r2, script(2), settings);
    }
    hide Resume, Feed, IsPlainDemo, AllDemo;
    DemoReachesApproval(s, script, 2, 3, settings);
    ApprovalSafety(s, script, 5, settings);
  }

  lemma FinishIsDone(s: Slice, turn: nat, response: Response, contents: seq<Content>)
    ensures Finish(s, turn, response, contents).pc.Done?
  {
  }

  lemma DemoNeedsAudit(s: Slice, settings: Settings)
    requires settings.mode == Local && AllDemo(s, settings) && s.patches != []
    ensures NeedsAudit(s) <==> AuditsFor(s.audits, Last(s.patches).id) == []
  {
    BoundParsesRaw(s.record.resourceUri, settings.project);
    assert IsDemoPatch(Last(s.patches), s.record, settings);
  }

  lemma AuditCompletes(s: Slice, x: ToolOutcome, settings: Settings)
    requires s.patches != [] && x.Completes?
    ensures var s' := AutoAudit(s, x, settings);
            s'.patches == s.patches && AuditsFor(s'.audits, Last(s.patches).id) != []
  {
    var id := Last(s.patches).id;
    GetPatchFirst(s.patches, id);
    assert s.patches[|s.patches| - 1].id == id;
    var s' := AutoAudit(s, x, settings);
    AuditsForSnoc(s.audits, Last(s'.audits), id);
  }
}
