/** Every audit is asked for or due: what the log must hold before anything the
    sandbox refused can be approved, let alone run. */
module AuditTrail {
  import opened DestructiveTrail
  import opened ExecutedSql
  import opened HistoryRuns
  import opened IncidentWorld
  import opened Lifecycle
  import opened LifecycleSafety
  import opened Models
  import opened Prelude
  import opened RunEndings
  import opened SqlWords
  import opened ToolResults

  // A logged governance call for this patch.
  predicate IsRequest(e: StepLog, id: Id) {
    && e.kind == ToolCall && e.toolName == Some("verify_governance_policy")
    && "patch_id" in e.toolArgs && e.toolArgs["patch_id"] == Text(id)
  }

  predicate Asked(steps: seq<StepLog>, id: Id) {
    exists e :: e in steps && IsRequest(e, id)
  }

  // The documents before their last audit made an automatic one due, and it
  // is the audit that was due.
  predicate WasDue(s: Slice) {
    && s.audits != [] && AuditDue(s.(audits := Front(s.audits)))
    && Last(s.audits).linkedPatchId == Last(s.patches).id
  }

  ghost predicate Traced(r: Run) {
    forall i :: 0 <= i < |r.slice.audits| ==>
      || Asked(r.slice.steps, r.slice.audits[i].linkedPatchId)
      || (r.pc.Done? && i == |r.slice.audits| - 1 && WasDue(r.slice))
  }

  ghost predicate AllAsked(s: Slice) {
    forall a :: a in s.audits ==> Asked(s.steps, a.linkedPatchId)
  }

  // While a run goes on, every audit was asked for.
  ghost predicate AuditTrailed(r: Run)
    requires WellFormed(r)
  {
    CallLogged(r) && if r.pc.Done? then Traced(r) else AllAsked(r.slice)
  }

  lemma AskedKept(s: Slice, s': Slice)
    requires AllAsked(s) && s'.audits == s.audits && s.steps <= s'.steps
    ensures AllAsked(s')
  {
    assert forall e :: e in s.steps ==> e in s'.steps;
  }

  lemma AskedIsTraced(r: Run)
    requires AllAsked(r.slice)
    ensures Traced(r)
  {
  }

  // A tool call adds an audit of the patch it names only, if any.
  lemma CallAsks(s: Slice, call: FunctionCall, sequence: nat, x: ToolOutcome, settings: Settings)
    requires AllAsked(s)
    requires call.name == "verify_governance_policy" && "patch_id" in call.args && call.args["patch_id"].Text? ==>
               Asked(s.steps, call.args["patch_id"].text)
    ensures AllAsked(CallTool(s, call, sequence, x, settings).0)
  {
    hide CallTool, Asked, IsAuditOf, EarliestWith, Proposes, IsPatchOf, AllAsked;
    var s' := CallTool(s, call, sequence, x, settings).0;
    CallLogs(s, call, sequence, x, settings);
    RebuffedCalls(s, call, sequence, x, settings);
    if call.name == "verify_governance_policy" && Takes(call) && x.Completes? && call.args["patch_id"].Text? {
      var id := call.args["patch_id"].text;
      GovernanceCall(s, call, sequence, x.services, settings);
      StoredOrNot(s.patches, id);
      if patch :| EarliestWith(s.patches, id, patch) {
        OneMoreAsked(s, s', id, patch, x.services, settings);
      } else {
        AskedKept(s, s');
      }
    } else {
      OtherCallsKeepAudits(s, call, sequence, x, settings);
      AskedKept(s, s');
    }
  }

  lemma OneMoreAsked(s: Slice, s': Slice, id: Id, patch: Patch, services: Services, settings: Settings)
    requires AllAsked(s) && s.steps <= s'.steps && Asked(s.steps, id)
    requires Audits(s, s'.(steps := s.steps), id, patch, services, settings)
    ensures AllAsked(s')
  {
    assert forall e :: e in s.steps ==> e in s'.steps;
    assert s'.audits == s.audits + [Last(s'.audits)];
  }

  lemma OtherCallsKeepAudits(s: Slice, call: FunctionCall, sequence: nat, x: ToolOutcome, settings: Settings)
    requires !(call.name == "verify_governance_policy" && Takes(call) && x.Completes? && call.args["patch_id"].Text?)
    ensures CallTool(s, call, sequence, x, settings).0.audits == s.audits
  {
    hide CallTool, IsAuditOf, EarliestWith, Proposes, IsPatchOf;
    RebuffedCalls(s, call, sequence, x, settings);
    if Takes(call) && x.Completes? {
      TakesKnown(call);
      if call.name == "investigate_incident_logs" {
        TriageCall(s, call, sequence, x.services, settings);
      } else if call.name == "generate_and_test_patch" {
        PatchCall(s, call, sequence, x.services, settings);
      } else {
        GovernanceCall(s, call, sequence, x.services, settings);
      }
    }
  }

  lemma NextCallTraced(s: Slice, turn: nat, sequence: nat, response: Response, parts: seq<(string, ToolReply)>,
                       blocked: bool, contents: seq<Content>, settings: Settings)
    requires AllAsked(s)
    ensures var r := NextCall(s, turn, sequence, response, parts, blocked, contents, settings);
            WellFormed(r) && AuditTrailed(r)
  {
    hide AllAsked, Traced;
    var r := NextCall(s, turn, sequence, response, parts, blocked, contents, settings);
    AskedKept(s, r.slice);
    AskedIsTraced(r);
  }

  lemma AuditTraced(s: Slice, x: Input, turn: nat, response: Response, contents: seq<Content>, settings: Settings)
    requires AuditDue(s) && AllAsked(s)
    ensures s.patches != []
    ensures Traced(Finish(AutoAudit(s, x.tool, settings), turn, response, contents))
  {
    hide VerifyGovernance, FinishStatus, EarliestWith, IsAuditOf, AuditDue, Unaudited;
    DueMeans(s);
    var s' := AutoAudit(s, x.tool, settings);
    var r := Finish(s', turn, response, contents);
    if x.tool.Completes? {
      var id := Last(s.patches).id;
      VerifyIs(s, Text(id), x.tool.services, settings);
      StoredOrNot(s.patches, id);
      var patch :| EarliestWith(s.patches, id, patch);
      LatestWasDue(s, s', r.slice, id, patch, x.tool.services, settings);
    } else {
      AskedIsTraced(r);
    }
  }

  lemma LatestWasDue(s: Slice, s': Slice, t: Slice, id: Id, patch: Patch, services: Services, settings: Settings)
    requires AuditDue(s) && s.patches != [] && id == Last(s.patches).id
    requires Audits(s, s', id, patch, services, settings)
    requires t == s'.(record := t.record) && t.record.resourceUri == s.record.resourceUri
    ensures WasDue(t) && Front(t.audits) == s.audits && t.steps == s.steps
  {
    assert Front(t.audits) == s.audits;
  }

  lemma ResumeTraced(r: Run, x: Input, settings: Settings)
    requires WellFormed(r) && AuditTrailed(r)
    ensures AuditTrailed(Resume(r, x, settings))
  {
    hide CallTool, NextCall, Finish, AutoAudit, AllAsked, Traced, AuditDue, NeedsAudit, Asked;
    var s, r' := r.slice, Resume(r, x, settings);
    match r.pc
    case AwaitTool(turn, sequence, response, parts, blocked, contents) =>
      var call := response.calls[|parts|];
      RequestLogged(r);
      CallAsks(s, call, sequence, x.tool, settings);
      var (s', reply) := CallTool(s, call, sequence, x.tool, settings);
      NextCallTraced(s', turn, sequence + 1, response, parts + [(call.name, reply)], blocked || reply.IsBlock(),
                     contents, settings);
      if x.interrupted && IsTool(ToolName(call)) {
        AskedKept(s, r'.slice);
        AskedIsTraced(r');
      }
    case AwaitAudit(turn, response, contents) =>
      DueIs(s);
      AuditTraced(s, x, turn, response, contents, settings);
      FinishEndsRun(AutoAudit(s, x.tool, settings), turn, response, contents);
      if x.interrupted {
        AskedKept(s, r'.slice);
        AskedIsTraced(r');
      }
    case AwaitModel(_, _, _, _) =>
      ResumeModelTraced(r, x, settings);
    case Fresh =>
      AskedKept(s, r'.slice);
      AskedIsTraced(r');
    case Done(_, _) =>
  }

  lemma FinishEndsRun(s: Slice, turn: nat, response: Response, contents: seq<Content>)
    ensures var r := Finish(s, turn, response, contents);
            r.pc.Done? && r.slice.audits == s.audits && r.slice.steps == s.steps
  {
  }

  lemma RequestLogged(r: Run)
    requires WellFormed(r) && CallLogged(r) && r.pc.AwaitTool?
    ensures var call := r.pc.response.calls[|r.pc.parts|];
            call.name == "verify_governance_policy" && "patch_id" in call.args && call.args["patch_id"].Text? ==>
              Asked(r.slice.steps, call.args["patch_id"].text)
  {
    var e := Last(r.slice.steps);
    assert e in r.slice.steps;
    var call := r.pc.response.calls[|r.pc.parts|];
    if call.name == "verify_governance_policy" && "patch_id" in call.args && call.args["patch_id"].Text? {
      assert IsRequest(e, call.args["patch_id"].text);
    }
  }

  lemma ResumeModelTraced(r: Run, x: Input, settings: Settings)
    requires r.pc.AwaitModel? && AllAsked(r.slice)
    ensures WellFormed(r) && AuditTrailed(Resume(r, x, settings))
  {
    hide NextCall, Finish, AllAsked, Traced, NeedsAudit, Asked;
    var s, r' := r.slice, Resume(r, x, settings);
    if !x.interrupted && x.model.Answer? {
      var s' := Append(s, ModelEntry(s.record.id, r.pc.sequence, Ok, NoNote));
      AskedKept(s, s');
      if x.model.response.calls != [] {
        NextCallTraced(s', r.pc.turn, r.pc.sequence + 1, x.model.response, [], false,
                       r.pc.contents + [ModelContent(x.model.response)], settings);
      } else {
        FinishEndsRun(s', r.pc.turn, x.model.response, r.pc.contents + [ModelContent(x.model.response)]);
        AskedKept(s, r'.slice);
        AskedIsTraced(r');
      }
    } else {
      AskedKept(s, r'.slice);
      AskedIsTraced(r');
    }
  }

  lemma {:induction false} FeedTraced(s: Slice, script: nat -> Input, n: nat, settings: Settings)
    requires IsIngested(s)
    ensures AuditTrailed(Feed(Start(s), script, n, settings))
  {
    hide Resume, Asked, WasDue;
    if n > 0 {
      FeedTraced(s, script, n - 1, settings);
      ResumeTraced(Feed(Start(s), script, n - 1, settings), script(n - 1), settings);
    }
  }

  lemma TracedMeans(r: Run, i: nat)
    requires WellFormed(r) && AuditTrailed(r) && i < |r.slice.audits|
    ensures || Asked(r.slice.steps, r.slice.audits[i].linkedPatchId)
            || (i == |r.slice.audits| - 1 && WasDue(r.slice))
  {
    hide Asked, WasDue;
    assert r.slice.audits[i] in r.slice.audits;
  }

  lemma DuePasses(s: Slice)
    requires WasDue(s)
    ensures s.patches != [] && Last(s.patches).validationStatus in {SandboxPass, DryRunOnly}
    ensures s.audits != [] && Last(s.audits).linkedPatchId == Last(s.patches).id
  {
  }

  /** At every point of every run: an audit was asked for by a logged call that
      names its patch, unless it is the very last one, made at the end because
      the sandbox had passed the latest patch and nothing had audited it. So a
      latest patch that failed the sandbox is up for approval only if the model
      asked for its audit. */
  lemma AuditsAreAskedForOrDue(s: Slice, script: nat -> Input, n: nat, settings: Settings)
    requires IsIngested(s)
    ensures var t := Feed(Start(s), script, n, settings).slice;
            && (forall i :: 0 <= i < |t.audits| ==>
                  Asked(t.steps, t.audits[i].linkedPatchId) || (i == |t.audits| - 1 && WasDue(t)))
            && (t.record.status == AwaitingApproval && t.patches != [] && Last(t.patches).validationStatus == SandboxFail ==>
                  Asked(t.steps, Last(t.patches).id))
  {
    hide Feed, Asked, WasDue, AuditTrailed, Audited, InPhase, IsIngested;
    var r := Feed(Start(s), script, n, settings);
    FeedTraced(s, script, n, settings);
    FeedInvariant(s, script, n, settings);
    forall i | 0 <= i < |r.slice.audits|
      ensures Asked(r.slice.steps, r.slice.audits[i].linkedPatchId) || (i == |r.slice.audits| - 1 && WasDue(r.slice))
    {
      TracedMeans(r, i);
    }
    if r.slice.record.status == AwaitingApproval {
      AwaitingIsAudited(r);
      LinkedIsAsked(r.slice, Last(r.slice.patches).id);
    }
  }

  lemma AwaitingIsAudited(r: Run)
    requires InPhase(r) && Audited(r) && r.slice.record.status == AwaitingApproval
    ensures Approvable(r.slice)
  {
  }

  // A linked audit was asked for, or its patch had passed.
  lemma LinkedIsAsked(t: Slice, id: Id)
    requires AuditsFor(t.audits, id) != []
    requires forall i :: 0 <= i < |t.audits| ==>
               Asked(t.steps, t.audits[i].linkedPatchId) || (i == |t.audits| - 1 && WasDue(t))
    ensures || Asked(t.steps, id)
            || (t.patches != [] && Last(t.patches).id == id && Last(t.patches).validationStatus in {SandboxPass, DryRunOnly})
  {
    hide Asked, WasDue, AuditsFor;
    var k := LatestIs(t.audits, id);
    if WasDue(t) {
      DuePasses(t);
    }
  }

  /** In every history, whatever the humans did: if every patch stored under an
      id failed the sandbox, its SQL is run only if the log holds a governance
      call that names it. */
  lemma RefusedRunsOnlyIfAsked(s: Slice, events: seq<Event>, settings: Settings, a: Approval)
    requires IsIngested(s) && a in After(s, events, settings).sent
    requires forall p :: p in After(s, events, settings).run.slice.patches && p.id == a.patchId ==>
               p.validationStatus == SandboxFail
    ensures Asked(After(s, events, settings).run.slice.steps, a.patchId)
  {
    hide Feed, Asked, WasDue, IsIngested, Invariant, Step, AuditsFor, GetPatch, IsRequest;
    var t, u := After(s, events, settings).run.slice, RunOn(s, Inputs(events), settings).slice;
    SentIsSanctioned(s, events, settings, a);
    HistoryCarriesRun(s, events, settings);
    AuditsAreAskedForOrDue(s, Script(Inputs(events)), |Inputs(events)|, settings);
    LinkedIsAsked(u, a.patchId);
    LastIsStored(u.patches);
    AskedLater(u.steps, t.steps, a.patchId);
  }

  lemma LastIsStored(patches: seq<Patch>)
    ensures patches != [] ==> Last(patches) in patches
  {
  }

  lemma AskedLater(steps: seq<StepLog>, later: seq<StepLog>, id: Id)
    requires steps <= later
    ensures Asked(steps, id) ==> Asked(later, id)
  {
    assert forall e :: e in steps ==> e in later;
  }

  /** Destruction is deliberate, in every history: a statement that drops a
      table or a column or truncates a table is run only if a logged patch call
      permitted it, or its patch was withheld - marked failed - and, where no
      other patch shares its id, the log holds a governance call that names it. */
  lemma DestructionIsDeliberate(s: Slice, events: seq<Event>, settings: Settings, a: Approval)
    requires IsIngested(s) && a in After(s, events, settings).sent && Destroys(a.sql)
    ensures var t := After(s, events, settings).run.slice;
            || Permitted(t.steps)
            || exists patch ::
                 && EarliestWith(t.patches, a.patchId, patch) && patch.productionSql == a.sql && Withheld(patch)
                 && ((forall p :: p in t.patches && p.id == a.patchId ==> p == patch) ==> Asked(t.steps, a.patchId))
  {
    hide Feed, Asked, WasDue, IsIngested, Invariant, Step, Permitted, Destroys, EarliestWith, LatestLinked, Sanctioned;
    var t, u := After(s, events, settings).run.slice, RunOn(s, Inputs(events), settings).slice;
    SentIsSanctioned(s, events, settings, a);
    var patch, k := SanctionedPatch(t, a);
    HistoryCarriesRun(s, events, settings);
    DestructiveNeedsPermission(s, Script(Inputs(events)), |Inputs(events)|, settings);
    EarliestIsStored(t.patches, a.patchId, patch);
    PermittedLater(u.steps, t.steps);
    if !Permitted(t.steps) {
      assert Withheld(patch);
      if forall p :: p in t.patches && p.id == a.patchId ==> p == patch {
        RefusedRunsOnlyIfAsked(s, events, settings, a);
      }
    }
  }

  lemma EarliestIsStored(patches: seq<Patch>, id: Id, patch: Patch)
    requires EarliestWith(patches, id, patch)
    ensures patch in patches
  {
  }

  lemma PermittedLater(steps: seq<StepLog>, later: seq<StepLog>)
    requires steps <= later
    ensures Permitted(steps) ==> Permitted(later)
  {
    assert forall e :: e in steps ==> e in later;
  }
}
