/** Destructive SQL leaves a trail: the log of a run shows the permission. */
module DestructiveTrail {
  import opened BqSandbox
  import opened Lifecycle
  import opened LifecycleSafety
  import opened Models
  import opened PatchSql
  import opened Prelude
  import opened SqlWords
  import opened ToolResults

  // A logged call of the patch tool that allows destructive statements.
  predicate IsPermission(e: StepLog) {
    e.kind == ToolCall && e.toolName == Some("generate_and_test_patch") && Permits(e.toolArgs)
  }

  predicate Permitted(steps: seq<StepLog>) {
    exists e :: e in steps && IsPermission(e)
  }

  // Rejected before it reached the sandbox.
  predicate Withheld(p: Patch) {
    p.validationStatus == SandboxFail && p.sandboxSql == ""
  }

  ghost predicate Trailed(s: Slice) {
    forall p :: p in s.patches && Destroys(p.productionSql) ==> Withheld(p) || Permitted(s.steps)
  }

  // While a tool runs, the last entry is its call.
  predicate CallLogged(r: Run)
    requires WellFormed(r)
  {
    r.pc.AwaitTool? ==>
      var call := r.pc.response.calls[|r.pc.parts|];
      && r.slice.steps != []
      && Last(r.slice.steps).kind == ToolCall
      && Last(r.slice.steps).toolName == Some(ToolName(call))
      && Last(r.slice.steps).toolArgs == call.args
  }

  ghost predicate TrailInvariant(r: Run)
    requires WellFormed(r)
  {
    Trailed(r.slice) && CallLogged(r)
  }

  lemma TrailKept(s: Slice, s': Slice)
    requires Trailed(s) && s'.patches == s.patches && s.steps <= s'.steps
    ensures Trailed(s')
  {
    assert forall e :: e in s.steps ==> e in s'.steps;
  }

  /** One call of the patch tool, for every argument and outcome: it adds at
      most one patch, and one that destroys is withheld unless this very call
      allowed it. */
  lemma PatchCallWithholds(s: Slice, call: FunctionCall, sequence: nat, x: ToolOutcome, settings: Settings)
    requires call.name == "generate_and_test_patch"
    ensures var s' := CallTool(s, call, sequence, x, settings).0;
            || s'.patches == s.patches
            || (s'.patches != [] && Front(s'.patches) == s.patches
                && (Destroys(Last(s'.patches).productionSql) ==> Withheld(Last(s'.patches)) || Permits(call.args)))
  {
    hide CallTool, Takes, Proposes, Patches;
    RebuffedCalls(s, call, sequence, x, settings);
    var r := CallTool(s, call, sequence, x, settings);
    if Takes(call) && x.Completes? {
      PatchCall(s, call, sequence, x.services, settings);
      forall table, g | Patches(s, r.0.(steps := s.steps), call.args, table, g, x.services, settings)
        ensures r.0.patches != [] && Front(r.0.patches) == s.patches
                && (Destroys(Last(r.0.patches).productionSql) ==> Withheld(Last(r.0.patches)) || Permits(call.args))
      {
        NewPatchWithheld(s, r.0.(steps := s.steps), call.args, table, g, x.services, settings);
      }
    }
  }

  lemma NewPatchWithheld(s: Slice, s': Slice, args: Args, table: TableRef, g: GeneratedSql, services: Services,
                         settings: Settings)
    requires Patches(s, s', args, table, g, services, settings)
    ensures s'.patches != [] && Front(s'.patches) == s.patches
    ensures Destroys(Last(s'.patches).productionSql) ==> Withheld(Last(s'.patches)) || Permits(args)
  {
    hide Destroys, Permits;
    FrontOfSnoc(s.patches, Last(s'.patches));
  }

  lemma CallTrailed(s: Slice, call: FunctionCall, sequence: nat, x: ToolOutcome, settings: Settings)
    requires Trailed(s)
    requires call.name == "generate_and_test_patch" && Permits(call.args) ==> Permitted(s.steps)
    ensures Trailed(CallTool(s, call, sequence, x, settings).0)
  {
    hide CallTool, Trailed, Withheld, Destroys, Permits, Permitted;
    var s' := CallTool(s, call, sequence, x, settings).0;
    CallLogs(s, call, sequence, x, settings);
    if call.name == "generate_and_test_patch" {
      PatchCallWithholds(s, call, sequence, x, settings);
      PatchAdded(s, s');
    } else {
      OtherCallsKeepPatches(s, call, sequence, x, settings);
      TrailKept(s, s');
    }
  }

  lemma CallLogs(s: Slice, call: FunctionCall, sequence: nat, x: ToolOutcome, settings: Settings)
    ensures s.steps <= CallTool(s, call, sequence, x, settings).0.steps
  {
    hide CallTool, ToolWrites;
    CallToolWrites(s, call, sequence, x, settings);
  }

  lemma OtherCallsKeepPatches(s: Slice, call: FunctionCall, sequence: nat, x: ToolOutcome, settings: Settings)
    requires call.name != "generate_and_test_patch"
    ensures CallTool(s, call, sequence, x, settings).0.patches == s.patches
  {
    hide CallTool, IsAuditOf, EarliestWith;
    RebuffedCalls(s, call, sequence, x, settings);
    if Takes(call) && x.Completes? {
      if call.name == "investigate_incident_logs" {
        TriageCall(s, call, sequence, x.services, settings);
      } else {
        GovernanceCall(s, call, sequence, x.services, settings);
        var given := call.args["patch_id"];
        if given.Text? {
          StoredOrNot(s.patches, given.text);
        }
      }
    }
  }

  lemma PatchAdded(s: Slice, s': Slice)
    requires Trailed(s) && s.steps <= s'.steps
    requires s'.patches == s.patches
             || (s'.patches != [] && Front(s'.patches) == s.patches
                 && (Destroys(Last(s'.patches).productionSql) ==> Withheld(Last(s'.patches)) || Permitted(s.steps)))
    ensures Trailed(s')
  {
    hide Destroys;
    assert forall e :: e in s.steps ==> e in s'.steps;
    forall p | p in s'.patches && Destroys(p.productionSql)
      ensures Withheld(p) || Permitted(s'.steps)
    {
      assert p in s.patches || p == Last(s'.patches);
    }
  }

  lemma NextCallTrailed(s: Slice, turn: nat, sequence: nat, response: Response, parts: seq<(string, ToolReply)>,
                        blocked: bool, contents: seq<Content>, settings: Settings)
    requires Trailed(s)
    ensures var r := NextCall(s, turn, sequence, response, parts, blocked, contents, settings);
            WellFormed(r) && TrailInvariant(r)
  {
    hide Trailed;
    TrailKept(s, NextCall(s, turn, sequence, response, parts, blocked, contents, settings).slice);
  }

  lemma ResumeTrailed(r: Run, x: Input, settings: Settings)
    requires WellFormed(r) && TrailInvariant(r)
    ensures TrailInvariant(Resume(r, x, settings))
  {
    hide Trailed, CallTool, NextCall, FinishStatus, AutoAudit, Permits;
    var s, pc := r.slice, r.pc;
    match pc
    case AwaitTool(turn, sequence, response, parts, blocked, contents) =>
      var call := response.calls[|parts|];
      assert Last(s.steps) in s.steps;
      assert call.name == "generate_and_test_patch" && Permits(call.args) ==> IsPermission(Last(s.steps));
      CallTrailed(s, call, sequence, x.tool, settings);
      var (s', reply) := CallTool(s, call, sequence, x.tool, settings);
      NextCallTrailed(s', turn, sequence + 1, response, parts + [(call.name, reply)], blocked || reply.IsBlock(),
                      contents, settings);
      if x.interrupted && IsTool(ToolName(call)) {
        TrailKept(s, Resume(r, x, settings).slice);
      }
    case AwaitModel(turn, sequence, _, contents) =>
      if !x.interrupted && x.model.Answer? && x.model.response.calls != [] {
        var s' := Append(s, ModelEntry(s.record.id, sequence, Ok, NoNote));
        TrailKept(s, s');
        NextCallTrailed(s', turn, sequence + 1, x.model.response, [], false,
                        contents + [ModelContent(x.model.response)], settings);
      } else {
        TrailKept(s, Resume(r, x, settings).slice);
      }
    case AwaitAudit(_, _, _) =>
      AuditKeepsPatches(s, x.tool, settings);
      TrailKept(s, Resume(r, x, settings).slice);
    case _ =>
      TrailKept(s, Resume(r, x, settings).slice);
  }

  lemma AuditKeepsPatches(s: Slice, x: ToolOutcome, settings: Settings)
    requires s.patches != []
    ensures AutoAudit(s, x, settings).patches == s.patches && AutoAudit(s, x, settings).steps == s.steps
  {
    if x.Completes? {
      VerifyWrites(s, Text(Last(s.patches).id), x.services, settings);
    }
  }

  /** At every point of every run, and whatever generated it, a stored patch
      whose statement drops a table, drops a column or truncates a table was
      either withheld - marked failed and never rewritten for the sandbox - or
      the log holds a call of the patch tool that allowed it to destroy. */
  lemma {:induction false} DestructiveNeedsPermission(s: Slice, script: nat -> Input, n: nat, settings: Settings)
    requires IsIngested(s)
    ensures var r := Feed(Start(s), script, n, settings);
            && TrailInvariant(r)
            && forall p :: p in r.slice.patches && Destroys(p.productionSql) ==> Withheld(p) || Permitted(r.slice.steps)
  {
    hide Resume, Permitted, Withheld, Destroys;
    if n > 0 {
      DestructiveNeedsPermission(s, script, n - 1, settings);
      ResumeTrailed(Feed(Start(s), script, n - 1, settings), script(n - 1), settings);
    }
  }

  /** The resource the model names is ignored: the patch tool works on the
      incident's own. */
  lemma SuppliedTargetIsIgnored(s: Slice, call: FunctionCall, other: Value, sequence: nat, x: ToolOutcome, settings: Settings)
    requires ToolName(call) == GENERATE && "target_resource_uri" in call.args
    ensures CallTool(s, call, sequence, x, settings)
            == CallTool(s, call.(args := call.args["target_resource_uri" := other]), sequence, x, settings)
  {
    hide Generate, Validate, NewPatch;
    var forged := call.(args := call.args["target_resource_uri" := other]);
    var a, b := ToolArgs(s.record.id, call), ToolArgs(s.record.id, forged);
    assert a.Keys == b.Keys;
  }
}
