/** Histories that happen: an incident that reaches approval, and what can
    happen to it from there. */
module Reachability {
  import opened BqSandbox
  import opened DecisionNumbers
  import opened DemoLiveness
  import opened GeneratedDdl
  import opened Governance
  import opened IncidentWorld
  import opened Lifecycle
  import opened LifecycleSafety
  import opened Models
  import opened PatchSql
  import opened Prelude
  import opened StepLogGrammar
  import opened Text

  // An offline demo incident whose model makes one patch call and answers.
  ghost predicate Approves(s: Slice, script: nat -> Input, settings: Settings) {
    && settings.mode == Local && settings.maxTurns >= 2
    && IsIngested(s) && IsPlainDemo(s.record, settings) && IsShortScript(s.record.id, script)
  }

  /** Approval is reached: after the five resumptions of such a run the
      incident awaits its first decision. */
  lemma AwaitingIsReached(s: Slice, script: nat -> Input, settings: Settings)
    requires Approves(s, script, settings)
    ensures var c := After(s, RunEvents(script, 5), settings);
            && c.run.slice.record.status == AwaitingApproval
            && c.sent == [] && c.inflight == [] && !c.contended
            && Preflight(c.run.slice, None).Success?
  {
    hide IsPlainDemo, IsShortScript, Invariant, Feed;
    RunIsHistory(s, script, 5, settings);
    ShortScriptApproves(s, script, settings);
  }

  lemma AfterThen(s: Slice, events: seq<Event>, more: seq<Event>, e: Event, settings: Settings)
    requires IsIngested(s)
    ensures After(s, events + (more + [e]), settings) == Step(After(s, events + more, settings), e, settings)
  {
    hide Invariant, Step;
    AfterSnoc(s, events + more, e, settings);
    assert events + more + [e] == events + (more + [e]);
  }

  lemma CellAfter(s: Slice, events: seq<Event>, settings: Settings)
    requires IsIngested(s)
    ensures Invariant(After(s, events, settings), settings)
  {
    var c := After(s, events, settings);
    assert Invariant(c, settings);
  }

  /** Two approvals that overlap run the statement twice, in a history. */
  lemma OverlapHappens(s: Slice, script: nat -> Input, settings: Settings)
    requires Approves(s, script, settings)
    ensures var more := [ApprovalAsked(None), ApprovalAsked(None), BackendAnswered(0, RanOk), BackendAnswered(0, RanOk)];
            var c := After(s, RunEvents(script, 5) + more, settings);
            c.inflight == [] && c.overlapped && Count(c.run.slice.steps, Executions) == 2
  {
    hide Invariant, Step, Count, Approves;
    var run := RunEvents(script, 5);
    ApprovesMeans(s, script, settings);
    AwaitingIsReached(s, script, settings);
    CellAfter(s, run, settings);
    OverlapExecutesTwice(After(s, run, settings), settings);
    var (ask, done) := (ApprovalAsked(None), BackendAnswered(0, RanOk));
    Three(s, run, ask, ask, done, settings);
    AfterThen(s, run, [ask, ask, done], done, settings);
    assert [ask, ask, done] + [done] == [ask, ask, done, done];
    AtMostOnceIff(s, run + [ask, ask, done, done], settings);
  }

  lemma ApprovesMeans(s: Slice, script: nat -> Input, settings: Settings)
    requires Approves(s, script, settings)
    ensures IsIngested(s)
  {
  }

  lemma Three(s: Slice, events: seq<Event>, a: Event, b: Event, c: Event, settings: Settings)
    requires IsIngested(s)
    ensures After(s, events + [a], settings) == Step(After(s, events, settings), a, settings)
    ensures After(s, events + [a, b], settings) == Step(After(s, events + [a], settings), b, settings)
    ensures After(s, events + [a, b, c], settings) == Step(After(s, events + [a, b], settings), c, settings)
  {
    hide Invariant, Step, After;
    assert events + [] == events;
    AfterThen(s, events, [], a, settings);
    AfterThen(s, events, [a], b, settings);
    AfterThen(s, events, [a, b], c, settings);
    assert [] + [a] == [a] && [a] + [b] == [a, b] && [a, b] + [c] == [a, b, c];
  }

  /** A rejection overtaken by a running approval, in a history: the incident
      is REJECTED and then RESOLVED, and the decision and the execution are
      logged under one number. */
  lemma RejectionIsOvertaken(s: Slice, script: nat -> Input, reason: string, settings: Settings)
    requires Approves(s, script, settings)
    ensures var run := RunEvents(script, 5);
            var n := |After(s, run, settings).run.slice.steps|;
            var two := After(s, run + [ApprovalAsked(None), RejectAsked(reason)], settings);
            var three := After(s, run + [ApprovalAsked(None), RejectAsked(reason), BackendAnswered(0, RanOk)], settings);
            var log := three.run.slice.steps;
            && two.run.slice.record.status == Rejected
            && three.run.slice.record.status == Resolved && three.inflight == []
            && |log| == n + 3 && log[n + 1].kind == UserDecision && log[n + 2].kind == Execution
            && log[n + 1].sequence == log[n + 2].sequence
  {
    hide Invariant, Step, Approves;
    var run := RunEvents(script, 5);
    ApprovesMeans(s, script, settings);
    AwaitingIsReached(s, script, settings);
    CellAfter(s, run, settings);
    RejectionCanBeOvertaken(After(s, run, settings), reason, settings);
    RejectionShares(After(s, run, settings), reason, settings);
    Three(s, run, ApprovalAsked(None), RejectAsked(reason), BackendAnswered(0, RanOk), settings);
  }

  // ---------- A request that names an older patch ----------

  predicate IsPatchCall(id: Id, call: FunctionCall) {
    ToolName(call) == GENERATE && Binds(GENERATE, ToolArgs(id, call)) && call.args["finding_id"].Text?
  }

  // Start; two patch calls in one turn; the tool twice; an answer; the audit.
  predicate IsTwoPatchScript(id: Id, script: nat -> Input) {
    && (forall i | 0 <= i < 6 :: !script(i).interrupted)
    && script(1).model.Answer? && script(4).model.Answer?
    && script(2).tool.Completes? && script(3).tool.Completes? && script(5).tool.Completes?
    && script(2).tool.services.newId != script(3).tool.services.newId
    && script(4).model.response.calls == []
    && |script(1).model.response.calls| == 2
    && IsPatchCall(id, script(1).model.response.calls[0])
    && IsPatchCall(id, script(1).model.response.calls[1])
  }

  // One patch call of a demo run, seen from the call on.
  lemma PatchCallEffect(s: Slice, call: FunctionCall, sequence: nat, x: ToolOutcome, settings: Settings)
    requires IsPlainDemo(s.record, settings) && IsPatchCall(s.record.id, call) && x.Completes?
    ensures var (s', reply) := CallTool(s, call, sequence, x, settings);
            && s'.record == s.record && s'.audits == s.audits
            && s'.patches != [] && Front(s'.patches) == s.patches && Last(s'.patches).id == x.services.newId
            && !reply.IsBlock()
  {
    var args := ToolArgs(s.record.id, call);
    DemoPatch(s, args, x.services, settings);
    NewPatchId(s, args, x.services, settings);
    hide GeneratePatch, IsDemoPatch, IsPlainDemo;
    var patches := GeneratePatch(s, args, x.services, settings).slice.patches;
    FrontOfSnoc(s.patches, Last(patches));
  }

  lemma NewPatchId(s: Slice, args: Args, services: Services, settings: Settings)
    requires Binds(GENERATE, args)
    ensures var s' := GeneratePatch(s, args, services, settings).slice;
            s'.patches == s.patches || (s'.patches != [] && Last(s'.patches).id == services.newId)
  {
    hide Generate, Validate, ContainsDestructiveStatement;
  }

  // The run in front of its answer: two patches, no audit.
  lemma TwoPatchPoints(s: Slice, script: nat -> Input, settings: Settings)
    requires settings.maxTurns >= 2 && IsIngested(s) && IsPlainDemo(s.record, settings)
    requires IsTwoPatchScript(s.record.id, script)
    ensures var r4 := Feed(Start(s), script, 4, settings);
            && r4.pc.AwaitModel? && r4.slice.audits == []
            && |r4.slice.patches| == 2
            && r4.slice.patches[0].id == script(2).tool.services.newId
            && r4.slice.patches[1].id == script(3).tool.services.newId
  {
    hide CallTool, IsPlainDemo, IsPatchCall;
    var response := script(1).model.response;
    var r0 := Start(s);
    assert Feed(Start(s), script, 0, settings) == r0;
    var r1 := Feed(Start(s), script, 1, settings);
    assert r1 == Resume(r0, script(0), settings);
    var r2 := Feed(Start(s), script, 2, settings);
    assert r2 == Resume(r1, script(1), settings);
    DemoKept(s, r2.slice, settings);
    PatchCallEffect(r2.slice, response.calls[0], r2.pc.sequence, script(2).tool, settings);
    var r3 := Feed(Start(s), script, 3, settings);
    assert r3 == Resume(r2, script(2), settings);
    DemoKept(s, r3.slice, settings);
    PatchCallEffect(r3.slice, response.calls[1], r3.pc.sequence, script(3).tool, settings);
    assert Feed(Start(s), script, 4, settings) == Resume(r3, script(3), settings);
  }

  lemma DemoKept(s: Slice, t: Slice, settings: Settings)
    requires IsPlainDemo(s.record, settings)
    requires t.record.resourceUri == s.record.resourceUri && t.record.rawEvent == s.record.rawEvent
    ensures IsPlainDemo(t.record, settings)
  {
  }

  // What an answer without calls and a completed audit add.
  lemma FinishingAudits(r: Run, x: Input, y: Input, settings: Settings)
    requires r.pc.AwaitModel? && r.slice.patches != []
    requires !x.interrupted && x.model.Answer? && x.model.response.calls == [] && !y.interrupted
    ensures WellFormed(r)
    ensures var t := Resume(Resume(r, x, settings), y, settings).slice;
            && t.patches == r.slice.patches
            && (t.audits == r.slice.audits
                || (t.audits != [] && Front(t.audits) == r.slice.audits
                    && Last(t.audits).linkedPatchId == Last(t.patches).id))
  {
    hide FinishStatus, NeedsAudit;
  }

  /** The backstop is reached only by name: a demo run that makes two patches
      awaits approval with the first one unaudited, and a request for that one
      is refused for want of an audit. */
  lemma OlderPatchIsRefused(s: Slice, script: nat -> Input, settings: Settings)
    requires settings.mode == Local && settings.maxTurns >= 2
    requires IsIngested(s) && IsPlainDemo(s.record, settings) && IsTwoPatchScript(s.record.id, script)
    ensures var t := After(s, RunEvents(script, 6), settings).run.slice;
            var first := script(2).tool.services.newId;
            && t.record.status == AwaitingApproval && Preflight(t, None).Success?
            && GetPatch(t.patches, first).Some?
            && Preflight(t, Some(first)) == Failure(NoGovernanceAudit)
  {
    hide Invariant, Resume, IsPlainDemo, IsPatchCall, Feed;
    var first := script(2).tool.services.newId;
    TwoPatchesEnd(s, script, settings);
    RunIsHistory(s, script, 6, settings);
    AwaitingIsApprovable(s, RunEvents(script, 6), settings, None);
    FirstUnaudited(Feed(Start(s), script, 6, settings).slice, first);
  }

  lemma TwoPatchesEnd(s: Slice, script: nat -> Input, settings: Settings)
    requires settings.mode == Local && settings.maxTurns >= 2
    requires IsIngested(s) && IsPlainDemo(s.record, settings) && IsTwoPatchScript(s.record.id, script)
    ensures var t := Feed(Start(s), script, 6, settings).slice;
            var first := script(2).tool.services.newId;
            && t.record.status == AwaitingApproval
            && |t.patches| == 2 && t.patches[0].id == first && t.patches[1].id != first
            && |t.audits| <= 1 && forall a :: a in t.audits ==> a.linkedPatchId != first
  {
    hide Resume, IsPlainDemo, IsPatchCall;
    TwoPatchPoints(s, script, settings);
    var r4 := Feed(Start(s), script, 4, settings);
    var r5 := Feed(Start(s), script, 5, settings);
    assert r5 == Resume(r4, script(4), settings);
    assert Feed(Start(s), script, 6, settings) == Resume(r5, script(5), settings);
    hide Feed;
    PatchedReachesApproval(s, script, 4, settings);
    FinishingAudits(r4, script(4), script(5), settings);
  }

  lemma FirstUnaudited(t: Slice, first: Id)
    requires |t.patches| == 2 && t.patches[0].id == first && t.patches[1].id != first
    requires |t.audits| <= 1 && forall a :: a in t.audits ==> a.linkedPatchId != first
    ensures GetPatch(t.patches, first).Some? && AuditsFor(t.audits, first) == []
  {
    GetPatchFirst(t.patches, first);
    var matching := AuditsFor(t.audits, first);
    assert matching != [] ==> matching[0] in matching;
    AuditsForAreAudits(t.audits, first);
  }

  // ---------- An incident and its scripts ----------

  const ORDERS := TableRef("shop", "sales", "orders")

  const EXAMPLE: Slice :=
    Slice(Incident("01INCIDENT", PrintUri(ORDERS), RawEvent("schema_drift", "", ""), Ingested, None, 0, None),
          [], [], [], [])

  const OFFLINE := Settings(Local, false, None, "warden_sandbox_", 8, 3)

  const PATCH_CALL := FunctionCall(GENERATE, map[
                                     "finding_id" := Text("01FINDING"),
                                     "target_resource_uri" := Text("bq://other.sales.orders"),
                                     "drift_summary" := Text("a column was dropped")])

  function ToolDone(id: Id): ToolOutcome {
    Completes(Services(id, None, GeneratedSql(DDL, ""), Validation("", [], [], SandboxPass, []), BENIGN, ""))
  }

  function Saying(calls: seq<FunctionCall>, id: Id): Input {
    Input(false, Answer(Response("", calls)), ToolDone(id))
  }

  function OnePatch(i: nat): Input {
    Saying(if i == 1 then [PATCH_CALL] else [], "01PATCH")
  }

  function TwoPatches(i: nat): Input {
    Saying(if i == 1 then [PATCH_CALL, PATCH_CALL] else [], if i == 2 then "01PATCHA" else "01PATCHB")
  }

  lemma ExampleUri()
    ensures IsPlainDemo(EXAMPLE.record, OFFLINE)
  {
    hide ParseResourceUri, PrintUri;
    OrdersIsPlain();
    ParsePrint(PrintUri(ORDERS), ORDERS);
    assert AllWord("email");
  }

  lemma OrdersIsPlain()
    ensures PlainRef(ORDERS)
  {
  }

  lemma PatchCallBinds()
    ensures IsPatchCall(EXAMPLE.record.id, PATCH_CALL)
  {
    var args := ToolArgs(EXAMPLE.record.id, PATCH_CALL);
    assert args.Keys == {"incident_id", "finding_id", "target_resource_uri", "drift_summary"};
  }

  /** There are such incidents and scripts: none of the histories above is
      hypothetical. */
  lemma ExampleHistories()
    ensures Approves(EXAMPLE, OnePatch, OFFLINE)
    ensures IsTwoPatchScript(EXAMPLE.record.id, TwoPatches)
    ensures After(EXAMPLE, RunEvents(OnePatch, 5), OFFLINE).run.slice.record.status == AwaitingApproval
    ensures Preflight(After(EXAMPLE, RunEvents(TwoPatches, 6), OFFLINE).run.slice, Some("01PATCHA"))
            == Failure(NoGovernanceAudit)
  {
    hide Invariant, Feed, IsPlainDemo, Binds;
    ExampleUri();
    PatchCallBinds();
    assert |[PATCH_CALL, PATCH_CALL]| == 2;
    assert "01PATCHA" != "01PATCHB" by { assert "01PATCHA"[7] != "01PATCHB"[7]; }
    AwaitingIsReached(EXAMPLE, OnePatch, OFFLINE);
    OlderPatchIsRefused(EXAMPLE, TwoPatches, OFFLINE);
  }
}
