/** What every orchestrator run keeps, for every sequence of inputs. */
module LifecycleSafety {
  import opened BqSandbox
  import opened Governance
  import opened Lifecycle
  import opened Models
  import opened Prelude
  import opened Text

  // ---------- Patches and audits only grow ----------

  lemma GetPatchSnoc(patches: seq<Patch>, p: Patch, id: Id)
    ensures GetPatch(patches + [p], id)
            == if GetPatch(patches, id).Some? then GetPatch(patches, id)
               else if p.id == id then Some(p) else None
  {
    FrontOfSnoc(patches, p);
  }

  /** The lookup returns the earliest patch with that id, if there is one. */
  lemma {:induction false} GetPatchFirst(patches: seq<Patch>, id: Id)
    ensures GetPatch(patches, id).None? <==> forall i :: 0 <= i < |patches| ==> patches[i].id != id
    ensures GetPatch(patches, id).Some? ==>
              exists i :: 0 <= i < |patches| && patches[i].id == id && GetPatch(patches, id).value == patches[i]
                          && forall j :: 0 <= j < i ==> patches[j].id != id
  {
    if patches != [] {
      GetPatchFirst(Front(patches), id);
      assert patches == Front(patches) + [Last(patches)];
      if GetPatch(Front(patches), id).Some? {
        var i :| 0 <= i < |Front(patches)| && patches[i].id == id && GetPatch(patches, id).value == patches[i]
                 && forall j :: 0 <= j < i ==> patches[j].id != id;
        assert patches[i].id == id;
      } else if Last(patches).id == id {
        assert patches[|patches| - 1].id == id;
      }
    }
  }

  lemma AuditsForSnoc(audits: seq<Audit>, a: Audit, id: Id)
    ensures AuditsFor(audits + [a], id) == AuditsFor(audits, id) + if a.linkedPatchId == id then [a] else []
  {
    FrontOfSnoc(audits, a);
  }

  lemma {:induction false} AuditsForAreAudits(audits: seq<Audit>, id: Id)
    ensures forall a :: a in AuditsFor(audits, id) <==> a in audits && a.linkedPatchId == id
  {
    if audits != [] {
      AuditsForAreAudits(Front(audits), id);
      assert audits == Front(audits) + [Last(audits)];
    }
  }

  // The earliest patch stored under an id.
  predicate EarliestWith(patches: seq<Patch>, id: Id, p: Patch) {
    exists i | 0 <= i < |patches| ::
      patches[i] == p && p.id == id && forall j | 0 <= j < i :: patches[j].id != id
  }

  lemma EarliestIs(patches: seq<Patch>, id: Id, p: Patch)
    ensures EarliestWith(patches, id, p) <==> GetPatch(patches, id) == Some(p)
  {
    GetPatchFirst(patches, id);
    if i :| 0 <= i < |patches| && patches[i] == p && p.id == id && forall j | 0 <= j < i :: patches[j].id != id {
      var k :| 0 <= k < |patches| && patches[k].id == id && GetPatch(patches, id).value == patches[k]
               && forall j :: 0 <= j < k ==> patches[j].id != id;
      assert i == k;
    }
  }

  lemma StoredOrNot(patches: seq<Patch>, id: Id)
    ensures (exists p :: EarliestWith(patches, id, p)) || forall p :: p in patches ==> p.id != id
  {
    GetPatchFirst(patches, id);
    if GetPatch(patches, id).Some? {
      EarliestIs(patches, id, GetPatch(patches, id).value);
    }
  }

  // The audit at `k` is the last one that links to the patch.
  predicate LatestLinked(audits: seq<Audit>, id: Id, k: nat) {
    && k < |audits| && audits[k].linkedPatchId == id
    && forall j | k < j < |audits| :: audits[j].linkedPatchId != id
  }

  lemma {:induction false} LatestIs(audits: seq<Audit>, id: Id) returns (k: nat)
    ensures AuditsFor(audits, id) == [] ==> forall a :: a in audits ==> a.linkedPatchId != id
    ensures AuditsFor(audits, id) != [] ==> LatestLinked(audits, id, k) && Last(AuditsFor(audits, id)) == audits[k]
  {
    AuditsForAreAudits(audits, id);
    k := 0;
    if audits != [] && Last(audits).linkedPatchId == id {
      k := |audits| - 1;
    } else if audits != [] {
      k := LatestIs(Front(audits), id);
    }
  }

  predicate NoBlock(audits: seq<Audit>) {
    forall a :: a in audits ==> a.verdict != Block
  }

  // The audit's checks are those of this patch's SQL, for the metadata `m`.
  predicate DecidedFrom(a: Audit, patch: Patch, m: TableMetadata) {
    && a.checks == PolicyChecks(patch.productionSql, patch.kind, m)
    && a.verdict == VerdictFromChecks(a.checks)
  }

  ghost predicate Grounded(a: Audit, patches: seq<Patch>) {
    && GetPatch(patches, a.linkedPatchId).Some?
    && exists m :: DecidedFrom(a, GetPatch(patches, a.linkedPatchId).value, m)
  }

  ghost predicate AllGrounded(s: Slice) {
    forall a :: a in s.audits ==> Grounded(a, s.patches)
  }

  lemma AllGroundedSnoc(s: Slice, s': Slice)
    requires AllGrounded(s)
    requires s'.patches == s.patches || exists p :: s'.patches == s.patches + [p]
    requires s'.audits == s.audits || exists a :: s'.audits == s.audits + [a] && Grounded(a, s'.patches)
    ensures AllGrounded(s')
  {
    forall a | a in s'.audits
      ensures Grounded(a, s'.patches)
    {
      if a in s.audits && s'.patches != s.patches {
        var p :| s'.patches == s.patches + [p];
        GetPatchSnoc(s.patches, p, a.linkedPatchId);
      }
    }
  }

  // ---------- One tool call ----------

  // What a tool may have done to the documents, and what its reply says.
  ghost predicate ToolWrites(s: Slice, s': Slice, isBlock: bool) {
    && s'.record == s.record
    && (s'.patches == s.patches || exists p :: s'.patches == s.patches + [p])
    && (|| (s'.audits == s.audits && !isBlock)
        || exists a :: s'.audits == s.audits + [a] && Grounded(a, s'.patches)
                       && (isBlock <==> a.verdict == Block))
  }

  lemma NewAuditDecided(id: Id, patchId: Id, patch: Patch, m: TableMetadata, rationale: string)
    ensures DecidedFrom(NewAudit(id, patchId, patch, m, rationale), patch, m)
  {
  }

  lemma VerifyWrites(s: Slice, patchId: Value, services: Services, settings: Settings)
    ensures var effect := VerifyGovernance(s, patchId, services, settings);
            && ToolWrites(s, effect.slice, effect.end.Returned? && effect.end.reply.IsBlock())
            && effect.slice.steps == s.steps && effect.slice.patches == s.patches
  {
    var effect := VerifyGovernance(s, patchId, services, settings);
    if effect.end.Returned? {
      var patch := GetPatch(s.patches, patchId.text).value;
      var m := MetadataSeen(services, settings);
      NewAuditDecided(services.newId, patchId.text, patch, m, services.rationale);
      hide DecidedFrom;
      var a := NewAudit(services.newId, patchId.text, patch, m, services.rationale);
      assert a.linkedPatchId == patchId.text;
      assert effect.slice.audits == s.audits + [a];
      assert Grounded(a, s.patches);
    }
  }

  lemma GenerateWrites(s: Slice, args: Args, services: Services, settings: Settings)
    requires Binds(GENERATE, args)
    ensures var effect := GeneratePatch(s, args, services, settings);
            && ToolWrites(s, effect.slice, effect.end.Returned? && effect.end.reply.IsBlock())
            && effect.slice.steps == s.steps
  {
    hide Generate, Validate, NewPatch;
  }

  lemma RunToolWrites(s: Slice, name: string, args: Args, outcome: ToolOutcome, settings: Settings)
    requires IsTool(name)
    ensures var effect := RunTool(s, name, args, outcome, settings);
            && ToolWrites(s, effect.slice, effect.end.Returned? && effect.end.reply.IsBlock())
            && effect.slice.steps == s.steps
  {
    hide VerifyGovernance, GeneratePatch, ToolWrites;
    if Binds(name, args) && outcome.Completes? {
      if name == GENERATE {
        GenerateWrites(s, args, outcome.services, settings);
      } else if name == VERIFY {
        VerifyWrites(s, args["patch_id"], outcome.services, settings);
      } else {
        WritesNothing(s, Investigate(s, outcome.services).slice);
      }
    } else {
      WritesNothing(s, s);
    }
  }

  lemma WritesNothing(s: Slice, s': Slice)
    requires s'.record == s.record && s'.patches == s.patches && s'.audits == s.audits
    ensures ToolWrites(s, s', false)
  {
  }

  // The result entry a tool call logs, whatever its outcome.
  predicate IsResultOf(log: StepLog, s: Slice, call: FunctionCall, sequence: nat) {
    && log.kind == ToolResult
    && log.sequence == sequence
    && log.parent == s.record.id
    && log.toolName == Some(ToolName(call))
  }

  /** One tool call, for every tool, argument and outcome: the record is
      untouched, one result is logged, at most one patch or one audit is
      added, and the reply says BLOCK exactly when a BLOCK audit was added. */
  lemma CallToolWrites(s: Slice, call: FunctionCall, sequence: nat, x: ToolOutcome, settings: Settings)
    ensures var (s', reply) := CallTool(s, call, sequence, x, settings);
            && ToolWrites(s, s', reply.IsBlock())
            && (exists log :: s'.steps == s.steps + [log] && IsResultOf(log, s, call, sequence))
  {
    hide RunTool, ToolWrites;
    var (s', reply) := CallTool(s, call, sequence, x, settings);
    if IsTool(ToolName(call)) {
      var effect := RunTool(s, ToolName(call), ToolArgs(s.record.id, call), x, settings);
      RunToolWrites(s, ToolName(call), ToolArgs(s.record.id, call), x, settings);
      assert s' == effect.slice.(steps := s'.steps);
      SameDocuments(s, effect.slice, s', reply.IsBlock());
      assert IsResultOf(Last(s'.steps), s, call, sequence) && s'.steps == s.steps + [Last(s'.steps)];
    } else {
      WritesNothing(s, s');
      assert IsResultOf(Last(s'.steps), s, call, sequence) && s'.steps == s.steps + [Last(s'.steps)];
    }
  }

  lemma SameDocuments(s: Slice, t: Slice, s': Slice, isBlock: bool)
    requires ToolWrites(s, t, isBlock)
    requires s' == t.(steps := s'.steps)
    ensures ToolWrites(s, s', isBlock)
  {
  }

  /** Given an incident's own id, the dispatch changes that incident's
      documents only, as the tool alone would. */
  lemma DispatchOwn(docs: map<Id, Slice>, id: Id, name: string, args: Args, x: ToolOutcome, settings: Settings)
    requires IsTool(name) && id in docs
    requires "incident_id" in args && args["incident_id"] == Text(id)
    ensures var effect := RunTool(docs[id], name, args, x, settings);
            Dispatch(docs, name, args, x, settings) == (docs[id := effect.slice], effect.end)
  {
    hide Investigate, GeneratePatch, VerifyGovernance;
    assert docs[id := docs[id]] == docs;
  }

  // ---------- The invariant of a run ----------

  // The documents of a freshly ingested incident.
  predicate IsIngested(s: Slice) {
    && s.record.status == Status.Ingested
    && s.record.error == None
    && s.record.turnCount == 0
    && s.steps == [] && s.findings == [] && s.patches == [] && s.audits == []
  }

  // Status and error follow the program counter.
  predicate InPhase(r: Run) {
    var status := r.slice.record.status;
    && (r.slice.record.error.Some? <==> status == Failed)
    && match r.pc
       case Fresh => IsIngested(r.slice)
       case AwaitModel(_, _, _, _) => status == Diagnosing
       case AwaitTool(_, _, _, _, _, _) => status == Diagnosing
       case AwaitAudit(_, _, _) => status == Diagnosing
       case Done(Finished, _) => status in {AwaitingApproval, Rejected, Failed}
       case Done(Blocked, _) => status == Rejected
       case Done(_, _) => status == Failed
  }

  // What a human may be asked to approve.
  predicate Approvable(s: Slice) {
    && s.patches != []
    && AuditsFor(s.audits, Last(s.patches).id) != []
    && NoBlock(s.audits)
  }

  ghost predicate Audited(r: Run) {
    && AllGrounded(r.slice)
    && match r.pc
       case AwaitTool(_, _, _, _, blocked, _) => blocked || NoBlock(r.slice.audits)
       case Done(_, _) => r.slice.record.status == AwaitingApproval ==> Approvable(r.slice)
       case _ => NoBlock(r.slice.audits)
  }

  lemma ToolKeepsGrounded(s: Slice, s': Slice, isBlock: bool)
    requires ToolWrites(s, s', isBlock) && AllGrounded(s)
    ensures AllGrounded(s')
    ensures NoBlock(s.audits) && !isBlock ==> NoBlock(s'.audits)
  {
    AllGroundedSnoc(s, s');
  }

  lemma FinishAudited(s: Slice, turn: nat, response: Response, contents: seq<Content>)
    requires AllGrounded(s)
    requires forall a :: a in s.audits && a.verdict == Block ==>
               s.patches != [] && a == Last(s.audits) && a.linkedPatchId == Last(s.patches).id
    ensures Audited(Finish(s, turn, response, contents)) && InPhase(Finish(s, turn, response, contents))
  {
    hide Grounded;
    if s.audits != [] {
      var a := Last(s.audits);
      AuditsForSnoc(Front(s.audits), a, a.linkedPatchId);
    }
  }

  lemma NextCallInvariant(s: Slice, turn: nat, sequence: nat, response: Response, parts: seq<(string, ToolReply)>,
                          blocked: bool, contents: seq<Content>, settings: Settings)
    requires s.record.status == Diagnosing && s.record.error.None?
    requires AllGrounded(s) && (blocked || NoBlock(s.audits))
    ensures var r := NextCall(s, turn, sequence, response, parts, blocked, contents, settings);
            InPhase(r) && Audited(r)
  {
  }

  lemma AutoAuditInvariant(s: Slice, x: ToolOutcome, settings: Settings)
    requires NeedsAudit(s) && AllGrounded(s) && NoBlock(s.audits)
    ensures var s' := AutoAudit(s, x, settings);
            && s'.record == s.record && s'.patches == s.patches && s'.steps == s.steps
            && AllGrounded(s')
            && forall a :: a in s'.audits && a.verdict == Block ==>
                 a == Last(s'.audits) && a.linkedPatchId == Last(s'.patches).id
  {
    if x.Completes? {
      VerifyWrites(s, Text(Last(s.patches).id), x.services, settings);
      AllGroundedSnoc(s, AutoAudit(s, x, settings));
    }
  }

  /** Every step of a run keeps the invariant, for every input. */
  lemma ResumeInvariant(r: Run, x: Input, settings: Settings)
    requires WellFormed(r) && InPhase(r) && Audited(r)
    ensures InPhase(Resume(r, x, settings)) && Audited(Resume(r, x, settings))
  {
    var s := r.slice;
    match r.pc
    case Done(_, _) =>
    case Fresh =>
    case AwaitModel(_, _, _, _) => ResumeModelInvariant(r, x, settings);
    case AwaitTool(_, _, _, _, _, _) => ResumeToolInvariant(r, x, settings);
    case AwaitAudit(turn, response, contents) =>
      if !x.interrupted {
        AutoAuditInvariant(s, x.tool, settings);
        FinishAudited(AutoAudit(s, x.tool, settings), turn, response, contents);
      }
  }

  lemma ResumeModelInvariant(r: Run, x: Input, settings: Settings)
    requires r.pc.AwaitModel? && InPhase(r) && Audited(r)
    ensures WellFormed(r) && InPhase(Resume(r, x, settings)) && Audited(Resume(r, x, settings))
  {
    if !x.interrupted && x.model.Answer? {
      var s := Append(r.slice, ModelEntry(r.slice.record.id, r.pc.sequence, Ok, NoNote));
      var response := x.model.response;
      var contents := r.pc.contents + [ModelContent(response)];
      assert AllGrounded(s);
      if response.calls != [] {
        NextCallInvariant(s, r.pc.turn, r.pc.sequence + 1, response, [], false, contents, settings);
      } else if !NeedsAudit(s) {
        FinishAudited(s, r.pc.turn, response, contents);
      }
    }
  }

  lemma ResumeToolInvariant(r: Run, x: Input, settings: Settings)
    requires r.pc.AwaitTool? && WellFormed(r) && InPhase(r) && Audited(r)
    ensures InPhase(Resume(r, x, settings)) && Audited(Resume(r, x, settings))
  {
    hide CallTool, ToolWrites, NextCall;
    var pc := r.pc;
    var call := pc.response.calls[|pc.parts|];
    if !(x.interrupted && IsTool(ToolName(call))) {
      var (s', reply) := CallTool(r.slice, call, pc.sequence, x.tool, settings);
      CallToolWrites(r.slice, call, pc.sequence, x.tool, settings);
      ToolKeepsGrounded(r.slice, s', reply.IsBlock());
      ToolKeepsRecord(r.slice, s', reply.IsBlock());
      NextCallInvariant(s', pc.turn, pc.sequence + 1, pc.response, pc.parts + [(call.name, reply)],
                        pc.blocked || reply.IsBlock(), pc.contents, settings);
    }
  }

  lemma ToolKeepsRecord(s: Slice, s': Slice, isBlock: bool)
    requires ToolWrites(s, s', isBlock)
    ensures s'.record == s.record
  {
  }

  /** What the orchestrator accepts is what the executor accepts: the status a
      run finishes with is AWAITING_APPROVAL exactly when the executor, asked
      for the latest patch, would find nothing wrong with these documents, and
      REJECTED exactly when it would find a BLOCK. */
  lemma FinishMatchesPreflight(s: Slice)
    ensures var (status, error) := FinishStatus(s);
            var asked := Preflight(s.(record := s.record.(status := AwaitingApproval)), None);
            && (status == AwaitingApproval <==> asked.Success?)
            && (status == Rejected <==> asked == Failure(GovernanceBlock))
            && (status == Failed <==> asked in {Failure(NoPatchAvailable), Failure(NoGovernanceAudit)})
            && (error.Some? <==> status == Failed)
  {
    if s.patches != [] {
      GetPatchFirst(s.patches, Last(s.patches).id);
      assert s.patches[|s.patches| - 1].id == Last(s.patches).id;
    }
  }

  // ---------- Whole runs ----------

  function Start(s: Slice): Run {
    Run(s, Fresh)
  }

  lemma {:induction false} FeedInvariant(s: Slice, script: nat -> Input, n: nat, settings: Settings)
    requires IsIngested(s)
    ensures var r := Feed(Start(s), script, n, settings);
            InPhase(r) && Audited(r)
  {
    hide Resume;
    if n > 0 {
      FeedInvariant(s, script, n - 1, settings);
      ResumeInvariant(Feed(Start(s), script, n - 1, settings), script(n - 1), settings);
    }
  }

  /** Approval safety, at every point of every run: an incident awaiting
      approval has a patch, an audit linked to its latest patch, and no BLOCK
      audit at all; and every audit was computed from the SQL of the patch it
      names. The executor's own checks are therefore an unreachable backstop:
      asked to execute the latest patch, it refuses nothing but the status;
      asked for any other, it never finds it blocked. */
  lemma ApprovalSafety(s: Slice, script: nat -> Input, n: nat, settings: Settings)
    requires IsIngested(s)
    ensures var s' := Feed(Start(s), script, n, settings).slice;
            && AllGrounded(s')
            && (s'.record.status == AwaitingApproval ==> Approvable(s'))
            && (Preflight(s', None).Success? <==> s'.record.status == AwaitingApproval)
            && (forall id :: Preflight(s', Some(id)) != Failure(GovernanceBlock))
  {
    hide Resume, Feed;
    FeedInvariant(s, script, n, settings);
    var s' := Feed(Start(s), script, n, settings).slice;
    if s'.record.status == AwaitingApproval {
      ApprovablePreflight(s', None);
      forall id
        ensures Preflight(s', Some(id)) != Failure(GovernanceBlock)
      {
        ApprovablePreflight(s', Some(id));
      }
    }
  }

  /** What the orchestrator guarantees is enough for the executor: a request
      that names no patch passes every check, one that names a patch passes
      exactly when that patch has an audit, and none is blocked. */
  lemma ApprovablePreflight(s: Slice, requested: Option<Id>)
    requires s.record.status == AwaitingApproval && Approvable(s) && AllGrounded(s)
    ensures Preflight(s, requested).Success? <==> (requested.Some? ==> AuditsFor(s.audits, requested.value) != [])
    ensures Preflight(s, requested) != Failure(GovernanceBlock)
  {
    var id := PatchIdOf(s, requested);
    GetPatchFirst(s.patches, id);
    AuditsForAreAudits(s.audits, id);
    var matching := AuditsFor(s.audits, id);
    assert matching != [] ==> Last(matching) in matching;
    if matching != [] {
      assert Grounded(Last(matching), s.patches);
    }
  }
}
