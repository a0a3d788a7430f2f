/** How a run ends once the model stops calling tools: when the automatic audit
    is due, what every ending records, and that nothing the sandbox refused is
    ever audited without being asked for. */
module RunEndings {
  import opened BqSandbox
  import opened ExecutedSql
  import opened HistoryRuns
  import opened IncidentWorld
  import opened Lifecycle
  import opened LifecycleSafety
  import opened Models
  import opened PolicyRules
  import opened Prelude
  import opened ToolResults

  // ---------- An answer without calls ----------

  predicate Unaudited(s: Slice, id: Id) {
    forall a :: a in s.audits ==> a.linkedPatchId != id
  }

  /** The latest patch passed the sandbox or its dry run, no audit mentions it,
      and the incident's resource is a table. */
  predicate AuditDue(s: Slice) {
    && s.patches != []
    && Last(s.patches).validationStatus in {SandboxPass, DryRunOnly}
    && Unaudited(s, Last(s.patches).id)
    && ParseResourceUri(s.record.resourceUri).Success?
  }

  lemma DueIs(s: Slice)
    ensures AuditDue(s) <==> NeedsAudit(s)
  {
    hide ParseResourceUri, AuditsFor;
    if s.patches != [] {
      SomeLinked(s.audits, Last(s.patches).id);
    }
  }

  lemma SomeLinked(audits: seq<Audit>, id: Id)
    ensures AuditsFor(audits, id) == [] <==> forall a :: a in audits ==> a.linkedPatchId != id
  {
    AuditsForAreAudits(audits, id);
    if AuditsFor(audits, id) != [] {
      assert Last(AuditsFor(audits, id)) in AuditsFor(audits, id);
    }
  }

  // The run is over with this status and error; of the documents only the
  // record changed.
  predicate EndsAs(s: Slice, r: Run, turn: nat, text: string, status: Status, error: Option<string>) {
    && r.pc.Done? && r.pc.exit == Finished
    && r.slice == s.(record := s.record.(status := status, summary := Some(text), turnCount := turn, error := error))
  }

  /** How documents decide the end of a run. */
  ghost predicate Concludes(s: Slice, r: Run, turn: nat, text: string) {
    && (s.patches == [] ==> EndsAs(s, r, turn, text, Failed, Some("orchestrator_finished_without_patch")))
    && (s.patches != [] && Unaudited(s, Last(s.patches).id) ==>
          EndsAs(s, r, turn, text, Failed, Some("orchestrator_finished_without_governance_audit")))
    && (s.patches != [] ==>
          forall k: nat :: LatestLinked(s.audits, Last(s.patches).id, k) ==>
            EndsAs(s, r, turn, text, if s.audits[k].verdict == Block then Rejected else AwaitingApproval, None))
  }

  lemma FinishConcludes(s: Slice, turn: nat, response: Response, contents: seq<Content>)
    ensures Concludes(s, Finish(s, turn, response, contents), turn, response.text)
  {
    hide AuditsFor, LatestLinked;
    if s.patches != [] {
      SomeLinked(s.audits, Last(s.patches).id);
      LatestAre(s.audits, Last(s.patches).id);
    }
  }

  lemma LatestAre(audits: seq<Audit>, id: Id)
    ensures forall k: nat :: LatestLinked(audits, id, k) ==>
              k < |audits| && AuditsFor(audits, id) != [] && Last(AuditsFor(audits, id)) == audits[k]
  {
    SomeLinked(audits, id);
    hide AuditsFor;
    var j := LatestIs(audits, id);
    forall k: nat | LatestLinked(audits, id, k)
      ensures k < |audits| && AuditsFor(audits, id) != [] && Last(AuditsFor(audits, id)) == audits[k]
    {
      assert audits[k] in audits;
    }
  }

  /** What an answer without calls leads to, from every point of a run: the
      automatic audit exactly when it is due, and otherwise the end. In
      particular a latest patch that failed the sandbox and has no audit fails
      the incident. */
  lemma AnswerWithoutCalls(r: Run, x: Input, settings: Settings)
    requires r.pc.AwaitModel? && !x.interrupted && x.model.Answer? && x.model.response.calls == []
    ensures WellFormed(r)
    ensures var r' := Resume(r, x, settings);
            var s := r.slice.(steps := r.slice.steps + [StepLog(r.pc.sequence, r.slice.record.id, ModelTurn, Orchestrator,
                                                                Ok, None, map[], NoNote)]);
            && (r'.pc.AwaitAudit? <==> AuditDue(r.slice))
            && (AuditDue(r.slice) ==> r'.slice == s && r'.pc.turn == r.pc.turn && r'.pc.response == x.model.response)
            && (!AuditDue(r.slice) ==> Concludes(s, r', r.pc.turn, x.model.response.text))
            && (r.slice.patches != [] && Last(r.slice.patches).validationStatus == SandboxFail
                && Unaudited(r.slice, Last(r.slice.patches).id) ==>
                  EndsAs(s, r', r.pc.turn, x.model.response.text, Failed,
                           Some("orchestrator_finished_without_governance_audit")))
  {
    hide AuditDue, NeedsAudit, FinishStatus, Concludes, EndsAs, Unaudited;
    var s := Append(r.slice, ModelEntry(r.slice.record.id, r.pc.sequence, Ok, NoNote));
    DueIs(s);
    SameDue(r.slice, s);
    FinishConcludes(s, r.pc.turn, x.model.response, r.pc.contents + [ModelContent(x.model.response)]);
    if r.slice.patches != [] && Last(r.slice.patches).validationStatus == SandboxFail
       && Unaudited(r.slice, Last(r.slice.patches).id) {
      FailedIsConcluded(s, Resume(r, x, settings), r.pc.turn, x.model.response.text);
    }
  }

  lemma SameDue(s: Slice, t: Slice)
    requires t == s.(steps := t.steps)
    ensures AuditDue(s) <==> AuditDue(t)
    ensures forall id :: Unaudited(s, id) <==> Unaudited(t, id)
    ensures s.patches != [] && Last(s.patches).validationStatus == SandboxFail ==> !AuditDue(s)
  {
    hide ParseResourceUri;
  }

  lemma FailedIsConcluded(s: Slice, r: Run, turn: nat, text: string)
    requires Concludes(s, r, turn, text) && s.patches != [] && Unaudited(s, Last(s.patches).id)
    ensures EndsAs(s, r, turn, text, Failed, Some("orchestrator_finished_without_governance_audit"))
  {
  }

  /** The automatic audit: one that completes audits the latest patch's id and
      decides the end by it; one that fails leaves the incident FAILED for want
      of an audit, and one that is cut short as timed out. */
  lemma AutomaticAudit(r: Run, x: Input, settings: Settings)
    requires WellFormed(r) && r.pc.AwaitAudit?
    ensures r.slice.patches != []
    ensures var (s, r', id) := (r.slice, Resume(r, x, settings), Last(r.slice.patches).id);
            && (x.interrupted ==>
                  && r'.pc.Done? && r'.pc.exit == Threw
                  && r'.slice == s.(record := s.record.(status := Failed, error := Some("incident_timeout_exceeded"))))
            && (!x.interrupted && !x.tool.Completes? ==>
                  EndsAs(s, r', r.pc.turn, r.pc.response.text, Failed,
                           Some("orchestrator_finished_without_governance_audit")))
            && (!x.interrupted && x.tool.Completes? ==>
                  exists s', patch ::
                    && EarliestWith(s.patches, id, patch) && Audits(s, s', id, patch, x.tool.services, settings)
                    && EndsAs(s', r', r.pc.turn, r.pc.response.text,
                                if Last(s'.audits).verdict == Block then Rejected else AwaitingApproval, None))
  {
    hide VerifyGovernance, NeedsAudit, FinishStatus, Concludes, EndsAs, Unaudited, EarliestWith, Audits;
    DueIs(r.slice);
    DueMeans(r.slice);
    var s, id := r.slice, Last(r.slice.patches).id;
    if !x.interrupted && !x.tool.Completes? {
      FinishConcludes(s, r.pc.turn, r.pc.response, r.pc.contents);
      FailedIsConcluded(s, Resume(r, x, settings), r.pc.turn, r.pc.response.text);
    } else if !x.interrupted {
      var s', patch := CompletedAudit(r, x, settings);
    }
  }

  lemma CompletedAudit(r: Run, x: Input, settings: Settings) returns (s': Slice, patch: Patch)
    requires WellFormed(r) && r.pc.AwaitAudit? && r.slice.patches != [] && !x.interrupted && x.tool.Completes?
    ensures var (s, r', id) := (r.slice, Resume(r, x, settings), Last(r.slice.patches).id);
            && EarliestWith(s.patches, id, patch) && Audits(s, s', id, patch, x.tool.services, settings)
            && EndsAs(s', r', r.pc.turn, r.pc.response.text,
                        if Last(s'.audits).verdict == Block then Rejected else AwaitingApproval, None)
  {
    hide VerifyGovernance, NeedsAudit, Finish, Concludes, EndsAs, EarliestWith, IsAuditOf;
    var s, id := r.slice, Last(r.slice.patches).id;
    assert Last(s.patches) in s.patches;
    s' := AutoAudit(s, x.tool, settings);
    VerifyIs(s, Text(id), x.tool.services, settings);
    StoredOrNot(s.patches, id);
    patch :| EarliestWith(s.patches, id, patch);
    FinishConcludes(s', r.pc.turn, r.pc.response, r.pc.contents);
    NewAuditDecides(s, s', id, patch, x.tool.services, settings, Resume(r, x, settings), r.pc.turn, r.pc.response.text);
  }

  lemma DueMeans(s: Slice)
    requires AuditDue(s)
    ensures s.patches != [] && Last(s.patches) in s.patches && Unaudited(s, Last(s.patches).id)
  {
  }

  lemma NewAuditDecides(s: Slice, s': Slice, id: Id, patch: Patch, services: Services, settings: Settings, r: Run,
                        turn: nat, text: string)
    requires Audits(s, s', id, patch, services, settings) && s.patches != [] && id == Last(s.patches).id
    requires Concludes(s', r, turn, text)
    ensures EndsAs(s', r, turn, text, if Last(s'.audits).verdict == Block then Rejected else AwaitingApproval, None)
  {
    hide EndsAs, Judges, Unaudited;
    assert LatestLinked(s'.audits, id, |s'.audits| - 1);
  }

  // ---------- Why a run ended ----------

  // REJECTED means a BLOCK audit, and the other endings say what they are.
  predicate Explained(r: Run, settings: Settings) {
    var record, clean := r.slice.record, NoBlock(r.slice.audits);
    match r.pc
    case AwaitTool(_, _, _, _, blocked, _) => blocked <==> !clean
    case Done(Threw, _) => record.status == Failed
    case Done(OutOfTurns, _) =>
      clean && record.status == Failed && record.error == Some("turn_budget_exhausted")
      && record.turnCount == settings.maxTurns
    case Done(Finished, _) => record.status == Rejected <==> !clean
    case Done(Blocked, _) => record.status == Rejected && !clean
    case _ => clean
  }

  lemma NextCallExplained(s: Slice, turn: nat, sequence: nat, response: Response, parts: seq<(string, ToolReply)>,
                          blocked: bool, contents: seq<Content>, settings: Settings)
    requires blocked <==> !NoBlock(s.audits)
    ensures Explained(NextCall(s, turn, sequence, response, parts, blocked, contents, settings), settings)
  {
  }

  lemma ToolBlocks(s: Slice, s': Slice, isBlock: bool)
    requires ToolWrites(s, s', isBlock)
    ensures NoBlock(s'.audits) <==> NoBlock(s.audits) && !isBlock
  {
    if s'.audits != s.audits {
      var a :| s'.audits == s.audits + [a] && (isBlock <==> a.verdict == Block);
      assert a in s'.audits && forall b :: b in s.audits ==> b in s'.audits;
    } else {
      assert !isBlock || exists a :: s'.audits == s.audits + [a];
    }
  }

  lemma CleanFinish(s: Slice, turn: nat, response: Response, contents: seq<Content>)
    requires NoBlock(s.audits)
    ensures var r := Finish(s, turn, response, contents);
            r.slice.record.status != Rejected && r.slice.audits == s.audits && r.pc == Done(Finished, contents)
  {
    if s.patches != [] {
      AuditsForAreAudits(s.audits, Last(s.patches).id);
    }
  }

  lemma AuditedFinish(s: Slice, s': Slice, id: Id, patch: Patch, services: Services, settings: Settings, r: Run, turn: nat,
                      text: string)
    requires NoBlock(s.audits) && Audits(s, s', id, patch, services, settings)
    requires EndsAs(s', r, turn, text, if Last(s'.audits).verdict == Block then Rejected else AwaitingApproval, None)
    ensures Explained(r, settings)
  {
    assert s'.audits == s.audits + [Last(s'.audits)];
    assert Last(s'.audits) in s'.audits;
  }

  lemma ResumeExplained(r: Run, x: Input, settings: Settings)
    requires WellFormed(r) && Explained(r, settings)
    ensures Explained(Resume(r, x, settings), settings)
  {
    hide CallTool, NextCall, FinishStatus, AutoAudit, NeedsAudit, NoBlock;
    match r.pc
    case AwaitTool(turn, sequence, response, parts, blocked, contents) =>
      var call := response.calls[|parts|];
      CallToolWrites(r.slice, call, sequence, x.tool, settings);
      var (s', reply) := CallTool(r.slice, call, sequence, x.tool, settings);
      ToolBlocks(r.slice, s', reply.IsBlock());
      NextCallExplained(s', turn, sequence + 1, response, parts + [(call.name, reply)], blocked || reply.IsBlock(),
                        contents, settings);
    case AwaitAudit(_, _, _) =>
      AuditExplained(r, x, settings);
    case AwaitModel(_, _, _, _) =>
      ModelExplained(r, x, settings);
    case _ =>
  }

  lemma ModelExplained(r: Run, x: Input, settings: Settings)
    requires r.pc.AwaitModel? && Explained(r, settings)
    ensures WellFormed(r) && Explained(Resume(r, x, settings), settings)
  {
    hide NextCall, Finish, NeedsAudit, NoBlock;
    if !x.interrupted && x.model.Answer? {
      var s := Append(r.slice, ModelEntry(r.slice.record.id, r.pc.sequence, Ok, NoNote));
      var contents := r.pc.contents + [ModelContent(x.model.response)];
      CleanFinish(s, r.pc.turn, x.model.response, contents);
      NextCallExplained(s, r.pc.turn, r.pc.sequence + 1, x.model.response, [], false, contents, settings);
    }
  }

  lemma AuditExplained(r: Run, x: Input, settings: Settings)
    requires WellFormed(r) && r.pc.AwaitAudit? && Explained(r, settings)
    ensures Explained(Resume(r, x, settings), settings)
  {
    hide Finish, AutoAudit, NeedsAudit, NoBlock, EndsAs, Audits;
    DueIs(r.slice);
    DueMeans(r.slice);
    if !x.interrupted && x.tool.Completes? {
      var s', patch := CompletedAudit(r, x, settings);
      AuditedFinish(r.slice, s', Last(r.slice.patches).id, patch, x.tool.services, settings, Resume(r, x, settings),
                    r.pc.turn, r.pc.response.text);
    } else if !x.interrupted {
      NoAudit(r.slice, x.tool, settings);
      CleanFinish(r.slice, r.pc.turn, r.pc.response, r.pc.contents);
    }
  }

  lemma NoAudit(s: Slice, x: ToolOutcome, settings: Settings)
    requires s.patches != [] && !x.Completes?
    ensures AutoAudit(s, x, settings) == s
  {
  }

  /** A run that ends on its own rejects the incident exactly when it made a
      BLOCK audit; one that runs out of turns says so, with the whole budget
      counted; and a suspended run has no BLOCK audit but in a blocked turn. */
  lemma {:induction false} RejectedIff(s: Slice, script: nat -> Input, n: nat, settings: Settings)
    requires IsIngested(s)
    ensures Explained(Feed(Start(s), script, n, settings), settings)
    ensures var r := Feed(Start(s), script, n, settings);
            && (r.pc.Done? && r.pc.exit != Threw ==>
                  (r.slice.record.status == Rejected <==> exists a :: a in r.slice.audits && a.verdict == Block))
            && (r.pc.Done? && r.pc.exit == OutOfTurns ==>
                  r.slice.record.error == Some("turn_budget_exhausted") && r.slice.record.turnCount == settings.maxTurns)
  {
    hide Resume;
    if n > 0 {
      RejectedIff(s, script, n - 1, settings);
      ResumeExplained(Feed(Start(s), script, n - 1, settings), script(n - 1), settings);
    }
  }
}
