/** What a human's request is about: which patch and which audit it selects,
    when it is refused and why, and what it leaves in the log. */
module ApprovedPatch {
  import opened IncidentWorld
  import opened Lifecycle
  import opened LifecycleSafety
  import opened Models
  import opened Prelude

  // The id asked for, or that of the latest patch.
  predicate Asks(s: Slice, requested: Option<Id>, id: Id) {
    match requested
    case Some(named) => id == named
    case None => s.patches != [] && id == Last(s.patches).id
  }

  // The earliest patch under that id, and the last audit that links to it.
  predicate Selects(s: Slice, requested: Option<Id>, id: Id, patch: Patch, k: nat) {
    Asks(s, requested, id) && EarliestWith(s.patches, id, patch) && LatestLinked(s.audits, id, k)
  }

  ghost predicate Accepts(s: Slice, requested: Option<Id>) {
    && s.record.status == AwaitingApproval
    && exists id, patch, k: nat :: Selects(s, requested, id, patch, k) && s.audits[k].verdict != Block
  }

  lemma Selection(s: Slice, requested: Option<Id>, id: Id, patch: Patch, k: nat)
    requires Selects(s, requested, id, patch, k)
    ensures GetPatch(s.patches, id) == Some(patch)
    ensures AuditsFor(s.audits, id) != [] && Last(AuditsFor(s.audits, id)) == s.audits[k]
  {
    EarliestIs(s.patches, id, patch);
    AuditsForAreAudits(s.audits, id);
    assert s.audits[k] in AuditsFor(s.audits, id);
    var j := LatestIs(s.audits, id);
    assert j == k;
  }

  /** An accepted request gets the patch and the audit it selects. */
  lemma PreflightSelects(s: Slice, requested: Option<Id>)
    ensures Preflight(s, requested).Success? <==> Accepts(s, requested)
    ensures Preflight(s, requested).Success? ==>
              var (patch, audit) := Preflight(s, requested).value;
              exists id, k: nat ::
                && Selects(s, requested, id, patch, k) && audit == s.audits[k]
                && id == PatchIdOf(s, requested)
  {
    hide GetPatch, AuditsFor, EarliestWith;
    if Preflight(s, requested).Success? {
      var (patch, audit) := Preflight(s, requested).value;
      var id := PatchIdOf(s, requested);
      EarliestIs(s.patches, id, patch);
      var k := LatestIs(s.audits, id);
      assert Selects(s, requested, id, patch, k);
    }
    if Accepts(s, requested) {
      var id, patch, k: nat :| Selects(s, requested, id, patch, k) && s.audits[k].verdict != Block;
      Selection(s, requested, id, patch, k);
    }
  }

  /** Why a request is refused, in the order the reasons are checked. */
  lemma RefusalReasons(s: Slice, requested: Option<Id>)
    ensures var r := Preflight(s, requested);
            && (r == Failure(NotAwaitingApproval) <==> s.record.status != AwaitingApproval)
            && (s.record.status == AwaitingApproval ==>
                  && (r == Failure(NoPatchAvailable) <==> requested.None? && s.patches == [])
                  && (r == Failure(PatchNotFound)
                      <==> requested.Some? && forall p :: p in s.patches ==> p.id != requested.value)
                  && (r == Failure(NoGovernanceAudit)
                      <==> exists id, p :: Asks(s, requested, id) && p in s.patches && p.id == id
                                           && forall a :: a in s.audits ==> a.linkedPatchId != id)
                  && (r == Failure(GovernanceBlock)
                      <==> exists id, patch, k: nat :: Selects(s, requested, id, patch, k)
                                                       && s.audits[k].verdict == Block))
  {
    if s.record.status == AwaitingApproval && (requested.Some? || s.patches != []) {
      var id := PatchIdOf(s, requested);
      GetPatchFirst(s.patches, id);
      LatestExists(s);
      hide GetPatch, AuditsFor, EarliestWith, LatestLinked;
      AuditsForAreAudits(s.audits, id);
      var k := LatestIs(s.audits, id);
      if GetPatch(s.patches, id).Some? {
        var patch := GetPatch(s.patches, id).value;
        EarliestIs(s.patches, id, patch);
        assert patch in s.patches && patch.id == id && Asks(s, requested, id);
        if AuditsFor(s.audits, id) != [] {
          assert Selects(s, requested, id, patch, k);
        }
      }
      forall other, patch, j: nat | Selects(s, requested, other, patch, j)
        ensures other == id && GetPatch(s.patches, id) == Some(patch)
                && AuditsFor(s.audits, id) != [] && Last(AuditsFor(s.audits, id)) == s.audits[j]
      {
        Selection(s, requested, other, patch, j);
      }
    }
  }

  lemma LatestExists(s: Slice)
    ensures s.patches != [] ==> Last(s.patches) in s.patches
  {
  }

  // ---------- What a decision leaves ----------

  function ApprovalEntry(s: Slice, id: Id, audit: Audit): StepLog {
    StepLog(|s.steps| + 1, s.record.id, UserDecision, Human, Ok, None, map[], Approved(id, audit.id, audit.verdict))
  }

  // The documents after the backend's answer to an approval of `id`.
  predicate Ended(s: Slice, s': Slice, sequence: nat, id: Id, outcome: BackendOutcome) {
    match outcome
    case RanOk =>
      s' == s.(record := s.record.(status := Resolved),
               steps := s.steps + [StepLog(sequence, s.record.id, Execution, Executor, Ok, None, map[], Ran(id))])
    case RaisedError(message) =>
      s' == s.(record := s.record.(status := Failed, error := Some("execution_failed: " + message)),
               steps := s.steps + [StepLog(sequence, s.record.id, Execution, Executor, Errored, None, map[],
                                           RunFailed(id, message))])
  }

  /** The patch that was asked for is the patch that is run and logged. An
      accepted request sends the production SQL of the patch it selects, and
      logs that patch and the audit that let it pass; a refused one changes
      nothing. From every state. */
  lemma RequestedIsSent(c: Cell, requested: Option<Id>)
    ensures var s, c' := c.run.slice, ApproveStep(c, requested);
            && (!Accepts(s, requested) ==> c' == c)
            && (Accepts(s, requested) ==>
                  exists id, patch, k: nat ::
                    && Selects(s, requested, id, patch, k) && s.audits[k].verdict != Block
                    && c'.sent == c.sent + [Approval(id, patch.productionSql, |s.steps| + 2, s.audits[k])]
                    && c'.inflight == c.inflight + [Approval(id, patch.productionSql, |s.steps| + 2, s.audits[k])]
                    && c'.run == c.run.(slice := s.(steps := s.steps + [ApprovalEntry(s, id, s.audits[k])])))
  {
    hide Preflight, Selects, ApprovalEntry, Accepts;
    var s := c.run.slice;
    PreflightSelects(s, requested);
    if Preflight(s, requested).Success? {
      var (patch, audit) := Preflight(s, requested).value;
      BlockIsRefused(s, requested, patch, audit);
      ApproveIs(s, PatchIdOf(s, requested), audit);
    }
  }

  /** The backend's answer is logged for the patch that was sent, under the
      number it was given, and decides the status. */
  lemma AnswerIsLogged(c: Cell, index: nat, outcome: BackendOutcome)
    requires index < |c.inflight|
    ensures Ended(c.run.slice, CompleteStep(c, index, outcome).run.slice, c.inflight[index].sequence,
                  c.inflight[index].patchId, outcome)
  {
  }

  // One undisturbed execution of what was asked for.
  ghost predicate Executes(s: Slice, s': Slice, requested: Option<Id>, sql: string, outcome: BackendOutcome) {
    exists id, patch, k: nat ::
      && Selects(s, requested, id, patch, k) && s.audits[k].verdict != Block && sql == patch.productionSql
      && Ended(s.(steps := s.steps + [ApprovalEntry(s, id, s.audits[k])]), s', |s.steps| + 2, id, outcome)
  }

  /** Both steps at once, as the handler makes them. */
  lemma HandlerExecutes(s: Slice, requested: Option<Id>, outcome: BackendOutcome)
    requires Preflight(s, requested).Success?
    ensures var (patch, audit) := Preflight(s, requested).value;
            var id := PatchIdOf(s, requested);
            Executes(s, Complete(Approve(s, id, audit), |s.steps| + 2, id, outcome), requested, patch.productionSql, outcome)
  {
    PreflightSelects(s, requested);
    var (patch, audit) := Preflight(s, requested).value;
    hide Preflight, Selects;
    var id, k: nat :| Selects(s, requested, id, patch, k) && audit == s.audits[k] && id == PatchIdOf(s, requested);
    ApproveIs(s, id, audit);
    CompleteIs(Approve(s, id, audit), |s.steps| + 2, id, outcome);
    BlockIsRefused(s, requested, patch, audit);
  }

  lemma BlockIsRefused(s: Slice, requested: Option<Id>, patch: Patch, audit: Audit)
    requires Preflight(s, requested) == Success((patch, audit))
    ensures audit.verdict != Block && (requested.Some? || s.patches != [])
  {
  }

  lemma ApproveIs(s: Slice, id: Id, audit: Audit)
    ensures Approve(s, id, audit) == s.(steps := s.steps + [ApprovalEntry(s, id, audit)])
  {
  }

  lemma CompleteIs(s: Slice, sequence: nat, id: Id, outcome: BackendOutcome)
    ensures Ended(s, Complete(s, sequence, id, outcome), sequence, id, outcome)
  {
  }

  /** In every history the last approval after an accepted request is of the
      patch that was named, or of the latest one, with its SQL. */
  lemma HistoryRunsWhatWasAsked(s: Slice, events: seq<Event>, settings: Settings, requested: Option<Id>)
    requires IsIngested(s)
    ensures var c, c' := After(s, events, settings), After(s, events + [ApprovalAsked(requested)], settings);
            var t := c.run.slice;
            && (Accepts(t, requested)
                <==> t.record.status == AwaitingApproval
                     && (requested.Some? ==> exists a :: a in t.audits && a.linkedPatchId == requested.value))
            && (Accepts(t, requested) ==>
                  && c'.sent != [] && Front(c'.sent) == c.sent
                  && exists patch ::
                       && EarliestWith(t.patches, Last(c'.sent).patchId, patch)
                       && Last(c'.sent).sql == patch.productionSql
                       && match requested
                          case Some(id) => Last(c'.sent).patchId == id
                          case None => t.patches != [] && Last(c'.sent).patchId == Last(t.patches).id)
  {
    hide Invariant, IsIngested, ApproveStep, Accepts, EarliestWith, LatestLinked, Preflight, AuditsFor;
    AfterSnoc(s, events, ApprovalAsked(requested), settings);
    var c := After(s, events, settings);
    PreflightSelects(c.run.slice, requested);
    AwaitingIsApprovable(s, events, settings, requested);
    if requested.Some? {
      AuditsForAreAudits(c.run.slice.audits, requested.value);
      SomeAudit(c.run.slice.audits, requested.value);
    }
    RequestedIsSent(c, requested);
  }

  lemma SomeAudit(audits: seq<Audit>, id: Id)
    ensures AuditsFor(audits, id) != [] <==> exists a :: a in audits && a.linkedPatchId == id
  {
    AuditsForAreAudits(audits, id);
    if AuditsFor(audits, id) != [] {
      assert Last(AuditsFor(audits, id)) in AuditsFor(audits, id);
    }
  }
}
