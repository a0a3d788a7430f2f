/** Where the audits of an incident come from, and what that says about every
    statement that is ever run: it was judged by the labels read in the very
    step that audited it. */
module ExecutedSql {
  import opened Governance
  import opened IncidentWorld
  import opened Lifecycle
  import opened LifecycleSafety
  import opened Models
  import opened PolicyRules
  import opened Prelude
  import opened SqlWords
  import opened ToolResults

  // ---------- One step ----------

  // The documents gained one audit, of the earliest patch with the id it
  // names, made from what this input's services returned.
  ghost predicate AuditedBy(s: Slice, s': Slice, x: Input, settings: Settings) {
    && s'.patches == s.patches && s'.audits != [] && s'.audits == s.audits + [Last(s'.audits)]
    && x.tool.Completes?
    && exists patch ::
         && EarliestWith(s.patches, Last(s'.audits).linkedPatchId, patch)
         && IsAuditOf(Last(s'.audits), Last(s'.audits).linkedPatchId, patch, x.tool.services, settings)
  }

  predicate PatchesGrow(s: Slice, s': Slice) {
    s'.patches == s.patches || (s'.patches != [] && s'.patches == s.patches + [Last(s'.patches)])
  }

  // Either nothing new among the audits, or one made by this input.
  ghost predicate AuditStep(s: Slice, s': Slice, x: Input, settings: Settings) {
    (s'.audits == s.audits && PatchesGrow(s, s')) || AuditedBy(s, s', x, settings)
  }

  lemma AuditsOne(s: Slice, s': Slice, id: Id, patch: Patch, x: Input, settings: Settings)
    requires x.tool.Completes? && EarliestWith(s.patches, id, patch)
    requires s'.patches == s.patches && Audits(s, s.(audits := s'.audits), id, patch, x.tool.services, settings)
    ensures AuditedBy(s, s', x, settings)
  {
    hide EarliestWith, Judges;
  }

  lemma CallAudits(s: Slice, call: FunctionCall, sequence: nat, x: Input, settings: Settings)
    ensures AuditStep(s, CallTool(s, call, sequence, x.tool, settings).0, x, settings)
  {
    hide CallTool, AuditedBy, EarliestWith, IsAuditOf, Proposes, IsPatchOf, Takes;
    RebuffedCalls(s, call, sequence, x.tool, settings);
    if Takes(call) && x.tool.Completes? {
      TakesKnown(call);
      if call.name == "investigate_incident_logs" {
        TriageCall(s, call, sequence, x.tool.services, settings);
      } else if call.name == "generate_and_test_patch" {
        PatchCall(s, call, sequence, x.tool.services, settings);
      } else {
        GovernanceCallAudits(s, call, sequence, x, settings);
      }
    }
  }

  lemma TakesKnown(call: FunctionCall)
    requires Takes(call)
    ensures Known(call)
  {
  }

  lemma GovernanceCallAudits(s: Slice, call: FunctionCall, sequence: nat, x: Input, settings: Settings)
    requires call.name == "verify_governance_policy" && Takes(call) && x.tool.Completes?
    ensures AuditStep(s, CallTool(s, call, sequence, x.tool, settings).0, x, settings)
  {
    hide CallTool, AuditedBy, EarliestWith, IsAuditOf;
    GovernanceCall(s, call, sequence, x.tool.services, settings);
    var given := call.args["patch_id"];
    if given.Text? {
      StoredOrNot(s.patches, given.text);
      if patch :| EarliestWith(s.patches, given.text, patch) {
        AuditsOne(s, CallTool(s, call, sequence, x.tool, settings).0, given.text, patch, x, settings);
      }
    }
  }

  lemma AutoAuditAudits(s: Slice, x: Input, settings: Settings)
    requires s.patches != []
    ensures AuditStep(s, AutoAudit(s, x.tool, settings), x, settings)
  {
    hide VerifyGovernance, AuditedBy, EarliestWith, IsAuditOf;
    if x.tool.Completes? {
      var id := Last(s.patches).id;
      VerifyIs(s, Text(id), x.tool.services, settings);
      StoredOrNot(s.patches, id);
      var patch :| EarliestWith(s.patches, id, patch);
      AuditsOne(s, AutoAudit(s, x.tool, settings), id, patch, x, settings);
    }
  }

  lemma SameDocuments(s: Slice, t: Slice, s': Slice, x: Input, settings: Settings)
    requires AuditStep(s, t, x, settings) && s'.patches == t.patches && s'.audits == t.audits
    ensures AuditStep(s, s', x, settings)
  {
    hide EarliestWith, IsAuditOf;
  }

  lemma NothingNew(s: Slice, s': Slice, x: Input, settings: Settings)
    requires s'.patches == s.patches && s'.audits == s.audits
    ensures AuditStep(s, s', x, settings)
  {
    hide AuditedBy;
  }

  lemma NextCallKeeps(s: Slice, turn: nat, sequence: nat, response: Response, parts: seq<(string, ToolReply)>,
                      blocked: bool, contents: seq<Content>, settings: Settings)
    ensures var s' := NextCall(s, turn, sequence, response, parts, blocked, contents, settings).slice;
            s'.patches == s.patches && s'.audits == s.audits
  {
  }

  lemma ResumeAudits(r: Run, x: Input, settings: Settings)
    requires WellFormed(r)
    ensures AuditStep(r.slice, Resume(r, x, settings).slice, x, settings)
  {
    hide CallTool, AutoAudit, NextCall, FinishStatus, NeedsAudit, AuditStep;
    var s, s' := r.slice, Resume(r, x, settings).slice;
    match r.pc
    case AwaitTool(turn, sequence, response, parts, blocked, contents) =>
      var call := response.calls[|parts|];
      CallAudits(s, call, sequence, x, settings);
      var (t, reply) := CallTool(s, call, sequence, x.tool, settings);
      NextCallKeeps(t, turn, sequence + 1, response, parts + [(call.name, reply)], blocked || reply.IsBlock(), contents,
                    settings);
      if x.interrupted && IsTool(ToolName(call)) {
        NothingNew(s, s', x, settings);
      } else {
        SameDocuments(s, t, s', x, settings);
      }
    case AwaitAudit(_, _, _) =>
      DueHasPatch(r);
      AutoAuditAudits(s, x, settings);
      if x.interrupted {
        NothingNew(s, s', x, settings);
      } else {
        SameDocuments(s, AutoAudit(s, x.tool, settings), s', x, settings);
      }
    case _ =>
      ModelKeeps(r, x, settings);
      NothingNew(s, s', x, settings);
  }

  lemma DueHasPatch(r: Run)
    requires WellFormed(r) && r.pc.AwaitAudit?
    ensures r.slice.patches != []
  {
  }

  lemma ModelKeeps(r: Run, x: Input, settings: Settings)
    requires WellFormed(r) && !r.pc.AwaitTool? && !r.pc.AwaitAudit?
    ensures var s' := Resume(r, x, settings).slice;
            s'.patches == r.slice.patches && s'.audits == r.slice.audits
  {
    hide NextCall, FinishStatus, NeedsAudit;
    var s, pc := r.slice, r.pc;
    if pc.AwaitModel? && x.model.Answer? {
      NextCallKeeps(Append(s, ModelEntry(s.record.id, pc.sequence, Ok, NoNote)), pc.turn, pc.sequence + 1,
                    x.model.response, [], false, pc.contents + [ModelContent(x.model.response)], settings);
    }
  }

  // ---------- Histories ----------

  // An event that is not a resumption leaves patches and audits alone.
  lemma StepAudits(c: Cell, e: Event, settings: Settings)
    requires WellFormed(c.run)
    ensures var s, s' := c.run.slice, Step(c, e, settings).run.slice;
            if e.Resumed? then AuditStep(s, s', e.input, settings) else s'.patches == s.patches && s'.audits == s.audits
  {
    hide Resume, Preflight, AuditStep;
    if e.Resumed? {
      ResumeAudits(c.run, e.input, settings);
    }
  }

  // The audit at `k` was added by the event at `i`.
  ghost predicate Origin(s: Slice, events: seq<Event>, settings: Settings, k: nat, i: nat)
    requires IsIngested(s)
  {
    && i < |events| && events[i].Resumed?
    && var before := After(s, events[..i], settings).run.slice;
       var after := After(s, events[..i + 1], settings).run.slice;
       && |before.audits| == k && AuditedBy(before, after, events[i].input, settings)
  }

  lemma EarliestKept(s: Slice, s': Slice, id: Id, patch: Patch)
    requires PatchesGrow(s, s') && EarliestWith(s.patches, id, patch)
    ensures EarliestWith(s'.patches, id, patch)
  {
    EarliestIs(s.patches, id, patch);
    EarliestIs(s'.patches, id, patch);
    if s'.patches != s.patches {
      GetPatchSnoc(s.patches, Last(s'.patches), id);
    }
  }

  // What the services said in the step that made the audit at `k`.
  ghost predicate MadeBy(t: Slice, k: nat, x: Input, settings: Settings) {
    && k < |t.audits| && x.tool.Completes?
    && exists patch ::
         && EarliestWith(t.patches, t.audits[k].linkedPatchId, patch)
         && IsAuditOf(t.audits[k], t.audits[k].linkedPatchId, patch, x.tool.services, settings)
  }

  lemma MadeKept(s: Slice, s': Slice, k: nat, x: Input, settings: Settings)
    requires MadeBy(s, k, x, settings) && PatchesGrow(s, s') && s.audits <= s'.audits
    ensures MadeBy(s', k, x, settings)
  {
    hide IsAuditOf, EarliestWith;
    var id := s.audits[k].linkedPatchId;
    var patch :| EarliestWith(s.patches, id, patch) && IsAuditOf(s.audits[k], id, patch, x.tool.services, settings);
    EarliestKept(s, s', id, patch);
    assert s'.audits[k] == s.audits[k];
  }

  /** Every audit of every history was added by one resumption, and is the
      audit of the patch it names that this resumption's services gave. */
  lemma {:induction false} AuditOrigin(s: Slice, events: seq<Event>, settings: Settings, k: nat)
    requires IsIngested(s) && k < |After(s, events, settings).run.slice.audits|
    ensures exists i: nat ::
              && Origin(s, events, settings, k, i)
              && MadeBy(After(s, events, settings).run.slice, k, events[i].input, settings)
    decreases |events|
  {
    hide Step, Invariant, AuditedBy, MadeBy, IsIngested;
    if events == [] {
      NothingYet(s, settings);
    } else {
      var front, e, n := Front(events), Last(events), |events| - 1;
      var t, t' := After(s, front, settings).run.slice, After(s, events, settings).run.slice;
      CellWellFormed(s, front, settings);
      StepAudits(After(s, front, settings), e, settings);
      if k < |t.audits| {
        AuditOrigin(s, front, settings, k);
        var i: nat :| Origin(s, front, settings, k, i) && MadeBy(t, k, front[i].input, settings);
        StepGrows(t, t', e, settings);
        MadeKept(t, t', k, front[i].input, settings);
        OriginKept(s, events, settings, k, i);
      } else {
        LastMade(t, t', k, e.input, settings);
        OriginNew(s, events, settings, k);
        assert events[n] == e;
      }
    }
  }

  lemma OriginKept(s: Slice, events: seq<Event>, settings: Settings, k: nat, i: nat)
    requires IsIngested(s) && events != [] && Origin(s, Front(events), settings, k, i)
    ensures i < |Front(events)| && events[i] == Front(events)[i] && Origin(s, events, settings, k, i)
  {
    hide AuditedBy, After, IsIngested;
    var front := Front(events);
    assert front[..i] == events[..i] && front[..i + 1] == events[..i + 1];
  }

  lemma OriginNew(s: Slice, events: seq<Event>, settings: Settings, k: nat)
    requires IsIngested(s) && events != [] && Last(events).Resumed?
    requires var t := After(s, Front(events), settings).run.slice;
             k == |t.audits| && AuditedBy(t, After(s, events, settings).run.slice, Last(events).input, settings)
    ensures Origin(s, events, settings, k, |events| - 1)
  {
    hide AuditedBy, After, IsIngested;
    var n := |events| - 1;
    assert events[..n] == Front(events) && events[..n + 1] == events;
  }

  lemma StepGrows(t: Slice, t': Slice, e: Event, settings: Settings)
    requires if e.Resumed? then AuditStep(t, t', e.input, settings) else t'.patches == t.patches && t'.audits == t.audits
    ensures PatchesGrow(t, t') && t.audits <= t'.audits
  {
  }

  lemma LastMade(t: Slice, t': Slice, k: nat, x: Input, settings: Settings)
    requires AuditStep(t, t', x, settings) && |t.audits| <= k < |t'.audits|
    ensures k == |t.audits| && AuditedBy(t, t', x, settings) && MadeBy(t', k, x, settings)
  {
    hide IsAuditOf, EarliestWith;
  }

  lemma NothingYet(s: Slice, settings: Settings)
    requires IsIngested(s)
    ensures After(s, [], settings).run.slice.audits == []
  {
  }

  lemma CellWellFormed(s: Slice, events: seq<Event>, settings: Settings)
    requires IsIngested(s)
    ensures WellFormed(After(s, events, settings).run)
  {
    hide WellFormed;
    assert Invariant(After(s, events, settings), settings);
  }

  // ---------- Executed statements ----------

  // The patch that was run, its last audit, and the event that audited it.
  ghost predicate Vetted(s: Slice, events: seq<Event>, settings: Settings, a: Approval, patch: Patch, k: nat, i: nat)
    requires IsIngested(s)
  {
    var t := After(s, events, settings).run.slice;
    && EarliestWith(t.patches, a.patchId, patch) && a.sql == patch.productionSql
    && LatestLinked(t.audits, a.patchId, k) && a.audit == t.audits[k] && a.audit.verdict != Block
    && Origin(s, events, settings, k, i)
    && IsAuditOf(a.audit, a.patchId, patch, events[i].input.tool.services, settings)
    && (settings.mode == Cloud && SaysDropColumn(a.sql) ==> !events[i].input.tool.services.metadata.piiTagged)
  }

  lemma NotForbidden(a: Audit, id: Id, patch: Patch, services: Services, settings: Settings)
    requires IsAuditOf(a, id, patch, services, settings) && a.verdict != Block
    ensures settings.mode == Cloud && SaysDropColumn(patch.productionSql) ==> !services.metadata.piiTagged
  {
    hide SaysDropColumn, SaysWhere, SaysPii;
  }

  lemma SentIsSanctioned(s: Slice, events: seq<Event>, settings: Settings, a: Approval)
    requires IsIngested(s) && a in After(s, events, settings).sent
    ensures Sanctioned(After(s, events, settings).run.slice, a)
  {
    assert Invariant(After(s, events, settings), settings);
    hide Sanctioned;
  }

  lemma SanctionedPatch(t: Slice, a: Approval) returns (patch: Patch, k: nat)
    requires Sanctioned(t, a)
    ensures EarliestWith(t.patches, a.patchId, patch) && a.sql == patch.productionSql
    ensures LatestLinked(t.audits, a.patchId, k) && a.audit == t.audits[k] && a.audit.verdict != Block
  {
    patch := GetPatch(t.patches, a.patchId).value;
    EarliestIs(t.patches, a.patchId, patch);
    k := LatestIs(t.audits, a.patchId);
  }

  lemma OnePatch(patches: seq<Patch>, id: Id, p: Patch, q: Patch)
    requires EarliestWith(patches, id, p) && EarliestWith(patches, id, q)
    ensures p == q
  {
    EarliestIs(patches, id, p);
    EarliestIs(patches, id, q);
  }

  lemma MadeIs(t: Slice, k: nat, x: Input, settings: Settings, patch: Patch)
    requires MadeBy(t, k, x, settings) && EarliestWith(t.patches, t.audits[k].linkedPatchId, patch)
    ensures x.tool.Completes?
    ensures IsAuditOf(t.audits[k], t.audits[k].linkedPatchId, patch, x.tool.services, settings)
  {
    hide IsAuditOf, EarliestWith;
    var id := t.audits[k].linkedPatchId;
    var p :| EarliestWith(t.patches, id, p) && IsAuditOf(t.audits[k], id, p, x.tool.services, settings);
    OnePatch(t.patches, id, p, patch);
  }

  /** Executed-SQL safety. In every history, with any number of overlapping
      approvals, every statement a backend was ever given is the production
      SQL of the earliest patch stored under the approved id. The last audit
      of that patch is not BLOCK, and is the one made by one particular
      resumption from the labels read in it: so in cloud mode a statement that
      drops a column was run only if the dataset was not tagged as PII then. */
  lemma ExecutedSqlSafety(s: Slice, events: seq<Event>, settings: Settings, a: Approval)
    requires IsIngested(s) && a in After(s, events, settings).sent
    ensures exists patch, k: nat, i: nat :: Vetted(s, events, settings, a, patch, k, i)
  {
    hide Invariant, Step, AuditedBy, IsAuditOf, EarliestWith, Sanctioned, SaysDropColumn, IsIngested, MadeBy;
    SentIsSanctioned(s, events, settings, a);
    var t := After(s, events, settings).run.slice;
    var patch, k := SanctionedPatch(t, a);
    AuditOrigin(s, events, settings, k);
    var i: nat :| Origin(s, events, settings, k, i) && MadeBy(t, k, events[i].input, settings);
    MadeIs(t, k, events[i].input, settings, patch);
    NotForbidden(a.audit, a.patchId, patch, events[i].input.tool.services, settings);
    assert Vetted(s, events, settings, a, patch, k, i);
  }
}
