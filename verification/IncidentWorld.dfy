/** The whole service: every interleaving of orchestrator runs and human
    decisions over any number of incidents. An approval is two atomic steps,
    because the backend that runs the SQL may suspend between them; `Execute`
    is the pair without anything in between, as with the local backend. */
module IncidentWorld {
  import opened Governance
  import opened Lifecycle
  import opened LifecycleSafety
  import opened Models
  import opened Prelude
  import opened RunLog
  import opened StepLogGrammar

  // SQL handed to a backend, and what allowed it.
  datatype Approval = Approval(patchId: Id, sql: string, sequence: nat, audit: Audit)

  // `sent`, `overlapped` and `contended` are history: everything ever handed to
  // a backend, and whether an approval, or any decision at all, was accepted
  // while an approval was running.
  datatype Cell = Cell(run: Run, inflight: seq<Approval>, sent: seq<Approval>, overlapped: bool, contended: bool)

  datatype Event =
    | Resumed(input: Input)
    | ApprovalAsked(requested: Option<Id>)
    | BackendAnswered(index: nat, outcome: BackendOutcome)
    | ExecuteAsked(requested: Option<Id>, outcome: BackendOutcome)
    | RejectAsked(reason: string)

  function ApproveStep(c: Cell, requested: Option<Id>): Cell {
    var s := c.run.slice;
    match Preflight(s, requested)
    case Failure(_) => c
    case Success((patch, audit)) =>
      var id := PatchIdOf(s, requested);
      var a := Approval(id, patch.productionSql, |s.steps| + 2, audit);
      Cell(c.run.(slice := Approve(s, id, audit)), c.inflight + [a], c.sent + [a],
           c.overlapped || c.inflight != [], c.contended || c.inflight != [])
  }

  function CompleteStep(c: Cell, index: nat, outcome: BackendOutcome): Cell {
    if index < |c.inflight| then
      var a := c.inflight[index];
      c.(run := c.run.(slice := Complete(c.run.slice, a.sequence, a.patchId, outcome)),
         inflight := c.inflight[..index] + c.inflight[index + 1..])
    else c
  }

  function RejectStep(c: Cell, reason: string): Cell {
    if c.run.slice.record.status == AwaitingApproval
    then c.(run := c.run.(slice := Reject(c.run.slice, reason)), contended := c.contended || c.inflight != [])
    else c
  }

  function ExecuteStep(c: Cell, requested: Option<Id>, outcome: BackendOutcome): Cell {
    if Preflight(c.run.slice, requested).Failure? then c
    else CompleteStep(ApproveStep(c, requested), |c.inflight|, outcome)
  }

  function Step(c: Cell, e: Event, settings: Settings): Cell
    requires WellFormed(c.run)
  {
    match e
    case Resumed(x) => c.(run := Resume(c.run, x, settings))
    case ApprovalAsked(requested) => ApproveStep(c, requested)
    case BackendAnswered(index, outcome) => CompleteStep(c, index, outcome)
    case ExecuteAsked(requested, outcome) => ExecuteStep(c, requested, outcome)
    case RejectAsked(reason) => RejectStep(c, reason)
  }

  function NewCell(s: Slice): Cell {
    Cell(Start(s), [], [], false, false)
  }

  // ---------- The invariant of one incident ----------

  // A non-BLOCK audit, the last one of its patch, computed from this SQL.
  ghost predicate Sanctioned(s: Slice, a: Approval) {
    var patch := GetPatch(s.patches, a.patchId);
    var matching := AuditsFor(s.audits, a.patchId);
    && patch.Some? && a.sql == patch.value.productionSql
    && matching != [] && a.audit == Last(matching) && a.audit.verdict != Block
    && (exists m :: DecidedFrom(a.audit, patch.value, m))
    && (forall m :: DecidedFrom(a.audit, patch.value, m) && DropsColumn(a.sql) ==> !m.piiTagged)
  }

  lemma PreflightSanctions(s: Slice, requested: Option<Id>)
    requires AllGrounded(s) && Preflight(s, requested).Success?
    ensures var (patch, audit) := Preflight(s, requested).value;
            forall sequence :: Sanctioned(s, Approval(PatchIdOf(s, requested), patch.productionSql, sequence, audit))
  {
    var (patch, audit) := Preflight(s, requested).value;
    var id := PatchIdOf(s, requested);
    AuditsForAreAudits(s.audits, id);
    assert audit in AuditsFor(s.audits, id);
    assert Grounded(audit, s.patches);
    forall m | DecidedFrom(audit, patch, m)
      ensures DropsColumn(patch.productionSql) ==> !m.piiTagged
    {
      BlockIff(patch.productionSql, patch.kind, m);
    }
  }

  predicate SameDocs(s: Slice, t: Slice) {
    s.patches == t.patches && s.audits == t.audits
  }

  ghost predicate Invariant(c: Cell, settings: Settings) {
    var s := c.run.slice;
    && WellFormed(c.run)
    && AllGrounded(s)
    && Accepted(s.steps)
    && (forall a :: a in c.sent ==> Sanctioned(s, a))
    && (!c.run.pc.Done? ==>
          c.sent == [] && InPhase(c.run) && Audited(c.run) && Logged(c.run, settings))
    && (c.run.pc.Done? ==> s.record.status in {AwaitingApproval, Resolved, Rejected, Failed})
    && (s.record.status == AwaitingApproval ==>
          && c.run.pc.Done? && Approvable(s) && s.record.error.None?
          && (if c.sent == [] then Scan(s.steps).Ready? else Scan(s.steps).Decided?))
    && (c.sent != [] ==> Scan(s.steps).Decided?)
    && CountInvariant(c)
  }

  // Approvals in flight, executions logged, and when they can pile up.
  predicate CountInvariant(c: Cell) {
    && |c.inflight| <= |c.sent|
    && Count(c.run.slice.steps, Executions) + |c.inflight| == |c.sent|
    && (c.run.slice.record.status == AwaitingApproval ==> |c.inflight| == |c.sent|)
    && (c.overlapped <==> |c.sent| > 1)
  }

  lemma {:induction false} RunsDoNotExecute(log: seq<StepLog>)
    requires Accepted(log) && !Scan(log).Decided?
    ensures Count(log, Executions) == 0
  {
    if log != [] {
      RunsDoNotExecute(Front(log));
    }
  }

  lemma ResumedInvariant(c: Cell, x: Input, settings: Settings)
    requires Invariant(c, settings)
    ensures Invariant(Step(c, Resumed(x), settings), settings)
  {
    hide Sanctioned, Approvable, AllGrounded, Audited, Count;
    if !c.run.pc.Done? {
      var r := Resume(c.run, x, settings);
      ResumeInvariant(c.run, x, settings);
      ResumeLogged(c.run, x, settings);
      hide Resume;
      AuditedMeans(r);
      LoggedMeans(c.run, settings);
      LoggedMeans(r, settings);
      RunsDoNotExecute(c.run.slice.steps);
      RunsDoNotExecute(r.slice.steps);
    }
  }

  lemma AuditedMeans(r: Run)
    requires Audited(r) && InPhase(r)
    ensures AllGrounded(r.slice)
    ensures r.slice.record.status == AwaitingApproval ==> r.pc.Done? && Approvable(r.slice)
  {
  }

  lemma LoggedMeans(r: Run, settings: Settings)
    requires Logged(r, settings)
    ensures Accepted(r.slice.steps) && !Scan(r.slice.steps).Decided?
    ensures r.pc.Done? && r.pc.exit != Threw ==> Scan(r.slice.steps).Ready?
  {
  }

  // A decision entry on a log that is ready for one.
  lemma DecisionAppended(s: Slice, e: StepLog)
    requires Accepted(s.steps) && (Scan(s.steps).Ready? || Scan(s.steps).Decided?)
    requires IsDecision(e)
    ensures Scan(s.steps + [e]).Decided?
    ensures Count(s.steps + [e], Executions) == Count(s.steps, Executions) + if e.kind == Execution then 1 else 0
  {
    ScanSnoc(s.steps, e);
    CountSnoc(s.steps, e, Executions);
  }

  lemma SanctionedFrozen(s: Slice, t: Slice, a: Approval)
    requires SameDocs(s, t) && Sanctioned(s, a)
    ensures Sanctioned(t, a)
  {
  }

  lemma AllFrozen(s: Slice, t: Slice, sent: seq<Approval>)
    requires SameDocs(s, t) && AllGrounded(s)
    requires forall a :: a in sent ==> Sanctioned(s, a)
    ensures AllGrounded(t) && forall a :: a in sent ==> Sanctioned(t, a)
    ensures Approvable(s) ==> Approvable(t)
  {
    forall a | a in sent
      ensures Sanctioned(t, a)
    {
      SanctionedFrozen(s, t, a);
    }
  }

  lemma ApprovedInvariant(c: Cell, requested: Option<Id>, settings: Settings)
    requires Invariant(c, settings)
    ensures Invariant(ApproveStep(c, requested), settings)
  {
    var s := c.run.slice;
    if Preflight(s, requested).Success? {
      var (patch, audit) := Preflight(s, requested).value;
      var id := PatchIdOf(s, requested);
      PreflightSanctions(s, requested);
      var a := Approval(id, patch.productionSql, |s.steps| + 2, audit);
      assert Sanctioned(s, a);
      hide Sanctioned, Approvable, AllGrounded, Audited, Scan, Count, Logged, Preflight;
      assert s.record.status == AwaitingApproval by { ApprovedStatus(s, requested); }
      DecisionAppended(s, DecisionEntry(s, Note.Approved(id, audit.id, audit.verdict)));
      AllFrozen(s, Approve(s, id, audit), c.sent + [a]);
    }
  }

  lemma ApprovedStatus(s: Slice, requested: Option<Id>)
    requires Preflight(s, requested).Success?
    ensures s.record.status == AwaitingApproval
  {
  }

  lemma CompletedInvariant(c: Cell, index: nat, outcome: BackendOutcome, settings: Settings)
    requires Invariant(c, settings)
    ensures Invariant(CompleteStep(c, index, outcome), settings)
  {
    if index < |c.inflight| {
      hide Sanctioned, Approvable, AllGrounded, Audited, Scan, Count, Logged, Complete, InPhase;
      var s := c.run.slice;
      var a := c.inflight[index];
      var s' := Complete(s, a.sequence, a.patchId, outcome);
      CompleteWrites(s, a.sequence, a.patchId, outcome);
      DecisionAppended(s, Last(s'.steps));
      AllFrozen(s, s', c.sent);
    }
  }

  lemma CompleteWrites(s: Slice, sequence: nat, patchId: Id, outcome: BackendOutcome)
    ensures var s' := Complete(s, sequence, patchId, outcome);
            && SameDocs(s, s')
            && s'.steps != [] && s'.steps == s.steps + [Last(s'.steps)] && Last(s'.steps).kind == Execution
            && s'.record.status in {Resolved, Failed}
  {
  }

  lemma RejectedInvariant(c: Cell, reason: string, settings: Settings)
    requires Invariant(c, settings)
    ensures Invariant(RejectStep(c, reason), settings)
  {
    if c.run.slice.record.status == AwaitingApproval {
      hide Sanctioned, Approvable, AllGrounded, Audited, Scan, Count, Logged;
      var s := c.run.slice;
      var s' := Reject(s, reason);
      DecisionAppended(s, Last(s'.steps));
      AllFrozen(s, s', c.sent);
    }
  }

  lemma StepInvariant(c: Cell, e: Event, settings: Settings)
    requires Invariant(c, settings)
    ensures Invariant(Step(c, e, settings), settings)
  {
    match e
    case Resumed(x) => ResumedInvariant(c, x, settings);
    case ApprovalAsked(requested) => ApprovedInvariant(c, requested, settings);
    case BackendAnswered(index, outcome) => CompletedInvariant(c, index, outcome, settings);
    case RejectAsked(reason) => RejectedInvariant(c, reason, settings);
    case ExecuteAsked(requested, outcome) =>
      hide Invariant, ApproveStep, CompleteStep;
      ApprovedInvariant(c, requested, settings);
      CompletedInvariant(ApproveStep(c, requested), |c.inflight|, outcome, settings);
  }

  lemma NewCellInvariant(s: Slice, settings: Settings)
    requires IsIngested(s)
    ensures Invariant(NewCell(s), settings)
  {
  }

  // ---------- Every history of one incident ----------

  ghost function After(s: Slice, events: seq<Event>, settings: Settings): (c: Cell)
    requires IsIngested(s)
    ensures Invariant(c, settings)
    decreases |events|
  {
    if events == [] then
      NewCellInvariant(s, settings);
      NewCell(s)
    else
      var c := After(s, Front(events), settings);
      StepInvariant(c, Last(events), settings);
      Step(c, Last(events), settings)
  }

  /** The executor's preflight after any history. For a request that names no
      patch it passes exactly when the incident awaits approval; for one that
      names a patch, exactly when that patch has an audit as well. Its BLOCK
      check never fails, whatever is requested. */
  lemma AwaitingIsApprovable(s: Slice, events: seq<Event>, settings: Settings, requested: Option<Id>)
    requires IsIngested(s)
    ensures var t := After(s, events, settings).run.slice;
            && (t.record.status == AwaitingApproval ==> Approvable(t) && t.record.error.None?)
            && (Preflight(t, requested).Success?
                <==> t.record.status == AwaitingApproval
                     && (requested.Some? ==> AuditsFor(t.audits, requested.value) != []))
            && Preflight(t, requested) != Failure(GovernanceBlock)
  {
    var t := After(s, events, settings).run.slice;
    if t.record.status == AwaitingApproval {
      ApprovablePreflight(t, requested);
    }
  }

  // ---------- Runs as histories ----------

  function RunEvents(script: nat -> Input, n: nat): seq<Event> {
    if n == 0 then [] else RunEvents(script, n - 1) + [Resumed(script(n - 1))]
  }

  /** An undisturbed run is the history of its own resumptions. */
  lemma {:induction false} RunIsHistory(s: Slice, script: nat -> Input, n: nat, settings: Settings)
    requires IsIngested(s)
    ensures After(s, RunEvents(script, n), settings) == NewCell(s).(run := Feed(Start(s), script, n, settings))
  {
    hide Invariant, Resume;
    if n > 0 {
      RunIsHistory(s, script, n - 1, settings);
      AfterSnoc(s, RunEvents(script, n - 1), Resumed(script(n - 1)), settings);
    }
  }

  // ---------- At most once ----------

  /** How often SQL is run. Every acceptance is one execution entry or still
      in flight, so once nothing is in flight the patch ran more than once
      exactly when one approval was accepted while another was running. */
  lemma AtMostOnceIff(s: Slice, events: seq<Event>, settings: Settings)
    requires IsIngested(s)
    ensures var c := After(s, events, settings);
            && Count(c.run.slice.steps, Executions) + |c.inflight| == |c.sent|
            && (c.inflight == [] ==> (Count(c.run.slice.steps, Executions) > 1 <==> c.overlapped))
  {
    var c := After(s, events, settings);
    assert CountInvariant(c);
  }

  /** Overlap is real: two approvals that both arrive before the backend
      answers run the statement twice. */
  lemma OverlapExecutesTwice(c: Cell, settings: Settings)
    requires Invariant(c, settings) && c.run.slice.record.status == AwaitingApproval && c.sent == []
    ensures var c1 := Step(c, ApprovalAsked(None), settings);
            var c2 := Step(c1, ApprovalAsked(None), settings);
            var c3 := Step(c2, BackendAnswered(0, RanOk), settings);
            var c4 := Step(c3, BackendAnswered(0, RanOk), settings);
            && c2.overlapped
            && c4.inflight == []
            && Count(c4.run.slice.steps, Executions) == 2
  {
    hide Step, Invariant, Count;
    CountsOf(c, settings);
    var c1 := Step(c, ApprovalAsked(None), settings);
    AcceptsLatest(c, settings);
    var c2 := Step(c1, ApprovalAsked(None), settings);
    AcceptsLatest(c1, settings);
    var c3 := Step(c2, BackendAnswered(0, RanOk), settings);
    AnswerLands(c2, settings);
    var c4 := Step(c3, BackendAnswered(0, RanOk), settings);
    AnswerLands(c3, settings);
    CountsOf(c4, settings);
  }

  lemma AnswerLands(c: Cell, settings: Settings)
    requires Invariant(c, settings) && c.inflight != []
    ensures var c' := Step(c, BackendAnswered(0, RanOk), settings);
            && Invariant(c', settings) && WellFormed(c'.run)
            && |c'.inflight| == |c.inflight| - 1 && c'.sent == c.sent
  {
    StepInvariant(c, BackendAnswered(0, RanOk), settings);
  }

  lemma CountsOf(c: Cell, settings: Settings)
    requires Invariant(c, settings)
    ensures CountInvariant(c) && WellFormed(c.run)
  {
  }

  lemma AcceptsLatest(c: Cell, settings: Settings)
    requires Invariant(c, settings) && c.run.slice.record.status == AwaitingApproval
    ensures var c' := Step(c, ApprovalAsked(None), settings);
            && Invariant(c', settings) && WellFormed(c'.run)
            && |c'.sent| == |c.sent| + 1 && |c'.inflight| == |c.inflight| + 1
            && c'.run.slice.record.status == AwaitingApproval
            && (c'.overlapped <==> c.overlapped || c.inflight != [])
  {
    StepInvariant(c, ApprovalAsked(None), settings);
    hide Invariant;
    AwaitingMeans(c, settings);
    ApprovablePreflight(c.run.slice, None);
  }

  lemma AwaitingMeans(c: Cell, settings: Settings)
    requires Invariant(c, settings) && c.run.slice.record.status == AwaitingApproval
    ensures Approvable(c.run.slice) && c.run.pc.Done?
  {
  }

  /** Nor does a rejection absorb: an approval already running resolves the
      incident after it was rejected. */
  lemma RejectionCanBeOvertaken(c: Cell, reason: string, settings: Settings)
    requires Invariant(c, settings) && c.run.slice.record.status == AwaitingApproval && c.sent == []
    ensures var c1 := Step(c, ApprovalAsked(None), settings);
            var c2 := Step(c1, RejectAsked(reason), settings);
            var c3 := Step(c2, BackendAnswered(0, RanOk), settings);
            && c2.run.slice.record.status == Rejected
            && c3.run.slice.record.status == Resolved
  {
    AcceptsLatest(c, settings);
  }

  lemma TerminalCell(c: Cell, settings: Settings)
    requires Invariant(c, settings) && Terminal(c.run.slice.record.status)
    ensures c.run.pc.Done?
  {
  }

  lemma AnswerExtends(c: Cell)
    requires c.inflight != []
    ensures |CompleteStep(c, 0, RanOk).run.slice.steps| == |c.run.slice.steps| + 1
  {
  }

  /** Terminal states absorb, exactly: after any history a terminal incident
      is left alone by every event if and only if no approval is running. */
  lemma TerminalAbsorbsIff(s: Slice, events: seq<Event>, settings: Settings)
    requires IsIngested(s) && Terminal(After(s, events, settings).run.slice.record.status)
    ensures var c := After(s, events, settings);
            c.inflight == [] <==> forall e :: Step(c, e, settings).run.slice == c.run.slice
  {
    var c := After(s, events, settings);
    TerminalCell(c, settings);
    hide Invariant;
    if c.inflight == [] {
      forall e
        ensures Step(c, e, settings).run.slice == c.run.slice
      {
      }
    } else {
      AnswerExtends(c);
      assert Step(c, BackendAnswered(0, RanOk), settings).run.slice != c.run.slice;
    }
  }

  // ---------- Serialised decisions ----------

  // Decision handlers that do not suspend: no event splits an approval.
  predicate Serial(events: seq<Event>) {
    forall e :: e in events ==> !e.ApprovalAsked? && !e.BackendAnswered?
  }

  predicate Terminal(status: Status) {
    status in {Resolved, Rejected, Failed}
  }

  // The status graph.
  predicate Edge(a: Status, b: Status) {
    || a == b
    || (a == Status.Ingested && b in {Diagnosing, Failed})
    || (a == Diagnosing && b in {AwaitingApproval, Rejected, Failed})
    || (a == AwaitingApproval && b in {Resolved, Rejected, Failed})
  }

  predicate Settled(c: Cell) {
    && c.inflight == [] && !c.overlapped
    && (c.run.slice.record.error.Some? <==> c.run.slice.record.status == Failed)
    && (Terminal(c.run.slice.record.status) ==> c.run.pc.Done?)
  }

  lemma SerialStep(c: Cell, e: Event, settings: Settings)
    requires Invariant(c, settings) && Settled(c) && !e.ApprovalAsked? && !e.BackendAnswered?
    ensures var c' := Step(c, e, settings);
            && Settled(c')
            && Edge(c.run.slice.record.status, c'.run.slice.record.status)
            && (Terminal(c.run.slice.record.status) ==> c' == c)
            && (!c.run.pc.Done? && !e.Resumed? ==> c' == c)
            && (c.run.pc.Done? && e.Resumed? ==> c' == c)
  {
    hide Sanctioned, Approvable, AllGrounded, Audited, Logged;
    match e
    case Resumed(x) =>
      if !c.run.pc.Done? {
        StatusOfResume(c.run, x, settings);
      }
    case RejectAsked(reason) =>
    case ExecuteAsked(requested, outcome) =>
      if Preflight(c.run.slice, requested).Success? {
        ApprovedStatus(c.run.slice, requested);
        ExecutedOnce(c, requested, outcome);
      }
    case _ =>
  }

  lemma StatusOfResume(r: Run, x: Input, settings: Settings)
    requires WellFormed(r) && InPhase(r) && Audited(r) && !r.pc.Done?
    ensures var r' := Resume(r, x, settings);
            && InPhase(r')
            && Edge(r.slice.record.status, r'.slice.record.status)
            && (Terminal(r'.slice.record.status) ==> r'.pc.Done?)
  {
    ResumeInvariant(r, x, settings);
    hide NextCall, CallTool, FinishStatus, AutoAudit, Audited, NeedsAudit;
    var r' := Resume(r, x, settings);
    if r.pc.Fresh? {
      assert r'.slice.record.status in {Diagnosing, Failed};
    }
  }

  // What one undisturbed approval leaves behind.
  lemma ExecutedOnce(c: Cell, requested: Option<Id>, outcome: BackendOutcome)
    requires Preflight(c.run.slice, requested).Success?
    requires c.inflight == []
    ensures var s, s' := c.run.slice, ExecuteStep(c, requested, outcome).run.slice;
            var (patch, audit) := Preflight(s, requested).value;
            var id := PatchIdOf(s, requested);
            && ExecuteStep(c, requested, outcome).inflight == []
            && ExecuteStep(c, requested, outcome).overlapped == c.overlapped
            && |ExecuteStep(c, requested, outcome).sent| == |c.sent| + 1
            && ExecuteStep(c, requested, outcome).run.pc == c.run.pc
            && s' == Complete(Approve(s, id, audit), |s.steps| + 2, id, outcome)
            && s'.record.status == (if outcome.RanOk? then Resolved else Failed)
            && (outcome.RanOk? ==> s'.record.error == s.record.error)
            && (!outcome.RanOk? ==> s'.record.error.Some?)
  {
  }

  /** Status traces and phase separation under serialised decisions: every
      change of status follows the graph; terminal states absorb, log and all;
      decisions made while the run is going, and runs resumed after it ended,
      change nothing; PATCHING and EXECUTING are never entered; an error is
      recorded exactly when the incident failed; SQL ran at most once. */
  lemma {:induction false} SerialHistories(s: Slice, events: seq<Event>, settings: Settings)
    requires IsIngested(s) && Serial(events)
    ensures var c := After(s, events, settings);
            && Settled(c)
            && Count(c.run.slice.steps, Executions) == |c.sent| <= 1
            && c.run.slice.record.status !in {Patching, Executing}
    ensures events != [] ==>
              var before, after := After(s, Front(events), settings), After(s, events, settings);
              && Edge(before.run.slice.record.status, after.run.slice.record.status)
              && (Terminal(before.run.slice.record.status) ==> after == before)
              && (before.run.pc.Done? == Last(events).Resumed? ==> after == before)
    decreases |events|
  {
    if events != [] {
      var c := After(s, Front(events), settings);
      assert Serial(Front(events)) by {
        assert forall e :: e in Front(events) ==> e in events;
      }
      SerialHistories(s, Front(events), settings);
      SerialStep(c, Last(events), settings);
    }
    CountsOf(After(s, events, settings), settings);
    StatusesOf(After(s, events, settings), settings);
  }

  lemma StatusesOf(c: Cell, settings: Settings)
    requires Invariant(c, settings)
    ensures c.run.slice.record.status !in {Patching, Executing}
  {
  }

  // ---------- Step numbers of the decision ----------

  /** The decision's step numbers come from the length of the log, the run's
      from its own counter; they exceed every number of the run, and without
      retries they continue it without a gap. */
  lemma DecisionNumbersAreFresh(s: Slice, events: seq<Event>, settings: Settings, i: nat)
    requires IsIngested(s)
    requires var c := After(s, events, settings);
             c.run.slice.record.status == AwaitingApproval && c.sent == [] && i < |c.run.slice.steps|
    ensures var c := After(s, events, settings);
            var steps := c.run.slice.steps;
            && steps[i].sequence < |steps| + 1
            && |steps| + 1 == Issued(Scan(steps)) + Count(steps, FailedAttempts)
  {
    var steps := After(s, events, settings).run.slice.steps;
    LogLength(steps);
    IdsDense(steps, steps[i].sequence);
    assert HasId(steps, steps[i].sequence);
  }

  lemma AfterSnoc(s: Slice, events: seq<Event>, e: Event, settings: Settings)
    requires IsIngested(s)
    ensures After(s, events + [e], settings) == Step(After(s, events, settings), e, settings)
  {
    hide Step, Invariant;
    FrontOfSnoc(events, e);
  }
}
