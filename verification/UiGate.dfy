/** The client-side gate in front of the server's checks, and the tally of the
    history view. */
module UiGate {
  import opened IncidentWorld
  import opened Lifecycle
  import opened LifecycleSafety
  import opened Models
  import opened Prelude

  function LatestAuditVerdict(audits: seq<Audit>): Option<Verdict> {
    if audits == [] then None else Some(Last(audits).verdict)
  }

  predicate CanDecide(status: Status) {
    status == AwaitingApproval
  }

  predicate CanExecute(status: Status, audits: seq<Audit>) {
    && CanDecide(status)
    && LatestAuditVerdict(audits).Some?
    && LatestAuditVerdict(audits) != Some(Block)
  }

  /** The button is enabled exactly when the server would accept: although the
      client looks at the last audit of all and the server at the last audit
      of the latest patch, they agree after every history. */
  lemma GateIsPreflight(s: Slice, events: seq<Event>, settings: Settings)
    requires IsIngested(s)
    ensures var t := After(s, events, settings).run.slice;
            CanExecute(t.record.status, t.audits) <==> Preflight(t, None).Success?
  {
    AwaitingIsApprovable(s, events, settings, None);
    var t := After(s, events, settings).run.slice;
    if t.record.status == AwaitingApproval {
      AuditsForAreAudits(t.audits, Last(t.patches).id);
      assert Last(AuditsFor(t.audits, Last(t.patches).id)) in t.audits;
    }
  }

  /** On documents no run can produce they do not agree: an audit of another
      patch enables the button although the latest patch was blocked. */
  lemma GateDiffersOffRuns(s: Slice, p: Patch, blocked: Audit, other: Audit)
    requires blocked.linkedPatchId == p.id && blocked.verdict == Block
    requires other.linkedPatchId != p.id && other.verdict == Pass
    ensures var t := s.(record := s.record.(status := AwaitingApproval), patches := [p], audits := [blocked, other]);
            CanExecute(t.record.status, t.audits) && Preflight(t, None) == Failure(GovernanceBlock)
  {
    assert Last([p]) == p && Last([blocked, other]) == other;
    OnlyAudit(blocked, other, p.id);
    OnlyPatch(p);
    hide AuditsFor, GetPatch;
  }

  lemma OnlyPatch(p: Patch)
    ensures GetPatch([p], p.id) == Some(p)
  {
    assert Front([p]) == [];
  }

  lemma OnlyAudit(a: Audit, b: Audit, id: Id)
    requires a.linkedPatchId == id && b.linkedPatchId != id
    ensures AuditsFor([a, b], id) == [a]
  {
    assert Front([a, b]) == [a] && Front([a]) == [];
    assert AuditsFor([a], id) == [a];
  }

  predicate IsInFlight(status: Status) {
    status in {Status.Ingested, Diagnosing, Patching, Executing}
  }

  predicate IsTerminal(status: Status) {
    status in {Resolved, Rejected, Failed}
  }

  /** Each status is exactly one of in flight, decidable and terminal. */
  lemma StatusPartition(status: Status)
    ensures IsInFlight(status) || CanDecide(status) || IsTerminal(status)
    ensures !(IsInFlight(status) && CanDecide(status)) && !(IsInFlight(status) && IsTerminal(status))
            && !(CanDecide(status) && IsTerminal(status))
  {
  }

  /** An incident is shown as in flight exactly while its run goes on, whatever
      decisions are still being carried out. */
  lemma InFlightIsRunning(s: Slice, events: seq<Event>, settings: Settings)
    requires IsIngested(s)
    ensures var c := After(s, events, settings);
            IsInFlight(c.run.slice.record.status) <==> !c.run.pc.Done?
  {
    assert Invariant(After(s, events, settings), settings);
    hide Sanctioned, Approvable, AllGrounded, Audited, CountInvariant;
  }

  function WithStatus(incidents: seq<Incident>, status: Status): nat {
    if incidents == [] then 0
    else WithStatus(Front(incidents), status) + if Last(incidents).status == status then 1 else 0
  }

  method IncidentStatusCounts(incidents: seq<Incident>) returns (counts: map<Status, nat>)
    ensures forall status :: status in counts <==> exists i :: 0 <= i < |incidents| && incidents[i].status == status
    ensures forall status :: status in counts ==> counts[status] == WithStatus(incidents, status)
  {
    counts := map[];
    for k := 0 to |incidents|
      invariant forall status :: status in counts <==> exists i :: 0 <= i < k && incidents[i].status == status
      invariant forall status :: status in counts ==> counts[status] == WithStatus(incidents[..k], status)
      invariant forall status :: status !in counts ==> WithStatus(incidents[..k], status) == 0
    {
      var status := incidents[k].status;
      assert incidents[..k + 1] == incidents[..k] + [incidents[k]];
      FrontOfSnoc(incidents[..k], incidents[k]);
      counts := counts[status := (if status in counts then counts[status] else 0) + 1];
    }
    assert incidents[..|incidents|] == incidents;
  }
}
