/** The human half of the protocol: executing or rejecting an incident that
    awaits approval. */
module ExecutorSteps {
  import opened ApprovedPatch
  import opened IncidentWorld
  import opened InMemoryStore
  import opened Lifecycle
  import opened LifecycleSafety
  import opened Models
  import opened Prelude

  /** Where approved SQL is run. The answer is the environment's; what was run
      is recorded. */
  class ExecutorBackend {
    const answer: BackendOutcome
    var ran: seq<string>

    constructor (answer: BackendOutcome)
      ensures this.answer == answer && ran == []
    {
      this.answer := answer;
      ran := [];
    }

    method Execute(productionSql: string) returns (outcome: BackendOutcome)
      modifies this
      ensures ran == old(ran) + [productionSql]
      ensures outcome == answer
    {
      ran := ran + [productionSql];
      outcome := answer;
    }
  }

  datatype DecisionError = Missing(error: StoreError) | Refused(refusal: Refusal)

  method RequireAwaitingApproval(store: InMemoryStateManager, id: Id) returns (r: Result<Incident, DecisionError>)
    ensures r.Success? <==> id in store.View() && store.View()[id].record.status == AwaitingApproval
    ensures r.Success? ==> r.value == store.View()[id].record
    ensures id !in store.View() ==> r == Failure(Missing(IncidentNotFound(id)))
    ensures id in store.View() && r.Failure? ==>
              r.error.Refused? && forall requested :: Preflight(store.View()[id], requested) == Failure(r.error.refusal)
  {
    var got := store.GetIncident(id);
    if got.Failure? {
      return Failure(Missing(got.error));
    }
    if got.value.status != AwaitingApproval {
      return Failure(Refused(NotAwaitingApproval));
    }
    r := Success(got.value);
  }

  // Everything `execute_incident` checks before its first write.
  method CheckApproval(store: InMemoryStateManager, id: Id, requested: Option<Id>)
    returns (r: Result<(Id, Patch, Audit), DecisionError>)
    ensures id !in store.View() ==> r == Failure(Missing(IncidentNotFound(id)))
    ensures id in store.View() ==>
              match Preflight(store.View()[id], requested)
              case Failure(refusal) => r == Failure(Refused(refusal))
              case Success((patch, audit)) => r == Success((PatchIdOf(store.View()[id], requested), patch, audit))
    ensures r.Success? <==> id in store.View() && Accepts(store.View()[id], requested)
    ensures r.Success? ==>
              var (patchId, patch, audit) := r.value;
              exists k: nat :: Selects(store.View()[id], requested, patchId, patch, k) && audit == store.View()[id].audits[k]
  {
    hide GetPatch, Accepts, EarliestWith, AuditsFor;
    if id in store.View() {
      PreflightSelects(store.View()[id], requested);
    }
    var awaiting := RequireAwaitingApproval(store, id);
    if awaiting.Failure? {
      return Failure(awaiting.error);
    }
    var patchId;
    if requested.None? {
      var patches := store.ListPatches(id);
      if patches == [] {
        return Failure(Refused(NoPatchAvailable));
      }
      patchId := Last(patches).id;
    } else {
      patchId := requested.value;
    }
    var found := store.GetPatchById(id, patchId);
    if found.Failure? {
      return Failure(Refused(PatchNotFound));
    }
    var matching := AuditsFor(store.ListAudits(id), patchId);
    if matching == [] {
      return Failure(Refused(NoGovernanceAudit));
    }
    var audit := Last(matching);
    if audit.verdict == Block {
      return Failure(Refused(GovernanceBlock));
    }
    r := Success((patchId, found.value, audit));
  }

  // What one `ExecuteAsked` event leaves of these documents, from any state of
  // the incident in which nothing is running.
  ghost predicate IsExecution(before: Slice, requested: Option<Id>, outcome: BackendOutcome, after: Slice) {
    forall c: Cell :: c.run.slice == before && c.inflight == [] ==>
                        ExecuteStep(c, requested, outcome).run.slice == after
  }

  // What one `RejectAsked` event leaves of them, from any state.
  ghost predicate IsRejection(before: Slice, reason: string, after: Slice) {
    forall c: Cell :: c.run.slice == before ==> RejectStep(c, reason).run.slice == after
  }

  lemma HandlerIsOneEvent(s: Slice, requested: Option<Id>, outcome: BackendOutcome)
    ensures match Preflight(s, requested)
            case Failure(_) => IsExecution(s, requested, outcome, s)
            case Success((patch, audit)) =>
              var id := PatchIdOf(s, requested);
              IsExecution(s, requested, outcome, Complete(Approve(s, id, audit), |s.steps| + 2, id, outcome))
  {
    if Preflight(s, requested).Success? {
      forall c: Cell | c.run.slice == s && c.inflight == []
        ensures var (_, audit) := Preflight(s, requested).value;
                var id := PatchIdOf(s, requested);
                ExecuteStep(c, requested, outcome).run.slice
                == Complete(Approve(s, id, audit), |s.steps| + 2, id, outcome)
      {
        ExecutedOnce(c, requested, outcome);
      }
    }
  }

  /** Approve and execute. Every check comes first: a refused request neither
      writes nor runs anything. Otherwise the SQL that is run, once, is that of
      the patch the request selects, that patch and its last audit are what is
      logged, and the backend's answer decides the status. Either way the
      handler is one event of the protocol. */
  method ExecuteIncident(store: InMemoryStateManager, id: Id, requested: Option<Id>, backend: ExecutorBackend)
    returns (r: Result<Incident, DecisionError>)
    requires store.Valid()
    modifies store, store.Queues(), backend
    ensures store.Valid() && store.subscribers == old(store.subscribers)
    ensures r.Failure? ==> store.View() == old(store.View()) && backend.ran == old(backend.ran)
    ensures id !in old(store.View()) ==> r == Failure(Missing(IncidentNotFound(id)))
    ensures id in old(store.View()) && r.Failure? ==>
              r.error.Refused? && Preflight(old(store.View())[id], requested) == Failure(r.error.refusal)
    ensures r.Success? <==> id in old(store.View()) && Accepts(old(store.View())[id], requested)
    ensures r.Success? ==>
              && id in store.View() && store.View() == old(store.View())[id := store.View()[id]]
              && r.value == store.View()[id].record
              && backend.ran != [] && Front(backend.ran) == old(backend.ran)
              && Executes(old(store.View())[id], store.View()[id], requested, Last(backend.ran), backend.answer)
    ensures id in old(store.View()) ==>
              IsExecution(old(store.View())[id], requested, backend.answer, store.View()[id])
  {
    hide Preflight, IsExecution, Executes, Accepts, Complete, Approve, InMemoryStateManager.Valid, InMemoryStateManager.View;
    var checked := CheckApproval(store, id, requested);
    if checked.Failure? {
      if id in store.View() {
        HandlerIsOneEvent(store.View()[id], requested, backend.answer);
      }
      return Failure(checked.error);
    }
    HandlerIsOneEvent(store.View()[id], requested, backend.answer);
    HandlerExecutes(store.View()[id], requested, backend.answer);
    var (patchId, patch, audit) := checked.value;
    r := RunApproved(store, id, patchId, patch, audit, backend);
  }

  // Everything after the checks: the approval entry, the run, its outcome.
  method RunApproved(store: InMemoryStateManager, id: Id, patchId: Id, patch: Patch, audit: Audit, backend: ExecutorBackend)
    returns (r: Result<Incident, DecisionError>)
    requires store.Valid() && id in store.View()
    modifies store, store.Queues(), backend
    ensures store.Valid() && store.subscribers == old(store.subscribers)
    ensures var s := old(store.View())[id];
            store.View() == old(store.View())[id :=
              Complete(Approve(s, patchId, audit), |s.steps| + 2, patchId, backend.answer)]
    ensures backend.ran == old(backend.ran) + [patch.productionSql]
    ensures r == Success(store.View()[id].record)
  {
    hide Complete, InMemoryStateManager.Valid;
    store.RecordId(id);
    var sequence := |store.ListSteps(id)| + 1;
    var _ := store.AppendStep(id, StepLog(sequence, id, UserDecision, Human, Ok, None, map[],
                                          Note.Approved(patchId, audit.id, audit.verdict)));
    assert forall q :: q in store.Queues() ==> q as object != backend;
    var outcome := backend.Execute(patch.productionSql);
    r := RecordOutcome(store, id, sequence + 1, patchId, outcome);
  }

  // The execution entry and the final status.
  method RecordOutcome(store: InMemoryStateManager, id: Id, sequence: nat, patchId: Id, outcome: BackendOutcome)
    returns (r: Result<Incident, DecisionError>)
    requires store.Valid() && id in store.View()
    modifies store, store.Queues()
    ensures store.Valid() && store.subscribers == old(store.subscribers)
    ensures store.View() == old(store.View())[id := Complete(old(store.View())[id], sequence, patchId, outcome)]
    ensures r == Success(store.View()[id].record)
  {
    hide InMemoryStateManager.Valid, InMemoryStateManager.View;
    store.RecordId(id);
    var updated;
    match outcome {
      case RanOk =>
        var _ := store.AppendStep(id, StepLog(sequence, id, Execution, Executor, Ok, None, map[], Ran(patchId)));
        updated := store.UpdateIncident(id, NO_UPDATE.(status := Set(Resolved)));
      case RaisedError(message) =>
        var _ := store.AppendStep(id, StepLog(sequence, id, Execution, Executor, Errored, None, map[],
                                              RunFailed(patchId, message)));
        updated := store.UpdateIncident(id, NO_UPDATE.(status := Set(Failed),
                                                       error := Set(Some(EXECUTION_FAILED + message))));
    }
    r := Success(updated.value);
  }

  method RejectIncident(store: InMemoryStateManager, id: Id, reason: string) returns (r: Result<Incident, DecisionError>)
    requires store.Valid()
    modifies store, store.Queues()
    ensures store.Valid() && store.subscribers == old(store.subscribers)
    ensures r.Failure? ==> store.View() == old(store.View())
    ensures r.Success? <==> id in old(store.View()) && old(store.View())[id].record.status == AwaitingApproval
    ensures r.Success? ==>
              && store.View() == old(store.View())[id := Reject(old(store.View())[id], reason)]
              && r == Success(store.View()[id].record)
    ensures id in old(store.View()) ==> IsRejection(old(store.View())[id], reason, store.View()[id])
    ensures r.Success? ==>
              var (s, s') := (old(store.View())[id], store.View()[id]);
              var text := if reason == "" then "Rejected by human reviewer." else reason;
              s' == s.(record := s.record.(status := Rejected),
                       steps := s.steps + [StepLog(|s.steps| + 1, s.record.id, UserDecision, Human, Ok, None, map[],
                                                   Message(text))])
  {
    hide InMemoryStateManager.Valid;
    var awaiting := RequireAwaitingApproval(store, id);
    if awaiting.Failure? {
      return Failure(awaiting.error);
    }
    store.RecordId(id);
    var sequence := |store.ListSteps(id)| + 1;
    var text := if reason == "" then "Rejected by human reviewer." else reason;
    var _ := store.AppendStep(id, StepLog(sequence, id, UserDecision, Human, Ok, None, map[], Message(text)));
    var updated := store.UpdateIncident(id, NO_UPDATE.(status := Set(Rejected)));
    r := Success(updated.value);
  }
}
