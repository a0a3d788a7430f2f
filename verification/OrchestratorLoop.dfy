/** The orchestrator's nested loops over the shared store, proved to be the
    run of the protocol machine on the documents of its incident, and on
    nothing else. */
module OrchestratorLoop {
  import opened BqSandbox
  import opened InMemoryStore
  import opened Lifecycle
  import opened LifecycleSafety
  import opened Models
  import opened Prelude
  import opened RunEndings
  import opened StepStreams
  import opened Text
  import opened Tools

  // How an awaited call ends when it does not return.
  datatype Exc = Cancelled | TimeoutError | Error(message: string)

  datatype Flow<+T> = Got(value: T) | Unwound(error: Exc)

  // What `run` records for it; a timeout of one turn looks like a timeout of
  // the incident.
  function ErrorText(e: Exc): string {
    match e
    case Cancelled => INCIDENT_TIMEOUT
    case TimeoutError => INCIDENT_TIMEOUT
    case Error(message) => message
  }

  lemma FeedNext(start: Run, script: nat -> Input, p: nat, settings: Settings)
    requires WellFormed(start)
    ensures Feed(start, script, p + 1, settings) == Resume(Feed(start, script, p, settings), script(p), settings)
  {
  }

  class WardenOrchestrator {
    const store: InMemoryStateManager
    const settings: Settings

    constructor (store: InMemoryStateManager, settings: Settings)
      ensures this.store == store && this.settings == settings
    {
      this.store := store;
      this.settings := settings;
    }

    // The machine, started as `start`, has consumed `p` inputs.
    ghost function Machine(start: Run, script: nat -> Input, p: nat): Run
      requires WellFormed(start)
    {
      Feed(start, script, p, settings)
    }

    // Only the documents of `id` differ from `before`.
    ghost predicate Confined(before: map<Id, Slice>, id: Id)
      reads store
    {
      && id in before && id in store.View()
      && store.View() == before[id := store.View()[id]]
    }

    // ---------- One model turn ----------

    // `call_with_retry`: the input that decided the turn, with one failed
    // attempt logged for every retry before it.
    method CallWithRetry(id: Id, turn: nat, sequence: nat, contents: seq<Content>, script: nat -> Input, p: nat,
                         ghost start: Run)
      returns (x: Input, p': nat, attempt: nat)
      requires store.Valid() && id in store.View() && WellFormed(start)
      requires Machine(start, script, p) == Run(store.View()[id], AwaitModel(turn, sequence, 1, contents))
      modifies store, store.Queues()
      ensures store.Valid() && store.subscribers == old(store.subscribers) && Confined(old(store.View()), id)
      ensures p' == p + attempt && attempt >= 1 && x == script(p' - 1)
      ensures Machine(start, script, p' - 1) == Run(store.View()[id], AwaitModel(turn, sequence, attempt, contents))
      ensures !x.interrupted && x.model.Fault? && x.model.retryable ==> attempt >= settings.maxAttempts
      ensures forall i | p <= i < p' - 1 ::
                !script(i).interrupted && script(i).model.Fault? && script(i).model.retryable && i - p + 1 < settings.maxAttempts
    {
      hide InMemoryStateManager.Valid, InMemoryStateManager.View, Feed;
      attempt := 1;
      p' := p + 1;
      x := script(p);
      while !x.interrupted && x.model.Fault? && x.model.retryable && attempt < settings.maxAttempts
        invariant store.Valid() && store.subscribers == old(store.subscribers) && Confined(old(store.View()), id)
        invariant p' == p + attempt && attempt >= 1 && x == script(p' - 1)
        invariant forall i | p <= i < p' - 1 ::
                    && !script(i).interrupted && script(i).model.Fault? && script(i).model.retryable
                    && i - p + 1 < settings.maxAttempts
        invariant Machine(start, script, p' - 1) == Run(store.View()[id], AwaitModel(turn, sequence, attempt, contents))
        decreases settings.maxAttempts - attempt
      {
        FeedNext(start, script, p' - 1, settings);
        store.RecordId(id);
        var _ := store.AppendStep(id, ModelEntry(id, sequence, Errored, AttemptFailed(attempt, x.model.message)));
        attempt := attempt + 1;
        x := script(p');
        p' := p' + 1;
      }
    }

    method CallModelTurn(id: Id, turn: nat, sequence: nat, contents: seq<Content>, script: nat -> Input, p: nat,
                         ghost start: Run)
      returns (r: Flow<Response>, p': nat)
      requires store.Valid() && id in store.View() && WellFormed(start)
      requires Machine(start, script, p) == Run(store.View()[id], AwaitModel(turn, sequence, 1, contents))
      modifies store, store.Queues()
      ensures store.Valid() && store.subscribers == old(store.subscribers) && Confined(old(store.View()), id)
      ensures match r
              case Got(response) =>
                Machine(start, script, p') == Answered(store.View()[id], turn, sequence + 1, response, contents, settings)
              case Unwound(e) =>
                Machine(start, script, p') == Fail(store.View()[id], ErrorText(e), contents)
    {
      hide Answered, Fail, Feed, InMemoryStateManager.Valid, InMemoryStateManager.View;
      var x, attempt;
      x, p', attempt := CallWithRetry(id, turn, sequence, contents, script, p, start);
      FeedNext(start, script, p' - 1, settings);
      store.RecordId(id);
      if x.interrupted {
        return Unwound(Cancelled), p';
      }
      match x.model {
        case Answer(response) =>
          var _ := store.AppendStep(id, ModelEntry(id, sequence, Ok, NoNote));
          r := Got(response);
        case TurnTimeout =>
          var _ := store.AppendStep(id, ModelEntry(id, sequence, TimedOut, NoNote));
          r := Unwound(TimeoutError);
        case Fault(_, kind, message) =>
          var _ := store.AppendStep(id, ModelEntry(id, sequence, Errored, Message(message)));
          r := Unwound(Error(kind + ": " + message));
      }
    }

    // ---------- One tool call ----------

    method CallToolOnce(id: Id, call: FunctionCall, sequence: nat, x: ToolOutcome) returns (reply: ToolReply)
      requires store.Valid() && id in store.View()
      modifies store, store.Queues()
      ensures store.Valid() && store.subscribers == old(store.subscribers) && Confined(old(store.View()), id)
      ensures (store.View()[id], reply) == CallTool(old(store.View())[id], call, sequence, x, settings)
    {
      hide RunTool, Dispatch, InMemoryStateManager.Valid, InMemoryStateManager.View;
      store.RecordId(id);
      var name := ToolName(call);
      if !IsTool(name) {
        var _ := store.AppendStep(id, ResultEntry(id, sequence, call, Errored, Message(NO_IMPLEMENTATION)));
        return ErrorReply("UNKNOWN_TOOL");
      }
      var args := call.args["incident_id" := Text(id)];
      DispatchOwn(store.View(), id, name, args, x, settings);
      var end := Invoke(store, name, args, x, settings);
      match end {
        case RanOutOfTime =>
          reply := ErrorReply("TIMEOUT");
          var _ := store.AppendStep(id, ResultEntry(id, sequence, call, TimedOut, Message(TOOL_TIMEOUT)));
        case Raised(message) =>
          reply := ErrorReply("TOOL_EXCEPTION");
          var _ := store.AppendStep(id, ResultEntry(id, sequence, call, Errored, Message(message)));
        case Returned(result) =>
          reply := result;
          var _ := store.AppendStep(id, ResultEntry(id, sequence, call, Ok, NoNote));
      }
    }

    // `_call_tool`, from the logged call to the logged result.
    method CallOneTool(id: Id, turn: nat, sequence: nat, response: Response, parts: seq<(string, ToolReply)>,
                       blocked: bool, contents: seq<Content>, script: nat -> Input, p: nat, ghost start: Run)
      returns (r: Flow<ToolReply>, p': nat)
      requires store.Valid() && id in store.View() && WellFormed(start)
      requires |parts| < |response.calls|
      requires Machine(start, script, p)
               == NextCall(store.View()[id], turn, sequence, response, parts, blocked, contents, settings)
      modifies store, store.Queues()
      ensures store.Valid() && store.subscribers == old(store.subscribers) && Confined(old(store.View()), id)
      ensures match r
              case Got(reply) =>
                Machine(start, script, p')
                == NextCall(store.View()[id], turn, sequence + 2, response,
                            parts + [(response.calls[|parts|].name, reply)], blocked || reply.IsBlock(), contents, settings)
              case Unwound(e) =>
                Machine(start, script, p') == Fail(store.View()[id], ErrorText(e), contents)
    {
      hide CallTool, Fail, Feed, InMemoryStateManager.Valid, InMemoryStateManager.View;
      store.RecordId(id);
      var call := response.calls[|parts|];
      var _ := store.AppendStep(id, CallEntry(id, sequence, call));
      assert Machine(start, script, p)
             == Run(store.View()[id], AwaitTool(turn, sequence + 1, response, parts, blocked, contents));
      FeedNext(start, script, p, settings);
      hide NextCall;
      var x := script(p);
      p' := p + 1;
      if x.interrupted && IsTool(ToolName(call)) {
        return Unwound(Cancelled), p';
      }
      var reply := CallToolOnce(id, call, sequence + 1, x.tool);
      r := Got(reply);
    }

    // ---------- Finishing ----------

    // When no audit is due nothing happens; when one is, it takes one input.
    ghost predicate AuditedIfDue(s: Slice, s': Slice, x: Input, got: bool, used: nat) {
      if AuditDue(s) then
        && used == 1 && (got <==> !x.interrupted)
        && s' == (if x.interrupted then s else AutoAudit(s, x.tool, settings))
      else s' == s && got && used == 0
    }

    method EnsureGovernanceIfNeeded(id: Id, turn: nat, response: Response, contents: seq<Content>,
                                    script: nat -> Input, p: nat, ghost start: Run)
      returns (r: Flow<()>, p': nat)
      requires store.Valid() && id in store.View() && WellFormed(start)
      requires Machine(start, script, p)
               == if NeedsAudit(store.View()[id]) then Run(store.View()[id], AwaitAudit(turn, response, contents))
                  else Finish(store.View()[id], turn, response, contents)
      modifies store, store.Queues()
      ensures store.Valid() && store.subscribers == old(store.subscribers) && Confined(old(store.View()), id)
      ensures match r
              case Got(_) => Machine(start, script, p') == Finish(store.View()[id], turn, response, contents)
              case Unwound(e) => Machine(start, script, p') == Fail(store.View()[id], ErrorText(e), contents)
      ensures p <= p' && AuditedIfDue(old(store.View())[id], store.View()[id], script(p), r.Got?, p' - p)
    {
      hide Finish, Fail, Feed, VerifyGovernance, AuditDue, InMemoryStateManager.Valid;
      DueIs(store.View()[id]);
      var patches := store.ListPatches(id);
      if patches == [] {
        return Got(()), p;
      }
      var patch := Last(patches);
      if patch.validationStatus != SandboxPass && patch.validationStatus != DryRunOnly {
        return Got(()), p;
      }
      var audits := store.ListAudits(id);
      if AuditsFor(audits, patch.id) != [] {
        return Got(()), p;
      }
      var got := store.GetIncident(id);
      if ParseResourceUri(got.value.resourceUri).Failure? {
        return Got(()), p;
      }
      FeedNext(start, script, p, settings);
      var x := script(p);
      p' := p + 1;
      if x.interrupted {
        return Unwound(Cancelled), p';
      }
      if x.tool.Completes? {
        var _ := VerifyGovernancePolicy(store, id, Text(patch.id), x.tool.services, settings);
      }
      r := Got(());
    }

    // What finally decides the status: what the executor would say.
    method ValidatedFinishStatus(id: Id) returns (status: Status, error: Option<string>)
      requires id in store.View()
      ensures (status, error) == FinishStatus(store.View()[id])
      ensures var s := store.View()[id];
              var asked := Preflight(s.(record := s.record.(status := AwaitingApproval)), None);
              && (status == AwaitingApproval <==> asked.Success?)
              && (status == Rejected <==> asked == Failure(GovernanceBlock))
              && (error.Some? <==> status == Failed)
    {
      FinishMatchesPreflight(store.View()[id]);
      hide Preflight;
      var patches := store.ListPatches(id);
      if patches == [] {
        return Failed, Some(NO_PATCH);
      }
      var patch := Last(patches);
      var matching := AuditsFor(store.ListAudits(id), patch.id);
      if matching == [] {
        return Failed, Some(NO_AUDIT);
      }
      if Last(matching).verdict == Block {
        return Rejected, None;
      }
      return AwaitingApproval, None;
    }

    method FinishRun(id: Id, turn: nat, response: Response, ghost contents: seq<Content>)
      requires store.Valid() && id in store.View()
      modifies store
      ensures store.Valid() && store.subscribers == old(store.subscribers) && Confined(old(store.View()), id)
      ensures store.View()[id] == Finish(old(store.View())[id], turn, response, contents).slice
    {
      var status, error := ValidatedFinishStatus(id);
      var _ := store.UpdateIncident(id, IncidentUpdate(Set(status), Set(Some(response.text)), Set(turn), Set(error)));
    }

    // The calls of one turn, in order.
    method CallTools(id: Id, turn: nat, sequence: nat, response: Response, contents: seq<Content>,
                     script: nat -> Input, p: nat, ghost start: Run)
      returns (r: Flow<(seq<(string, ToolReply)>, bool)>, sequence': nat, p': nat)
      requires store.Valid() && id in store.View() && WellFormed(start)
      requires Machine(start, script, p)
               == NextCall(store.View()[id], turn, sequence, response, [], false, contents, settings)
      modifies store, store.Queues()
      ensures store.Valid() && store.subscribers == old(store.subscribers) && Confined(old(store.View()), id)
      ensures match r
              case Got((parts, blocked)) =>
                && |parts| == |response.calls|
                && sequence' == sequence + 2 * |parts|
                && Machine(start, script, p')
                   == NextCall(store.View()[id], turn, sequence', response, parts, blocked, contents, settings)
              case Unwound(e) => Machine(start, script, p') == Fail(store.View()[id], ErrorText(e), contents)
    {
      hide NextCall, Fail, Feed, InMemoryStateManager.Valid, InMemoryStateManager.View;
      var parts: seq<(string, ToolReply)> := [];
      var blocked := false;
      p' := p;
      sequence' := sequence;
      while |parts| < |response.calls|
        invariant store.Valid() && store.subscribers == old(store.subscribers) && Confined(old(store.View()), id)
        invariant |parts| <= |response.calls| && sequence' == sequence + 2 * |parts|
        invariant Machine(start, script, p')
                  == NextCall(store.View()[id], turn, sequence', response, parts, blocked, contents, settings)
        decreases |response.calls| - |parts|
      {
        var step: Flow<ToolReply>;
        step, p' := CallOneTool(id, turn, sequence', response, parts, blocked, contents, script, p', start);
        if step.Unwound? {
          return Unwound(step.error), sequence', p';
        }
        blocked := blocked || step.value.IsBlock();
        parts := parts + [(response.calls[|parts|].name, step.value)];
        sequence' := sequence' + 2;
      }
      r := Got((parts, blocked));
    }

    // One iteration of the turn loop; `true` means the run is over.
    method OneTurn(id: Id, turn: nat, sequence: nat, contents: seq<Content>, script: nat -> Input, p: nat, ghost start: Run)
      returns (r: Flow<bool>, sequence': nat, contents': seq<Content>, p': nat)
      requires store.Valid() && id in store.View() && WellFormed(start) && turn <= settings.maxTurns
      requires Machine(start, script, p) == StartTurn(store.View()[id], turn, sequence, contents, settings)
      modifies store, store.Queues()
      ensures store.Valid() && store.subscribers == old(store.subscribers) && Confined(old(store.View()), id)
      ensures match r
              case Got(over) =>
                if over then Machine(start, script, p').pc.Done? && Machine(start, script, p').slice == store.View()[id]
                else Machine(start, script, p')
                     == StartTurn(store.View()[id], turn + 1, sequence', contents', settings)
              case Unwound(e) => Machine(start, script, p') == Fail(store.View()[id], ErrorText(e), contents')
    {
      hide Fail, Feed, NeedsAudit, AuditedIfDue, FinishStatus, Finish, StartTurn, InMemoryStateManager.Valid, InMemoryStateManager.View;
      assert StartTurn(store.View()[id], turn, sequence, contents, settings)
             == Run(store.View()[id], AwaitModel(turn, sequence, 1, contents)) by {
        InBudget(store.View()[id], turn, sequence, contents, settings);
      }
      contents' := contents;
      sequence' := sequence + 1;
      var turned: Flow<Response>;
      turned, p' := CallModelTurn(id, turn, sequence, contents, script, p, start);
      if turned.Unwound? {
        r := Unwound(turned.error);
        return;
      }
      var response := turned.value;
      contents' := contents + [ModelContent(response)];
      if response.calls == [] {
        var ensured: Flow<()>;
        ensured, p' := EnsureGovernanceIfNeeded(id, turn, response, contents', script, p', start);
        if ensured.Unwound? {
          r := Unwound(ensured.error);
          return;
        }
        FinishRun(id, turn, response, contents');
        FinishEnds(Machine(start, script, p'), turn, response, contents');
        r := Got(true);
        return;
      }
      var called: Flow<(seq<(string, ToolReply)>, bool)>;
      called, sequence', p' := CallTools(id, turn, sequence + 1, response, contents', script, p', start);
      if called.Unwound? {
        r := Unwound(called.error);
        return;
      }
      var (parts, blocked) := called.value;
      contents' := contents' + [ToolResponses(parts)];
      if blocked {
        var _ := store.UpdateIncident(id, NO_UPDATE.(status := Set(Rejected), turnCount := Set(turn)));
        r := Got(true);
        return;
      }
      var _ := store.UpdateIncident(id, NO_UPDATE.(turnCount := Set(turn)));
      r := Got(false);
    }

    // `_run_loop`, once it is running.
    method RunLoop(id: Id, script: nat -> Input, ghost start: Run) returns (r: Flow<()>, p: nat)
      requires store.Valid() && id in store.View()
      requires start == Run(store.View()[id], Fresh) && !script(0).interrupted
      modifies store, store.Queues()
      ensures store.Valid() && store.subscribers == old(store.subscribers) && Confined(old(store.View()), id)
      ensures match r
              case Got(_) => Machine(start, script, p).pc.Done? && Machine(start, script, p).slice == store.View()[id]
              case Unwound(e) =>
                && Machine(start, script, p).pc.Done?
                && Machine(start, script, p).slice == Fail(store.View()[id], ErrorText(e), []).slice
    {
      hide Feed, Resume, StartTurn, Fail, InMemoryStateManager.Valid, InMemoryStateManager.View;
      FirstStep(start, script, settings);
      var updated := store.UpdateIncident(id, NO_UPDATE.(status := Set(Diagnosing)));
      var contents := [Prompt(updated.value)];
      var turn, sequence := 1, 1;
      p := 1;
      assert Machine(start, script, p) == StartTurn(store.View()[id], turn, sequence, contents, settings);
      while turn <= settings.maxTurns
        invariant store.Valid() && store.subscribers == old(store.subscribers) && Confined(old(store.View()), id)
        invariant 1 <= turn <= settings.maxTurns + 1
        invariant Machine(start, script, p) == StartTurn(store.View()[id], turn, sequence, contents, settings)
        decreases settings.maxTurns + 1 - turn
      {
        var over: Flow<bool>;
        over, sequence, contents, p := OneTurn(id, turn, sequence, contents, script, p, start);
        if over.Unwound? {
          FailEnds(store.View()[id], ErrorText(over.error), contents);
          return Unwound(over.error), p;
        }
        if over.value {
          return Got(()), p;
        }
        turn := turn + 1;
      }
      OutOfTurnsIs(store.View()[id], turn, sequence, contents, settings);
      var _ := store.UpdateIncident(id, NO_UPDATE.(status := Set(Failed), error := Set(Some(TURNS_EXHAUSTED)),
                                                   turnCount := Set(settings.maxTurns)));
      r := Got(());
    }

    // `_fail`: best effort, an unknown incident is ignored.
    method FailRun(id: Id, error: string)
      requires store.Valid()
      modifies store
      ensures store.Valid() && store.subscribers == old(store.subscribers)
      ensures id !in old(store.View()) ==> store.View() == old(store.View())
      ensures id in old(store.View()) ==>
                store.View() == old(store.View())[id := Fail(old(store.View())[id], error, []).slice]
    {
      var _ := store.UpdateIncident(id, NO_UPDATE.(status := Set(Failed), error := Set(Some(error))));
    }

    /** `run` never raises and always ends. What it leaves in the store is the
        machine's run on this incident's documents, after as many inputs as it
        consumed; every other incident is as it was, and an unknown incident
        changes nothing. */
    method RunIncident(id: Id, script: nat -> Input) returns (p: nat)
      requires store.Valid()
      modifies store, store.Queues()
      ensures store.Valid() && store.subscribers == old(store.subscribers)
      ensures id !in old(store.View()) ==> store.View() == old(store.View())
      ensures id in old(store.View()) ==>
                var done := Feed(Run(old(store.View())[id], Fresh), script, p, settings);
                && done.pc.Done?
                && store.View() == old(store.View())[id := done.slice]
      ensures id in old(store.View()) && IsIngested(old(store.View())[id]) ==>
                var s := store.View()[id];
                && s.record.status in {AwaitingApproval, Rejected, Failed}
                && (s.record.error.Some? <==> s.record.status == Failed)
                && (s.record.status == AwaitingApproval ==> Approvable(s))
    {
      hide Feed, Resume, AllGrounded, InMemoryStateManager.Valid, InMemoryStateManager.SliceOf;
      if id !in store.incidents {
        // the first update raises, and so does the one that records it
        FailRun(id, "IncidentNotFoundError");
        return 0;
      }
      ghost var start := Run(store.View()[id], Fresh);
      if script(0).interrupted {
        InterruptedAtOnce(start, script, settings);
        FailRun(id, INCIDENT_TIMEOUT);
        return 1;
      }
      var r;
      r, p := RunLoop(id, script, start);
      if r.Unwound? {
        FailRun(id, ErrorText(r.error));
      }
      if IsIngested(start.slice) {
        FeedInvariant(start.slice, script, p, settings);
      }
    }
  }

  lemma InBudget(s: Slice, turn: nat, sequence: nat, contents: seq<Content>, settings: Settings)
    requires turn <= settings.maxTurns
    ensures StartTurn(s, turn, sequence, contents, settings) == Run(s, AwaitModel(turn, sequence, 1, contents))
  {
  }

  lemma FinishEnds(r: Run, turn: nat, response: Response, contents: seq<Content>)
    requires exists s :: r == Finish(s, turn, response, contents)
    ensures r.pc.Done?
  {
  }

  lemma FailEnds(s: Slice, error: string, contents: seq<Content>)
    ensures Fail(s, error, contents).pc.Done? && Fail(s, error, contents).slice == Fail(s, error, []).slice
  {
  }

  lemma InterruptedAtOnce(start: Run, script: nat -> Input, settings: Settings)
    requires start.pc.Fresh? && script(0).interrupted
    ensures Feed(start, script, 1, settings) == Fail(start.slice, INCIDENT_TIMEOUT, [])
  {
    FeedNext(start, script, 0, settings);
  }

  lemma FirstStep(start: Run, script: nat -> Input, settings: Settings)
    requires start.pc.Fresh? && !script(0).interrupted
    ensures var s := Update(start.slice, NO_UPDATE.(status := Set(Diagnosing)));
            Feed(start, script, 1, settings) == StartTurn(s, 1, 1, [Prompt(s.record)], settings)
  {
    FeedNext(start, script, 0, settings);
  }

  lemma OutOfTurnsIs(s: Slice, turn: nat, sequence: nat, contents: seq<Content>, settings: Settings)
    requires turn > settings.maxTurns
    ensures StartTurn(s, turn, sequence, contents, settings)
            == Run(Update(s, NO_UPDATE.(status := Set(Failed), error := Set(Some(TURNS_EXHAUSTED)),
                                        turnCount := Set(settings.maxTurns))),
                   Done(OutOfTurns, contents))
  {
  }
}
