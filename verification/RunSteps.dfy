/** One step of a run from each point at which it is suspended, as far as the
    log, the record and the transcript are concerned. */
module RunSteps {
  import opened Lifecycle
  import opened LifecycleSafety
  import opened Models
  import opened Prelude
  import opened ToolResults

  function Turn(r: Run, status: StepStatus, note: Note): StepLog
    requires r.pc.AwaitModel?
  {
    StepLog(r.pc.sequence, r.slice.record.id, ModelTurn, Orchestrator, status, None, map[], note)
  }

  function Called(s: Slice, sequence: nat, call: FunctionCall): StepLog {
    StepLog(sequence, s.record.id, ToolCall, AgentFor(call), Running, Some(NameFor(call)), call.args, NoNote)
  }

  // The run is over with an error that the loop did not foresee.
  predicate FailsWith(s: Slice, r: Run, error: string) {
    && r.pc.Done? && r.pc.exit == Threw
    && r.slice == s.(record := s.record.(status := Failed, error := Some(error)))
  }

  predicate Suspends(r: Run) {
    match r.pc
    case AwaitTool(_, _, response, parts, _, _) => |parts| < |response.calls| && Known(response.calls[|parts|])
    case Done(_, _) => false
    case _ => true
  }

  /** The incident budget running out ends a run at every point where it is
      suspended, and nowhere else; it writes nothing but the failure. */
  lemma BudgetEndsRun(r: Run, x: Input, settings: Settings)
    requires WellFormed(r) && x.interrupted
    ensures if Suspends(r) then FailsWith(r.slice, Resume(r, x, settings), "incident_timeout_exceeded")
            else Resume(r, x, settings) == Resume(r, x.(interrupted := false), settings)
  {
    hide NextCall, CallTool, FinishStatus, NeedsAudit, AutoAudit;
    if r.pc.AwaitTool? {
      TakesIs(r.slice.record.id, r.pc.response.calls[|r.pc.parts|]);
    }
  }

  /** A fresh run marks its incident DIAGNOSING and opens the transcript with
      it; the first turn is numbered 1 and takes step number 1. */
  lemma RunStarts(s: Slice, x: Input, settings: Settings)
    requires !x.interrupted && settings.maxTurns >= 1
    ensures var s' := s.(record := s.record.(status := Diagnosing));
            Resume(Start(s), x, settings) == Run(s', AwaitModel(1, 1, 1, [Prompt(s'.record)]))
  {
  }

  /** A turn that is not answered: a timeout ends the run, and so does a fault
      that may not be retried or has been often enough; any other fault is
      logged as one more failed attempt of the same turn. */
  lemma UnansweredTurn(r: Run, x: Input, settings: Settings)
    requires r.pc.AwaitModel? && !x.interrupted && !x.model.Answer?
    ensures WellFormed(r)
    ensures var (s, r') := (r.slice, Resume(r, x, settings));
            match x.model
            case Answer(_) => true
            case TurnTimeout =>
              FailsWith(s.(steps := s.steps + [Turn(r, TimedOut, NoNote)]), r', "incident_timeout_exceeded")
            case Fault(retryable, kind, message) =>
              if retryable && r.pc.attempt < settings.maxAttempts then
                r' == Run(s.(steps := s.steps + [Turn(r, Errored, AttemptFailed(r.pc.attempt, message))]),
                          r.pc.(attempt := r.pc.attempt + 1))
              else
                FailsWith(s.(steps := s.steps + [Turn(r, Errored, Message(message))]), r', kind + ": " + message)
  {
  }

  /** A turn answered with calls logs the turn and the first call, with all its
      arguments, under the next two numbers, and waits for that tool. */
  lemma CallsBegin(r: Run, x: Input, settings: Settings)
    requires r.pc.AwaitModel? && !x.interrupted && x.model.Answer? && x.model.response.calls != []
    ensures WellFormed(r)
    ensures var (s, pc, response) := (r.slice, r.pc, x.model.response);
            Resume(r, x, settings)
            == Run(s.(steps := s.steps + [Turn(r, Ok, NoNote), Called(s, pc.sequence + 1, response.calls[0])]),
                   AwaitTool(pc.turn, pc.sequence + 2, response, [], false, pc.contents + [ModelContent(response)]))
  {
    var s := r.slice;
    assert s.steps + [Turn(r, Ok, NoNote)] + [Called(s, r.pc.sequence + 1, x.model.response.calls[0])]
           == s.steps + [Turn(r, Ok, NoNote), Called(s, r.pc.sequence + 1, x.model.response.calls[0])];
  }

  /** A tool's reply goes to the model under the name it was called by. The
      next call of the turn follows; after the last one the whole turn's
      replies join the transcript, and the run is rejected if any of them was
      a BLOCK, goes on to the next turn if one is left, or fails. */
  lemma ToolAnswered(r: Run, x: Input, settings: Settings)
    requires WellFormed(r) && r.pc.AwaitTool? && !x.interrupted
    ensures var (pc, r') := (r.pc, Resume(r, x, settings));
            var call := pc.response.calls[|pc.parts|];
            var (s, reply) := CallTool(r.slice, call, pc.sequence, x.tool, settings);
            var parts := pc.parts + [(call.name, reply)];
            var blocked := pc.blocked || (reply.AuditReply? && reply.verdict == Block);
            var contents := pc.contents + [ToolResponses(parts)];
            var counted := s.(record := s.record.(turnCount := pc.turn));
            if |parts| < |pc.response.calls| then
              r' == Run(s.(steps := s.steps + [Called(s, pc.sequence + 1, pc.response.calls[|parts|])]),
                        AwaitTool(pc.turn, pc.sequence + 2, pc.response, parts, blocked, pc.contents))
            else if blocked then
              r' == Run(counted.(record := counted.record.(status := Rejected)), Done(Blocked, contents))
            else if pc.turn < settings.maxTurns then
              r' == Run(counted, AwaitModel(pc.turn + 1, pc.sequence + 1, 1, contents))
            else
              r' == Run(counted.(record := counted.record.(status := Failed, error := Some("turn_budget_exhausted"),
                                                           turnCount := settings.maxTurns)),
                        Done(OutOfTurns, contents))
  {
    hide CallTool;
  }
}
