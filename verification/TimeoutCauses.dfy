/** Why a run failed with `incident_timeout_exceeded`: the budget of the
    incident ran out, or a single model turn timed out. The record does not
    tell them apart; the last log entry does. */
module TimeoutCauses {
  import opened Lifecycle
  import opened LifecycleSafety
  import opened Models
  import opened Prelude
  import opened RunLog
  import opened StepLogGrammar

  predicate TurnTimesOut(r: Run, x: Input) {
    r.pc.AwaitModel? && !x.interrupted && x.model.TurnTimeout?
  }

  // The budget runs out at a point where the run is suspended.
  predicate IsCutShort(r: Run, x: Input)
    requires WellFormed(r)
  {
    !r.pc.Done? && x.interrupted && (r.pc.AwaitTool? ==> IsTool(ToolName(r.pc.response.calls[|r.pc.parts|])))
  }

  ghost predicate ATurnTimedOut(s: Slice, script: nat -> Input, n: nat, settings: Settings) {
    exists m | 0 <= m < n :: TurnTimesOut(Feed(Start(s), script, m, settings), script(m))
  }

  ghost predicate WasCutShort(s: Slice, script: nat -> Input, n: nat, settings: Settings) {
    exists m | 0 <= m < n :: IsCutShort(Feed(Start(s), script, m, settings), script(m))
  }

  // The log ends in a model turn that timed out.
  predicate EndsTimedOut(log: seq<StepLog>) {
    log != [] && Last(log).kind == ModelTurn && Last(log).status == TimedOut
  }

  lemma OpenLogHasNotTimedOut(log: seq<StepLog>)
    requires Accepted(log) && !Scan(log).Closed?
    ensures !EndsTimedOut(log)
  {
  }

  lemma FaultText(kind: string, message: string)
    ensures kind + ": " + message != INCIDENT_TIMEOUT
  {
    assert (kind + ": " + message)[|kind|] == ':';
    assert ':' !in INCIDENT_TIMEOUT;
  }

  // One step of a run that is still going.
  lemma StepCause(r: Run, x: Input, settings: Settings)
    requires WellFormed(r) && InPhase(r) && Audited(r) && Logged(r, settings) && !r.pc.Done?
    ensures var r' := Resume(r, x, settings);
            && (EndsTimedOut(r'.slice.steps) <==> TurnTimesOut(r, x))
            && (r'.slice.record.error == Some(INCIDENT_TIMEOUT) <==> TurnTimesOut(r, x) || IsCutShort(r, x))
            && (r'.slice.record.error.Some? ==> r'.pc.Done?)
  {
    ResumeInvariant(r, x, settings);
    ResumeLogged(r, x, settings);
    LogOpen(r, settings);
    OpenLogHasNotTimedOut(r.slice.steps);
    var r' := Resume(r, x, settings);
    if !r'.pc.Done? || r'.pc.exit != Threw {
      LogOpen(r', settings);
      OpenLogHasNotTimedOut(r'.slice.steps);
    }
    match r.pc
    case Fresh => FreshCause(r, x, settings);
    case AwaitModel(_, _, _, _) => ModelCause(r, x, settings);
    case AwaitTool(_, _, _, _, _, _) => ToolCause(r, x, settings);
    case AwaitAudit(_, _, _) => AuditCause(r, x, settings);
  }

  lemma LogOpen(r: Run, settings: Settings)
    requires Logged(r, settings) && (r.pc.Done? ==> r.pc.exit != Threw)
    ensures Accepted(r.slice.steps) && !Scan(r.slice.steps).Closed?
  {
  }

  lemma PhaseError(r: Run)
    requires InPhase(r) && !r.pc.Done?
    ensures r.slice.record.error.None?
  {
  }

  lemma FreshCause(r: Run, x: Input, settings: Settings)
    requires r.pc.Fresh? && InPhase(r)
    ensures var r' := Resume(r, x, settings);
            && (r'.pc.Done? && r'.pc.exit == Threw ==> r'.slice.steps == r.slice.steps)
            && (r'.slice.record.error == Some(INCIDENT_TIMEOUT) <==> x.interrupted)
            && (r'.slice.record.error.Some? ==> r'.pc.Done?)
  {
    PhaseError(r);
    hide InPhase;
  }

  lemma ModelCause(r: Run, x: Input, settings: Settings)
    requires r.pc.AwaitModel? && InPhase(r)
    ensures WellFormed(r)
    ensures var r' := Resume(r, x, settings);
            && (r'.pc.Done? && r'.pc.exit == Threw ==>
                  if x.interrupted then r'.slice.steps == r.slice.steps
                  else EndsTimedOut(r'.slice.steps) <==> x.model.TurnTimeout?)
            && (!x.interrupted && x.model.TurnTimeout? ==> r'.pc.Done? && r'.pc.exit == Threw)
            && (r'.slice.record.error == Some(INCIDENT_TIMEOUT) <==> x.interrupted || x.model.TurnTimeout?)
            && (r'.slice.record.error.Some? ==> r'.pc.Done?)
  {
    hide NextCall, NeedsAudit, FinishStatus, InPhase;
    PhaseError(r);
    if !x.interrupted {
      match x.model
      case Answer(response) =>
        var s := Append(r.slice, ModelEntry(r.slice.record.id, r.pc.sequence, Ok, NoNote));
        NextCallError(s, r.pc.turn, r.pc.sequence + 1, response, [], false, r.pc.contents + [ModelContent(response)], settings);
        FinishError(s);
      case TurnTimeout =>
      case Fault(_, kind, message) => FaultText(kind, message);
    }
  }

  lemma NextCallError(s: Slice, turn: nat, sequence: nat, response: Response, parts: seq<(string, ToolReply)>,
                      blocked: bool, contents: seq<Content>, settings: Settings)
    requires s.record.error.None?
    ensures var r := NextCall(s, turn, sequence, response, parts, blocked, contents, settings);
            && r.slice.record.error != Some(INCIDENT_TIMEOUT)
            && (r.slice.record.error.Some? ==> r.pc.Done?)
            && (r.pc.Done? ==> r.pc.exit != Threw)
  {
    assert TURNS_EXHAUSTED[0] != INCIDENT_TIMEOUT[0];
  }

  lemma FinishError(s: Slice)
    ensures FinishStatus(s).1 != Some(INCIDENT_TIMEOUT)
  {
    assert NO_PATCH[0] != INCIDENT_TIMEOUT[0] && NO_AUDIT[0] != INCIDENT_TIMEOUT[0];
  }

  lemma ToolCause(r: Run, x: Input, settings: Settings)
    requires WellFormed(r) && r.pc.AwaitTool? && InPhase(r)
    ensures var r' := Resume(r, x, settings);
            && (r'.pc.Done? && r'.pc.exit == Threw ==> r'.slice.steps == r.slice.steps)
            && (r'.slice.record.error == Some(INCIDENT_TIMEOUT) <==> IsCutShort(r, x))
            && (r'.slice.record.error.Some? ==> r'.pc.Done?)
  {
    hide CallTool, NextCall, InPhase;
    PhaseError(r);
    var pc := r.pc;
    var call := pc.response.calls[|pc.parts|];
    var (s', reply) := CallTool(r.slice, call, pc.sequence, x.tool, settings);
    ToolError(r.slice, call, pc.sequence, x.tool, settings);
    NextCallError(s', pc.turn, pc.sequence + 1, pc.response, pc.parts + [(call.name, reply)],
                  pc.blocked || reply.IsBlock(), pc.contents, settings);
  }

  lemma ToolError(s: Slice, call: FunctionCall, sequence: nat, x: ToolOutcome, settings: Settings)
    ensures CallTool(s, call, sequence, x, settings).0.record == s.record
  {
    hide CallTool;
    CallToolWrites(s, call, sequence, x, settings);
  }

  lemma AuditCause(r: Run, x: Input, settings: Settings)
    requires WellFormed(r) && r.pc.AwaitAudit? && InPhase(r)
    ensures var r' := Resume(r, x, settings);
            && r'.slice.steps == r.slice.steps
            && (r'.slice.record.error == Some(INCIDENT_TIMEOUT) <==> x.interrupted)
            && r'.pc.Done?
  {
    hide AutoAudit, FinishStatus, InPhase;
    PhaseError(r);
    AutoAuditSteps(r.slice, x.tool, settings);
    FinishError(AutoAudit(r.slice, x.tool, settings));
  }

  /** At every point of every run: the log ends in a timed-out model turn
      exactly when a turn timed out, and the incident carries
      `incident_timeout_exceeded` exactly when a turn timed out or the run was
      cut short. */
  lemma {:induction false} TimeoutIsTold(s: Slice, script: nat -> Input, n: nat, settings: Settings)
    requires IsIngested(s)
    ensures var r := Feed(Start(s), script, n, settings);
            && (EndsTimedOut(r.slice.steps) <==> ATurnTimedOut(s, script, n, settings))
            && (r.slice.record.error == Some(INCIDENT_TIMEOUT)
                <==> ATurnTimedOut(s, script, n, settings) || WasCutShort(s, script, n, settings))
  {
    hide Resume, Audited, Logged, InPhase, EndsTimedOut, TurnTimesOut, IsCutShort;
    if n == 0 {
      StartIsClean(s);
    } else {
      var r := Feed(Start(s), script, n - 1, settings);
      var x := script(n - 1);
      TimeoutIsTold(s, script, n - 1, settings);
      FeedInvariant(s, script, n - 1, settings);
      FeedLogged(s, script, n - 1, settings);
      OneMore(s, script, n - 1, settings);
      if r.pc.Done? {
        DoneStays(r, x, settings);
      } else {
        PhaseError(r);
        StepCause(r, x, settings);
      }
    }
  }

  lemma StartIsClean(s: Slice)
    requires IsIngested(s)
    ensures !EndsTimedOut(s.steps) && s.record.error.None?
  {
  }

  lemma DoneStays(r: Run, x: Input, settings: Settings)
    requires r.pc.Done?
    ensures WellFormed(r) && Resume(r, x, settings) == r && !TurnTimesOut(r, x) && !IsCutShort(r, x)
  {
  }

  lemma OneMore(s: Slice, script: nat -> Input, n: nat, settings: Settings)
    ensures var r := Feed(Start(s), script, n, settings);
            && (ATurnTimedOut(s, script, n + 1, settings) <==> ATurnTimedOut(s, script, n, settings) || TurnTimesOut(r, script(n)))
            && (WasCutShort(s, script, n + 1, settings) <==> WasCutShort(s, script, n, settings) || IsCutShort(r, script(n)))
  {
    hide Feed;
  }
}
