/** The step log and the transcript a run produces: grammar, counters, and how
    far they can grow. */
module RunLog {
  import opened Lifecycle
  import opened LifecycleSafety
  import opened Models
  import opened Prelude
  import opened StepIds
  import opened StepLogGrammar

  // ---------- The log ----------

  predicate AttemptsBounded(log: seq<StepLog>, settings: Settings) {
    forall e :: e in log && IsRetry(e) ==> e.note.attempt < settings.maxAttempts
  }

  predicate Logged(r: Run, settings: Settings) {
    var st := Scan(r.slice.steps);
    && AttemptsBounded(r.slice.steps, settings)
    && match r.pc
       case Fresh => r.slice.steps == []
       case AwaitModel(turn, sequence, attempt, _) =>
         && 1 <= turn <= settings.maxTurns
         && (if attempt == 1 then st == Ready(sequence) else attempt > 1 && st == Retrying(sequence, attempt - 1))
       case AwaitTool(turn, sequence, response, parts, _, _) =>
         && 1 <= turn <= settings.maxTurns
         && sequence >= 1 && |parts| < |response.calls|
         && st == Calling(sequence - 1, Some(ToolName(response.calls[|parts|])))
       case AwaitAudit(turn, _, _) => 1 <= turn <= settings.maxTurns && st.Ready?
       case Done(Threw, _) => Accepted(r.slice.steps) && !st.Decided?
       case Done(_, _) => st.Ready?
  }

  lemma BoundedSnoc(log: seq<StepLog>, e: StepLog, settings: Settings)
    requires AttemptsBounded(log, settings)
    requires IsRetry(e) ==> e.note.attempt < settings.maxAttempts
    ensures AttemptsBounded(log + [e], settings)
  {
  }

  lemma NextCallLogged(s: Slice, turn: nat, sequence: nat, response: Response, parts: seq<(string, ToolReply)>,
                       blocked: bool, contents: seq<Content>, settings: Settings)
    requires 1 <= turn <= settings.maxTurns
    requires AttemptsBounded(s.steps, settings) && Scan(s.steps) == Ready(sequence)
    ensures Logged(NextCall(s, turn, sequence, response, parts, blocked, contents, settings), settings)
  {
    if |parts| < |response.calls| {
      var e := CallEntry(s.record.id, sequence, response.calls[|parts|]);
      ScanSnoc(s.steps, e);
      BoundedSnoc(s.steps, e, settings);
    }
  }

  lemma ResumeModelLogged(r: Run, x: Input, settings: Settings)
    requires r.pc.AwaitModel? && Logged(r, settings)
    ensures WellFormed(r) && Logged(Resume(r, x, settings), settings)
  {
    hide NextCall, FinishStatus, NeedsAudit, Scan, AttemptsBounded;
    var s := r.slice;
    var e := match x.model
             case Answer(_) => ModelEntry(s.record.id, r.pc.sequence, Ok, NoNote)
             case TurnTimeout => ModelEntry(s.record.id, r.pc.sequence, TimedOut, NoNote)
             case Fault(retryable, _, message) =>
               if retryable && r.pc.attempt < settings.maxAttempts
               then ModelEntry(s.record.id, r.pc.sequence, Errored, AttemptFailed(r.pc.attempt, message))
               else ModelEntry(s.record.id, r.pc.sequence, Errored, Message(message));
    ScanSnoc(s.steps, e);
    BoundedSnoc(s.steps, e, settings);
    if x.model.Answer? && x.model.response.calls != [] {
      NextCallLogged(Append(s, e), r.pc.turn, r.pc.sequence + 1, x.model.response, [], false,
                     r.pc.contents + [ModelContent(x.model.response)], settings);
    }
  }

  lemma ResumeToolLogged(r: Run, x: Input, settings: Settings)
    requires r.pc.AwaitTool? && WellFormed(r) && Logged(r, settings)
    ensures Logged(Resume(r, x, settings), settings)
  {
    hide CallTool, ToolWrites, NextCall;
    var pc := r.pc;
    var call := pc.response.calls[|pc.parts|];
    if !(x.interrupted && IsTool(ToolName(call))) {
      var (s', reply) := CallTool(r.slice, call, pc.sequence, x.tool, settings);
      CallToolWrites(r.slice, call, pc.sequence, x.tool, settings);
      var e :| s'.steps == r.slice.steps + [e] && IsResultOf(e, r.slice, call, pc.sequence);
      ScanSnoc(r.slice.steps, e);
      BoundedSnoc(r.slice.steps, e, settings);
      NextCallLogged(s', pc.turn, pc.sequence + 1, pc.response, pc.parts + [(call.name, reply)],
                     pc.blocked || reply.IsBlock(), pc.contents, settings);
    }
  }

  lemma AutoAuditSteps(s: Slice, x: ToolOutcome, settings: Settings)
    requires s.patches != []
    ensures AutoAudit(s, x, settings).steps == s.steps && AutoAudit(s, x, settings).record == s.record
  {
    if x.Completes? {
      VerifyWrites(s, Text(Last(s.patches).id), x.services, settings);
      ToolKeepsRecord(s, AutoAudit(s, x, settings),
                      VerifyGovernance(s, Text(Last(s.patches).id), x.services, settings).end.Returned?
                      && VerifyGovernance(s, Text(Last(s.patches).id), x.services, settings).end.reply.IsBlock());
    }
  }

  /** Every step of a run extends the log by the grammar. */
  lemma ResumeLogged(r: Run, x: Input, settings: Settings)
    requires WellFormed(r) && Logged(r, settings)
    ensures Logged(Resume(r, x, settings), settings)
  {
    match r.pc
    case Done(_, _) =>
    case Fresh =>
    case AwaitModel(_, _, _, _) => ResumeModelLogged(r, x, settings);
    case AwaitTool(_, _, _, _, _, _) => ResumeToolLogged(r, x, settings);
    case AwaitAudit(_, _, _) => AutoAuditSteps(r.slice, x.tool, settings);
  }

  /** Every log of every run, finished or not, cut short or not, is accepted
      by the grammar, and a run that was not cut short ends between turns. */
  lemma {:induction false} FeedLogged(s: Slice, script: nat -> Input, n: nat, settings: Settings)
    requires IsIngested(s)
    ensures var r := Feed(Start(s), script, n, settings);
            && Logged(r, settings)
            && Accepted(r.slice.steps) && !Scan(r.slice.steps).Decided?
            && (r.pc.Done? && r.pc.exit != Threw ==> Scan(r.slice.steps).Ready?)
  {
    hide Resume;
    if n > 0 {
      FeedLogged(s, script, n - 1, settings);
      ResumeLogged(Feed(Start(s), script, n - 1, settings), script(n - 1), settings);
    }
  }

  // ---------- The transcript and the counters ----------

  predicate AnswersCalls(parts: seq<(string, ToolReply)>, response: Response) {
    && |parts| == |response.calls|
    && forall i :: 0 <= i < |parts| ==> parts[i].0 == response.calls[i].name
  }

  // Prompt, then model turns answered call by call.
  predicate Alternates(contents: seq<Content>) {
    && (contents != [] ==> contents[0].Prompt?)
    && forall i :: 1 <= i < |contents| ==> FitsAt(contents, i)
  }

  predicate FitsAt(contents: seq<Content>, i: nat)
    requires 1 <= i < |contents|
  {
    if i % 2 == 1 then contents[i].ModelContent?
    else contents[i].ToolResponses? && contents[i - 1].ModelContent?
         && AnswersCalls(contents[i].parts, contents[i - 1].response)
  }

  function CallsIn(contents: seq<Content>): nat {
    if contents == [] then 0
    else CallsIn(Front(contents))
         + match Last(contents) case ModelContent(response) => |response.calls| case _ => 0
  }

  lemma CallsInSnoc(contents: seq<Content>, c: Content)
    ensures CallsIn(contents + [c]) == CallsIn(contents)
                                       + match c case ModelContent(response) => |response.calls| case _ => 0
  {
    FrontOfSnoc(contents, c);
  }

  predicate PartsMatch(parts: seq<(string, ToolReply)>, response: Response) {
    && |parts| <= |response.calls|
    && forall i :: 0 <= i < |parts| ==> parts[i].0 == response.calls[i].name
  }

  predicate Counted(r: Run, settings: Settings) {
    var tc := r.slice.record.turnCount;
    var ok := Count(r.slice.steps, OkModelTurns);
    var calls := Count(r.slice.steps, ToolCalls);
    match r.pc
    case Fresh => r.slice.steps == [] && tc == 0
    case AwaitModel(turn, _, _, contents) =>
      && Alternates(contents) && |contents| == 2 * turn - 1
      && tc == ok == turn - 1 && turn <= settings.maxTurns
      && calls == CallsIn(contents)
    case AwaitTool(turn, _, response, parts, _, contents) =>
      && turn >= 1 && Alternates(contents) && |contents| == 2 * turn && Last(contents) == ModelContent(response)
      && |parts| < |response.calls| && PartsMatch(parts, response)
      && tc == turn - 1 && ok == turn <= settings.maxTurns
      && calls + |response.calls| == CallsIn(contents) + |parts| + 1
    case AwaitAudit(turn, response, contents) =>
      && Alternates(contents) && |contents| == 2 * turn
      && tc == turn - 1 && ok == turn <= settings.maxTurns
      && calls == CallsIn(contents)
    case Done(Threw, contents) =>
      && Alternates(contents)
      && tc <= ok <= tc + 1 && ok <= settings.maxTurns
      && calls <= CallsIn(contents) && |contents| <= 2 * ok + 1
    case Done(exit, contents) =>
      && Alternates(contents) && |contents| == (if exit == Finished then 2 * tc else 2 * tc + 1)
      && tc == ok <= settings.maxTurns
      && calls == CallsIn(contents)
  }

  lemma AlternatesSnoc(contents: seq<Content>, c: Content)
    requires Alternates(contents) && contents != []
    requires if |contents| % 2 == 1 then c.ModelContent?
             else c.ToolResponses? && Last(contents).ModelContent? && AnswersCalls(c.parts, Last(contents).response)
    ensures Alternates(contents + [c])
  {
    var longer := contents + [c];
    forall i | 1 <= i < |longer|
      ensures FitsAt(longer, i)
    {
      if i < |contents| {
        assert FitsAt(contents, i);
        assert longer[i] == contents[i] && longer[i - 1] == contents[i - 1];
      } else {
        assert longer[i] == c && longer[i - 1] == Last(contents);
      }
    }
  }

  lemma StartTurnCounted(s: Slice, turn: nat, sequence: nat, contents: seq<Content>, settings: Settings)
    requires turn >= 1 && turn - 1 <= settings.maxTurns
    requires Alternates(contents) && |contents| == 2 * turn - 1
    requires s.record.turnCount == Count(s.steps, OkModelTurns) == turn - 1
    requires Count(s.steps, ToolCalls) == CallsIn(contents)
    ensures Counted(StartTurn(s, turn, sequence, contents, settings), settings)
  {
  }

  lemma NextCallCounted(s: Slice, turn: nat, sequence: nat, response: Response, parts: seq<(string, ToolReply)>,
                        blocked: bool, contents: seq<Content>, settings: Settings)
    requires Alternates(contents) && |contents| == 2 * turn && turn >= 1 && Last(contents) == ModelContent(response)
    requires PartsMatch(parts, response)
    requires s.record.turnCount == turn - 1 && Count(s.steps, OkModelTurns) == turn <= settings.maxTurns
    requires Count(s.steps, ToolCalls) + |response.calls| == CallsIn(contents) + |parts|
    ensures Counted(NextCall(s, turn, sequence, response, parts, blocked, contents, settings), settings)
  {
    if |parts| < |response.calls| {
      hide Alternates, PartsMatch, Update, StartTurn;
      var e := CallEntry(s.record.id, sequence, response.calls[|parts|]);
      CountSnoc(s.steps, e, OkModelTurns);
      CountSnoc(s.steps, e, ToolCalls);
    } else {
      hide Alternates, Count, CallsIn, StartTurn;
      assert AnswersCalls(parts, response);
      AlternatesSnoc(contents, ToolResponses(parts));
      CallsInSnoc(contents, ToolResponses(parts));
      if !blocked {
        StartTurnCounted(Update(s, NO_UPDATE.(turnCount := Set(turn))), turn + 1, sequence,
                         contents + [ToolResponses(parts)], settings);
      }
    }
  }

  lemma AnsweredCounted(s: Slice, turn: nat, sequence: nat, response: Response, contents: seq<Content>, settings: Settings)
    requires turn >= 1 && Alternates(contents) && |contents| == 2 * turn - 1
    requires s.record.turnCount == turn - 1 && Count(s.steps, OkModelTurns) == turn <= settings.maxTurns
    requires Count(s.steps, ToolCalls) == CallsIn(contents)
    ensures Counted(Answered(s, turn, sequence, response, contents, settings), settings)
  {
    hide NextCall, NeedsAudit, FinishStatus, Alternates, Count, CallsIn;
    AlternatesSnoc(contents, ModelContent(response));
    CallsInSnoc(contents, ModelContent(response));
    if response.calls != [] {
      NextCallCounted(s, turn, sequence, response, [], false, contents + [ModelContent(response)], settings);
    }
  }

  lemma ResumeModelCounted(r: Run, x: Input, settings: Settings)
    requires r.pc.AwaitModel? && Counted(r, settings)
    ensures WellFormed(r) && Counted(Resume(r, x, settings), settings)
  {
    hide Answered, Alternates, Count, CallsIn;
    var s, id := r.slice, r.slice.record.id;
    if !x.interrupted {
      match x.model
      case Answer(response) =>
        var e := ModelEntry(id, r.pc.sequence, Ok, NoNote);
        CountSnoc(s.steps, e, OkModelTurns);
        CountSnoc(s.steps, e, ToolCalls);
        AnsweredCounted(Append(s, e), r.pc.turn, r.pc.sequence + 1, response, r.pc.contents, settings);
      case TurnTimeout =>
        var e := ModelEntry(id, r.pc.sequence, TimedOut, NoNote);
        CountSnoc(s.steps, e, OkModelTurns);
        CountSnoc(s.steps, e, ToolCalls);
      case Fault(retryable, _, message) =>
        var e := ModelEntry(id, r.pc.sequence, Errored,
                            if retryable && r.pc.attempt < settings.maxAttempts then AttemptFailed(r.pc.attempt, message)
                            else Message(message));
        CountSnoc(s.steps, e, OkModelTurns);
        CountSnoc(s.steps, e, ToolCalls);
    }
  }

  lemma ResumeToolCounted(r: Run, x: Input, settings: Settings)
    requires r.pc.AwaitTool? && WellFormed(r) && Counted(r, settings)
    ensures Counted(Resume(r, x, settings), settings)
  {
    hide CallTool, ToolWrites, NextCall, Alternates, Count, CallsIn;
    var pc := r.pc;
    var call := pc.response.calls[|pc.parts|];
    if !(x.interrupted && IsTool(ToolName(call))) {
      var (s', reply) := CallTool(r.slice, call, pc.sequence, x.tool, settings);
      CallToolWrites(r.slice, call, pc.sequence, x.tool, settings);
      ToolKeepsRecord(r.slice, s', reply.IsBlock());
      var e :| s'.steps == r.slice.steps + [e] && IsResultOf(e, r.slice, call, pc.sequence);
      CountSnoc(r.slice.steps, e, OkModelTurns);
      CountSnoc(r.slice.steps, e, ToolCalls);
      NextCallCounted(s', pc.turn, pc.sequence + 1, pc.response, pc.parts + [(call.name, reply)],
                      pc.blocked || reply.IsBlock(), pc.contents, settings);
    }
  }

  lemma ResumeCounted(r: Run, x: Input, settings: Settings)
    requires WellFormed(r) && Counted(r, settings)
    ensures Counted(Resume(r, x, settings), settings)
  {
    match r.pc
    case Done(_, _) =>
    case Fresh =>
    case AwaitModel(_, _, _, _) => ResumeModelCounted(r, x, settings);
    case AwaitTool(_, _, _, _, _, _) => ResumeToolCounted(r, x, settings);
    case AwaitAudit(_, _, _) => AutoAuditSteps(r.slice, x.tool, settings);
  }

  /** Transcript, log and turn counter agree at every point of every run; in
      particular no run makes more model turns than its budget, and the
      counter lags by one turn only when the run was cut short. */
  lemma {:induction false} FeedCounted(s: Slice, script: nat -> Input, n: nat, settings: Settings)
    requires IsIngested(s)
    ensures Counted(Feed(Start(s), script, n, settings), settings)
    ensures var r := Feed(Start(s), script, n, settings);
            var ok := Count(r.slice.steps, OkModelTurns);
            && r.slice.record.turnCount <= ok <= r.slice.record.turnCount + 1
            && ok <= settings.maxTurns
            && (r.pc.Done? && r.pc.exit != Threw ==> ok == r.slice.record.turnCount)
  {
    hide Resume;
    if n > 0 {
      FeedCounted(s, script, n - 1, settings);
      ResumeCounted(Feed(Start(s), script, n - 1, settings), script(n - 1), settings);
    }
  }

  // ---------- How large a step number can get ----------

  predicate AtMostCalls(contents: seq<Content>, c: nat) {
    forall k :: k in contents && k.ModelContent? ==> |k.response.calls| <= c
  }

  lemma {:induction false} CallsInBound(contents: seq<Content>, c: nat)
    requires Alternates(contents) && AtMostCalls(contents, c)
    ensures CallsIn(contents) <= c * (|contents| / 2)
  {
    if contents != [] {
      var front := Front(contents);
      assert contents == front + [Last(contents)];
      forall i | 1 <= i < |front|
        ensures FitsAt(front, i)
      {
        assert FitsAt(contents, i);
      }
      CallsInBound(front, c);
      if |contents| % 2 == 0 {
        assert |contents| / 2 == |front| / 2 + 1;
        assert c * (|front| / 2 + 1) == c * (|front| / 2) + c;
      } else {
        assert |contents| / 2 == |front| / 2;
        assert |contents| > 1 ==> FitsAt(contents, |contents| - 1);
      }
    }
  }

  // Without timeouts and fatal errors every final model entry is an OK turn.
  lemma {:induction false} FinalsAreOk(log: seq<StepLog>)
    requires Accepted(log) && !Scan(log).Decided?
    ensures Count(log, FinalTurns) == Count(log, OkModelTurns) + if Scan(log).Closed? then 1 else 0
  {
    if log != [] {
      FinalsAreOk(Front(log));
    }
  }

  /** When a run ends on its own, the next free step number is exactly one
      more than its turns plus two per tool call, whatever was retried; with
      at most `c` calls a turn it is bounded by the budgets alone. */
  lemma NextStepNumber(s: Slice, script: nat -> Input, n: nat, settings: Settings, c: nat)
    requires IsIngested(s)
    requires var r := Feed(Start(s), script, n, settings);
             r.pc.Done? && r.pc.exit != Threw && AtMostCalls(r.pc.contents, c)
    ensures var r := Feed(Start(s), script, n, settings);
            var turns := r.slice.record.turnCount;
            && Scan(r.slice.steps) == Ready(1 + turns + 2 * CallsIn(r.pc.contents))
            && |r.slice.steps| == turns + 2 * CallsIn(r.pc.contents) + Count(r.slice.steps, FailedAttempts)
            && CallsIn(r.pc.contents) <= c * settings.maxTurns
  {
    hide Resume;
    FeedLogged(s, script, n, settings);
    FeedCounted(s, script, n, settings);
    var r := Feed(Start(s), script, n, settings);
    LogLength(r.slice.steps);
    FinalsAreOk(r.slice.steps);
    CallsInBound(r.pc.contents, c);
    var half := |r.pc.contents| / 2;
    assert half <= settings.maxTurns;
    assert c * half <= c * settings.maxTurns by { MulMonotone(c, half, settings.maxTurns); }
  }

  lemma MulMonotone(c: nat, a: nat, b: nat)
    requires a <= b
    ensures c * a <= c * b
  {
  }

  /** Under a budget of T turns with c calls each, the numbers a run and the
      decision after it hand out list in numeric order from a store that sorts
      them as strings, as long as T * (1 + 2c) + 2 stays within four digits. */
  lemma StepNumbersSortAsStrings(s: Slice, script: nat -> Input, n: nat, settings: Settings, c: nat, i: nat, j: nat)
    requires IsIngested(s)
    requires var r := Feed(Start(s), script, n, settings);
             r.pc.Done? && r.pc.exit != Threw && AtMostCalls(r.pc.contents, c)
    requires settings.maxTurns * (1 + 2 * c) + 2 <= 9999
    requires i < j < Issued(Scan(Feed(Start(s), script, n, settings).slice.steps)) + 2
    ensures Less(FormatStepId(i), FormatStepId(j))
  {
    hide Resume, Feed;
    NextStepNumber(s, script, n, settings, c);
    FeedCounted(s, script, n, settings);
    hide Counted, Scan;
    Distributes(settings.maxTurns, c);
    StepIdBelow(i, j);
  }

  lemma Distributes(t: nat, c: nat)
    ensures t * (1 + 2 * c) == t + 2 * (c * t)
  {
  }
}
