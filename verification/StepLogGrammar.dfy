/** The grammar of an incident's step log, as an automaton over its entries,
    and what an accepted log looks like. */
module StepLogGrammar {
  import opened Models
  import opened Prelude

  datatype LogState =
    | Ready(next: nat)                          // between entries of a run
    | Retrying(sequence: nat, failed: nat)      // a model turn with failed attempts
    | Calling(sequence: nat, tool: Option<string>)  // a call without its result
    | Closed(next: nat)                         // the model turn that ended the run
    | Decided(next: nat)                        // human decisions and executions
    | Broken

  predicate IsRetry(e: StepLog) {
    e.kind == ModelTurn && e.status == Errored && e.note.AttemptFailed?
  }

  predicate IsFinal(e: StepLog) {
    e.kind == ModelTurn && !IsRetry(e)
  }

  predicate IsDecision(e: StepLog) {
    e.kind == UserDecision || e.kind == Execution
  }

  function AfterFinal(e: StepLog): LogState {
    if e.status == Ok then Ready(e.sequence + 1) else Closed(e.sequence + 1)
  }

  function Delta(st: LogState, e: StepLog): LogState {
    match st
    case Ready(next) =>
      if IsDecision(e) then Decided(next)
      else if e.sequence != next then Broken
      else if IsRetry(e) then (if e.note.attempt == 1 then Retrying(next, 1) else Broken)
      else if IsFinal(e) then AfterFinal(e)
      else if e.kind == ToolCall then Calling(next, e.toolName)
      else Broken
    case Retrying(sequence, failed) =>
      if e.sequence != sequence then Broken
      else if IsRetry(e) then (if e.note.attempt == failed + 1 then Retrying(sequence, failed + 1) else Broken)
      else if IsFinal(e) then AfterFinal(e)
      else Broken
    case Calling(sequence, tool) =>
      if e.kind == ToolResult && e.sequence == sequence + 1 && e.toolName == tool then Ready(sequence + 2)
      else Broken
    case Closed(_) => Broken
    case Decided(next) => if IsDecision(e) then st else Broken
    case Broken => Broken
  }

  function Scan(log: seq<StepLog>): LogState {
    if log == [] then Ready(1) else Delta(Scan(Front(log)), Last(log))
  }

  lemma ScanSnoc(log: seq<StepLog>, e: StepLog)
    ensures Scan(log + [e]) == Delta(Scan(log), e)
  {
    FrontOfSnoc(log, e);
  }

  predicate Accepted(log: seq<StepLog>) {
    Scan(log) != Broken
  }

  // ---------- Counting entries ----------

  datatype EntryClass = FailedAttempts | FinalTurns | OkModelTurns | ToolCalls | Executions

  predicate InClass(e: StepLog, c: EntryClass) {
    match c
    case FailedAttempts => IsRetry(e)
    case FinalTurns => IsFinal(e)
    case OkModelTurns => e.kind == ModelTurn && e.status == Ok
    case ToolCalls => e.kind == ToolCall
    case Executions => e.kind == Execution
  }

  function Count(log: seq<StepLog>, c: EntryClass): nat {
    if log == [] then 0 else Count(Front(log), c) + if InClass(Last(log), c) then 1 else 0
  }

  lemma CountSnoc(log: seq<StepLog>, e: StepLog, c: EntryClass)
    ensures Count(log + [e], c) == Count(log, c) + if InClass(e, c) then 1 else 0
  {
    FrontOfSnoc(log, e);
  }

  // ---------- What acceptance means ----------

  // The ids handed out so far are 1 .. Issued - 1 (a call's result id is
  // issued with it).
  function Issued(st: LogState): nat {
    match st
    case Ready(next) => next
    case Retrying(sequence, _) => sequence + 1
    case Calling(sequence, _) => sequence + 1
    case Closed(next) => next
    case Decided(next) => next
    case Broken => 0
  }

  lemma {:induction false} PrefixAccepted(log: seq<StepLog>, k: nat)
    requires Accepted(log) && k <= |log|
    ensures Accepted(log[..k])
  {
    if k < |log| {
      PrefixAccepted(Front(log), k);
      assert Front(log)[..k] == log[..k];
    } else {
      assert log[..k] == log;
    }
  }

  /** The length of a log that is between turns: one entry a turn, two a tool
      call, one a retry; and its ids are dense. */
  lemma {:induction false} LogLength(log: seq<StepLog>)
    requires Accepted(log) && !Scan(log).Decided?
    ensures var open := if Scan(log).Calling? then 1 else 0;
            && |log| + open == Count(log, FinalTurns) + 2 * Count(log, ToolCalls) + Count(log, FailedAttempts)
            && Issued(Scan(log)) == 1 + Count(log, FinalTurns) + 2 * Count(log, ToolCalls)
                                      + (if Scan(log).Retrying? then 1 else 0) - open
  {
    if log != [] {
      LogLength(Front(log));
    }
  }

  predicate HasId(log: seq<StepLog>, n: nat) {
    exists i :: 0 <= i < |log| && log[i].sequence == n
  }

  lemma HasIdSnoc(log: seq<StepLog>, e: StepLog, n: nat)
    ensures HasId(log + [e], n) <==> HasId(log, n) || e.sequence == n
  {
    assert (log + [e])[|log|] == e;
    if HasId(log, n) {
      var i :| 0 <= i < |log| && log[i].sequence == n;
      assert (log + [e])[i].sequence == n;
    }
  }

  /** The ids in the log are exactly the issued ones, 1 upwards without gaps. */
  lemma {:induction false} IdsDense(log: seq<StepLog>, n: nat)
    requires Accepted(log) && !Scan(log).Decided?
    ensures HasId(log, n) <==> 1 <= n < Issued(Scan(log))
  {
    if log != [] {
      IdsDense(Front(log), n);
      HasIdSnoc(Front(log), Last(log), n);
      assert Front(log) + [Last(log)] == log;
    }
  }

  /** Ids never decrease along the log, and two entries share one only when
      the earlier is a failed attempt of the same model turn. */
  lemma {:induction false} IdsOrdered(log: seq<StepLog>, i: nat, j: nat)
    requires Accepted(log) && !Scan(log).Decided?
    requires i < j < |log|
    ensures || log[i].sequence < log[j].sequence
            || (log[i].sequence == log[j].sequence && IsRetry(log[i]) && log[j].kind == ModelTurn)
  {
    var front := Front(log);
    if j < |front| {
      IdsOrdered(front, i, j);
    } else {
      OpenTurn(front);
      assert log[i] == front[i];
    }
  }

  // Entries carrying the id of the open model turn are its failed attempts.
  lemma {:induction false} OpenTurn(log: seq<StepLog>)
    requires Accepted(log) && !Scan(log).Decided?
    ensures Scan(log).Retrying? ==>
              forall i :: 0 <= i < |log| && log[i].sequence >= Scan(log).sequence ==> IsRetry(log[i])
    ensures forall i :: 0 <= i < |log| ==> log[i].sequence < Issued(Scan(log))
  {
    if log != [] {
      OpenTurn(Front(log));
    }
  }

  // Where entry `k` sits: the state before it accepts it.
  lemma EntryAccepted(log: seq<StepLog>, k: nat)
    requires Accepted(log) && k < |log|
    ensures Scan(log[..k + 1]) == Delta(Scan(log[..k]), log[k])
    ensures Accepted(log[..k]) && Accepted(log[..k + 1])
  {
    PrefixAccepted(log, k);
    PrefixAccepted(log, k + 1);
    assert log[..k + 1] == log[..k] + [log[k]];
    ScanSnoc(log[..k], log[k]);
  }

  /** Neighbours in a log. A tool call is followed at once by its result, with
      the next id and the same tool, unless it is the last entry; a result
      follows its call. Failed attempts are numbered from 1 without gaps and
      are followed by the next attempt of the same turn. Nothing of the run
      follows a decision. */
  lemma Neighbours(log: seq<StepLog>, k: nat)
    requires Accepted(log) && k + 1 < |log|
    ensures log[k].kind == ToolCall ==>
              && log[k + 1].kind == ToolResult
              && log[k + 1].sequence == log[k].sequence + 1
              && log[k + 1].toolName == log[k].toolName
    ensures log[k + 1].kind == ToolResult ==> log[k].kind == ToolCall
    ensures IsRetry(log[k]) ==> log[k + 1].kind == ModelTurn && log[k + 1].sequence == log[k].sequence
    ensures IsRetry(log[k + 1]) ==>
              || log[k + 1].note.attempt == 1
              || (IsRetry(log[k]) && log[k + 1].note.attempt == log[k].note.attempt + 1)
    ensures IsDecision(log[k]) ==> IsDecision(log[k + 1])
  {
    EntryAccepted(log, k);
    EntryAccepted(log, k + 1);
  }
}
