/** The run inside a history: decisions neither disturb it nor change what it
    wrote. What is proved of every run therefore holds in every history. */
module HistoryRuns {
  import opened IncidentWorld
  import opened Lifecycle
  import opened LifecycleSafety
  import opened Models
  import opened Prelude

  // The inputs a history resumed the run with.
  function Inputs(events: seq<Event>): seq<Input> {
    if events == [] then []
    else Inputs(Front(events)) + match Last(events) case Resumed(x) => [x] case _ => []
  }

  function Script(inputs: seq<Input>): nat -> Input {
    (i: nat) => if i < |inputs| then inputs[i] else Input(true, TurnTimeout, TimesOut)
  }

  // The undisturbed run on these inputs.
  function RunOn(s: Slice, inputs: seq<Input>, settings: Settings): (r: Run)
    ensures WellFormed(r)
  {
    Feed(Start(s), Script(inputs), |inputs|, settings)
  }

  lemma {:induction false} FeedAgrees(s: Slice, a: nat -> Input, b: nat -> Input, n: nat, settings: Settings)
    requires forall i :: 0 <= i < n ==> a(i) == b(i)
    ensures Feed(Start(s), a, n, settings) == Feed(Start(s), b, n, settings)
  {
    hide Resume;
    if n > 0 {
      FeedAgrees(s, a, b, n - 1, settings);
    }
  }

  lemma RunOnSnoc(s: Slice, inputs: seq<Input>, x: Input, settings: Settings)
    ensures RunOn(s, inputs + [x], settings) == Resume(RunOn(s, inputs, settings), x, settings)
  {
    hide Resume;
    FeedAgrees(s, Script(inputs + [x]), Script(inputs), |inputs|, settings);
  }

  // The same suspended run, but for what decisions added to its log and record.
  predicate Carries(c: Cell, r: Run) {
    && c.run.pc == r.pc
    && c.run.slice.findings == r.slice.findings
    && c.run.slice.patches == r.slice.patches
    && c.run.slice.audits == r.slice.audits
    && r.slice.steps <= c.run.slice.steps
    && (!r.pc.Done? ==> c.run == r)
    && (c.sent != [] ==> r.pc.Done?)
  }

  lemma ApprovalCarries(c: Cell, r: Run, requested: Option<Id>)
    requires Carries(c, r) && (c.run.slice.record.status == AwaitingApproval ==> r.pc.Done?)
    ensures Carries(ApproveStep(c, requested), r)
  {
    hide GetPatch, AuditsFor;
    assert c.run.slice.steps <= ApproveStep(c, requested).run.slice.steps;
  }

  lemma CompletionCarries(c: Cell, r: Run, index: nat, outcome: BackendOutcome)
    requires Carries(c, r) && (c.inflight != [] ==> c.sent != [])
    ensures Carries(CompleteStep(c, index, outcome), r)
  {
    assert c.run.slice.steps <= CompleteStep(c, index, outcome).run.slice.steps;
  }

  lemma DecisionCarries(c: Cell, r: Run, e: Event, settings: Settings)
    requires WellFormed(c.run) && Carries(c, r) && !e.Resumed?
    requires c.run.slice.record.status == AwaitingApproval ==> r.pc.Done?
    requires c.inflight != [] ==> c.sent != []
    ensures Carries(Step(c, e, settings), r)
  {
    hide Carries, ApproveStep, CompleteStep;
    match e
    case ApprovalAsked(requested) => ApprovalCarries(c, r, requested);
    case BackendAnswered(index, outcome) => CompletionCarries(c, r, index, outcome);
    case ExecuteAsked(requested, outcome) =>
      ApprovalCarries(c, r, requested);
      SentIfRunning(c, requested);
      CompletionCarries(ApproveStep(c, requested), r, |c.inflight|, outcome);
    case RejectAsked(reason) => RejectionCarries(c, r, reason);
  }

  lemma SentIfRunning(c: Cell, requested: Option<Id>)
    requires c.inflight != [] ==> c.sent != []
    ensures ApproveStep(c, requested).inflight != [] ==> ApproveStep(c, requested).sent != []
  {
    hide Preflight;
  }

  lemma RejectionCarries(c: Cell, r: Run, reason: string)
    requires Carries(c, r) && (c.run.slice.record.status == AwaitingApproval ==> r.pc.Done?)
    ensures Carries(RejectStep(c, reason), r)
  {
    assert c.run.slice.steps <= RejectStep(c, reason).run.slice.steps;
  }

  lemma AwaitsWhenDone(s: Slice, events: seq<Event>, settings: Settings)
    requires IsIngested(s)
    ensures var c := After(s, events, settings);
            && WellFormed(c.run)
            && (c.run.slice.record.status == AwaitingApproval ==> c.run.pc.Done?)
            && (c.inflight != [] ==> c.sent != [])
  {
    assert Invariant(After(s, events, settings), settings);
  }

  /** After every history the documents are those of the undisturbed run on its
      resumptions, the log is that run's log and what decisions appended, and
      until the run ends the two are one. */
  lemma {:induction false} HistoryCarriesRun(s: Slice, events: seq<Event>, settings: Settings)
    requires IsIngested(s)
    ensures Carries(After(s, events, settings), RunOn(s, Inputs(events), settings))
    decreases |events|
  {
    hide Step, Invariant, IsIngested, RunOn;
    if events == [] {
      Fresh0(s, settings);
    } else {
      var front, e := Front(events), Last(events);
      var c, r := After(s, front, settings), RunOn(s, Inputs(front), settings);
      HistoryCarriesRun(s, front, settings);
      AwaitsWhenDone(s, front, settings);
      if e.Resumed? {
        RunOnSnoc(s, Inputs(front), e.input, settings);
        ResumedCarries(c, r, e.input, settings);
      } else {
        DecisionCarries(c, r, e, settings);
        assert Inputs(events) == Inputs(front);
      }
    }
  }

  lemma ResumedCarries(c: Cell, r: Run, x: Input, settings: Settings)
    requires WellFormed(c.run) && WellFormed(r) && Carries(c, r)
    ensures Carries(Step(c, Resumed(x), settings), Resume(r, x, settings))
  {
    if r.pc.Done? {
      DoneStays(c.run, x, settings);
      DoneStays(r, x, settings);
    }
    hide Resume;
  }

  lemma DoneStays(r: Run, x: Input, settings: Settings)
    requires WellFormed(r) && r.pc.Done?
    ensures Resume(r, x, settings) == r
  {
  }

  lemma Fresh0(s: Slice, settings: Settings)
    requires IsIngested(s)
    ensures Carries(After(s, [], settings), RunOn(s, Inputs([]), settings))
  {
  }
}
