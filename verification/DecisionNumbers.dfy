/** The step numbers of human decisions. They are drawn from the length of the
    log, an execution's when its approval is accepted; so they stay distinct,
    and the keyed store keeps every entry, exactly when no decision is accepted
    while an approval is running. */
module DecisionNumbers {
  import opened IncidentWorld
  import opened KeyedCollections
  import opened KeyedStore
  import opened Lifecycle
  import opened LifecycleSafety
  import opened Models
  import opened Prelude
  import opened RunLog
  import opened StepIds
  import opened StepLogGrammar

  // ---------- The run's part of a log and the decisions after it ----------

  function RunPart(log: seq<StepLog>): (r: seq<StepLog>)
    ensures r <= log
  {
    if log != [] && IsDecision(Last(log)) then RunPart(Front(log)) else log
  }

  function Decisions(log: seq<StepLog>): seq<StepLog> {
    log[|RunPart(log)|..]
  }

  lemma PartsSnoc(log: seq<StepLog>, e: StepLog)
    ensures IsDecision(e) ==> RunPart(log + [e]) == RunPart(log) && Decisions(log + [e]) == Decisions(log) + [e]
    ensures !IsDecision(e) ==> RunPart(log + [e]) == log + [e] && Decisions(log + [e]) == []
  {
    FrontOfSnoc(log, e);
  }

  lemma {:induction false} RunHasNoDecisions(log: seq<StepLog>)
    requires Accepted(log) && !Scan(log).Decided?
    ensures RunPart(log) == log && Decisions(log) == []
    ensures forall i :: 0 <= i < |log| ==> !IsDecision(log[i])
  {
    if log != [] {
      RunHasNoDecisions(Front(log));
    }
  }

  // In an accepted log the decisions come last, after a run that had ended.
  lemma {:induction false} PartsAccepted(log: seq<StepLog>)
    requires Accepted(log)
    ensures var base := RunPart(log);
            && Accepted(base) && !Scan(base).Decided?
            && (Scan(log).Decided? <==> Decisions(log) != [])
            && (Scan(log).Decided? ==> Scan(base).Ready?)
            && (!Scan(log).Decided? ==> base == log)
    ensures forall i :: 0 <= i < |Decisions(log)| ==> IsDecision(Decisions(log)[i])
  {
    if log != [] && IsDecision(Last(log)) {
      PartsAccepted(Front(log));
      PartsSnoc(Front(log), Last(log));
      assert log == Front(log) + [Last(log)];
    } else {
      assert !Scan(log).Decided?;
      assert Decisions(log) == [];
    }
  }

  // ---------- The invariant ----------

  predicate NumberedFrom(ds: seq<StepLog>, n: nat) {
    forall j :: 0 <= j < |ds| ==> ds[j].sequence == n + 1 + j
  }

  // Decisions pile up while approvals run.
  predicate Piled(c: Cell) {
    var n := |RunPart(c.run.slice.steps)|;
    var ds := Decisions(c.run.slice.steps);
    && NumberedFrom(ds, n)
    && |c.inflight| == |ds|
    && (forall j :: 0 <= j < |ds| ==> ds[j].kind == UserDecision && c.inflight[j].sequence == n + 2 + j)
    && (c.contended <==> |ds| > 1)
  }

  predicate HasNumber(log: seq<StepLog>, kind: StepKind, m: nat) {
    exists i :: 0 <= i < |log| && log[i].kind == kind && log[i].sequence == m
  }

  predicate WillHaveNumber(inflight: seq<Approval>, m: nat) {
    exists i :: 0 <= i < |inflight| && inflight[i].sequence == m
  }

  // A decision has the number of an execution, logged or still to come.
  predicate Collided(c: Cell, m: nat) {
    var ds := Decisions(c.run.slice.steps);
    HasNumber(ds, UserDecision, m) && (HasNumber(ds, Execution, m) || WillHaveNumber(c.inflight, m))
  }

  ghost predicate Tally(c: Cell) {
    var n := |RunPart(c.run.slice.steps)|;
    var ds := Decisions(c.run.slice.steps);
    if c.run.slice.record.status == AwaitingApproval then Piled(c)
    else if c.contended then exists m :: Collided(c, m)
    else c.inflight == [] && |ds| <= 2 && NumberedFrom(ds, n)
  }

  lemma ApproveTally(c: Cell, requested: Option<Id>, settings: Settings)
    requires Invariant(c, settings) && Tally(c)
    ensures Tally(ApproveStep(c, requested))
  {
    var s := c.run.slice;
    if Preflight(s, requested).Success? {
      ApproveEntry(c, requested);
      PartsSnoc(s.steps, Last(ApproveStep(c, requested).run.slice.steps));
      assert |s.steps| == |RunPart(s.steps)| + |Decisions(s.steps)|;
      hide Invariant, Preflight, ApproveStep, RunPart, Decisions;
    }
  }

  lemma ApproveEntry(c: Cell, requested: Option<Id>)
    requires Preflight(c.run.slice, requested).Success?
    ensures c.run.slice.record.status == AwaitingApproval
    ensures var n := |c.run.slice.steps|;
            var c' := ApproveStep(c, requested);
            && c'.run.slice.steps != []
            && var e := Last(c'.run.slice.steps);
               && c'.run.slice.steps == c.run.slice.steps + [e]
               && e.kind == UserDecision && e.sequence == n + 1
    ensures var n := |c.run.slice.steps|;
            var c' := ApproveStep(c, requested);
            && c'.inflight != [] && Front(c'.inflight) == c.inflight && Last(c'.inflight).sequence == n + 2
            && c'.contended == (c.contended || c.inflight != [])
            && c'.run.slice.record.status == AwaitingApproval
  {
  }

  lemma RejectTally(c: Cell, reason: string, settings: Settings)
    requires Tally(c)
    ensures Tally(RejectStep(c, reason))
  {
    var s := c.run.slice;
    if s.record.status == AwaitingApproval {
      var c' := RejectStep(c, reason);
      var e := Last(c'.run.slice.steps);
      PartsSnoc(s.steps, e);
      var ds := Decisions(s.steps);
      assert |s.steps| == |RunPart(s.steps)| + |ds|;
      if c'.contended {
        var m := e.sequence;
        assert Decisions(c'.run.slice.steps)[|ds|] == e;
        assert c.inflight[|ds| - 1].sequence == m;
        assert Collided(c', m);
      }
    }
  }

  lemma CompleteTally(c: Cell, index: nat, outcome: BackendOutcome)
    requires Tally(c)
    ensures Tally(CompleteStep(c, index, outcome))
  {
    if index < |c.inflight| {
      var s := c.run.slice;
      var c' := CompleteStep(c, index, outcome);
      var e := Last(c'.run.slice.steps);
      CompleteEntry(c, index, outcome);
      PartsSnoc(s.steps, e);
      hide CompleteStep, RunPart;
      var ds := Decisions(s.steps);
      assert |s.steps| == |RunPart(s.steps)| + |ds|;
      if c.contended {
        var m := CollisionOf(c);
        CollisionKept(c, c', index, e, m);
      }
    }
  }

  lemma CompleteEntry(c: Cell, index: nat, outcome: BackendOutcome)
    requires index < |c.inflight|
    ensures var c' := CompleteStep(c, index, outcome);
            && c'.run.slice.steps != []
            && var e := Last(c'.run.slice.steps);
               && c'.run.slice.steps == c.run.slice.steps + [e]
               && e.kind == Execution && e.sequence == c.inflight[index].sequence
    ensures var c' := CompleteStep(c, index, outcome);
            && c'.inflight == c.inflight[..index] + c.inflight[index + 1..]
            && c'.contended == c.contended
            && c'.run.slice.record.status in {Resolved, Failed}
  {
  }

  // The number that collides.
  ghost function CollisionOf(c: Cell): (m: nat)
    requires Tally(c) && c.contended
    ensures Collided(c, m)
  {
    if c.run.slice.record.status == AwaitingApproval then
      var n := |RunPart(c.run.slice.steps)|;
      var ds := Decisions(c.run.slice.steps);
      assert ds[1].kind == UserDecision && ds[1].sequence == n + 2 == c.inflight[0].sequence;
      n + 2
    else
      var m :| Collided(c, m);
      m
  }

  lemma CollisionKept(c: Cell, c': Cell, index: nat, e: StepLog, m: nat)
    requires Collided(c, m) && index < |c.inflight|
    requires c'.inflight == c.inflight[..index] + c.inflight[index + 1..]
    requires e.kind == Execution && e.sequence == c.inflight[index].sequence
    requires Decisions(c'.run.slice.steps) == Decisions(c.run.slice.steps) + [e]
    ensures Collided(c', m)
  {
    var ds, ds' := Decisions(c.run.slice.steps), Decisions(c'.run.slice.steps);
    NumberKept(ds, e, UserDecision, m);
    NumberKept(ds, e, Execution, m);
    if WillHaveNumber(c.inflight, m) {
      var i :| 0 <= i < |c.inflight| && c.inflight[i].sequence == m;
      if i == index {
        assert ds'[|ds|] == e;
      } else {
        assert c'.inflight[if i < index then i else i - 1] == c.inflight[i];
      }
    }
  }

  lemma NumberKept(ds: seq<StepLog>, e: StepLog, kind: StepKind, m: nat)
    ensures HasNumber(ds, kind, m) ==> HasNumber(ds + [e], kind, m)
  {
    assert forall i :: 0 <= i < |ds| ==> (ds + [e])[i] == ds[i];
  }

  lemma ResumedTally(c: Cell, x: Input, settings: Settings)
    requires Invariant(c, settings) && Tally(c)
    ensures Tally(Step(c, Resumed(x), settings))
  {
    if !c.run.pc.Done? {
      var c' := Step(c, Resumed(x), settings);
      StepInvariant(c, Resumed(x), settings);
      RunningMeans(c, settings);
      ResumeLogged(c.run, x, settings);
      hide Resume, Invariant;
      LoggedMeans(c'.run, settings);
      hide Logged;
      RunHasNoDecisions(c.run.slice.steps);
      RunHasNoDecisions(c'.run.slice.steps);
    }
  }

  lemma RunningMeans(c: Cell, settings: Settings)
    requires Invariant(c, settings) && !c.run.pc.Done?
    ensures WellFormed(c.run) && Logged(c.run, settings) && c.inflight == []
    ensures c.run.slice.record.status != AwaitingApproval
    ensures Accepted(c.run.slice.steps) && !Scan(c.run.slice.steps).Decided?
  {
    LoggedMeans(c.run, settings);
  }

  lemma StepTally(c: Cell, e: Event, settings: Settings)
    requires Invariant(c, settings) && Tally(c)
    ensures Tally(Step(c, e, settings))
  {
    match e
    case Resumed(x) => ResumedTally(c, x, settings);
    case ApprovalAsked(requested) => ApproveTally(c, requested, settings);
    case BackendAnswered(index, outcome) => CompleteTally(c, index, outcome);
    case RejectAsked(reason) => RejectTally(c, reason, settings);
    case ExecuteAsked(requested, outcome) =>
      ApproveTally(c, requested, settings);
      hide Invariant, Tally, ApproveStep, CompleteStep;
      CompleteTally(ApproveStep(c, requested), |c.inflight|, outcome);
  }

  lemma {:induction false} HistoryTally(s: Slice, events: seq<Event>, settings: Settings)
    requires IsIngested(s)
    ensures Tally(After(s, events, settings))
    decreases |events|
  {
    if events == [] {
      assert RunPart(s.steps) == [];
    } else {
      hide Invariant, Tally, Step;
      HistoryTally(s, Front(events), settings);
      StepTally(After(s, Front(events), settings), Last(events), settings);
    }
  }

  // ---------- Distinct numbers ----------

  predicate DistinctNumbers(log: seq<StepLog>) {
    forall i, j :: 0 <= i < j < |log| ==> log[i].sequence != log[j].sequence
  }

  lemma CollisionRepeats(c: Cell, m: nat)
    requires Collided(c, m) && c.inflight == []
    ensures !DistinctNumbers(Decisions(c.run.slice.steps))
  {
    var ds := Decisions(c.run.slice.steps);
    var i :| 0 <= i < |ds| && ds[i].kind == UserDecision && ds[i].sequence == m;
    var j :| 0 <= j < |ds| && ds[j].kind == Execution && ds[j].sequence == m;
    assert i != j;
  }

  /** Once nothing is running, the entries of the decisions and executions of
      an incident carry distinct numbers if and only if no decision was
      accepted while an approval was running. */
  lemma DistinctIff(s: Slice, events: seq<Event>, settings: Settings)
    requires IsIngested(s) && After(s, events, settings).inflight == []
    ensures var c := After(s, events, settings);
            DistinctNumbers(Decisions(c.run.slice.steps)) <==> !c.contended
  {
    var c := After(s, events, settings);
    HistoryTally(s, events, settings);
    if c.contended {
      CollisionRepeats(c, CollisionOf(c));
    }
  }

  /** It does happen: a rejection accepted while an approval runs gets the
      number the execution was given before. */
  lemma RejectionShares(c: Cell, reason: string, settings: Settings)
    requires Invariant(c, settings) && c.run.slice.record.status == AwaitingApproval && c.sent == []
    ensures var c1 := Step(c, ApprovalAsked(None), settings);
            var c2 := Step(c1, RejectAsked(reason), settings);
            var c3 := Step(c2, BackendAnswered(0, RanOk), settings);
            var n := |c.run.slice.steps|;
            var log := c3.run.slice.steps;
            && c3.inflight == [] && c3.contended && !c3.overlapped
            && |log| == n + 3
            && log[n + 1].kind == UserDecision && log[n + 2].kind == Execution
            && log[n + 1].sequence == log[n + 2].sequence == n + 2
  {
    AcceptsLatest(c, settings);
    AwaitingMeans(c, settings);
    ApproveEntry(c, None);
  }

  // ---------- The keyed store ----------

  // None of the elements from `b` on repeats an earlier key.
  predicate FreshKeys<T>(s: seq<T>, b: nat, key: T -> string) {
    forall i :: b <= i < |s| ==> FreshKey(s, i, key)
  }

  predicate FreshKey<T>(s: seq<T>, i: nat, key: T -> string)
    requires i < |s|
  {
    forall j :: 0 <= j < i ==> key(s[j]) != key(s[i])
  }

  lemma FreshKeysSnoc<T>(s: seq<T>, b: nat, key: T -> string)
    requires b < |s|
    ensures FreshKeys(s, b, key) <==> FreshKeys(Front(s), b, key) && FreshKey(s, |s| - 1, key)
  {
    var front := Front(s);
    forall i | b <= i < |front|
      ensures FreshKey(s, i, key) <==> FreshKey(front, i, key)
    {
      assert forall j :: 0 <= j <= i ==> front[j] == s[j];
    }
  }

  /** Writing a log into the keyed store: it keeps an entry for each of the
      last ones exactly when none of them repeats an earlier key. */
  lemma {:induction false} NothingLost<T>(s: seq<T>, b: nat, key: T -> string)
    requires b <= |s|
    ensures |PutAll(s, key)| <= |PutAll(s[..b], key)| + |s| - b
    ensures |PutAll(s, key)| == |PutAll(s[..b], key)| + |s| - b <==> FreshKeys(s, b, key)
    decreases |s|
  {
    hide FreshKeys, FreshKey;
    if b == |s| {
      assert s[..b] == s;
      NoneFresh(s, key);
    } else {
      var front, last := Front(s), Last(s);
      NothingLost(front, b, key);
      assert front[..b] == s[..b];
      FreshKeysSnoc(s, b, key);
      LastFresh(s, key);
      PutAllKeyed(front, key);
      PutLength(PutAll(front, key), key(last), last);
    }
  }

  lemma NoneFresh<T>(s: seq<T>, key: T -> string)
    ensures FreshKeys(s, |s|, key)
  {
  }

  lemma LastFresh<T>(s: seq<T>, key: T -> string)
    requires s != []
    ensures FreshKey(s, |s| - 1, key) <==> Find(PutAll(Front(s), key), key(Last(s))).None?
  {
    FindIsLastWrite(Front(s), key, key(Last(s)));
    assert forall j :: 0 <= j < |s| - 1 ==> Front(s)[j] == s[j];
  }

  lemma {:induction false} PutLength<T>(c: Collection<T>, key: string, value: T)
    requires Sorted(c)
    ensures |Put(c, key, value)| == |c| + if Find(c, key).None? then 1 else 0
  {
    if c != [] {
      if Less(Last(c).key, key) {
        FindIsMember(c, key);
        if Find(c, key).Some? {
          LastIsLargest(c, Doc(key, Find(c, key).value));
          LessAsymmetric(Last(c).key, key);
        }
      } else if Last(c).key != key {
        PutLength(Front(c), key, value);
      }
    }
  }

  lemma LastIsLargest<T>(c: Collection<T>, d: Doc<T>)
    requires Sorted(c) && c != [] && d in c
    ensures d == Last(c) || Less(d.key, Last(c).key)
  {
  }

  /** A run's log keeps one entry for each number it issued. */
  lemma {:induction false} RunKeyed(log: seq<StepLog>)
    requires Accepted(log) && !Scan(log).Decided?
    ensures |PutAll(log, StepKey)| == Issued(Scan(log)) - 1
  {
    if log != [] {
      var front, e := Front(log), Last(log);
      RunKeyed(front);
      NextStepId(Scan(front), e);
      IdsDense(front, e.sequence);
      PutAllKeyed(front, StepKey);
      PutLength(PutAll(front, StepKey), StepKey(e), e);
      FindIsLastWrite(front, StepKey, StepKey(e));
      KeyIsNumber(front, e.sequence);
    }
  }

  lemma KeyIsNumber(log: seq<StepLog>, n: nat)
    ensures HasId(log, n) <==> exists i :: 0 <= i < |log| && StepKey(log[i]) == FormatStepId(n)
  {
    forall i | 0 <= i < |log|
      ensures StepKey(log[i]) == FormatStepId(n) <==> log[i].sequence == n
    {
      StepIdInjective(log[i].sequence, n);
    }
  }

  // The decisions as numbered over the keyed store, whose listing is shorter
  // by the retries of the run.
  function Renumbered(ds: seq<StepLog>, retries: nat): (r: seq<StepLog>)
    ensures |r| == |ds|
    ensures forall i :: 0 <= i < |ds| ==>
                          r[i] == ds[i].(sequence := Max(0, ds[i].sequence - retries))
  {
    seq(|ds|, i requires 0 <= i < |ds| => ds[i].(sequence := Max(0, ds[i].sequence - retries)))
  }

  // What is written to the keyed store by the same history.
  function KeyedLog(log: seq<StepLog>): seq<StepLog> {
    RunPart(log) + Renumbered(Decisions(log), Count(RunPart(log), FailedAttempts))
  }

  lemma ReadyRun(base: seq<StepLog>)
    requires Accepted(base) && Scan(base).Ready?
    ensures Issued(Scan(base)) - 1 == |base| - Count(base, FailedAttempts)
    ensures forall i :: 0 <= i < |base| ==> base[i].sequence < Issued(Scan(base))
    ensures |PutAll(base, StepKey)| == Issued(Scan(base)) - 1
  {
    LogLength(base);
    RunKeyed(base);
    OpenTurn(base);
  }

  lemma {:induction false} RetriesBounded(log: seq<StepLog>)
    ensures Count(log, FailedAttempts) <= |log|
  {
    if log != [] {
      RetriesBounded(Front(log));
    }
  }

  // Decisions numbered above the run are lost only among themselves.
  lemma KeyedLoss(base: seq<StepLog>, ds: seq<StepLog>)
    requires Accepted(base) && (ds != [] ==> Scan(base).Ready?) && !Scan(base).Decided?
    requires forall i :: 0 <= i < |ds| ==> ds[i].sequence > |base|
    ensures var log := base + Renumbered(ds, Count(base, FailedAttempts));
            |PutAll(log, StepKey)| == |PutAll(base, StepKey)| + |ds| <==> DistinctNumbers(ds)
  {
    var retries := Count(base, FailedAttempts);
    var rs := Renumbered(ds, retries);
    var log := base + rs;
    assert log[..|base|] == base;
    NothingLost(log, |base|, StepKey);
    if ds != [] {
      ReadyRun(base);
    }
    RetriesBounded(base);
    hide Scan, Count, PutAll;
    RenumberedKeys(base, ds, retries);
  }

  // Equal keys: two decisions with one number.
  lemma RenumberedKeys(base: seq<StepLog>, ds: seq<StepLog>, retries: nat)
    requires retries <= |base|
    requires forall i :: 0 <= i < |base| && ds != [] ==> base[i].sequence <= |base| - retries
    requires forall i :: 0 <= i < |ds| ==> ds[i].sequence > |base|
    ensures FreshKeys(base + Renumbered(ds, retries), |base|, StepKey) <==> DistinctNumbers(ds)
  {
    var rs := Renumbered(ds, retries);
    var log := base + rs;
    var n := |base|;
    forall i | 0 <= i < |ds|
      ensures FreshKey(log, n + i, StepKey) <==> forall j :: 0 <= j < i ==> ds[j].sequence != ds[i].sequence
    {
      RenumberedKey(base, ds, retries, i);
    }
    hide Renumbered, FreshKey;
    if FreshKeys(log, n, StepKey) {
      forall i, j | 0 <= i < j < |ds|
        ensures ds[i].sequence != ds[j].sequence
      {
        assert FreshKey(log, n + j, StepKey);
      }
    }
    if DistinctNumbers(ds) {
      forall k | n <= k < |log|
        ensures FreshKey(log, k, StepKey)
      {
        assert k == n + (k - n);
      }
    }
  }

  lemma RenumberedKey(base: seq<StepLog>, ds: seq<StepLog>, retries: nat, i: nat)
    requires retries <= |base| && i < |ds|
    requires forall i :: 0 <= i < |base| ==> base[i].sequence <= |base| - retries
    requires forall i :: 0 <= i < |ds| ==> ds[i].sequence > |base|
    ensures FreshKey(base + Renumbered(ds, retries), |base| + i, StepKey)
            <==> forall j :: 0 <= j < i ==> ds[j].sequence != ds[i].sequence
  {
    var rs := Renumbered(ds, retries);
    var log := base + rs;
    var n := |base|;
    hide StepKey;
    forall k | 0 <= k < n + i
      ensures StepKey(log[k]) == StepKey(log[n + i]) <==> k >= n && ds[k - n].sequence == ds[i].sequence
    {
      SameKey(log[k], log[n + i]);
      assert log[n + i] == rs[i];
      if k >= n {
        assert log[k] == rs[k - n];
      } else {
        assert log[k] == base[k];
      }
    }
    if j :| 0 <= j < i && ds[j].sequence == ds[i].sequence {
      assert StepKey(log[n + j]) == StepKey(log[n + i]);
    }
  }

  lemma SameKey(a: StepLog, b: StepLog)
    ensures StepKey(a) == StepKey(b) <==> a.sequence == b.sequence
  {
    StepIdInjective(a.sequence, b.sequence);
  }

  /** Over the keyed store a decision draws its number from the listing; while
      an incident awaits approval that is the append-only number less the
      retries of the run. */
  lemma KeyedDraw(s: Slice, events: seq<Event>, settings: Settings)
    requires IsIngested(s) && After(s, events, settings).run.slice.record.status == AwaitingApproval
    ensures var steps := After(s, events, settings).run.slice.steps;
            |Values(PutAll(KeyedLog(steps), StepKey))| + 1
            == |steps| + 1 - Count(RunPart(steps), FailedAttempts)
  {
    var c := After(s, events, settings);
    var steps := c.run.slice.steps;
    HistoryTally(s, events, settings);
    AwaitingReady(c, settings);
    hide Invariant;
    ReadyRun(RunPart(steps));
    KeyedLoss(RunPart(steps), Decisions(steps));
  }

  lemma AwaitingReady(c: Cell, settings: Settings)
    requires Invariant(c, settings) && c.run.slice.record.status == AwaitingApproval
    ensures var base := RunPart(c.run.slice.steps); Accepted(base) && Scan(base).Ready?
  {
    PartsAccepted(c.run.slice.steps);
  }

  /** Once nothing is running, the keyed store lists an entry for every
      decision and execution beside those of the run if and only if no
      decision was accepted while an approval was running. */
  lemma KeyedKeepsAllIff(s: Slice, events: seq<Event>, settings: Settings)
    requires IsIngested(s) && After(s, events, settings).inflight == []
    ensures var c := After(s, events, settings);
            var steps := c.run.slice.steps;
            |Values(PutAll(KeyedLog(steps), StepKey))|
            == |Values(PutAll(RunPart(steps), StepKey))| + |Decisions(steps)|
            <==> !c.contended
  {
    var c := After(s, events, settings);
    var steps := c.run.slice.steps;
    DistinctIff(s, events, settings);
    HistoryAboveRun(s, events, settings);
    AcceptedAfter(c, settings);
    hide Invariant;
    PartsAccepted(steps);
    KeyedLoss(RunPart(steps), Decisions(steps));
  }

  lemma AcceptedAfter(c: Cell, settings: Settings)
    requires Invariant(c, settings)
    ensures Accepted(c.run.slice.steps)
  {
  }

  // ---------- Every decision is numbered above its run ----------

  predicate AboveRun(c: Cell) {
    var n := |RunPart(c.run.slice.steps)|;
    var ds := Decisions(c.run.slice.steps);
    && (forall i :: 0 <= i < |ds| ==> ds[i].sequence > n)
    && (forall i :: 0 <= i < |c.inflight| ==> c.inflight[i].sequence > n)
  }

  lemma StepAboveRun(c: Cell, e: Event, settings: Settings)
    requires Invariant(c, settings) && AboveRun(c)
    ensures AboveRun(Step(c, e, settings))
  {
    match e
    case Resumed(x) => ResumedAboveRun(c, x, settings);
    case ApprovalAsked(requested) => ApproveAboveRun(c, requested);
    case BackendAnswered(index, outcome) => CompleteAboveRun(c, index, outcome);
    case RejectAsked(reason) => RejectAboveRun(c, reason);
    case ExecuteAsked(requested, outcome) =>
      ApproveAboveRun(c, requested);
      hide Invariant, AboveRun, ApproveStep, CompleteStep;
      CompleteAboveRun(ApproveStep(c, requested), |c.inflight|, outcome);
  }

  lemma ApproveAboveRun(c: Cell, requested: Option<Id>)
    requires AboveRun(c)
    ensures AboveRun(ApproveStep(c, requested))
  {
    var s := c.run.slice;
    if Preflight(s, requested).Success? {
      ApproveEntry(c, requested);
      PartsSnoc(s.steps, Last(ApproveStep(c, requested).run.slice.steps));
      assert |s.steps| == |RunPart(s.steps)| + |Decisions(s.steps)|;
      hide ApproveStep, RunPart, Decisions, Preflight;
    }
  }

  lemma RejectAboveRun(c: Cell, reason: string)
    requires AboveRun(c)
    ensures AboveRun(RejectStep(c, reason))
  {
    if c.run.slice.record.status == AwaitingApproval {
      PartsSnoc(c.run.slice.steps, Last(RejectStep(c, reason).run.slice.steps));
    }
  }

  lemma CompleteAboveRun(c: Cell, index: nat, outcome: BackendOutcome)
    requires AboveRun(c)
    ensures AboveRun(CompleteStep(c, index, outcome))
  {
    if index < |c.inflight| {
      CompleteEntry(c, index, outcome);
      var c' := CompleteStep(c, index, outcome);
      PartsSnoc(c.run.slice.steps, Last(c'.run.slice.steps));
      hide CompleteStep, RunPart, Decisions;
      forall i | 0 <= i < |c'.inflight|
        ensures c'.inflight[i].sequence > |RunPart(c.run.slice.steps)|
      {
        assert c'.inflight[i] == c.inflight[if i < index then i else i + 1];
      }
    }
  }

  lemma ResumedAboveRun(c: Cell, x: Input, settings: Settings)
    requires Invariant(c, settings) && AboveRun(c)
    ensures AboveRun(Step(c, Resumed(x), settings))
  {
    if !c.run.pc.Done? {
      RunningMeans(c, settings);
      ResumeLogged(c.run, x, settings);
      hide Resume, Invariant;
      LoggedMeans(Resume(c.run, x, settings), settings);
      hide Logged;
      RunHasNoDecisions(Resume(c.run, x, settings).slice.steps);
    }
  }

  lemma {:induction false} HistoryAboveRun(s: Slice, events: seq<Event>, settings: Settings)
    requires IsIngested(s)
    ensures AboveRun(After(s, events, settings))
    decreases |events|
  {
    if events == [] {
      assert RunPart(s.steps) == [];
    } else {
      hide Invariant, AboveRun, Step;
      HistoryAboveRun(s, Front(events), settings);
      StepAboveRun(After(s, Front(events), settings), Last(events), settings);
    }
  }
}
