/** The two state managers behind one protocol. In every history whose ids are
    issued in increasing order the keyed store lists what the append-only store
    lists; and a run's steps are listed in the order it made them. */
module KeyedHistories {
  import opened IncidentWorld
  import opened KeyedCollections
  import opened KeyedStore
  import opened Lifecycle
  import opened LifecycleSafety
  import opened Models
  import opened Prelude
  import opened RunLog
  import opened StepIds
  import opened StepLogGrammar

  // ---------- Identifiers ----------

  // The ids a step of a run may have drawn from the generator.
  predicate IssuedAt(e: Event, id: Id) {
    && e.Resumed? && e.input.tool.Completes?
    && (|| id == e.input.tool.services.newId
        || (e.input.tool.services.triage.Some? && id == e.input.tool.services.triage.value.id))
  }

  ghost predicate IssuedInOrder(events: seq<Event>) {
    forall i, j, a, b :: 0 <= i < j < |events| && IssuedAt(events[i], a) && IssuedAt(events[j], b) ==> Less(a, b)
  }

  ghost predicate IssuedBelow(events: seq<Event>, bound: Id) {
    forall i, a :: 0 <= i < |events| && IssuedAt(events[i], a) ==> Less(a, bound)
  }

  // One list after a step: unchanged, or longer by a document with an issued id.
  predicate Grows<T(==)>(before: seq<T>, after: seq<T>, key: T -> string, e: Event) {
    after == before || (after != [] && Front(after) == before && IssuedAt(e, key(Last(after))))
  }

  predicate SliceGrows(s: Slice, s': Slice, e: Event) {
    && Grows(s.findings, s'.findings, FindingKey, e)
    && Grows(s.patches, s'.patches, PatchKey, e)
    && Grows(s.audits, s'.audits, AuditKey, e)
  }

  lemma GrowsByOne<T>(before: seq<T>, x: T, key: T -> string, e: Event)
    requires IssuedAt(e, key(x))
    ensures Grows(before, before + [x], key, e)
  {
  }

  lemma RunToolGrows(s: Slice, name: string, args: Args, x: Input, settings: Settings)
    requires IsTool(name)
    ensures SliceGrows(s, RunTool(s, name, args, x.tool, settings).slice, Resumed(x))
  {
    hide Generate, Validate, GeneratePatch, VerifyGovernance;
    if Binds(name, args) && x.tool.Completes? {
      var services, e := x.tool.services, Resumed(x);
      if name == INVESTIGATE {
        if services.triage.Some? {
          GrowsByOne(s.findings, services.triage.value, FindingKey, e);
        }
      } else if name == GENERATE {
        GenerateGrows(s, args, x, settings);
      } else {
        VerifyGrows(s, args["patch_id"], x, settings);
      }
    }
  }

  lemma GenerateGrows(s: Slice, args: Args, x: Input, settings: Settings)
    requires Binds(GENERATE, args) && x.tool.Completes?
    ensures SliceGrows(s, GeneratePatch(s, args, x.tool.services, settings).slice, Resumed(x))
  {
    hide Generate, Validate;
    var s' := GeneratePatch(s, args, x.tool.services, settings).slice;
    if s'.patches != s.patches {
      assert s'.patches == s.patches + [Last(s'.patches)];
      GrowsByOne(s.patches, Last(s'.patches), PatchKey, Resumed(x));
    }
  }

  lemma VerifyGrows(s: Slice, patchId: Value, x: Input, settings: Settings)
    requires x.tool.Completes?
    ensures SliceGrows(s, VerifyGovernance(s, patchId, x.tool.services, settings).slice, Resumed(x))
  {
    var s' := VerifyGovernance(s, patchId, x.tool.services, settings).slice;
    if s'.audits != s.audits {
      assert s'.audits == s.audits + [Last(s'.audits)];
      GrowsByOne(s.audits, Last(s'.audits), AuditKey, Resumed(x));
    }
  }

  lemma CallToolGrows(s: Slice, call: FunctionCall, sequence: nat, x: Input, settings: Settings)
    ensures SliceGrows(s, CallTool(s, call, sequence, x.tool, settings).0, Resumed(x))
  {
    hide RunTool;
    if IsTool(ToolName(call)) {
      RunToolGrows(s, ToolName(call), ToolArgs(s.record.id, call), x, settings);
    }
  }

  /** One step of the service adds at most one document of each kind, under an
      id issued in that step. */
  lemma StepGrows(c: Cell, e: Event, settings: Settings)
    requires WellFormed(c.run)
    ensures SliceGrows(c.run.slice, Step(c, e, settings).run.slice, e)
  {
    if e.Resumed? {
      hide Resume;
      ResumeGrows(c.run, e.input, settings);
    } else {
      DecisionKeeps(c, e, settings);
    }
  }

  lemma DecisionKeeps(c: Cell, e: Event, settings: Settings)
    requires WellFormed(c.run) && !e.Resumed?
    ensures SliceGrows(c.run.slice, Step(c, e, settings).run.slice, e)
  {
    hide Preflight;
  }

  lemma ResumeGrows(r: Run, x: Input, settings: Settings)
    requires WellFormed(r)
    ensures SliceGrows(r.slice, Resume(r, x, settings).slice, Resumed(x))
  {
    match r.pc
    case AwaitTool(_, _, _, _, _, _) => ResumeToolGrows(r, x, settings);
    case AwaitModel(_, _, _, _) => ResumeModelKeeps(r, x, settings);
    case AwaitAudit(_, _, _) =>
      hide VerifyGovernance, FinishStatus;
      if x.tool.Completes? {
        VerifyGrows(r.slice, Text(Last(r.slice.patches).id), x, settings);
      }
    case _ =>
  }

  lemma ResumeToolGrows(r: Run, x: Input, settings: Settings)
    requires WellFormed(r) && r.pc.AwaitTool?
    ensures SliceGrows(r.slice, Resume(r, x, settings).slice, Resumed(x))
  {
    hide CallTool, NextCall, Grows;
    var s, pc := r.slice, r.pc;
    GrowsNothing(s, Resumed(x));
    var call := pc.response.calls[|pc.parts|];
    CallToolGrows(s, call, pc.sequence, x, settings);
    var (s', reply) := CallTool(s, call, pc.sequence, x.tool, settings);
    NextCallKeeps(s', pc.turn, pc.sequence + 1, pc.response, pc.parts + [(call.name, reply)],
                  pc.blocked || reply.IsBlock(), pc.contents, settings);
  }

  lemma ResumeModelKeeps(r: Run, x: Input, settings: Settings)
    requires r.pc.AwaitModel?
    ensures WellFormed(r) && SliceGrows(r.slice, Resume(r, x, settings).slice, Resumed(x))
  {
    hide NextCall, FinishStatus, NeedsAudit;
    var s, pc := r.slice, r.pc;
    if x.model.Answer? {
      NextCallKeeps(Append(s, ModelEntry(s.record.id, pc.sequence, Ok, NoNote)), pc.turn, pc.sequence + 1,
                    x.model.response, [], false, pc.contents + [ModelContent(x.model.response)], settings);
    }
  }

  lemma GrowsNothing(s: Slice, e: Event)
    ensures SliceGrows(s, s, e)
  {
  }

  lemma NextCallKeeps(s: Slice, turn: nat, sequence: nat, response: Response, parts: seq<(string, ToolReply)>,
                      blocked: bool, contents: seq<Content>, settings: Settings)
    ensures var s' := NextCall(s, turn, sequence, response, parts, blocked, contents, settings).slice;
            s'.findings == s.findings && s'.patches == s.patches && s'.audits == s.audits
  {
  }

  ghost predicate DocumentsBelow(s: Slice, bound: Id) {
    && AllBelow(s.findings, FindingKey, bound)
    && AllBelow(s.patches, PatchKey, bound)
    && AllBelow(s.audits, AuditKey, bound)
  }

  ghost predicate DocumentsInOrder(s: Slice) {
    && InOrder(s.findings, FindingKey)
    && InOrder(s.patches, PatchKey)
    && InOrder(s.audits, AuditKey)
  }

  lemma {:induction false} HistoryBelow(s: Slice, events: seq<Event>, settings: Settings, bound: Id)
    requires IsIngested(s) && IssuedBelow(events, bound)
    ensures DocumentsBelow(After(s, events, settings).run.slice, bound)
    decreases |events|
  {
    if events != [] {
      hide Step, Invariant, IssuedAt;
      var front, e := Front(events), Last(events);
      assert IssuedBelow(front, bound);
      HistoryBelow(s, front, settings, bound);
      var c := After(s, front, settings);
      StepGrows(c, e, settings);
      assert events[|events| - 1] == e;
      var t, t' := c.run.slice, Step(c, e, settings).run.slice;
      GrowsBelow(t.findings, t'.findings, FindingKey, e, bound);
      GrowsBelow(t.patches, t'.patches, PatchKey, e, bound);
      GrowsBelow(t.audits, t'.audits, AuditKey, e, bound);
    }
  }

  lemma GrowsBelow<T>(before: seq<T>, after: seq<T>, key: T -> string, e: Event, bound: Id)
    requires Grows(before, after, key, e) && AllBelow(before, key, bound)
    requires forall b :: IssuedAt(e, b) ==> Less(b, bound)
    ensures AllBelow(after, key, bound)
  {
  }

  lemma GrowsInOrder<T>(before: seq<T>, after: seq<T>, key: T -> string, e: Event)
    requires Grows(before, after, key, e) && InOrder(before, key)
    requires forall b :: IssuedAt(e, b) ==> AllBelow(before, key, b)
    ensures InOrder(after, key)
  {
    if after != before {
      assert after == before + [Last(after)];
      InOrderSnoc(before, Last(after), key);
    }
  }

  /** Increasing ids make increasing lists. */
  lemma {:induction false} HistoryInOrder(s: Slice, events: seq<Event>, settings: Settings)
    requires IsIngested(s) && IssuedInOrder(events)
    ensures DocumentsInOrder(After(s, events, settings).run.slice)
    decreases |events|
  {
    if events != [] {
      hide Step, Invariant, IssuedAt;
      var front, e := Front(events), Last(events);
      var t := After(s, front, settings).run.slice;
      assert IssuedInOrder(front);
      HistoryInOrder(s, front, settings);
      StepGrows(After(s, front, settings), e, settings);
      forall b | IssuedAt(e, b)
        ensures DocumentsBelow(t, b)
      {
        assert events[|events| - 1] == e;
        assert IssuedBelow(front, b);
        HistoryBelow(s, front, settings, b);
      }
      var t' := After(s, events, settings).run.slice;
      GrowsInOrder(t.findings, t'.findings, FindingKey, e);
      GrowsInOrder(t.patches, t'.patches, PatchKey, e);
      GrowsInOrder(t.audits, t'.audits, AuditKey, e);
    }
  }

  /** Refinement, for every history whose ids are issued in increasing order:
      the keyed store lists findings, patches and audits in the order they
      were written and finds the same patch under every id; so the latest
      patch, its latest audit and every decision are the same as over the
      append-only store. */
  lemma KeyedStoreRefines(s: Slice, events: seq<Event>, settings: Settings)
    requires IsIngested(s) && IssuedInOrder(events)
    ensures var t := After(s, events, settings).run.slice;
            var keyed := t.(findings := Values(PutAll(t.findings, FindingKey)),
                            patches := Values(PutAll(t.patches, PatchKey)),
                            audits := Values(PutAll(t.audits, AuditKey)));
            && keyed == t
            && (forall id :: Find(PutAll(t.patches, PatchKey), id) == GetPatch(t.patches, id))
  {
    HistoryInOrder(s, events, settings);
    var t := After(s, events, settings).run.slice;
    InOrderListing(t.findings, FindingKey);
    InOrderListing(t.patches, PatchKey);
    InOrderListing(t.audits, AuditKey);
    forall id
      ensures Find(PutAll(t.patches, PatchKey), id) == GetPatch(t.patches, id)
    {
      LookupsAgree(t.patches, id);
    }
  }

  // ---------- Steps ----------

  /** What the keyed store lists of a run that ended on its own, for budgets
      within four digits: one entry per id, numbered from 1 in order, the last
      one written under it. A decision that counts this listing takes exactly
      the next two numbers, and its entries are listed at the end; over the
      append-only store it skips one number per retry. */
  lemma KeyedRunSteps(s: Slice, script: nat -> Input, n: nat, settings: Settings, c: nat, decision: StepLog, execution: StepLog)
    requires IsIngested(s)
    requires var r := Feed(Start(s), script, n, settings);
             r.pc.Done? && r.pc.exit != Threw && AtMostCalls(r.pc.contents, c)
    requires settings.maxTurns * (1 + 2 * c) + 2 <= 9999
    requires var steps := Feed(Start(s), script, n, settings).slice.steps;
             && decision.sequence == |Values(PutAll(steps, StepKey))| + 1
             && execution.sequence == decision.sequence + 1
    ensures var steps := Feed(Start(s), script, n, settings).slice.steps;
            var listed := Values(PutAll(steps, StepKey));
            && listed == LastPerId(steps) && Numbered(listed)
            && decision.sequence == Issued(Scan(steps))
            && |steps| + 1 == decision.sequence + Count(steps, FailedAttempts)
            && Values(PutAll(steps + [decision, execution], StepKey)) == listed + [decision, execution]
  {
    hide Resume, Feed;
    var steps := Feed(Start(s), script, n, settings).slice.steps;
    NextStepNumber(s, script, n, settings, c);
    FeedLogged(s, script, n, settings);
    FeedCounted(s, script, n, settings);
    hide Logged, Counted, Scan, Count, CallsIn;
    Distributes(settings.maxTurns, c);
    StepListing(steps);
    hide StepDocs, LastPerId, PutAll;
    TwoMore(steps, decision, execution);
  }

  lemma TwoMore(steps: seq<StepLog>, decision: StepLog, execution: StepLog)
    requires var k := PutAll(steps, StepKey);
             StepDocs(k) && decision.sequence == |k| + 1 && execution.sequence == |k| + 2 <= 9999
    ensures Values(PutAll(steps + [decision, execution], StepKey))
            == Values(PutAll(steps, StepKey)) + [decision, execution]
    ensures Numbered(Values(PutAll(steps, StepKey)))
  {
    var k := PutAll(steps, StepKey);
    PutStep(k, decision);
    PutAllSnoc(steps, decision, StepKey);
    assert Values(k)[..|k|] == Values(k);
    var k' := PutAll(steps + [decision], StepKey);
    hide StepDocs, Put, PutAll;
    PutStep(k', execution);
    PutAllSnoc(steps + [decision], execution, StepKey);
    assert Values(k')[..|k'|] == Values(k');
    assert steps + [decision] + [execution] == steps + [decision, execution];
  }
}
