/** The service on its shared store: documents, suspended runs, running
    approvals and stream subscribers of all incidents together, and every
    interleaving of what can happen to them. A tool acts on whatever incident
    its arguments name; that no incident ever touches another is proved from
    the arguments the orchestrator passes. */
module SharedService {
  import opened BqSandbox
  import opened IncidentWorld
  import opened Lifecycle
  import opened LifecycleSafety
  import opened Models
  import opened Prelude
  import opened StepStreams

  datatype Approvals = Approvals(inflight: seq<Approval>, sent: seq<Approval>, overlapped: bool, contended: bool)

  datatype Service = Service(
    docs: map<Id, Slice>,
    pcs: map<Id, Pc>,
    approvals: map<Id, Approvals>,
    queues: map<Id, seq<Subscription>>)

  datatype Action =
    | Happens(id: Id, event: Event)
    | Subscribes(id: Id)
    | Consumes(id: Id, index: nat)
    | Abandons(id: Id, index: nat)
    | Closes(id: Id)

  // ---------- A resumed run on the shared documents ----------

  function Answering(end: ToolEnd): (StepStatus, Note, ToolReply) {
    match end
    case RanOutOfTime => (TimedOut, Message(TOOL_TIMEOUT), ErrorReply("TIMEOUT"))
    case Raised(message) => (Errored, Message(message), ErrorReply("TOOL_EXCEPTION"))
    case Returned(reply) => (Ok, NoNote, reply)
  }

  // `_call_tool` from the dispatch on, with the arguments it passes.
  function CallToolOn(docs: map<Id, Slice>, id: Id, call: FunctionCall, sequence: nat, x: ToolOutcome, settings: Settings)
    : (r: (map<Id, Slice>, ToolReply))
    requires id in docs
    ensures r.0.Keys == docs.Keys
  {
    var name := ToolName(call);
    if !IsTool(name) then
      (docs[id := Append(docs[id], ResultEntry(id, sequence, call, Errored, Message(NO_IMPLEMENTATION)))],
       ErrorReply("UNKNOWN_TOOL"))
    else
      var (docs', end) := Dispatch(docs, name, ToolArgs(id, call), x, settings);
      var (status, note, reply) := Answering(end);
      (docs'[id := Append(docs'[id], ResultEntry(id, sequence, call, status, note))], reply)
  }

  // The arguments of the automatic audit.
  function AuditArgs(id: Id, s: Slice): Args
    requires NeedsAudit(s)
  {
    map["incident_id" := Text(id),
        "patch_id" := Text(Last(s.patches).id),
        "dataset_id" := Text(ParseResourceUri(s.record.resourceUri).value.dataset)]
  }

  function ResumeOn(docs: map<Id, Slice>, id: Id, pc: Pc, x: Input, settings: Settings): (r: (map<Id, Slice>, Pc))
    requires id in docs && WellFormed(Run(docs[id], pc))
    ensures r.0.Keys == docs.Keys
  {
    match pc
    case AwaitTool(turn, sequence, response, parts, blocked, contents) =>
      var call := response.calls[|parts|];
      if x.interrupted && IsTool(ToolName(call)) then Write(docs, id, Fail(docs[id], INCIDENT_TIMEOUT, contents))
      else
        var (docs', reply) := CallToolOn(docs, id, call, sequence, x.tool, settings);
        Write(docs', id, NextCall(docs'[id], turn, sequence + 1, response, parts + [(call.name, reply)],
                                  blocked || reply.IsBlock(), contents, settings))
    case AwaitAudit(turn, response, contents) =>
      if x.interrupted then Write(docs, id, Fail(docs[id], INCIDENT_TIMEOUT, contents))
      else
        var docs' := Dispatch(docs, VERIFY, AuditArgs(id, docs[id]), x.tool, settings).0;
        Write(docs', id, Finish(docs'[id], turn, response, contents))
    case _ => Write(docs, id, Resume(Run(docs[id], pc), x, settings))
  }

  function Write(docs: map<Id, Slice>, id: Id, r: Run): (map<Id, Slice>, Pc) {
    (docs[id := r.slice], r.pc)
  }

  // ---------- Appended steps reach the subscribers ----------

  function OfferSteps(q: Subscription, steps: seq<StepLog>): Subscription {
    if steps == [] then q else OfferStep(OfferSteps(q, Front(steps)), Last(steps))
  }

  function OfferAll(qs: seq<Subscription>, steps: seq<StepLog>): (r: seq<Subscription>)
    ensures |r| == |qs| && forall k :: 0 <= k < |qs| ==> r[k] == OfferSteps(qs[k], steps)
  {
    seq(|qs|, k requires 0 <= k < |qs| => OfferSteps(qs[k], steps))
  }

  function NewSteps(before: Slice, after: Slice): seq<StepLog> {
    if before.steps <= after.steps then after.steps[|before.steps|..] else []
  }

  // The store after a step that leaves these documents: what it appended to
  // any log is offered to the subscribers of that log.
  function Publish(w: Service, docs: map<Id, Slice>): Service
    requires docs.Keys == w.docs.Keys == w.queues.Keys
  {
    w.(docs := docs, queues := map id | id in w.queues :: OfferAll(w.queues[id], NewSteps(w.docs[id], docs[id])))
  }

  // ---------- One action ----------

  function CellAt(w: Service, id: Id): Cell
    requires id in w.docs && id in w.pcs && id in w.approvals
  {
    var a := w.approvals[id];
    Cell(Run(w.docs[id], w.pcs[id]), a.inflight, a.sent, a.overlapped, a.contended)
  }

  ghost predicate Good(w: Service, settings: Settings) {
    && Consistent(w)
    && forall id :: id in w.docs ==> w.docs[id].record.id == id && Invariant(CellAt(w, id), settings)
  }

  function Without(qs: seq<Subscription>, k: nat): seq<Subscription>
    requires k < |qs|
  {
    qs[..k] + qs[k + 1..]
  }

  // What a subscriber does with its own queue, or with all of an incident's.
  function StreamAct(qs: seq<Subscription>, log: seq<StepLog>, a: Action): seq<Subscription>
    requires !a.Happens?
  {
    match a
    case Subscribes(_) => qs + [Replay(log)]
    case Consumes(_, k) =>
      if k >= |qs| then qs
      else if Take(qs[k]).ended then Without(qs, k)
      else qs[k := Take(qs[k])]
    case Abandons(_, k) => if k >= |qs| then qs else Without(qs, k)
    case Closes(_) => seq(|qs|, k requires 0 <= k < |qs| => OfferEnd(qs[k], |log|))
  }

  predicate Consistent(w: Service) {
    w.docs.Keys == w.pcs.Keys == w.approvals.Keys == w.queues.Keys
  }

  function ActOnRun(w: Service, id: Id, x: Input, settings: Settings): Service
    requires Consistent(w) && id in w.docs && WellFormed(Run(w.docs[id], w.pcs[id]))
  {
    var (docs, pc) := ResumeOn(w.docs, id, w.pcs[id], x, settings);
    Publish(w, docs).(pcs := w.pcs[id := pc])
  }

  function ActByHand(w: Service, id: Id, e: Event, settings: Settings): Service
    requires Consistent(w) && id in w.docs && WellFormed(Run(w.docs[id], w.pcs[id])) && !e.Resumed?
  {
    var c := Step(CellAt(w, id), e, settings);
    Publish(w, w.docs[id := c.run.slice]).(
      approvals := w.approvals[id := Approvals(c.inflight, c.sent, c.overlapped, c.contended)])
  }

  ghost function Act(w: Service, a: Action, settings: Settings): Service
    requires Good(w, settings)
  {
    if a.id !in w.docs then w
    else
      GoodCell(w, a.id, settings);
      if !a.Happens? then w.(queues := w.queues[a.id := StreamAct(w.queues[a.id], w.docs[a.id].steps, a)])
      else if a.event.Resumed? then ActOnRun(w, a.id, a.event.input, settings)
      else ActByHand(w, a.id, a.event, settings)
  }

  // ---------- One incident and its subscribers, alone ----------

  datatype Watched = Watched(cell: Cell, queues: seq<Subscription>)

  function At(w: Service, id: Id): Watched
    requires id in w.docs && id in w.pcs && id in w.approvals && id in w.queues
  {
    Watched(CellAt(w, id), w.queues[id])
  }

  function ActAlone(v: Watched, a: Action, settings: Settings): Watched
    requires WellFormed(v.cell.run)
  {
    if !a.Happens? then v.(queues := StreamAct(v.queues, v.cell.run.slice.steps, a))
    else
      var c := Step(v.cell, a.event, settings);
      Watched(c, OfferAll(v.queues, NewSteps(v.cell.run.slice, c.run.slice)))
  }

  // ---------- The orchestrator's arguments name its own incident ----------

  lemma CallToolOnOwn(docs: map<Id, Slice>, id: Id, call: FunctionCall, sequence: nat, x: ToolOutcome, settings: Settings)
    requires id in docs && docs[id].record.id == id
    ensures var (s', reply) := CallTool(docs[id], call, sequence, x, settings);
            CallToolOn(docs, id, call, sequence, x, settings) == (docs[id := s'], reply)
  {
    hide RunTool, Dispatch, Append;
    if IsTool(ToolName(call)) {
      var s := docs[id];
      var effect := RunTool(s, ToolName(call), ToolArgs(id, call), x, settings);
      DispatchOwn(docs, id, ToolName(call), ToolArgs(id, call), x, settings);
      var s' := CallTool(s, call, sequence, x, settings).0;
      WriteTwice(docs, id, effect.slice, s');
    }
  }

  lemma WriteTwice(docs: map<Id, Slice>, id: Id, s: Slice, s': Slice)
    ensures docs[id := s][id := s'] == docs[id := s']
  {
  }

  lemma AuditOwn(docs: map<Id, Slice>, id: Id, x: ToolOutcome, settings: Settings)
    requires id in docs && NeedsAudit(docs[id])
    ensures Dispatch(docs, VERIFY, AuditArgs(id, docs[id]), x, settings).0 == docs[id := AutoAudit(docs[id], x, settings)]
  {
    hide VerifyGovernance, NeedsAudit, Dispatch;
    var args := AuditArgs(id, docs[id]);
    assert args.Keys == {"incident_id", "patch_id", "dataset_id"};
    DispatchOwn(docs, id, VERIFY, args, x, settings);
  }

  /** A resumed run changes the documents of its own incident, as it would
      alone, and no others. */
  lemma ResumeOnOwn(docs: map<Id, Slice>, id: Id, pc: Pc, x: Input, settings: Settings)
    requires id in docs && docs[id].record.id == id && WellFormed(Run(docs[id], pc))
    ensures var r := Resume(Run(docs[id], pc), x, settings);
            ResumeOn(docs, id, pc, x, settings) == (docs[id := r.slice], r.pc)
  {
    hide CallToolOn, CallTool, NextCall, Finish, AutoAudit, Dispatch, ResumeModel, StartTurn, Fail;
    match pc
    case AwaitTool(turn, sequence, response, parts, blocked, contents) =>
      var call := response.calls[|parts|];
      CallToolOnOwn(docs, id, call, sequence, x.tool, settings);
      var (s', reply) := CallTool(docs[id], call, sequence, x.tool, settings);
      WriteTwice(docs, id, s', NextCall(s', turn, sequence + 1, response, parts + [(call.name, reply)],
                                        blocked || reply.IsBlock(), contents, settings).slice);
    case AwaitAudit(turn, response, contents) =>
      AuditOwn(docs, id, x.tool, settings);
      var s' := AutoAudit(docs[id], x.tool, settings);
      WriteTwice(docs, id, s', Finish(s', turn, response, contents).slice);
    case _ =>
  }

  /** Without the orchestrator's own id in its arguments a tool would write to
      another incident: the dispatch follows the argument. */
  lemma DispatchFollowsArgument(docs: map<Id, Slice>, other: Id, args: Args, services: Services, settings: Settings)
    requires other in docs && services.triage.Some?
    requires Binds(INVESTIGATE, args) && args["incident_id"] == Text(other)
    ensures var docs' := Dispatch(docs, INVESTIGATE, args, Completes(services), settings).0;
            && docs'[other].findings == docs[other].findings + [services.triage.value]
            && docs' == docs[other := docs'[other]]
            && docs'[other] != docs[other]
  {
    assert |docs[other].findings + [services.triage.value]| == |docs[other].findings| + 1;
  }

  /** A model that names another incident in its tool arguments changes
      nothing: what the tool is given is overwritten with the orchestrator's
      own incident. */
  lemma SuppliedIdIsIgnored(docs: map<Id, Slice>, id: Id, call: FunctionCall, other: Value, sequence: nat, x: ToolOutcome,
                            settings: Settings)
    requires id in docs && docs[id].record.id == id
    ensures var forged := call.(args := call.args["incident_id" := other]);
            && CallToolOn(docs, id, forged, sequence, x, settings) == CallToolOn(docs, id, call, sequence, x, settings)
            && forall i :: i in docs && i != id ==> CallToolOn(docs, id, forged, sequence, x, settings).0[i] == docs[i]
  {
    hide CallTool, Dispatch, RunTool;
    var forged := call.(args := call.args["incident_id" := other]);
    assert ToolArgs(id, forged) == ToolArgs(id, call);
    CallToolOnOwn(docs, id, forged, sequence, x, settings);
  }

  // ---------- Every action, seen from every incident ----------

  lemma RecordIdKept(c: Cell, e: Event, settings: Settings)
    requires Invariant(c, settings)
    ensures Step(c, e, settings).run.slice.record.id == c.run.slice.record.id
  {
    hide CallTool, AutoAudit, Preflight, FinishStatus, NeedsAudit, NextCall;
    if e.Resumed? {
      IdOfResume(c.run, e.input, settings);
    }
  }

  lemma IdOfResume(r: Run, x: Input, settings: Settings)
    requires WellFormed(r)
    ensures Resume(r, x, settings).slice.record.id == r.slice.record.id
  {
    hide CallTool, AutoAudit, FinishStatus, NextCall;
    var s, pc := r.slice, r.pc;
    match pc
    case AwaitTool(turn, sequence, response, parts, blocked, contents) =>
      var call := response.calls[|parts|];
      var (s', reply) := CallTool(s, call, sequence, x.tool, settings);
      RecordOfCall(s, call, sequence, x.tool, settings);
      NextCallId(s', turn, sequence + 1, response, parts + [(call.name, reply)], blocked || reply.IsBlock(), contents, settings);
    case AwaitModel(turn, sequence, _, contents) =>
      if x.model.Answer? {
        NextCallId(Append(s, ModelEntry(s.record.id, sequence, Ok, NoNote)), turn, sequence + 1, x.model.response, [],
                   false, contents + [ModelContent(x.model.response)], settings);
      }
    case AwaitAudit(_, _, _) => RecordOfAudit(s, x.tool, settings);
    case _ =>
  }

  lemma RecordOfCall(s: Slice, call: FunctionCall, sequence: nat, x: ToolOutcome, settings: Settings)
    ensures CallTool(s, call, sequence, x, settings).0.record == s.record
    ensures s.steps <= CallTool(s, call, sequence, x, settings).0.steps
  {
    hide CallTool, Grounded;
    CallToolWrites(s, call, sequence, x, settings);
  }

  lemma RecordOfAudit(s: Slice, x: ToolOutcome, settings: Settings)
    requires s.patches != []
    ensures AutoAudit(s, x, settings).record == s.record && AutoAudit(s, x, settings).steps == s.steps
  {
    hide VerifyGovernance, Grounded;
    if x.Completes? {
      VerifyWrites(s, Text(Last(s.patches).id), x.services, settings);
    }
  }

  lemma NextCallId(s: Slice, turn: nat, sequence: nat, response: Response, parts: seq<(string, ToolReply)>,
                   blocked: bool, contents: seq<Content>, settings: Settings)
    ensures var s' := NextCall(s, turn, sequence, response, parts, blocked, contents, settings).slice;
            s'.record.id == s.record.id && s.steps <= s'.steps
  {
  }

  lemma RunProjects(w: Service, j: Id, x: Input, id: Id, settings: Settings)
    requires Consistent(w) && j in w.docs && id in w.docs
    requires w.docs[j].record.id == j && WellFormed(Run(w.docs[j], w.pcs[j]))
    ensures var w' := ActOnRun(w, j, x, settings);
            && Consistent(w') && w'.docs.Keys == w.docs.Keys
            && At(w', id) == if j == id then ActAlone(At(w, id), Happens(j, Resumed(x)), settings) else At(w, id)
  {
    hide ResumeOn, Resume, OfferAll, NewSteps, Publish;
    PublishAt(w, j, Resume(Run(w.docs[j], w.pcs[j]), x, settings).slice, id);
    ResumeOnOwn(w.docs, j, w.pcs[j], x, settings);
  }

  lemma HandProjects(w: Service, j: Id, e: Event, id: Id, settings: Settings)
    requires Consistent(w) && j in w.docs && id in w.docs
    requires WellFormed(Run(w.docs[j], w.pcs[j])) && !e.Resumed?
    ensures var w' := ActByHand(w, j, e, settings);
            && Consistent(w') && w'.docs.Keys == w.docs.Keys
            && At(w', id) == if j == id then ActAlone(At(w, id), Happens(j, e), settings) else At(w, id)
  {
    hide Step, OfferAll, NewSteps, Publish;
    var c := CellAt(w, j);
    PublishAt(w, j, Step(c, e, settings).run.slice, id);
    DecisionKeepsPc(c, e, settings);
  }

  /** Seen from any incident: an action on it is that action alone, any other
      action is nothing. */
  lemma ActProjects(w: Service, a: Action, id: Id, settings: Settings)
    requires Good(w, settings) && id in w.docs
    ensures var w' := Act(w, a, settings);
            && Consistent(w') && w'.docs.Keys == w.docs.Keys && WellFormed(CellAt(w, id).run)
            && At(w', id) == (if a.id == id then ActAlone(At(w, id), a, settings) else At(w, id))
  {
    hide Invariant, ActOnRun, ActByHand, Step, StreamAct, OfferAll, NewSteps;
    GoodCell(w, id, settings);
    if a.id in w.docs {
      GoodCell(w, a.id, settings);
      if a.Happens? && a.event.Resumed? {
        RunProjects(w, a.id, a.event.input, id, settings);
      } else if a.Happens? {
        HandProjects(w, a.id, a.event, id, settings);
      }
    }
  }

  lemma PublishAt(w: Service, j: Id, s: Slice, id: Id)
    requires w.docs.Keys == w.queues.Keys && j in w.docs && id in w.docs
    ensures var w' := Publish(w, w.docs[j := s]);
            && w'.docs.Keys == w'.queues.Keys == w.docs.Keys && w'.pcs == w.pcs && w'.approvals == w.approvals
            && w'.docs[id] == (if j == id then s else w.docs[id])
            && w'.queues[id] == (if j == id then OfferAll(w.queues[id], NewSteps(w.docs[id], s)) else w.queues[id])
  {
    OfferNone(w.queues[id], w.docs[id]);
  }

  lemma GoodCell(w: Service, id: Id, settings: Settings)
    requires Good(w, settings) && id in w.docs
    ensures w.docs[id].record.id == id && Invariant(CellAt(w, id), settings)
    ensures WellFormed(Run(w.docs[id], w.pcs[id]))
  {
  }

  lemma DecisionKeepsPc(c: Cell, e: Event, settings: Settings)
    requires WellFormed(c.run) && !e.Resumed?
    ensures Step(c, e, settings).run.pc == c.run.pc
  {
    hide Preflight;
  }

  lemma OfferNone(qs: seq<Subscription>, s: Slice)
    ensures OfferAll(qs, NewSteps(s, s)) == qs
  {
    assert NewSteps(s, s) == [];
  }

  lemma ActGood(w: Service, a: Action, settings: Settings)
    requires Good(w, settings)
    ensures Good(Act(w, a, settings), settings)
  {
    hide Act, Invariant, Step;
    var w' := Act(w, a, settings);
    if w.docs == map[] {
      ActOnNothing(w, a, settings);
    } else {
      var some :| some in w.docs;
      ActProjects(w, a, some, settings);
    }
    forall id | id in w'.docs
      ensures w'.docs[id].record.id == id && Invariant(CellAt(w', id), settings)
    {
      GoodCell(w, id, settings);
      ActProjects(w, a, id, settings);
      AloneKeeps(At(w, id), a, settings);
    }
  }

  lemma ActOnNothing(w: Service, a: Action, settings: Settings)
    requires Good(w, settings) && a.id !in w.docs
    ensures Act(w, a, settings) == w
  {
  }

  lemma AloneKeeps(v: Watched, a: Action, settings: Settings)
    requires Invariant(v.cell, settings)
    ensures WellFormed(v.cell.run)
    ensures var v' := ActAlone(v, a, settings);
            Invariant(v'.cell, settings) && v'.cell.run.slice.record.id == v.cell.run.slice.record.id
  {
    if a.Happens? {
      StepInvariant(v.cell, a.event, settings);
      RecordIdKept(v.cell, a.event, settings);
    }
  }

  // ---------- Every history of the whole service ----------

  predicate AllIngested(slices: map<Id, Slice>) {
    forall id :: id in slices ==> IsIngested(slices[id]) && slices[id].record.id == id
  }

  function NewService(slices: map<Id, Slice>): Service {
    Service(slices,
            map id | id in slices :: Fresh,
            map id | id in slices :: Approvals([], [], false, false),
            map id | id in slices :: [])
  }

  lemma NewServiceGood(slices: map<Id, Slice>, settings: Settings)
    requires AllIngested(slices)
    ensures Good(NewService(slices), settings)
  {
    var w := NewService(slices);
    forall id | id in slices
      ensures Invariant(CellAt(w, id), settings)
    {
      NewCellInvariant(slices[id], settings);
      assert CellAt(w, id) == NewCell(slices[id]);
    }
  }

  ghost function ServiceAfter(slices: map<Id, Slice>, actions: seq<Action>, settings: Settings): (w: Service)
    requires AllIngested(slices)
    ensures Good(w, settings)
    decreases |actions|
  {
    if actions == [] then
      NewServiceGood(slices, settings);
      NewService(slices)
    else
      var w := ServiceAfter(slices, Front(actions), settings);
      ActGood(w, Last(actions), settings);
      Act(w, Last(actions), settings)
  }

  // What concerns one incident, in order.
  function ActionsOf(actions: seq<Action>, id: Id): seq<Action> {
    if actions == [] then []
    else ActionsOf(Front(actions), id) + if Last(actions).id == id then [Last(actions)] else []
  }

  function EventsOf(actions: seq<Action>): seq<Event> {
    if actions == [] then []
    else EventsOf(Front(actions)) + if Last(actions).Happens? then [Last(actions).event] else []
  }

  // One incident and its subscribers, with nothing else in the service.
  ghost function Alone(s: Slice, actions: seq<Action>, settings: Settings): (v: Watched)
    requires IsIngested(s)
    ensures Invariant(v.cell, settings)
    decreases |actions|
  {
    if actions == [] then
      NewCellInvariant(s, settings);
      Watched(NewCell(s), [])
    else
      var v := Alone(s, Front(actions), settings);
      var a := Last(actions);
      if a.Happens? then
        StepInvariant(v.cell, a.event, settings);
        ActAlone(v, a, settings)
      else ActAlone(v, a, settings)
  }

  lemma {:induction false} AloneIsHistory(s: Slice, actions: seq<Action>, settings: Settings)
    requires IsIngested(s)
    ensures Alone(s, actions, settings).cell == After(s, EventsOf(actions), settings)
    decreases |actions|
  {
    hide Step, Invariant;
    if actions != [] {
      AloneIsHistory(s, Front(actions), settings);
      var events := EventsOf(Front(actions));
      if Last(actions).Happens? {
        AfterSnoc(s, events, Last(actions).event, settings);
      }
      assert events + [] == events;
    }
  }

  lemma AloneSnoc(s: Slice, actions: seq<Action>, a: Action, settings: Settings)
    requires IsIngested(s)
    ensures WellFormed(Alone(s, actions, settings).cell.run)
    ensures Alone(s, actions + [a], settings) == ActAlone(Alone(s, actions, settings), a, settings)
  {
    FrontOfSnoc(actions, a);
    AloneRuns(s, actions, settings);
    hide Invariant, ActAlone;
  }

  lemma AloneRuns(s: Slice, actions: seq<Action>, settings: Settings)
    requires IsIngested(s)
    ensures WellFormed(Alone(s, actions, settings).cell.run)
  {
    InvariantRuns(Alone(s, actions, settings).cell, settings);
  }

  /** Non-interference. After any interleaving of runs, decisions and stream
      operations on any number of incidents in one store, each incident - its
      record, documents, suspended run, approvals and subscribers' queues - is
      exactly as if only what concerns it had happened, in a service of its
      own. */
  lemma {:induction false} NonInterference(slices: map<Id, Slice>, actions: seq<Action>, id: Id, settings: Settings)
    requires AllIngested(slices) && id in slices
    ensures var w := ServiceAfter(slices, actions, settings);
            && w.docs.Keys == slices.Keys
            && At(w, id) == Alone(slices[id], ActionsOf(actions, id), settings)
            && CellAt(w, id) == After(slices[id], EventsOf(ActionsOf(actions, id)), settings)
    decreases |actions|
  {
    hide Act, ActAlone, Invariant, Good, EventsOf, After;
    if actions == [] {
      assert CellAt(NewService(slices), id) == NewCell(slices[id]);
    } else {
      var a := Last(actions);
      var own := ActionsOf(Front(actions), id);
      NonInterference(slices, Front(actions), id, settings);
      ActProjects(ServiceAfter(slices, Front(actions), settings), a, id, settings);
      AloneSnoc(slices[id], own, a, settings);
      assert own + [] == own;
    }
    AloneIsHistory(slices[id], ActionsOf(actions, id), settings);
  }

  // ---------- The subscribers of a shared service ----------

  lemma {:induction false} OfferStepsServe(q: Subscription, log: seq<StepLog>, steps: seq<StepLog>)
    requires Served(q, log)
    ensures Served(OfferSteps(q, steps), log + steps)
  {
    hide Served;
    if steps == [] {
      assert log + steps == log;
    } else {
      OfferStepsServe(q, log, Front(steps));
      OffersServe(OfferSteps(q, Front(steps)), log + Front(steps), Last(steps));
      assert log + Front(steps) + [Last(steps)] == log + steps;
    }
  }

  // Steps are only ever appended.
  lemma StepExtends(c: Cell, e: Event, settings: Settings)
    requires WellFormed(c.run)
    ensures c.run.slice.steps <= Step(c, e, settings).run.slice.steps
  {
    if e.Resumed? {
      hide Resume;
      ResumeExtends(c.run, e.input, settings);
    } else {
      hide Preflight;
    }
  }

  lemma ResumeExtends(r: Run, x: Input, settings: Settings)
    requires WellFormed(r)
    ensures r.slice.steps <= Resume(r, x, settings).slice.steps
  {
    hide CallTool, AutoAudit, FinishStatus, NextCall;
    var s, pc := r.slice, r.pc;
    match pc
    case AwaitTool(turn, sequence, response, parts, blocked, contents) =>
      var call := response.calls[|parts|];
      var (s', reply) := CallTool(s, call, sequence, x.tool, settings);
      RecordOfCall(s, call, sequence, x.tool, settings);
      NextCallId(s', turn, sequence + 1, response, parts + [(call.name, reply)], blocked || reply.IsBlock(), contents, settings);
    case AwaitModel(turn, sequence, _, contents) =>
      if x.model.Answer? {
        NextCallId(Append(s, ModelEntry(s.record.id, sequence, Ok, NoNote)), turn, sequence + 1, x.model.response, [],
                   false, contents + [ModelContent(x.model.response)], settings);
      }
    case AwaitAudit(_, _, _) => RecordOfAudit(s, x.tool, settings);
    case _ =>
  }

  predicate AllServed(v: Watched) {
    forall k :: 0 <= k < |v.queues| ==> Served(v.queues[k], v.cell.run.slice.steps)
  }

  lemma StreamActServes(qs: seq<Subscription>, log: seq<StepLog>, a: Action)
    requires !a.Happens?
    requires forall k :: 0 <= k < |qs| ==> Served(qs[k], log)
    ensures forall k :: 0 <= k < |StreamAct(qs, log, a)| ==> Served(StreamAct(qs, log, a)[k], log)
  {
    hide Take, OfferEnd, Faithful;
    match a
    case Subscribes(_) => ReplayServed(log);
    case Consumes(_, k) =>
      if k < |qs| {
        TakeFaithful(qs[k], log);
      }
    case Abandons(_, _) =>
    case Closes(_) =>
      forall k | 0 <= k < |qs|
        ensures Served(OfferEnd(qs[k], |log|), log)
      {
        OffersServe(qs[k], log, StepLog(0, "", ModelTurn, Orchestrator, Ok, None, map[], NoNote));
      }
  }

  lemma ReplayServed(log: seq<StepLog>)
    ensures Served(Replay(log), log)
  {
    ReplayFaithful(log);
  }

  /** Exactly-once delivery in the shared service: whatever happens to this and
      to other incidents, every registered subscriber has been given, or is
      owed, exactly the log of its incident, each step once and in order. */
  lemma SharedStreams(slices: map<Id, Slice>, actions: seq<Action>, id: Id, settings: Settings)
    requires AllIngested(slices) && id in slices
    ensures AllServed(Alone(slices[id], ActionsOf(actions, id), settings))
    ensures var w := ServiceAfter(slices, actions, settings);
            && id in w.docs && id in w.queues
            && forall k :: 0 <= k < |w.queues[id]| ==> Served(w.queues[id][k], w.docs[id].steps)
  {
    AloneServed(slices[id], ActionsOf(actions, id), settings);
    NonInterference(slices, actions, id, settings);
  }

  lemma {:induction false} AloneServed(s: Slice, actions: seq<Action>, settings: Settings)
    requires IsIngested(s)
    ensures AllServed(Alone(s, actions, settings))
    decreases |actions|
  {
    if actions != [] {
      hide Invariant, Served, Step, StreamAct, OfferSteps;
      var a := Last(actions);
      var v := Alone(s, Front(actions), settings);
      AloneServed(s, Front(actions), settings);
      InvariantRuns(v.cell, settings);
      if a.Happens? {
        StepExtends(v.cell, a.event, settings);
        EventServes(v, a, settings);
      } else {
        StreamActServes(v.queues, v.cell.run.slice.steps, a);
      }
    }
  }

  lemma InvariantRuns(c: Cell, settings: Settings)
    requires Invariant(c, settings)
    ensures WellFormed(c.run)
  {
  }

  lemma EventServes(v: Watched, a: Action, settings: Settings)
    requires WellFormed(v.cell.run) && a.Happens? && AllServed(v)
    requires v.cell.run.slice.steps <= Step(v.cell, a.event, settings).run.slice.steps
    ensures AllServed(ActAlone(v, a, settings))
  {
    hide Step, Served, OfferSteps;
    var before, after := v.cell.run.slice, Step(v.cell, a.event, settings).run.slice;
    var news := NewSteps(before, after);
    assert before.steps + news == after.steps;
    forall k | 0 <= k < |v.queues|
      ensures Served(OfferSteps(v.queues[k], news), after.steps)
    {
      OfferStepsServe(v.queues[k], before.steps, news);
    }
  }
}
