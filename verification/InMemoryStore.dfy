/** The offline state manager: maps of append-only lists, and one queue per
    stream subscriber. Every method is one atomic step, as in the original,
    where no holder of the lock ever suspends. */
module InMemoryStore {
  import opened Lifecycle
  import opened Models
  import opened Prelude
  import opened StepStreams

  datatype StoreError = IncidentNotFound(id: Id) | NoSuchPatch(id: Id)

  function Lookup<T>(m: map<Id, seq<T>>, id: Id): seq<T> {
    if id in m then m[id] else []
  }

  // `list.remove`
  function Without<T(==)>(s: seq<T>, x: T): seq<T> {
    if s == [] then [] else if s[0] == x then s[1..] else [s[0]] + Without(s[1..], x)
  }

  predicate NoDuplicates<T(==)>(s: seq<T>) {
    forall i, j :: 0 <= i < j < |s| ==> s[i] != s[j]
  }

  lemma {:induction false} WithoutIs<T>(s: seq<T>, x: T)
    requires NoDuplicates(s)
    ensures NoDuplicates(Without(s, x))
    ensures forall y :: y in Without(s, x) <==> y in s && y != x
  {
    if s != [] {
      assert s == [s[0]] + s[1..];
      WithoutIs(s[1..], x);
      if s[0] == x {
        assert forall y :: y in s[1..] ==> y != x;
      } else {
        var r := Without(s[1..], x);
        assert forall y :: y in r ==> y != s[0];
      }
    }
  }

  /** One subscriber's queue. What was taken from it, and where the log stood
      when it was closed, is recorded for the proofs. */
  class StepQueue {
    var items: seq<Option<StepLog>>
    ghost var yielded: seq<StepLog>
    ghost var closedAt: Option<nat>
    ghost var ended: bool

    ghost function View(): Subscription
      reads this
    {
      Subscription(yielded, items, closedAt, ended)
    }

    constructor (log: seq<StepLog>)
      ensures View() == Replay(log)
    {
      items := Wrap(log);
      yielded, closedAt, ended := [], None, false;
    }

    method PutStep(step: StepLog)
      modifies this
      ensures View() == OfferStep(old(View()), step)
    {
      items := items + [Some(step)];
    }

    method PutEnd(ghost logLength: nat)
      modifies this
      ensures View() == OfferEnd(old(View()), logLength)
    {
      items := items + [None];
      closedAt := if closedAt.Some? then closedAt else Some(logLength);
    }

    method Get() returns (item: Option<StepLog>)
      requires items != []
      modifies this
      ensures item == old(items)[0]
      ensures View() == Take(old(View()))
    {
      item := items[0];
      items := items[1..];
      match item {
        case Some(step) => yielded := yielded + [step];
        case None => ended := true;
      }
    }
  }

  datatype Delivery = Waiting | Delivered(step: StepLog) | EndOfStream

  class InMemoryStateManager {
    var incidents: map<Id, Incident>
    var steps: map<Id, seq<StepLog>>
    var findings: map<Id, seq<Finding>>
    var patches: map<Id, seq<Patch>>
    var audits: map<Id, seq<Audit>>
    var subscribers: map<Id, seq<StepQueue>>

    ghost function Queues(): set<StepQueue>
      reads this
    {
      set id, q | id in subscribers && q in subscribers[id] :: q
    }

    ghost predicate Registered()
      reads this
    {
      && (forall id :: id in subscribers ==> NoDuplicates(subscribers[id]))
      && (forall i, j, q :: i in subscribers && j in subscribers && q in subscribers[i] && q in subscribers[j] ==> i == j)
    }

    // Every subscriber has got, or is owed, exactly its incident's log.
    ghost predicate StreamsFaithful()
      reads this, Queues()
    {
      forall id, q :: id in subscribers && q in subscribers[id] ==>
                        Served(q.View(), Lookup(steps, id))
    }

    ghost predicate DocumentsOwned()
      reads this
    {
      && (forall id :: id in incidents ==> incidents[id].id == id)
      && steps.Keys <= incidents.Keys && findings.Keys <= incidents.Keys
      && patches.Keys <= incidents.Keys && audits.Keys <= incidents.Keys
    }

    ghost predicate Valid()
      reads this, Queues()
    {
      DocumentsOwned() && Registered() && StreamsFaithful()
    }

    function SliceOf(id: Id): Slice
      reads this
      requires id in incidents
    {
      Slice(incidents[id], Lookup(steps, id), Lookup(findings, id), Lookup(patches, id), Lookup(audits, id))
    }

    // All the documents in the store, incident by incident.
    function View(): map<Id, Slice>
      reads this
    {
      map id | id in incidents :: SliceOf(id)
    }

    lemma RecordId(id: Id)
      requires Valid() && id in View()
      ensures View()[id].record.id == id
    {
    }

    constructor ()
      ensures Valid() && View() == map[] && subscribers == map[]
    {
      incidents, steps, findings, patches, audits, subscribers := map[], map[], map[], map[], map[], map[];
    }

    method CreateIncident(incident: Incident)
      requires Valid()
      modifies this
      ensures Valid() && subscribers == old(subscribers)
      ensures View() == old(View())[incident.id :=
                          if incident.id in old(View()) then old(View())[incident.id].(record := incident)
                          else Slice(incident, [], [], [], [])]
    {
      incidents := incidents[incident.id := incident];
    }

    method UpdateIncident(id: Id, u: IncidentUpdate) returns (r: Result<Incident, StoreError>)
      requires Valid()
      modifies this
      ensures Valid() && subscribers == old(subscribers)
      ensures id !in old(View()) ==> r == Failure(IncidentNotFound(id)) && View() == old(View())
      ensures id in old(View()) ==>
                && View() == old(View())[id := Update(old(View())[id], u)]
                && r == Success(View()[id].record)
    {
      if id !in incidents {
        return Failure(IncidentNotFound(id));
      }
      incidents := incidents[id := Updated(incidents[id], u)];
      r := Success(incidents[id]);
    }

    method GetIncident(id: Id) returns (r: Result<Incident, StoreError>)
      ensures r == if id in View() then Success(View()[id].record) else Failure(IncidentNotFound(id))
    {
      r := if id in incidents then Success(incidents[id]) else Failure(IncidentNotFound(id));
    }

    method AppendStep(id: Id, step: StepLog) returns (r: Result<(), StoreError>)
      requires Valid()
      modifies this, Queues()
      ensures Valid() && subscribers == old(subscribers)
      ensures r == if id in old(View()) then Success(()) else Failure(IncidentNotFound(id))
      ensures View() == if id in old(View()) then old(View())[id := Append(old(View())[id], step)] else old(View())
      ensures forall i, q :: i in subscribers && q in subscribers[i] ==>
                q.View() == if i == id && id in View() then OfferStep(old(q.View()), step) else old(q.View())
    {
      hide Served, OfferStep, StepQueue.View, InMemoryStateManager.SliceOf, Append;
      if id !in incidents {
        return Failure(IncidentNotFound(id));
      }
      ghost var log := Lookup(steps, id);
      LogStep(id, step);
      OfferToAll(id, step, log);
      r := Success(());
    }

    method LogStep(id: Id, step: StepLog)
      requires DocumentsOwned() && id in incidents
      modifies this`steps
      ensures DocumentsOwned() && steps == old(steps)[id := Lookup(old(steps), id) + [step]]
      ensures View() == old(View())[id := Append(old(View())[id], step)]
    {
      steps := steps[id := Lookup(steps, id) + [step]];
    }

    // `for queue in self._subscribers[id]: queue.put_nowait(log)`
    method OfferToAll(id: Id, step: StepLog, ghost before: seq<StepLog>)
      requires Registered() && Lookup(steps, id) == before + [step]
      requires forall i, q :: i in subscribers && q in subscribers[i] ==>
                 Served(q.View(), if i == id then before else Lookup(steps, i))
      modifies Queues()
      ensures forall i, q :: i in subscribers && q in subscribers[i] ==>
                q.View() == if i == id then OfferStep(old(q.View()), step) else old(q.View())
      ensures StreamsFaithful()
    {
      hide Served, OfferStep, OfferEnd, StepQueue.View;
      var queues := Lookup(subscribers, id);
      for k := 0 to |queues|
        invariant forall i, q :: i in subscribers && q in subscribers[i] && (i != id || q in queues[k..]) ==>
                    q.View() == old(q.View())
        invariant forall q :: q in queues[..k] ==> q.View() == OfferStep(old(q.View()), step)
      {
        assert queues[..k + 1] == queues[..k] + [queues[k]];
        assert queues[k..] == [queues[k]] + queues[k + 1..];
        assert queues[k] in subscribers[id];
        queues[k].PutStep(step);
      }
      assert queues[..|queues|] == queues;
      forall i, q | i in subscribers && q in subscribers[i]
        ensures Served(q.View(), Lookup(steps, i))
      {
        if i == id {
          OffersServe(old(q.View()), before, step);
        }
      }
    }

    method WriteFinding(id: Id, finding: Finding) returns (r: Result<(), StoreError>)
      requires Valid()
      modifies this
      ensures Valid() && subscribers == old(subscribers)
      ensures r == if id in old(View()) then Success(()) else Failure(IncidentNotFound(id))
      ensures View() == if id in old(View())
                        then old(View())[id := old(View())[id].(findings := old(View())[id].findings + [finding])]
                        else old(View())
    {
      if id !in incidents {
        return Failure(IncidentNotFound(id));
      }
      findings := findings[id := Lookup(findings, id) + [finding]];
      r := Success(());
    }

    method WritePatch(id: Id, patch: Patch) returns (r: Result<(), StoreError>)
      requires Valid()
      modifies this
      ensures Valid() && subscribers == old(subscribers)
      ensures r == if id in old(View()) then Success(()) else Failure(IncidentNotFound(id))
      ensures View() == if id in old(View())
                        then old(View())[id := old(View())[id].(patches := old(View())[id].patches + [patch])]
                        else old(View())
    {
      if id !in incidents {
        return Failure(IncidentNotFound(id));
      }
      patches := patches[id := Lookup(patches, id) + [patch]];
      r := Success(());
    }

    method WriteAudit(id: Id, audit: Audit) returns (r: Result<(), StoreError>)
      requires Valid()
      modifies this
      ensures Valid() && subscribers == old(subscribers)
      ensures r == if id in old(View()) then Success(()) else Failure(IncidentNotFound(id))
      ensures View() == if id in old(View())
                        then old(View())[id := old(View())[id].(audits := old(View())[id].audits + [audit])]
                        else old(View())
    {
      if id !in incidents {
        return Failure(IncidentNotFound(id));
      }
      audits := audits[id := Lookup(audits, id) + [audit]];
      r := Success(());
    }

    // A linear scan from the oldest patch; the first match wins.
    method GetPatchById(id: Id, patchId: Id) returns (r: Result<Patch, StoreError>)
      ensures id !in View() ==> r == Failure(IncidentNotFound(id))
      ensures id in View() ==>
                r == match GetPatch(View()[id].patches, patchId)
                     case Some(patch) => Success(patch)
                     case None => Failure(NoSuchPatch(patchId))
    {
      if id !in incidents {
        return Failure(IncidentNotFound(id));
      }
      var all := Lookup(patches, id);
      for k := 0 to |all|
        invariant GetPatch(all[..k], patchId).None?
      {
        assert all[..k + 1] == all[..k] + [all[k]];
        FrontOfSnoc(all[..k], all[k]);
        if all[k].id == patchId {
          FoundFirst(all, k + 1, patchId);
          return Success(all[k]);
        }
      }
      assert all[..|all|] == all;
      r := Failure(NoSuchPatch(patchId));
    }

    function ListSteps(id: Id): seq<StepLog> reads this { Lookup(steps, id) }

    function ListFindings(id: Id): seq<Finding> reads this { Lookup(findings, id) }

    function ListPatches(id: Id): seq<Patch> reads this { Lookup(patches, id) }

    function ListAudits(id: Id): seq<Audit> reads this { Lookup(audits, id) }

    // ---------- Streaming ----------

    // `stream_steps` up to its first suspension: snapshot and registration.
    method Subscribe(id: Id) returns (r: Result<StepQueue, StoreError>)
      requires Valid()
      modifies this
      ensures Valid() && View() == old(View())
      ensures id !in View() ==> r == Failure(IncidentNotFound(id)) && subscribers == old(subscribers)
      ensures id in View() ==>
                && r.Success? && fresh(r.value)
                && r.value.View() == Replay(View()[id].steps)
                && subscribers == old(subscribers)[id := Lookup(old(subscribers), id) + [r.value]]
    {
      if id !in incidents {
        return Failure(IncidentNotFound(id));
      }
      var q := new StepQueue(Lookup(steps, id));
      ReplayFaithful(Lookup(steps, id));
      subscribers := subscribers[id := Lookup(subscribers, id) + [q]];
      r := Success(q);
      forall i, p | i in subscribers && p in subscribers[i]
        ensures Served(p.View(), Lookup(steps, i))
      {
        if p != q {
          assert i in old(subscribers) && p in old(subscribers)[i];
          assert old(Served(p.View(), Lookup(steps, i)));
        }
      }
    }

    method Unregister(id: Id, q: StepQueue)
      requires DocumentsOwned() && Registered()
      requires id in subscribers && q in subscribers[id]
      requires forall i, p :: i in subscribers && p in subscribers[i] && p != q ==>
                 Served(p.View(), Lookup(steps, i))
      modifies this`subscribers
      ensures Valid() && View() == old(View())
      ensures subscribers == old(subscribers)[id := Without(old(subscribers)[id], q)]
    {
      WithoutIs(subscribers[id], q);
      subscribers := subscribers[id := Without(subscribers[id], q)];
    }

    // One resumption of the generator; an empty queue means it stays suspended.
    method Next(id: Id, q: StepQueue) returns (d: Delivery)
      requires Valid() && id in subscribers && q in subscribers[id]
      modifies this`subscribers, q
      ensures Valid() && View() == old(View())
      ensures q.View() == Take(old(q.View()))
      ensures d == if old(q.items) == [] then Waiting
                   else if old(q.items)[0].Some? then Delivered(old(q.items)[0].value)
                   else EndOfStream
      ensures subscribers == if d.EndOfStream? then old(subscribers)[id := Without(old(subscribers)[id], q)]
                             else old(subscribers)
    {
      if q.items == [] {
        return Waiting;
      }
      TakeFaithful(q.View(), Lookup(steps, id));
      var item := q.Get();
      forall i, p | i in subscribers && p in subscribers[i] && p != q
        ensures Served(p.View(), Lookup(steps, i))
      {
        assert old(Served(p.View(), Lookup(steps, i)));
      }
      match item {
        case Some(step) => d := Delivered(step);
        case None =>
          Unregister(id, q);
          d := EndOfStream;
      }
    }

    // The consumer stopped iterating.
    method Abandon(id: Id, q: StepQueue)
      requires Valid() && id in subscribers && q in subscribers[id]
      modifies this`subscribers
      ensures Valid() && View() == old(View())
      ensures subscribers == old(subscribers)[id := Without(old(subscribers)[id], q)]
    {
      Unregister(id, q);
    }

    method CloseStream(id: Id)
      requires Valid()
      modifies Queues()
      ensures Valid() && View() == old(View()) && subscribers == old(subscribers)
      ensures forall i, q :: i in subscribers && q in subscribers[i] ==>
                q.View() == if i == id then OfferEnd(old(q.View()), |Lookup(steps, id)|) else old(q.View())
    {
      var queues := Lookup(subscribers, id);
      ghost var n := |Lookup(steps, id)|;
      for k := 0 to |queues|
        invariant forall i, q :: i in subscribers && q in subscribers[i] && (i != id || q in queues[k..]) ==>
                    q.View() == old(q.View())
        invariant forall q :: q in queues[..k] ==> q.View() == OfferEnd(old(q.View()), n)
      {
        assert queues[..k + 1] == queues[..k] + [queues[k]];
        assert queues[k..] == [queues[k]] + queues[k + 1..];
        assert queues[k] in subscribers[id];
        queues[k].PutEnd(n);
      }
      assert queues[..|queues|] == queues;
      forall i, q | i in subscribers && q in subscribers[i]
        ensures Served(q.View(), Lookup(steps, i))
      {
        assert old(Served(q.View(), Lookup(steps, i)));
        if i == id {
          OfferEndFaithful(old(q.View()), Lookup(steps, id));
        }
      }
    }

    // Newest first: identifiers are issued in increasing order.
    method ListIncidents(limit: int) returns (listed: seq<Incident>)
      requires Valid()
      ensures exists all :: DescendingListing(all, incidents) && listed == Prelude.Slice(all, limit)
    {
      var all: seq<Incident> := [];
      var left := incidents.Keys;
      while left != {}
        invariant left <= incidents.Keys
        invariant DescendingById(all)
        invariant forall x :: x in all <==> x.id in incidents.Keys - left && x == incidents[x.id]
      {
        var id :| id in left;
        all := InsertById(all, incidents[id]);
        left := left - {id};
      }
      listed := Prelude.Slice(all, limit);
      assert DescendingListing(all, incidents);
    }
  }

  lemma {:induction false} FoundFirst(all: seq<Patch>, k: nat, patchId: Id)
    requires k <= |all| && GetPatch(all[..k], patchId).Some?
    ensures GetPatch(all, patchId) == GetPatch(all[..k], patchId)
  {
    if k < |all| {
      assert Front(all)[..k] == all[..k];
      FoundFirst(Front(all), k, patchId);
    } else {
      assert all[..k] == all;
    }
  }

  predicate DescendingById(s: seq<Incident>) {
    forall i, j :: 0 <= i < j < |s| ==> Less(s[j].id, s[i].id)
  }

  // The incidents of `m`, each once, by descending id.
  ghost predicate DescendingListing(s: seq<Incident>, m: map<Id, Incident>) {
    && DescendingById(s)
    && forall x :: x in s <==> x.id in m && x == m[x.id]
  }

  function InsertById(s: seq<Incident>, x: Incident): (r: seq<Incident>)
    requires DescendingById(s) && forall y :: y in s ==> y.id != x.id
    ensures DescendingById(r)
    ensures forall y :: y in r <==> y in s || y == x
  {
    if s == [] then [x]
    else if Less(s[0].id, x.id) then
      InsertHead(s, x);
      [x] + s
    else
      assert forall y :: y in s[1..] ==> y in s;
      var r := InsertById(s[1..], x);
      InsertTail(s, x, r);
      [s[0]] + r
  }

  lemma InsertHead(s: seq<Incident>, x: Incident)
    requires DescendingById(s) && s != [] && Less(s[0].id, x.id)
    ensures DescendingById([x] + s)
  {
    forall j | 0 < j < |s|
      ensures Less(s[j].id, x.id)
    {
      LessTransitive(s[j].id, s[0].id, x.id);
    }
  }

  lemma InsertTail(s: seq<Incident>, x: Incident, r: seq<Incident>)
    requires DescendingById(s) && s != [] && s[0].id != x.id && !Less(s[0].id, x.id)
    requires DescendingById(r) && forall y :: y in r <==> y in s[1..] || y == x
    ensures DescendingById([s[0]] + r)
    ensures forall y :: y in [s[0]] + r <==> y in s || y == x
  {
    LessTotal(s[0].id, x.id);
    forall j | 0 <= j < |r|
      ensures Less(r[j].id, s[0].id)
    {
      assert r[j] in r;
      if r[j] != x {
        var k :| 0 <= k < |s[1..]| && s[1..][k] == r[j];
        assert s[k + 1] == r[j];
      }
    }
    assert s == [s[0]] + s[1..];
  }
}
