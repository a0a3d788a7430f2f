/** The Firestore state manager, as keyed collections: documents are set by id,
    listings come back sorted by id, the last write wins. It never checks that
    the incident exists. */
module KeyedStore {
  import opened InMemoryStore
  import opened KeyedCollections
  import opened Lifecycle
  import opened Models
  import opened Prelude
  import opened StepIds
  import opened StepLogGrammar

  function StepKey(step: StepLog): string { FormatStepId(step.sequence) }

  function FindingKey(finding: Finding): string { finding.id }

  function PatchKey(patch: Patch): string { patch.id }

  function AuditKey(audit: Audit): string { audit.id }

  function CollectionAt<T>(m: map<Id, Collection<T>>, id: Id): Collection<T> {
    if id in m then m[id] else []
  }

  // The incidents by id.
  function AsMap(c: Collection<Incident>): map<Id, Incident> {
    if c == [] then map[] else AsMap(Front(c))[Last(c).key := Last(c).value]
  }

  class FirestoreStateManager {
    var incidents: Collection<Incident>
    var steps: map<Id, Collection<StepLog>>
    var findings: map<Id, Collection<Finding>>
    var patches: map<Id, Collection<Patch>>
    var audits: map<Id, Collection<Audit>>

    ghost predicate Valid()
      reads this
    {
      && Sorted(incidents)
      && forall d :: d in incidents ==> d.key == d.value.id
    }

    // The store holds what writing the documents of `s`, one after another,
    // leaves behind.
    ghost predicate Holds(id: Id, s: Slice)
      reads this
    {
      && Find(incidents, id) == Some(s.record)
      && CollectionAt(steps, id) == PutAll(s.steps, StepKey)
      && CollectionAt(findings, id) == PutAll(s.findings, FindingKey)
      && CollectionAt(patches, id) == PutAll(s.patches, PatchKey)
      && CollectionAt(audits, id) == PutAll(s.audits, AuditKey)
    }

    constructor ()
      ensures Valid() && incidents == []
      ensures forall id :: CollectionAt(steps, id) == [] && CollectionAt(findings, id) == []
                           && CollectionAt(patches, id) == [] && CollectionAt(audits, id) == []
    {
      incidents, steps, findings, patches, audits := [], map[], map[], map[], map[];
    }

    method CreateIncident(incident: Incident)
      requires Valid()
      modifies this`incidents
      ensures Valid()
      ensures CollectionAt(steps, incident.id) == [] && CollectionAt(findings, incident.id) == []
              && CollectionAt(patches, incident.id) == [] && CollectionAt(audits, incident.id) == []
              ==> Holds(incident.id, Slice(incident, [], [], [], []))
      ensures forall s :: old(Holds(incident.id, s)) ==> Holds(incident.id, s.(record := incident))
      ensures forall i, s :: i != incident.id && old(Holds(i, s)) ==> Holds(i, s)
      ensures forall i :: Find(incidents, i) == if i == incident.id then Some(incident) else old(Find(incidents, i))
    {
      PutKeepsSorted(incidents, incident.id, incident);
      forall i
        ensures Find(Put(incidents, incident.id, incident), i)
                == if i == incident.id then Some(incident) else Find(incidents, i)
      {
        FindAfterPut(incidents, incident.id, incident, i);
      }
      incidents := Put(incidents, incident.id, incident);
    }

    // Updating an absent document is an error of the service.
    method UpdateIncident(id: Id, u: IncidentUpdate) returns (r: Result<Incident, StoreError>)
      requires Valid()
      modifies this`incidents
      ensures Valid()
      ensures r == match old(Find(incidents, id))
                   case Some(incident) => Success(Updated(incident, u))
                   case None => Failure(IncidentNotFound(id))
      ensures forall s :: old(Holds(id, s)) ==> Holds(id, Update(s, u))
      ensures forall i, s :: i != id && old(Holds(i, s)) ==> Holds(i, s)
    {
      match Find(incidents, id) {
        case None => r := Failure(IncidentNotFound(id));
        case Some(incident) =>
          FindIsMember(incidents, id);
          assert Doc(id, incident) in incidents;
          var updated := Updated(incident, u);
          CreateIncident(updated);
          r := Success(updated);
      }
    }

    method GetIncident(id: Id) returns (r: Result<Incident, StoreError>)
      ensures forall s :: Holds(id, s) ==> r == Success(s.record)
      ensures Find(incidents, id).None? ==> r == Failure(IncidentNotFound(id))
    {
      r := match Find(incidents, id)
           case Some(incident) => Success(incident)
           case None => Failure(IncidentNotFound(id));
    }

    method AppendStep(id: Id, step: StepLog)
      modifies this`steps
      ensures steps == old(steps)[id := Put(CollectionAt(old(steps), id), StepKey(step), step)]
      ensures forall s :: old(Holds(id, s)) ==> Holds(id, Append(s, step))
      ensures forall i, s :: i != id && old(Holds(i, s)) ==> Holds(i, s)
    {
      steps := steps[id := Put(CollectionAt(steps, id), StepKey(step), step)];
      forall s | old(Holds(id, s))
        ensures Holds(id, Append(s, step))
      {
        PutAllSnoc(s.steps, step, StepKey);
      }
    }

    method WriteFinding(id: Id, finding: Finding)
      modifies this`findings
      ensures findings == old(findings)[id := Put(CollectionAt(old(findings), id), finding.id, finding)]
      ensures forall s :: old(Holds(id, s)) ==> Holds(id, s.(findings := s.findings + [finding]))
      ensures forall i, s :: i != id && old(Holds(i, s)) ==> Holds(i, s)
    {
      findings := findings[id := Put(CollectionAt(findings, id), finding.id, finding)];
      forall s | old(Holds(id, s))
        ensures Holds(id, s.(findings := s.findings + [finding]))
      {
        PutAllSnoc(s.findings, finding, FindingKey);
      }
    }

    method WritePatch(id: Id, patch: Patch)
      modifies this`patches
      ensures patches == old(patches)[id := Put(CollectionAt(old(patches), id), patch.id, patch)]
      ensures forall s :: old(Holds(id, s)) ==> Holds(id, s.(patches := s.patches + [patch]))
      ensures forall i, s :: i != id && old(Holds(i, s)) ==> Holds(i, s)
    {
      patches := patches[id := Put(CollectionAt(patches, id), patch.id, patch)];
      forall s | old(Holds(id, s))
        ensures Holds(id, s.(patches := s.patches + [patch]))
      {
        PutAllSnoc(s.patches, patch, PatchKey);
      }
    }

    method WriteAudit(id: Id, audit: Audit)
      modifies this`audits
      ensures audits == old(audits)[id := Put(CollectionAt(old(audits), id), audit.id, audit)]
      ensures forall s :: old(Holds(id, s)) ==> Holds(id, s.(audits := s.audits + [audit]))
      ensures forall i, s :: i != id && old(Holds(i, s)) ==> Holds(i, s)
    {
      audits := audits[id := Put(CollectionAt(audits, id), audit.id, audit)];
      forall s | old(Holds(id, s))
        ensures Holds(id, s.(audits := s.audits + [audit]))
      {
        PutAllSnoc(s.audits, audit, AuditKey);
      }
    }

    // The last patch written under the id; under ids issued in order, the
    // patch the append-only store would find.
    method GetPatchById(id: Id, patchId: Id) returns (r: Result<Patch, StoreError>)
      ensures r.Failure? ==> r.error == NoSuchPatch(patchId)
      ensures forall s :: Holds(id, s) ==>
                (r.Failure? <==> forall i :: 0 <= i < |s.patches| ==> s.patches[i].id != patchId)
      ensures forall s :: Holds(id, s) && r.Success? ==>
                exists i :: 0 <= i < |s.patches| && s.patches[i] == r.value && r.value.id == patchId
                            && forall j :: i < j < |s.patches| ==> s.patches[j].id != patchId
      ensures forall s :: Holds(id, s) && InOrder(s.patches, PatchKey) ==>
                r == match GetPatch(s.patches, patchId)
                     case Some(patch) => Success(patch)
                     case None => Failure(NoSuchPatch(patchId))
    {
      r := match Find(CollectionAt(patches, id), patchId)
           case Some(patch) => Success(patch)
           case None => Failure(NoSuchPatch(patchId));
      forall s | Holds(id, s)
        ensures Find(CollectionAt(patches, id), patchId).None?
                <==> forall i :: 0 <= i < |s.patches| ==> s.patches[i].id != patchId
        ensures Find(CollectionAt(patches, id), patchId).Some? ==>
                  exists i :: 0 <= i < |s.patches| && s.patches[i] == Find(CollectionAt(patches, id), patchId).value
                              && s.patches[i].id == patchId
                              && forall j :: i < j < |s.patches| ==> s.patches[j].id != patchId
      {
        FindIsLastWrite(s.patches, PatchKey, patchId);
      }
      forall s | Holds(id, s) && InOrder(s.patches, PatchKey)
        ensures Find(CollectionAt(patches, id), patchId) == GetPatch(s.patches, patchId)
      {
        LookupsAgree(s.patches, patchId);
      }
    }

    function ListSteps(id: Id): seq<StepLog> reads this { Values(CollectionAt(steps, id)) }

    function ListFindings(id: Id): seq<Finding> reads this { Values(CollectionAt(findings, id)) }

    function ListPatches(id: Id): seq<Patch> reads this { Values(CollectionAt(patches, id)) }

    function ListAudits(id: Id): seq<Audit> reads this { Values(CollectionAt(audits, id)) }

    /** The keyed store lists what the append-only store lists exactly when
        ids were issued in strictly increasing order. */
    lemma ListingsAgree(id: Id, s: Slice)
      requires Holds(id, s)
      ensures ListFindings(id) == s.findings <==> InOrder(s.findings, FindingKey)
      ensures ListPatches(id) == s.patches <==> InOrder(s.patches, PatchKey)
      ensures ListAudits(id) == s.audits <==> InOrder(s.audits, AuditKey)
      ensures ListSteps(id) == s.steps <==> InOrder(s.steps, StepKey)
    {
      ListingIsAppendOrder(s.steps, StepKey);
      ListingIsAppendOrder(s.findings, FindingKey);
      ListingIsAppendOrder(s.patches, PatchKey);
      ListingIsAppendOrder(s.audits, AuditKey);
    }

    // Sorted ascending by the service, reversed and cut by the client.
    method ListIncidents(limit: int) returns (listed: seq<Incident>)
      requires Valid()
      ensures exists all :: DescendingListing(all, AsMap(incidents)) && listed == Prelude.Slice(all, limit)
    {
      var all := Values(incidents);
      all := Reverse(all);
      ReversedListing(incidents);
      listed := Prelude.Slice(all, limit);
    }
  }

  // ---------- Lookups ----------

  lemma {:induction false} LookupsAgree(patches: seq<Patch>, id: Id)
    requires InOrder(patches, PatchKey)
    ensures Find(PutAll(patches, PatchKey), id) == GetPatch(patches, id)
  {
    if patches != [] {
      var front, last := Front(patches), Last(patches);
      LookupsAgree(front, id);
      PutAllKeyed(front, PatchKey);
      FindAfterPut(PutAll(front, PatchKey), last.id, last, id);
      FindIsLastWrite(front, PatchKey, id);
      LessIrreflexive(id);
      if last.id == id {
        forall i | 0 <= i < |front|
          ensures PatchKey(front[i]) != id
        {
          assert Less(PatchKey(patches[i]), PatchKey(patches[|patches| - 1]));
        }
      }
    }
  }

  // ---------- Listing incidents ----------

  lemma {:induction false} AsMapIs(c: Collection<Incident>)
    requires Sorted(c)
    ensures forall id, x :: Doc(id, x) in c <==> id in AsMap(c) && AsMap(c)[id] == x
  {
    if c != [] {
      AsMapIs(Front(c));
      FrontIsRest(c);
      assert forall d :: d in Front(c) ==> Less(d.key, Last(c).key);
      LessIrreflexive(Last(c).key);
    }
  }

  lemma ReversedListing(c: Collection<Incident>)
    requires Sorted(c) && forall d :: d in c ==> d.key == d.value.id
    ensures DescendingListing(Reverse(Values(c)), AsMap(c))
  {
    var s, m := Reverse(Values(c)), AsMap(c);
    AsMapIs(c);
    ReversedMembers(c);
    forall i, j | 0 <= i < j < |s|
      ensures Less(s[j].id, s[i].id)
    {
      assert c[|c| - 1 - j] in c && c[|c| - 1 - i] in c;
    }
    forall x
      ensures x in s <==> x.id in m && x == m[x.id]
    {
      assert x in s <==> Doc(x.id, x) in c;
    }
  }

  lemma ReversedMembers(c: Collection<Incident>)
    requires forall d :: d in c ==> d.key == d.value.id
    ensures forall x :: x in Reverse(Values(c)) <==> Doc(x.id, x) in c
  {
    var s, n := Reverse(Values(c)), |c|;
    assert forall i :: 0 <= i < n ==> s[i] == c[n - 1 - i].value;
    hide Reverse, Values;
    forall x
      ensures x in s <==> Doc(x.id, x) in c
    {
      if x in s {
        var i :| 0 <= i < n && s[i] == x;
        assert c[n - 1 - i] in c;
      }
      if Doc(x.id, x) in c {
        var j :| 0 <= j < n && c[j] == Doc(x.id, x);
        assert s[n - 1 - j] == c[n - 1 - (n - 1 - j)].value;
      }
    }
  }

  /** Newest-first listings of the same incidents are equal, so both state
      managers return the same slice for every limit. */
  lemma DescendingListingIsUnique(a: seq<Incident>, b: seq<Incident>, m: map<Id, Incident>)
    requires DescendingListing(a, m) && DescendingListing(b, m)
    ensures a == b
  {
    SameDescending(a, b);
  }

  lemma {:induction false} SameDescending(a: seq<Incident>, b: seq<Incident>)
    requires DescendingById(a) && DescendingById(b)
    requires forall x :: x in a <==> x in b
    ensures a == b
    decreases |a|
  {
    assert b != [] ==> b[0] in b;
    if a != [] {
      assert a[0] in b && b[0] in a;
      if a[0] != b[0] {
        LessAsymmetric(a[0].id, b[0].id);
      }
      RestOfListing(a);
      RestOfListing(b);
      SameDescending(a[1..], b[1..]);
    }
  }

  lemma RestOfListing(a: seq<Incident>)
    requires DescendingById(a) && a != []
    ensures a == [a[0]] + a[1..] && DescendingById(a[1..])
    ensures forall x :: x in a[1..] <==> x in a && x != a[0]
  {
    LessIrreflexive(a[0].id);
  }

  // ---------- Listing steps ----------

  // The entries no later entry has the id of.
  function LastPerId(log: seq<StepLog>): seq<StepLog> {
    if log == [] then []
    else if HasId(log[1..], log[0].sequence) then LastPerId(log[1..])
    else [log[0]] + LastPerId(log[1..])
  }

  function WithoutId(log: seq<StepLog>, n: nat): seq<StepLog> {
    if log == [] then []
    else if log[0].sequence == n then WithoutId(log[1..], n)
    else [log[0]] + WithoutId(log[1..], n)
  }

  lemma WithoutCons(x: StepLog, s: seq<StepLog>, n: nat)
    ensures WithoutId([x] + s, n) == if x.sequence == n then WithoutId(s, n) else [x] + WithoutId(s, n)
  {
    assert ([x] + s)[1..] == s;
  }

  lemma {:induction false} LastPerIdSnoc(log: seq<StepLog>, e: StepLog)
    ensures LastPerId(log + [e]) == WithoutId(LastPerId(log), e.sequence) + [e]
  {
    if log == [] {
      assert log + [e] == [e];
    } else {
      var rest, x := log[1..], log[0];
      var kept := LastPerId(rest);
      LastPerIdSnoc(rest, e);
      HasIdSnoc(rest, e, x.sequence);
      WithoutCons(x, kept, e.sequence);
      hide WithoutId, HasId;
      assert (log + [e])[1..] == rest + [e] && (log + [e])[0] == x;
      if !HasId(rest, x.sequence) && x.sequence != e.sequence {
        assert [x] + (WithoutId(kept, e.sequence) + [e]) == ([x] + WithoutId(kept, e.sequence)) + [e];
      }
    }
  }

  predicate Numbered(s: seq<StepLog>) {
    forall i :: 0 <= i < |s| ==> s[i].sequence == i + 1
  }

  lemma {:induction false} WithoutLarge(s: seq<StepLog>, n: nat)
    requires forall i :: 0 <= i < |s| ==> s[i].sequence < n
    ensures WithoutId(s, n) == s
  {
    if s != [] {
      WithoutLarge(s[1..], n);
    }
  }

  lemma {:induction false} WithoutLast(s: seq<StepLog>, n: nat)
    requires s != [] && Last(s).sequence == n
    requires forall i :: 0 <= i < |s| - 1 ==> s[i].sequence < n
    ensures WithoutId(s, n) == Front(s)
  {
    if |s| > 1 {
      WithoutLast(s[1..], n);
      assert Front(s) == [s[0]] + Front(s[1..]);
    }
  }

  predicate StepDocs(c: Collection<StepLog>) {
    && Numbered(Values(c))
    && forall i :: 0 <= i < |c| ==> c[i].key == StepKey(c[i].value)
  }

  // Writing a step whose number is the last one listed, or the next.
  lemma PutStep(c: Collection<StepLog>, e: StepLog)
    requires StepDocs(c) && e.sequence <= 9999
    requires e.sequence == |c| + 1 || (e.sequence == |c| && c != [])
    ensures var c' := Put(c, StepKey(e), e);
            && StepDocs(c') && |c'| == e.sequence
            && Values(c') == Values(c)[..e.sequence - 1] + [e]
  {
    if c != [] {
      var last := Last(c);
      assert last.value == Values(c)[|c| - 1] && last.key == StepKey(last.value);
      if e.sequence == |c| + 1 {
        StepIdBelow(last.value.sequence, e.sequence);
      } else {
        LessIrreflexive(last.key);
      }
    }
  }

  /** The keyed listing of any log a run leaves behind: the last entry of
      every id, which for ids of four digits are numbered 1, 2, 3, ... without
      a gap, retries replaced by their turn's final entry. */
  lemma {:induction false} StepListing(log: seq<StepLog>)
    requires Accepted(log) && !Scan(log).Decided? && Issued(Scan(log)) <= 10000
    ensures var c := PutAll(log, StepKey);
            && StepDocs(c) && |c| == Issued(Scan(log)) - 1
            && Values(c) == LastPerId(log)
  {
    if log != [] {
      var front, e := Front(log), Last(log);
      assert log == front + [e];
      StepListing(front);
      NextStepId(Scan(front), e);
      hide Scan, Delta, StepDocs, LastPerId, Put;
      PutStepListing(PutAll(front, StepKey), front, e);
    }
  }

  // A run's next entry repeats the id of the open model turn, or takes the next.
  lemma NextStepId(st: LogState, e: StepLog)
    requires Delta(st, e) != Broken && !Delta(st, e).Decided?
    ensures Issued(Delta(st, e)) == e.sequence + 1 && Issued(st) <= Issued(Delta(st, e))
    ensures e.sequence == Issued(st) || (st.Retrying? && e.sequence == Issued(st) - 1)
  {
  }

  lemma PutStepListing(c: Collection<StepLog>, front: seq<StepLog>, e: StepLog)
    requires StepDocs(c) && Values(c) == LastPerId(front) && e.sequence <= 9999
    requires e.sequence == |c| + 1 || (e.sequence == |c| && c != [])
    ensures var c' := Put(c, StepKey(e), e);
            StepDocs(c') && |c'| == e.sequence && Values(c') == LastPerId(front + [e])
  {
    PutStep(c, e);
    LastPerIdSnoc(front, e);
    var s := Values(c);
    assert s[..|c|] == s;
    if e.sequence == |c| + 1 {
      WithoutLarge(s, e.sequence);
    } else {
      WithoutLast(s, e.sequence);
    }
  }
}
