/** A document collection: last write per key wins, listings are sorted by
    key. */
module KeyedCollections {
  import opened Prelude

  datatype Doc<+T> = Doc(key: string, value: T)

  type Collection<+T> = seq<Doc<T>>

  predicate Sorted<T>(c: Collection<T>) {
    forall i, j :: 0 <= i < j < |c| ==> Less(c[i].key, c[j].key)
  }

  // `document(key).set(value)`
  function Put<T>(c: Collection<T>, key: string, value: T): Collection<T> {
    if c == [] || Less(Last(c).key, key) then c + [Doc(key, value)]
    else if Last(c).key == key then Front(c) + [Doc(key, value)]
    else Put(Front(c), key, value) + [Last(c)]
  }

  // `document(key).get()`
  function Find<T>(c: Collection<T>, key: string): Option<T> {
    if c == [] then None
    else if Last(c).key == key then Some(Last(c).value)
    else Find(Front(c), key)
  }

  function Values<T>(c: Collection<T>): (r: seq<T>)
    ensures |r| == |c| && forall i :: 0 <= i < |c| ==> r[i] == c[i].value
  {
    seq(|c|, i requires 0 <= i < |c| => c[i].value)
  }

  /** A write keeps the listing sorted and changes exactly one key. */
  lemma {:induction false} PutKeepsSorted<T>(c: Collection<T>, key: string, value: T)
    requires Sorted(c)
    ensures Sorted(Put(c, key, value))
    ensures Doc(key, value) in Put(c, key, value)
    ensures forall d :: d in Put(c, key, value) ==> d == Doc(key, value) || d in c
    ensures forall d :: d in c ==> d in Put(c, key, value) || d.key == key
    ensures forall d :: d in Put(c, key, value) && d.key == key ==> d == Doc(key, value)
  {
    if c != [] {
      var front, last := Front(c), Last(c);
      assert c == front + [last];
      if Less(last.key, key) {
        forall i | 0 <= i < |c|
          ensures Less(c[i].key, key)
        {
          if i < |front| { LessTransitive(c[i].key, last.key, key); }
        }
        LessIrreflexive(key);
      } else if last.key == key {
        LessIrreflexive(key);
      } else {
        LessTotal(last.key, key);
        LessIrreflexive(last.key);
        PutKeepsSorted(front, key, value);
        var r := Put(front, key, value);
        forall i | 0 <= i < |r|
          ensures Less(r[i].key, last.key)
        {
          var d := r[i];
          assert d in Put(front, key, value);
          assert d == Doc(key, value) || d in front;
        }
      }
    }
  }

  lemma {:induction false} FindIsMember<T>(c: Collection<T>, key: string)
    requires Sorted(c)
    ensures forall v :: Find(c, key) == Some(v) <==> Doc(key, v) in c
  {
    if c != [] {
      assert c == Front(c) + [Last(c)];
      FindIsMember(Front(c), key);
      if Last(c).key == key {
        LessIrreflexive(key);
      }
    }
  }

  /** What is read after a write. */
  lemma FindAfterPut<T>(c: Collection<T>, key: string, value: T, other: string)
    requires Sorted(c)
    ensures Find(Put(c, key, value), other) == if other == key then Some(value) else Find(c, other)
  {
    PutKeepsSorted(c, key, value);
    FindIsMember(c, other);
    FindIsMember(Put(c, key, value), other);
    var after := Find(Put(c, key, value), other);
    if other == key {
      assert Doc(key, value) in Put(c, key, value);
    } else if after.Some? {
      assert Doc(other, after.value) in c;
    }
  }

  lemma FrontIsRest<T>(c: Collection<T>)
    requires Sorted(c) && c != []
    ensures c == Front(c) + [Last(c)]
    ensures forall x :: x in Front(c) <==> x in c && x != Last(c)
  {
    LessIrreflexive(Last(c).key);
  }

  // ---------- A history of writes ----------

  function PutAll<T>(s: seq<T>, key: T -> string): Collection<T> {
    if s == [] then [] else Put(PutAll(Front(s), key), key(Last(s)), Last(s))
  }

  lemma PutAllSnoc<T>(s: seq<T>, x: T, key: T -> string)
    ensures PutAll(s + [x], key) == Put(PutAll(s, key), key(x), x)
  {
    FrontOfSnoc(s, x);
  }

  lemma {:induction false} PutAllKeyed<T>(s: seq<T>, key: T -> string)
    ensures Sorted(PutAll(s, key))
    ensures forall d :: d in PutAll(s, key) ==> d.key == key(d.value)
  {
    if s != [] {
      PutAllKeyed(Front(s), key);
      var c := PutAll(Front(s), key);
      PutKeepsSorted(c, key(Last(s)), Last(s));
      forall d | d in PutAll(s, key)
        ensures d.key == key(d.value)
      {
        assert d in Put(c, key(Last(s)), Last(s));
      }
    }
  }

  predicate InOrder<T>(s: seq<T>, key: T -> string) {
    forall i, j :: 0 <= i < j < |s| ==> Less(key(s[i]), key(s[j]))
  }

  lemma InOrderSnoc<T>(s: seq<T>, x: T, key: T -> string)
    requires InOrder(s, key) && AllBelow(s, key, key(x))
    ensures InOrder(s + [x], key)
  {
  }

  predicate AllBelow<T>(s: seq<T>, key: T -> string, bound: string) {
    forall i :: 0 <= i < |s| ==> Less(key(s[i]), bound)
  }

  /** Listing by key gives back the order of writing exactly when the keys
      were issued in strictly increasing order. */
  lemma ListingIsAppendOrder<T>(s: seq<T>, key: T -> string)
    ensures Values(PutAll(s, key)) == s <==> InOrder(s, key)
  {
    if InOrder(s, key) {
      InOrderListing(s, key);
    }
    if Values(PutAll(s, key)) == s {
      var c := PutAll(s, key);
      PutAllKeyed(s, key);
      forall i, j | 0 <= i < j < |s|
        ensures Less(key(s[i]), key(s[j]))
      {
        assert c[i] in c && c[j] in c;
      }
    }
  }

  lemma {:induction false} InOrderListing<T>(s: seq<T>, key: T -> string)
    requires InOrder(s, key)
    ensures Values(PutAll(s, key)) == s
  {
    if s != [] {
      var front, last := Front(s), Last(s);
      InOrderListing(front, key);
      PutAllKeyed(front, key);
      var c := PutAll(front, key);
      assert s == front + [last];
      if c != [] {
        assert Last(c) in c && Last(c).value == Last(front);
      }
      assert PutAll(s, key) == c + [Doc(key(last), last)];
      assert Values(PutAll(s, key)) == Values(c) + [last];
    }
  }

  /** Reading by key, over a whole history: the last write under that key. */
  lemma {:induction false} FindIsLastWrite<T>(s: seq<T>, key: T -> string, k: string)
    ensures Find(PutAll(s, key), k).None? <==> forall i :: 0 <= i < |s| ==> key(s[i]) != k
    ensures Find(PutAll(s, key), k).Some? ==>
              exists i :: 0 <= i < |s| && key(s[i]) == k && Find(PutAll(s, key), k).value == s[i]
                          && forall j :: i < j < |s| ==> key(s[j]) != k
  {
    if s != [] {
      var front, last := Front(s), Last(s);
      FindIsLastWrite(front, key, k);
      PutAllKeyed(front, key);
      FindAfterPut(PutAll(front, key), key(last), last, k);
      assert s == front + [last];
      if key(last) == k {
        assert key(s[|s| - 1]) == k;
      } else if Find(PutAll(front, key), k).Some? {
        var i :| 0 <= i < |front| && key(front[i]) == k && Find(PutAll(front, key), k).value == front[i]
                 && forall j :: i < j < |front| ==> key(front[j]) != k;
        assert key(s[i]) == k;
      }
    }
  }

  /** Of two documents the later one is listed last exactly when its key is
      the greater; keys drawn out of order make the earlier one the latest. */
  lemma LatestOfTwo<T>(a: T, b: T, key: T -> string)
    requires key(a) != key(b)
    ensures |PutAll([a, b], key)| == 2
    ensures Last(Values(PutAll([a, b], key))) == (if Less(key(a), key(b)) then b else a)
  {
    var one := [Doc(key(a), a)];
    PutAllSnoc([], a, key);
    PutAllSnoc([a], b, key);
    assert [] + [a] == [a] && [a] + [b] == [a, b];
    assert PutAll([a], key) == Put([], key(a), a) == one;
    PutSecond(Doc(key(a), a), key(b), b);
  }

  lemma PutSecond<T>(d: Doc<T>, key: string, value: T)
    requires d.key != key
    ensures Put([d], key, value) == if Less(d.key, key) then [d, Doc(key, value)] else [Doc(key, value), d]
  {
    assert Last([d]) == d && Front([d]) == [];
    assert Put([], key, value) == [Doc(key, value)];
  }
}
