/** Small shared vocabulary: optional values and results, and the order in
    which Python and Firestore compare identifier strings. */
module Prelude {

  datatype Option<+T> = None | Some(value: T)

  datatype Result<+T, +E> = Success(value: T) | Failure(error: E)

  function Last<T>(s: seq<T>): T
    requires s != []
  {
    s[|s| - 1]
  }

  function Front<T>(s: seq<T>): seq<T>
    requires s != []
  {
    s[..|s| - 1]
  }

  lemma FrontOfSnoc<T>(s: seq<T>, x: T)
    ensures Front(s + [x]) == s && Last(s + [x]) == x
  {
  }

  function Reverse<T>(s: seq<T>): (r: seq<T>)
    ensures |r| == |s|
    ensures forall i :: 0 <= i < |s| ==> r[i] == s[|s| - 1 - i]
  {
    if s == [] then [] else [Last(s)] + Reverse(Front(s))
  }

  function Max(a: int, b: int): int {
    if a < b then b else a
  }

  // Python's `s[:limit]`: a negative limit counts from the end.
  function Slice<T>(s: seq<T>, limit: int): (r: seq<T>)
    ensures r <= s
    ensures |r| == if limit < 0 then Max(0, |s| + limit) else |s| - Max(0, |s| - limit)
  {
    if limit >= |s| then s
    else if limit >= 0 then s[..limit]
    else if |s| + limit >= 0 then s[..|s| + limit]
    else []
  }

  // Lexicographic order on strings, by code point.
  predicate Less(a: string, b: string) {
    b != [] && (a == [] || a[0] < b[0] || (a[0] == b[0] && Less(a[1..], b[1..])))
  }

  lemma LessIrreflexive(a: string)
    ensures !Less(a, a)
  {
  }

  lemma LessTotal(a: string, b: string)
    ensures Less(a, b) || a == b || Less(b, a)
  {
    if a != [] && b != [] && a[0] == b[0] {
      LessTotal(a[1..], b[1..]);
      assert a == [a[0]] + a[1..] && b == [b[0]] + b[1..];
    }
  }

  lemma LessTransitive(a: string, b: string, c: string)
    requires Less(a, b) && Less(b, c)
    ensures Less(a, c)
  {
    if a != [] && a[0] == b[0] && b[0] == c[0] {
      LessTransitive(a[1..], b[1..], c[1..]);
    }
  }

  lemma LessAsymmetric(a: string, b: string)
    requires Less(a, b)
    ensures !Less(b, a) && a != b
  {
    if Less(b, a) {
      LessTransitive(a, b, a);
    }
    LessIrreflexive(a);
  }
}
