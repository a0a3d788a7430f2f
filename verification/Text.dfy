/** Character classes and the handful of regular-expression primitives the
    SQL and URI helpers are built from. Subjects are ASCII text. */
module Text {

  // `\w`
  predicate IsWord(c: char) {
    'a' <= c <= 'z' || 'A' <= c <= 'Z' || '0' <= c <= '9' || c == '_'
  }

  // `\s`: tab to carriage return, the four separators, and the space
  predicate IsSpace(c: char) {
    9 <= c as int <= 13 || 28 <= c as int <= 32
  }

  function Lower(c: char): char {
    if 'A' <= c <= 'Z' then (c as int + 32) as char else c
  }

  function LowerAll(s: string): (r: string)
    ensures |r| == |s|
    ensures forall i :: 0 <= i < |s| ==> r[i] == Lower(s[i])
  {
    if s == [] then [] else [Lower(s[0])] + LowerAll(s[1..])
  }

  function Upper(c: char): char {
    if 'a' <= c <= 'z' then (c as int - 32) as char else c
  }

  function UpperAll(s: string): (r: string)
    ensures |r| == |s|
    ensures forall i :: 0 <= i < |s| ==> r[i] == Upper(s[i])
  {
    if s == [] then [] else [Upper(s[0])] + UpperAll(s[1..])
  }

  predicate AllWord(s: string) {
    forall i :: 0 <= i < |s| ==> IsWord(s[i])
  }

  predicate NoSpace(s: string) {
    forall i :: 0 <= i < |s| ==> !IsSpace(s[i])
  }

  predicate Free(s: string, c: char) {
    c !in s
  }

  predicate EndsWith(s: string, suffix: string) {
    |suffix| <= |s| && s[|s| - |suffix|..] == suffix
  }

  // `pat` occurs in `s` at `i`
  predicate At(s: string, i: nat, pat: string) {
    i <= |s| && pat <= s[i..]
  }

  // Case-insensitive occurrence; `word` is given in lower case.
  predicate NoCaseAt(s: string, i: nat, word: string) {
    i + |word| <= |s| && forall k :: 0 <= k < |word| ==> Lower(s[i + k]) == word[k]
  }

  // `\b`
  predicate Boundary(s: string, i: nat)
    requires i <= |s|
  {
    (i > 0 && IsWord(s[i - 1])) != (i < |s| && IsWord(s[i]))
  }

  // End of the run of white space starting at `i`.
  function SkipSpaces(s: string, i: nat): (j: nat)
    requires i <= |s|
    ensures i <= j <= |s|
    ensures forall k :: i <= k < j ==> IsSpace(s[k])
    ensures j < |s| ==> !IsSpace(s[j])
    decreases |s| - i
  {
    if i < |s| && IsSpace(s[i]) then SkipSpaces(s, i + 1) else i
  }

  // End of the run of word characters starting at `i`.
  function WordEnd(s: string, i: nat): (j: nat)
    requires i <= |s|
    ensures i <= j <= |s|
    ensures forall k :: i <= k < j ==> IsWord(s[k])
    ensures j < |s| ==> !IsWord(s[j])
    decreases |s| - i
  {
    if i < |s| && IsWord(s[i]) then WordEnd(s, i + 1) else i
  }

  // `first\s+second`, case-insensitively, at `i`
  predicate PairAt(s: string, i: nat, first: string, second: string) {
    && NoCaseAt(s, i, first)
    && var j := SkipSpaces(s, i + |first|);
       i + |first| < j && NoCaseAt(s, j, second)
  }

  function PairEnd(s: string, i: nat, first: string, second: string): (e: nat)
    requires PairAt(s, i, first, second)
    ensures e <= |s|
  {
    SkipSpaces(s, i + |first|) + |second|
  }

  /** `re.sub` of a literal pattern over `s[i..]`. With `lookbehind` a match
      may not follow a dot or a word character; the lookbehind reads the
      subject, not what has been written so far. */
  function Substitute(s: string, i: nat, pat: string, rep: string, lookbehind: bool): string
    requires pat != []
    requires i <= |s|
    decreases |s| - i
  {
    if i == |s| then []
    else if Fires(s, i, pat, lookbehind) then rep + Substitute(s, i + |pat|, pat, rep, lookbehind)
    else [s[i]] + Substitute(s, i + 1, pat, rep, lookbehind)
  }

  predicate Qualifies(c: char) {
    c == '.' || IsWord(c)
  }

  predicate Fires(s: string, i: nat, pat: string, lookbehind: bool) {
    At(s, i, pat) && (lookbehind && i > 0 ==> !Qualifies(s[i - 1]))
  }

  lemma {:induction false} SubstituteSkips(s: string, i: nat, k: nat, pat: string, rep: string, lookbehind: bool)
    requires pat != []
    requires i <= k <= |s|
    requires forall j :: i <= j < k ==> !Fires(s, j, pat, lookbehind)
    ensures Substitute(s, i, pat, rep, lookbehind) == s[i..k] + Substitute(s, k, pat, rep, lookbehind)
    decreases k - i
  {
    if i < k {
      var rest := Substitute(s, k, pat, rep, lookbehind);
      calc {
        Substitute(s, i, pat, rep, lookbehind);
      ==  { assert !Fires(s, i, pat, lookbehind); }
        [s[i]] + Substitute(s, i + 1, pat, rep, lookbehind);
      ==  { SubstituteSkips(s, i + 1, k, pat, rep, lookbehind); }
        [s[i]] + (s[i + 1..k] + rest);
      ==
        ([s[i]] + s[i + 1..k]) + rest;
      ==  { assert s[i..k] == [s[i]] + s[i + 1..k]; }
        s[i..k] + rest;
      }
    } else {
      assert s[i..k] == [];
    }
  }

  // A pattern that fires at one place only.
  lemma SubstituteOnce(a: string, pat: string, c: string, rep: string)
    requires pat != []
    requires forall j :: 0 <= j < |a + pat + c| && Fires(a + pat + c, j, pat, false) ==> j == |a|
    ensures Substitute(a + pat + c, 0, pat, rep, false) == a + rep + c
  {
    var s, k := a + pat + c, |a| + |pat|;
    assert s[|a|..] == pat + c && s[0..|a|] == a && s[k..|s|] == c;
    assert Fires(s, |a|, pat, false);
    assert Substitute(s, |a|, pat, rep, false) == rep + Substitute(s, k, pat, rep, false);
    assert Substitute(s, |s|, pat, rep, false) == [];
    hide Fires, Substitute;
    SubstituteSkips(s, 0, |a|, pat, rep, false);
    SubstituteSkips(s, k, |s|, pat, rep, false);
    calc {
      Substitute(s, 0, pat, rep, false);
    ==
      a + Substitute(s, |a|, pat, rep, false);
    ==
      a + (rep + (c + []));
    ==  { assert c + [] == c; }
      a + rep + c;
    }
  }

  // A pattern that never fires from `i` on.
  lemma SubstituteNone(s: string, i: nat, pat: string, rep: string, lookbehind: bool)
    requires pat != [] && i <= |s|
    requires forall j :: i <= j < |s| ==> !Fires(s, j, pat, lookbehind)
    ensures Substitute(s, i, pat, rep, lookbehind) == s[i..]
  {
    assert Substitute(s, |s|, pat, rep, lookbehind) == [];
    hide Fires, Substitute;
    SubstituteSkips(s, i, |s|, pat, rep, lookbehind);
    assert s[i..|s|] + [] == s[i..];
  }

  lemma SubSlice(s: string, p: nat, t: string, a: nat, b: nat)
    requires p + |t| <= |s| && s[p..p + |t|] == t && a <= b <= |t|
    ensures s[p + a..p + b] == t[a..b]
  {
    assert forall k :: a <= k < b ==> t[k] == s[p + k];
    assert |s[p + a..p + b]| == |t[a..b]|;
    forall k | 0 <= k < b - a
      ensures s[p + a..p + b][k] == t[a..b][k]
    {
      assert t[a + k] == s[p + (a + k)];
    }
  }

  lemma FiresFits(s: string, i: nat, pat: string, lookbehind: bool)
    requires Fires(s, i, pat, lookbehind)
    ensures i + |pat| <= |s|
  {
  }
}
