/** The dataset rewrite on arbitrary statements. Cut at its dots, a statement is
    a list of dot-free tokens; each pass replaces the dataset in certain of
    them and leaves every other character alone. */
module DatasetTokens {
  import opened BqSandbox
  import opened Models
  import opened Prelude
  import opened Text

  // ---------- Statements as tokens ----------

  function JoinDots(ts: seq<string>): string
    requires ts != []
  {
    if |ts| == 1 then ts[0] else ts[0] + "." + JoinDots(ts[1..])
  }

  predicate DotFree(ts: seq<string>) {
    forall k :: 0 <= k < |ts| ==> Free(ts[k], '.')
  }

  function SplitDots(s: string): (ts: seq<string>)
    ensures ts != [] && DotFree(ts)
  {
    var i := DotIndex(s);
    if i == |s| then
      assert s[..i] == s;
      [s]
    else [s[..i]] + SplitDots(s[i + 1..])
  }

  lemma {:induction false} SplitJoins(s: string)
    ensures JoinDots(SplitDots(s)) == s
  {
    var i := DotIndex(s);
    if i < |s| {
      SplitJoins(s[i + 1..]);
      assert SplitDots(s)[1..] == SplitDots(s[i + 1..]);
      assert s == s[..i] + "." + s[i + 1..];
    }
  }

  lemma {:induction false} NoDotIndex(s: string)
    requires Free(s, '.')
    ensures DotIndex(s) == |s|
  {
    if s != [] {
      assert s[0] in s && forall c :: c in s[1..] ==> c in s;
      NoDotIndex(s[1..]);
    }
  }

  /** The tokens of a statement are the only ones. */
  lemma {:induction false} JoinSplits(ts: seq<string>)
    requires ts != [] && DotFree(ts)
    ensures SplitDots(JoinDots(ts)) == ts
  {
    var s := JoinDots(ts);
    if |ts| == 1 {
      NoDotIndex(s);
    } else {
      var rest := JoinDots(ts[1..]);
      assert s == ts[0] + "." + rest;
      DotIndexOf(ts[0], rest);
      assert s[..|ts[0]|] == ts[0] && s[|ts[0]| + 1..] == rest;
      assert DotFree(ts[1..]);
      JoinSplits(ts[1..]);
      assert ts == [ts[0]] + ts[1..];
    }
  }

  // ---------- What each pass replaces ----------

  // `project . dataset . table`, beginning in the first token after its first
  // `used` characters.
  predicate FullHere(ts: seq<string>, used: nat, r: TableRef) {
    && |ts| > 2
    && used + |r.project| <= |ts[0]| && EndsWith(ts[0], r.project)
    && ts[1] == r.dataset
    && r.table <= ts[2]
  }

  // Left to right; the characters of a match are used up.
  function FullRetargeted(ts: seq<string>, used: nat, r: TableRef, sandbox: string): (out: seq<string>)
    requires ts != []
    ensures |out| == |ts|
  {
    if FullHere(ts, used, r) then [ts[0], sandbox] + FullRetargeted(ts[2..], |r.table|, r, sandbox)
    else if |ts| == 1 then ts
    else [ts[0]] + FullRetargeted(ts[1..], 0, r, sandbox)
  }

  // `dataset . table` that is not part of a longer qualified name.
  predicate BareHere(ts: seq<string>, first: bool, used: nat, r: TableRef) {
    && |ts| > 1
    && used + |r.dataset| <= |ts[0]| && EndsWith(ts[0], r.dataset)
    && (if |ts[0]| == |r.dataset| then first else !IsWord(ts[0][|ts[0]| - |r.dataset| - 1]))
    && r.table <= ts[1]
  }

  function BareRetargeted(ts: seq<string>, first: bool, used: nat, r: TableRef, sandbox: string): (out: seq<string>)
    requires ts != []
    ensures |out| == |ts|
  {
    var here := BareHere(ts, first, used, r);
    var token := if here then ts[0][..|ts[0]| - |r.dataset|] + sandbox else ts[0];
    if |ts| == 1 then [token]
    else [token] + BareRetargeted(ts[1..], false, if here then |r.table| else 0, r, sandbox)
  }

  // ---------- The passes do just that ----------

  lemma JoinOne(t: string)
    ensures JoinDots([t]) == t
  {
  }

  lemma JoinCons(t: string, ts: seq<string>)
    requires ts != []
    ensures JoinDots([t] + ts) == t + "." + JoinDots(ts)
  {
    assert ([t] + ts)[1..] == ts;
  }

  lemma {:induction false} FullDotFree(ts: seq<string>, used: nat, r: TableRef, sandbox: string)
    requires ts != [] && DotFree(ts) && Free(sandbox, '.')
    ensures DotFree(FullRetargeted(ts, used, r, sandbox))
    decreases |ts|
  {
    if FullHere(ts, used, r) {
      FullDotFree(ts[2..], |r.table|, r, sandbox);
    } else if |ts| > 1 {
      FullDotFree(ts[1..], 0, r, sandbox);
    }
  }

  // What a match has used of a token stays as it was.
  lemma FullKeepsUsed(ts: seq<string>, used: nat, r: TableRef, sandbox: string)
    requires ts != []
    ensures FullRetargeted(ts, used, r, sandbox)[0] == ts[0]
  {
  }

  lemma BareKeepsUsed(ts: seq<string>, first: bool, used: nat, r: TableRef, sandbox: string)
    requires ts != [] && used <= |ts[0]|
    ensures var t := BareRetargeted(ts, first, used, r, sandbox)[0];
            used <= |t| && t[..used] == ts[0][..used]
  {
  }

  // A pattern up to its first dot matches only up to the next dot.
  lemma MatchEndsAtDot(s: string, j: nat, a: string, b: string, d: nat)
    requires Free(a, '.')
    requires j <= |s| && At(s, j, a + "." + b)
    requires j <= d < |s| && s[d] == '.' && forall k :: j <= k < d ==> s[k] != '.'
    ensures j + |a| == d
    ensures s[j..d] == a && b <= s[d + 1..]
  {
    var p := a + "." + b;
    assert p == s[j..][..|p|];
    assert s[j + |a|] == p[|a|] == '.';
    forall k | j <= k < j + |a|
      ensures s[k] != '.'
    {
      assert s[k] == p[k - j] == a[k - j];
    }
    assert s[j..d] == p[..|a|];
    assert s[d + 1..][..|b|] == p[|a| + 1..];
  }

  lemma NoDotNoMatch(s: string, j: nat, a: string, b: string)
    requires j <= |s| && forall k :: j <= k < |s| ==> s[k] != '.'
    ensures !At(s, j, a + "." + b)
  {
    var rest := s[j..];
    assert forall k :: 0 <= k < |rest| ==> rest[k] != '.';
    assert (a + "." + b)[|a|] == '.';
  }

  // The text of a statement from a token on.
  predicate Stands(s: string, pre: string, ts: seq<string>) {
    ts != [] && s == pre + JoinDots(ts)
  }

  lemma FirstDotAt(s: string, pre: string, ts: seq<string>)
    requires Stands(s, pre, ts) && DotFree(ts)
    ensures var d := |pre| + |ts[0]|;
            && d <= |s|
            && s[|pre|..d] == ts[0]
            && (forall k :: |pre| <= k < d ==> s[k] != '.')
            && (|ts| == 1 ==> d == |s|)
            && (|ts| > 1 ==> d < |s| && s[d] == '.' && s[d + 1..] == JoinDots(ts[1..])
                             && Stands(s, pre + ts[0] + ".", ts[1..]))
  {
    var d := |pre| + |ts[0]|;
    if |ts| > 1 {
      assert s == (pre + ts[0] + ".") + JoinDots(ts[1..]);
    }
    assert s[|pre|..d] == ts[0];
    forall k | |pre| <= k < d
      ensures s[k] != '.'
    {
      assert s[k] == ts[0][k - |pre|];
    }
  }

  // Reading a dot-free text at the beginning of joined tokens.
  lemma PrefixOfJoin(a: string, ts: seq<string>)
    requires ts != [] && Free(a, '.')
    ensures a <= JoinDots(ts) <==> a <= ts[0]
  {
    var s := JoinDots(ts);
    assert ts[0] <= s;
    assert |ts| > 1 ==> s[|ts[0]|] == '.';
    if a <= s {
      PrefixUpTo(a, ts[0], s);
    }
  }

  lemma PrefixUpTo(a: string, t: string, s: string)
    requires a <= s && t <= s && Free(a, '.') && (|t| < |s| ==> s[|t|] == '.')
    ensures a <= t
  {
    assert forall k :: 0 <= k < |a| ==> s[k] == a[k];
    assert t[..|a|] == s[..|a|];
  }

  // Where the second pass fires between here and the next dot.
  lemma BareFires(s: string, pre: string, ts: seq<string>, used: nat, r: TableRef, j: nat)
    requires IsRef(r) && DotFree(ts) && Stands(s, pre, ts) && used <= |ts[0]|
    requires pre != [] ==> Last(pre) == '.'
    requires |pre| + used <= j <= |pre| + |ts[0]|
    ensures Fires(s, j, r.dataset + "." + r.table, true)
            <==> BareHere(ts, pre == [], used, r) && j == |pre| + |ts[0]| - |r.dataset|
  {
    hide JoinDots, DotFree, At, Qualifies, IsWord;
    FirstDotAt(s, pre, ts);
    FreeToken(ts);
    if |ts| == 1 {
      NoDotNoMatch(s, j, r.dataset, r.table);
    } else {
      PatternMatches(s, |pre|, ts[0], JoinDots(ts[1..]), r.dataset, r.table, j);
      PrefixOfJoin(r.table, ts[1..]);
      LeftOf(s, pre, ts[0], j);
    }
  }

  lemma FreeToken(ts: seq<string>)
    requires ts != [] && DotFree(ts)
    ensures Free(ts[0], '.') && DotFree(ts[1..])
  {
  }

  // A pattern with a dot, against the text up to the next dot and behind it.
  lemma PatternMatches(s: string, n: nat, t: string, rest: string, head: string, tail: string, j: nat)
    requires Free(head, '.') && Free(t, '.')
    requires n + |t| < |s| && s[n..n + |t|] == t && s[n + |t|] == '.' && s[n + |t| + 1..] == rest
    requires n <= j <= n + |t|
    ensures At(s, j, head + "." + tail) <==> j + |head| == n + |t| && EndsWith(t, head) && tail <= rest
  {
    var p := head + "." + tail;
    var d := n + |t|;
    forall k | j <= k < d
      ensures s[k] != '.'
    {
      assert s[k] == t[k - n];
    }
    if At(s, j, p) {
      MatchEndsAtDot(s, j, head, tail, d);
      assert t[j - n..] == s[n..d][j - n..] == s[j..d];
    }
    if j + |head| == d && EndsWith(t, head) && tail <= rest {
      assert s[j..d] == s[n..d][j - n..] == head;
      assert s[j..] == s[j..d] + "." + rest;
      assert rest[..|tail|] == tail;
      assert s[j..][..|p|] == p;
    }
  }

  // The character to the left, inside the token or before it.
  lemma LeftOf(s: string, pre: string, t: string, j: nat)
    requires |pre| <= j <= |pre| + |t| <= |s| && s[|pre|..|pre| + |t|] == t && pre <= s
    requires Free(t, '.') && (pre != [] ==> Last(pre) == '.')
    ensures j > |pre| ==> (Qualifies(s[j - 1]) <==> IsWord(t[j - |pre| - 1]))
    ensures j == |pre| && j > 0 ==> Qualifies(s[j - 1])
  {
    if j > |pre| {
      assert s[j - 1] == s[|pre|..|pre| + |t|][j - |pre| - 1];
    } else if j > 0 {
      assert s[j - 1] == pre[j - 1];
    }
  }

  // The token at hand is copied up to its dot.
  lemma CopyToken(s: string, n: nat, t: string, used: nat, pat: string, rep: string, lookbehind: bool, rest: string)
    requires pat != [] && used <= |t|
    requires n + |t| < |s| && s[n..n + |t|] == t && s[n + |t|] == '.'
    requires forall j :: n + used <= j <= n + |t| ==> !Fires(s, j, pat, lookbehind)
    requires Substitute(s, n + |t| + 1, pat, rep, lookbehind) == rest
    ensures Substitute(s, n + used, pat, rep, lookbehind) == (t + "." + rest)[used..]
  {
    hide Substitute, Fires;
    var d := n + |t|;
    SubstituteSkips(s, n + used, d + 1, pat, rep, lookbehind);
    assert s[n + used..d + 1] == s[n..d][used..] + [s[d]];
    assert (t + "." + rest)[used..] == t[used..] + "." + rest;
  }

  // The token at hand is copied up to a match, which is replaced.
  lemma ReplaceMatch(s: string, n: nat, t: string, used: nat, m: nat, pat: string, rep: string, lookbehind: bool,
                     rest: string)
    requires pat != [] && used <= m <= |t|
    requires n + |t| <= |s| && s[n..n + |t|] == t && n + m + |pat| <= |s|
    requires forall j :: n + used <= j < n + m ==> !Fires(s, j, pat, lookbehind)
    requires Fires(s, n + m, pat, lookbehind)
    requires Substitute(s, n + m + |pat|, pat, rep, lookbehind) == rest
    ensures Substitute(s, n + used, pat, rep, lookbehind) == t[used..m] + rep + rest
  {
    hide Substitute, Fires;
    SubstituteFires(s, n + m, pat, rep, lookbehind);
    SubstituteSkips(s, n + used, n + m, pat, rep, lookbehind);
    SubSlice(s, n, t, used, m);
    assert t[used..m] + (rep + rest) == t[used..m] + rep + rest;
  }

  lemma SubstituteFires(s: string, i: nat, pat: string, rep: string, lookbehind: bool)
    requires pat != [] && i + |pat| <= |s| && Fires(s, i, pat, lookbehind)
    ensures Substitute(s, i, pat, rep, lookbehind) == rep + Substitute(s, i + |pat|, pat, rep, lookbehind)
  {
  }

  lemma JoinBegins(ts: seq<string>, n: nat)
    requires ts != [] && n <= |ts[0]|
    ensures n <= |JoinDots(ts)| && JoinDots(ts)[..n] == ts[0][..n]
  {
  }

  lemma BareUnfold(ts: seq<string>, first: bool, used: nat, r: TableRef, sandbox: string)
    requires |ts| > 1
    ensures var here := BareHere(ts, first, used, r);
            var token := if here then ts[0][..|ts[0]| - |r.dataset|] + sandbox else ts[0];
            JoinDots(BareRetargeted(ts, first, used, r, sandbox))
            == token + "." + JoinDots(BareRetargeted(ts[1..], false, if here then |r.table| else 0, r, sandbox))
  {
    var here := BareHere(ts, first, used, r);
    var token := if here then ts[0][..|ts[0]| - |r.dataset|] + sandbox else ts[0];
    JoinCons(token, BareRetargeted(ts[1..], false, if here then |r.table| else 0, r, sandbox));
  }

  lemma {:induction false} BarePass(s: string, pre: string, ts: seq<string>, used: nat, r: TableRef, sandbox: string)
    requires IsRef(r) && DotFree(ts) && Stands(s, pre, ts) && used <= |ts[0]|
    requires pre != [] ==> Last(pre) == '.'
    ensures var out := JoinDots(BareRetargeted(ts, pre == [], used, r, sandbox));
            && used <= |out|
            && Substitute(s, |pre| + used, r.dataset + "." + r.table, sandbox + "." + r.table, true) == out[used..]
    decreases |ts|
  {
    hide Substitute, BareRetargeted, JoinDots, Fires, DotFree, BareHere;
    var p, q := r.dataset + "." + r.table, sandbox + "." + r.table;
    var first := pre == [];
    var here := BareHere(ts, first, used, r);
    FirstDotAt(s, pre, ts);
    FreeToken(ts);
    BareFiresAll(s, pre, ts, used, r);
    if |ts| == 1 {
      BareHereMeans(ts, first, used, r);
      SubstituteNone(s, |pre| + used, p, q, true);
      SubSlice(s, |pre|, ts[0], used, |ts[0]|);
      BareOne(ts, first, used, r, sandbox);
    } else {
      var used' := if here then |r.table| else 0;
      BareHereMeans(ts, first, used, r);
      BarePass(s, pre + ts[0] + ".", ts[1..], used', r, sandbox);
      BareUnfold(ts, first, used, r, sandbox);
      if here {
        JoinBegins(ts[1..], |r.table|);
        BareReplaces(s, pre, ts, used, r, sandbox);
      } else {
        CopyToken(s, |pre|, ts[0], used, p, q, true, JoinDots(BareRetargeted(ts[1..], false, used', r, sandbox)));
      }
    }
  }

  lemma BareHereMeans(ts: seq<string>, first: bool, used: nat, r: TableRef)
    requires ts != []
    ensures BareHere(ts, first, used, r) ==> |ts| > 1 && used + |r.dataset| <= |ts[0]| && r.table <= ts[1]
  {
  }

  lemma BareFiresAll(s: string, pre: string, ts: seq<string>, used: nat, r: TableRef)
    requires IsRef(r) && DotFree(ts) && Stands(s, pre, ts) && used <= |ts[0]|
    requires pre != [] ==> Last(pre) == '.'
    ensures forall j :: |pre| + used <= j <= |pre| + |ts[0]| ==>
                          (Fires(s, j, r.dataset + "." + r.table, true)
                           <==> BareHere(ts, pre == [], used, r) && j == |pre| + |ts[0]| - |r.dataset|)
  {
    hide Fires, DotFree, BareHere;
    forall j | |pre| + used <= j <= |pre| + |ts[0]|
      ensures Fires(s, j, r.dataset + "." + r.table, true)
              <==> BareHere(ts, pre == [], used, r) && j == |pre| + |ts[0]| - |r.dataset|
    {
      BareFires(s, pre, ts, used, r, j);
    }
  }

  lemma BareReplaces(s: string, pre: string, ts: seq<string>, used: nat, r: TableRef, sandbox: string)
    requires IsRef(r) && |ts| > 1 && used + |r.dataset| <= |ts[0]| && r.table <= ts[1]
    requires var n := |pre|; n + |ts[0]| <= |s| && s[n..n + |ts[0]|] == ts[0]
    requires forall j :: |pre| + used <= j <= |pre| + |ts[0]| ==>
                           (Fires(s, j, r.dataset + "." + r.table, true) <==> j == |pre| + |ts[0]| - |r.dataset|)
    requires |pre| + |ts[0]| + 1 + |r.table| <= |s|
    requires var rest := JoinDots(BareRetargeted(ts[1..], false, |r.table|, r, sandbox));
             && |r.table| <= |rest|
             && Substitute(s, |pre| + |ts[0]| + 1 + |r.table|, r.dataset + "." + r.table, sandbox + "." + r.table, true)
                == rest[|r.table|..]
    ensures var m := |ts[0]| - |r.dataset|;
            var rest := JoinDots(BareRetargeted(ts[1..], false, |r.table|, r, sandbox));
            var out := (ts[0][..m] + sandbox) + "." + rest;
            && used <= |out|
            && Substitute(s, |pre| + used, r.dataset + "." + r.table, sandbox + "." + r.table, true) == out[used..]
  {
    hide Substitute, BareRetargeted, JoinDots, Fires;
    var p, q := r.dataset + "." + r.table, sandbox + "." + r.table;
    var m := |ts[0]| - |r.dataset|;
    var tokens := BareRetargeted(ts[1..], false, |r.table|, r, sandbox);
    var rest := JoinDots(tokens);
    BareKeepsUsed(ts[1..], false, |r.table|, r, sandbox);
    JoinBegins(tokens, |r.table|);
    assert rest[..|r.table|] == r.table;
    FiresFits(s, |pre| + m, p, true);
    ReplaceMatch(s, |pre|, ts[0], used, m, p, q, true, rest[|r.table|..]);
    MatchedText(ts[0], used, m, sandbox, r.table, rest);
  }

  lemma BareOne(ts: seq<string>, first: bool, used: nat, r: TableRef, sandbox: string)
    requires |ts| == 1
    ensures JoinDots(BareRetargeted(ts, first, used, r, sandbox)) == ts[0]
  {
  }

  lemma MatchedText(t: string, used: nat, m: nat, sandbox: string, table: string, rest: string)
    requires used <= m <= |t|
    requires |table| <= |rest| && rest[..|table|] == table
    ensures used <= |(t[..m] + sandbox) + "." + rest|
    ensures ((t[..m] + sandbox) + "." + rest)[used..] == t[used..m] + (sandbox + "." + table) + rest[|table|..]
  {
    assert rest == table + rest[|table|..];
    assert t[..m] == t[..used] + t[used..m];
  }

  // ---------- The qualified pass ----------

  // Where it fires between here and the next dot.
  lemma FullFires(s: string, pre: string, ts: seq<string>, used: nat, r: TableRef, j: nat)
    requires IsRef(r) && DotFree(ts) && Stands(s, pre, ts) && used <= |ts[0]|
    requires |pre| + used <= j <= |pre| + |ts[0]|
    ensures Fires(s, j, r.FullyQualified(), false)
            <==> FullHere(ts, used, r) && j == |pre| + |ts[0]| - |r.project|
  {
    hide JoinDots, DotFree, At, EndsWith;
    FirstDotAt(s, pre, ts);
    FreeToken(ts);
    var tail := r.dataset + "." + r.table;
    assert r.FullyQualified() == r.project + "." + tail;
    if |ts| == 1 {
      NoDotNoMatch(s, j, r.project, tail);
    } else {
      PatternMatches(s, |pre|, ts[0], JoinDots(ts[1..]), r.project, tail, j);
      TailOfName(ts[1..], r);
    }
  }

  // `dataset . table` at the beginning of joined tokens.
  lemma TailOfName(ts: seq<string>, r: TableRef)
    requires ts != [] && DotFree(ts) && IsRef(r)
    ensures r.dataset + "." + r.table <= JoinDots(ts) <==> |ts| > 1 && ts[0] == r.dataset && r.table <= ts[1]
  {
    var s := JoinDots(ts);
    var p := r.dataset + "." + r.table;
    assert "" + JoinDots(ts) == s;
    FirstDotAt(s, "", ts);
    assert s[0..] == s;
    hide JoinDots;
    if |ts| == 1 {
      NoDotNoMatch(s, 0, r.dataset, r.table);
    } else {
      PatternMatches(s, 0, ts[0], JoinDots(ts[1..]), r.dataset, r.table, 0);
      PrefixOfJoin(r.table, ts[1..]);
      assert EndsWith(ts[0], r.dataset) && |r.dataset| == |ts[0]| ==> ts[0][0..] == ts[0];
    }
  }

  lemma FullUnfold(ts: seq<string>, used: nat, r: TableRef, sandbox: string)
    requires ts != []
    ensures JoinDots(FullRetargeted(ts, used, r, sandbox))
            == if FullHere(ts, used, r)
               then ts[0] + "." + (sandbox + "." + JoinDots(FullRetargeted(ts[2..], |r.table|, r, sandbox)))
               else if |ts| == 1 then ts[0]
               else ts[0] + "." + JoinDots(FullRetargeted(ts[1..], 0, r, sandbox))
  {
    hide JoinDots, EndsWith;
    JoinOne(ts[0]);
    if FullHere(ts, used, r) {
      var rest := FullRetargeted(ts[2..], |r.table|, r, sandbox);
      JoinCons(sandbox, rest);
      JoinCons(ts[0], [sandbox] + rest);
      assert [ts[0], sandbox] + rest == [ts[0]] + ([sandbox] + rest);
    } else if |ts| > 1 {
      JoinCons(ts[0], FullRetargeted(ts[1..], 0, r, sandbox));
    } else {
      assert ts == [ts[0]];
    }
  }

  lemma FullHereMeans(ts: seq<string>, used: nat, r: TableRef)
    requires ts != []
    ensures FullHere(ts, used, r) ==>
              && |ts| > 2 && used + |r.project| <= |ts[0]| && EndsWith(ts[0], r.project)
              && ts[1] == r.dataset && r.table <= ts[2]
  {
  }

  lemma FullFiresAll(s: string, pre: string, ts: seq<string>, used: nat, r: TableRef)
    requires IsRef(r) && DotFree(ts) && Stands(s, pre, ts) && used <= |ts[0]|
    ensures forall j :: |pre| + used <= j <= |pre| + |ts[0]| ==>
                          (Fires(s, j, r.FullyQualified(), false)
                           <==> FullHere(ts, used, r) && j == |pre| + |ts[0]| - |r.project|)
  {
    hide Fires, DotFree, FullHere, TableRef.FullyQualified;
    forall j | |pre| + used <= j <= |pre| + |ts[0]|
      ensures Fires(s, j, r.FullyQualified(), false)
              <==> FullHere(ts, used, r) && j == |pre| + |ts[0]| - |r.project|
    {
      FullFires(s, pre, ts, used, r, j);
    }
  }

  lemma TwoTokens(s: string, pre: string, ts: seq<string>)
    requires DotFree(ts) && Stands(s, pre, ts) && |ts| > 2
    ensures var pre' := pre + ts[0] + "." + ts[1] + ".";
            && Stands(s, pre', ts[2..]) && DotFree(ts[2..])
            && |pre'| == |pre| + |ts[0]| + |ts[1]| + 2
  {
    FirstDotAt(s, pre, ts);
    FirstDotAt(s, pre + ts[0] + ".", ts[1..]);
    assert ts[1..][1..] == ts[2..];
  }

  lemma {:induction false} FullPass(s: string, pre: string, ts: seq<string>, used: nat, r: TableRef, sandbox: string)
    requires IsRef(r) && DotFree(ts) && Stands(s, pre, ts) && used <= |ts[0]|
    ensures var out := JoinDots(FullRetargeted(ts, used, r, sandbox));
            && used <= |out|
            && Substitute(s, |pre| + used, r.FullyQualified(), r.(dataset := sandbox).FullyQualified(), false) == out[used..]
    decreases |ts|
  {
    hide Substitute, FullRetargeted, JoinDots, Fires, DotFree, FullHere, EndsWith, Free, TableRef.FullyQualified;
    var p, q := r.FullyQualified(), r.(dataset := sandbox).FullyQualified();
    var here := FullHere(ts, used, r);
    FullLength(r);
    FirstDotAt(s, pre, ts);
    FreeToken(ts);
    FullFiresAll(s, pre, ts, used, r);
    FullHereMeans(ts, used, r);
    FullUnfold(ts, used, r, sandbox);
    if here {
      TwoTokens(s, pre, ts);
      JoinBegins(ts[2..], |r.table|);
      FullPass(s, pre + ts[0] + "." + ts[1] + ".", ts[2..], |r.table|, r, sandbox);
      FullRest(ts, r, sandbox);
      FullReplaces(s, |pre|, ts[0], used, r, sandbox, JoinDots(FullRetargeted(ts[2..], |r.table|, r, sandbox)));
    } else if |ts| == 1 {
      SubstituteNone(s, |pre| + used, p, q, false);
      SubSlice(s, |pre|, ts[0], used, |ts[0]|);
    } else {
      FullPass(s, pre + ts[0] + ".", ts[1..], 0, r, sandbox);
      var rest := JoinDots(FullRetargeted(ts[1..], 0, r, sandbox));
      CopyToken(s, |pre|, ts[0], used, p, q, false, rest);
    }
  }

  lemma FullLength(r: TableRef)
    ensures |r.FullyQualified()| == |r.project| + |r.dataset| + |r.table| + 2
  {
  }

  // The text behind a full match begins with the table it kept.
  lemma FullRest(ts: seq<string>, r: TableRef, sandbox: string)
    requires |ts| > 2 && r.table <= ts[2]
    ensures var rest := JoinDots(FullRetargeted(ts[2..], |r.table|, r, sandbox));
            |r.table| <= |rest| && rest[..|r.table|] == r.table
  {
    hide FullRetargeted, JoinDots;
    var tokens := FullRetargeted(ts[2..], |r.table|, r, sandbox);
    FullKeepsUsed(ts[2..], |r.table|, r, sandbox);
    assert tokens[0] == ts[2];
    JoinBegins(tokens, |r.table|);
  }

  lemma FullReplaces(s: string, n: nat, t: string, used: nat, r: TableRef, sandbox: string, rest: string)
    requires used + |r.project| <= |t| && EndsWith(t, r.project)
    requires n + |t| <= |s| && s[n..n + |t|] == t
    requires forall j :: n + used <= j <= n + |t| ==>
                           (Fires(s, j, r.FullyQualified(), false) <==> j == n + |t| - |r.project|)
    requires |r.table| <= |rest| && rest[..|r.table|] == r.table
    requires n + |t| + |r.dataset| + 2 + |r.table| <= |s|
    requires Substitute(s, n + |t| + |r.dataset| + 2 + |r.table|, r.FullyQualified(),
                        r.(dataset := sandbox).FullyQualified(), false)
             == rest[|r.table|..]
    ensures var out := t + "." + (sandbox + "." + rest);
            && used <= |out|
            && Substitute(s, n + used, r.FullyQualified(), r.(dataset := sandbox).FullyQualified(), false) == out[used..]
  {
    hide Substitute, Fires, EndsWith, TableRef.FullyQualified;
    var p, q := r.FullyQualified(), r.(dataset := sandbox).FullyQualified();
    var m := |t| - |r.project|;
    FullLength(r);
    ReplaceMatch(s, n, t, used, m, p, q, false, rest[|r.table|..]);
    FullText(t, used, r, sandbox, rest);
  }

  lemma FullText(t: string, used: nat, r: TableRef, sandbox: string, rest: string)
    requires used + |r.project| <= |t| && EndsWith(t, r.project)
    requires |r.table| <= |rest| && rest[..|r.table|] == r.table
    ensures used <= |t + "." + (sandbox + "." + rest)|
    ensures (t + "." + (sandbox + "." + rest))[used..]
            == t[used..|t| - |r.project|] + r.(dataset := sandbox).FullyQualified() + rest[|r.table|..]
  {
    assert rest == r.table + rest[|r.table|..];
    assert t[used..] == t[used..|t| - |r.project|] + r.project;
    assert (t + "." + (sandbox + "." + rest))[used..] == t[used..] + "." + (sandbox + "." + rest);
  }

  // ---------- Both passes, on every statement ----------

  /** The rewrite, exactly, on every statement: cut at its dots, the dataset of
      every full name is replaced, then the dataset of every bare name that
      does not continue a word or a qualified name; nothing else changes. */
  lemma RewriteIs(sql: string, r: TableRef, sandbox: string)
    requires IsRef(r) && Free(sandbox, '.')
    ensures RewriteSqlForDataset(sql, r, sandbox)
            == JoinDots(BareRetargeted(FullRetargeted(SplitDots(sql), 0, r, sandbox), true, 0, r, sandbox))
  {
    hide Substitute, JoinDots, FullRetargeted, BareRetargeted, SplitDots;
    var ts := SplitDots(sql);
    var full := FullRetargeted(ts, 0, r, sandbox);
    var once := JoinDots(full);
    SplitJoins(sql);
    assert sql == "" + JoinDots(ts) && once == "" + JoinDots(full);
    FullPass(sql, "", ts, 0, r, sandbox);
    FullDotFree(ts, 0, r, sandbox);
    BarePass(once, "", full, 0, r, sandbox);
    var out := JoinDots(BareRetargeted(full, true, 0, r, sandbox));
    assert once[0..] == once && out[0..] == out;
  }
}
