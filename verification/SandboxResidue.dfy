/** What the qualified pass of the rewrite leaves behind in an arbitrary
    statement, and the names for which it never leaves the source table's full
    name. */
module SandboxResidue {
  import opened BqSandbox
  import opened Models
  import opened Prelude
  import opened Text

  // The names do not run into each other when a rewritten name and the text
  // around it are read together: inside one rewritten name, from its second
  // dot on, from its end on, or up to its first dot.
  predicate Separated(r: TableRef, sandbox: string) {
    && r.dataset != sandbox
    && !RunsOnFromDot(r, sandbox)
    && !EndsWith(r.table, r.project)
    && !RunsUpToDot(r, sandbox)
  }

  predicate RunsOnFromDot(r: TableRef, sandbox: string) {
    && EndsWith(sandbox, r.project)
    && r.table <= r.dataset
    && (|r.table| < |r.dataset| ==> r.dataset[|r.table|] !in r.project)
  }

  predicate RunsUpToDot(r: TableRef, sandbox: string) {
    EndsWith(r.dataset, r.project) && r.table <= sandbox && !(r.table <= r.dataset)
  }

  // Each occurrence ends the text or is followed by a character foreign to
  // the project name.
  predicate Delimited(sql: string, r: TableRef) {
    forall i :: 0 <= i < |sql| && At(sql, i, r.FullyQualified()) && i + |r.FullyQualified()| < |sql| ==>
                  sql[i + |r.FullyQualified()|] !in r.project
  }

  predicate Names(sql: string, r: TableRef) {
    exists k :: 0 <= k <= |sql| && At(sql, k, r.FullyQualified())
  }

  // A name's characters, and its dots.
  lemma NameCharacters(r: TableRef)
    requires IsRef(r)
    ensures var p := r.FullyQualified();
            && |p| == |r.project| + |r.dataset| + |r.table| + 2
            && p[..|r.project|] == r.project
            && p[|r.project| + 1..|r.project| + 1 + |r.dataset|] == r.dataset
            && p[|r.project| + 2 + |r.dataset|..] == r.table
            && forall k :: 0 <= k < |p| ==> (p[k] == '.' <==> k == |r.project| || k == |r.project| + 1 + |r.dataset|)
  {
  }

  // Reading `a` at `k`.
  lemma ReadAt(o: string, k: nat, a: string)
    requires k <= |o| && a <= o[k..]
    ensures k + |a| <= |o| && o[k..k + |a|] == a
    ensures forall j :: k <= j < k + |a| ==> o[j] == a[j - k]
  {
    assert a == o[k..][..|a|];
  }

  // Where a proper suffix of the name can begin a rewritten occurrence: within
  // the project, or with the project at the end of the dataset.
  lemma SuffixMeetsRewrite(r: TableRef, sandbox: string, m: nat, rest: string)
    requires IsRef(r) && IsSegment(sandbox)
    requires 0 < m < |r.FullyQualified()|
    requires r.FullyQualified()[m..] <= r.(dataset := sandbox).FullyQualified() + rest
    ensures || r.FullyQualified()[m..] <= r.project
            || (r.table <= sandbox && EndsWith(r.dataset, r.project)
                && r.FullyQualified()[m..] == r.project + "." + r.table)
  {
    var p, q := r.FullyQualified(), r.(dataset := sandbox).FullyQualified();
    var o := q + rest;
    NameCharacters(r);
    NameCharacters(r.(dataset := sandbox));
    assert o[0..] == o;
    ReadAt(o, 0, p[m..]);
    hide TableRef.FullyQualified, EndsWith;
    forall j | m <= j < |p| && j - m < |q|
      ensures p[j] == q[j - m]
    {
      assert o[j - m] == p[m..][j - m];
    }
    if |p| - m <= |r.project| {
      assert p[m..] == q[..|p| - m] == r.project[..|p| - m];
    } else {
      LongSuffixMeets(r, sandbox, m);
    }
  }

  lemma LongSuffixMeets(r: TableRef, sandbox: string, m: nat)
    requires IsRef(r) && IsSegment(sandbox)
    requires var p, q := r.FullyQualified(), r.(dataset := sandbox).FullyQualified();
             && 0 < m && m + |r.project| < |p|
             && forall j :: m <= j < |p| && j - m < |q| ==> p[j] == q[j - m]
    ensures r.table <= sandbox && EndsWith(r.dataset, r.project)
    ensures r.FullyQualified()[m..] == r.project + "." + r.table
  {
    var p, q := r.FullyQualified(), r.(dataset := sandbox).FullyQualified();
    var second := |r.project| + 1 + |r.dataset|;
    NameCharacters(r);
    NameCharacters(r.(dataset := sandbox));
    hide TableRef.FullyQualified, EndsWith;
    assert p[m + |r.project|] == q[|r.project|] == '.';
    assert m + |r.project| == second;
    forall k | 0 <= k < |r.table| && |r.project| + 1 + k < |q|
      ensures q[|r.project| + 1 + k] == r.table[k]
    {
      assert p[second + 1 + k] == p[second + 1..][k];
    }
    TableBeginsSandbox(r, sandbox);
    assert p[m..second] == q[..|r.project|] == r.project;
    SuffixOfDataset(r, m);
    assert p[m..] == p[m..second] + [p[second]] + p[second + 1..];
  }

  // The project, read inside the name just before its second dot.
  lemma SuffixOfDataset(r: TableRef, m: nat)
    requires IsRef(r) && 0 < m && m + |r.project| == |r.project| + 1 + |r.dataset|
    requires r.FullyQualified()[m..|r.project| + 1 + |r.dataset|] == r.project
    ensures EndsWith(r.dataset, r.project)
  {
    var p := r.FullyQualified();
    var first, second := |r.project|, |r.project| + 1 + |r.dataset|;
    NameCharacters(r);
    hide TableRef.FullyQualified, EndsWith;
    forall j | m <= j < second
      ensures p[j] != '.'
    {
      assert p[j] == r.project[j - m];
    }
    assert p[first] == '.';
    assert first < m;
    assert r.dataset[m - first - 1..] == p[first + 1..second][m - first - 1..] == p[m..second];
    SuffixEnds(r.dataset, m - first - 1, r.project);
  }

  lemma TableBeginsSandbox(r: TableRef, sandbox: string)
    requires IsRef(r) && IsSegment(sandbox)
    requires var q := r.(dataset := sandbox).FullyQualified();
             forall k :: 0 <= k < |r.table| && |r.project| + 1 + k < |q| ==> q[|r.project| + 1 + k] == r.table[k]
    ensures r.table <= sandbox
  {
    hide TableRef.FullyQualified, IsSegment;
    var q := r.(dataset := sandbox).FullyQualified();
    var t := sandbox + "." + r.table;
    SandboxBehindProject(r, sandbox);
    TableFree(r);
    forall k | 0 <= k < |r.table| && k < |t|
      ensures t[k] == r.table[k]
    {
      assert q[|r.project| + 1 + k] == r.table[k];
    }
    BeginsBeforeDot(r.table, sandbox, r.table);
  }

  lemma SandboxBehindProject(r: TableRef, sandbox: string)
    ensures var q, t := r.(dataset := sandbox).FullyQualified(), sandbox + "." + r.table;
            |q| == |r.project| + 1 + |t| && forall k {:trigger t[k]} :: 0 <= k < |t| ==> q[|r.project| + 1 + k] == t[k]
  {
    var q, t := r.(dataset := sandbox).FullyQualified(), sandbox + "." + r.table;
    assert q == r.project + "." + t;
  }

  // A dot-free text that agrees with `b + "." + c` as far as that goes begins `b`.
  lemma BeginsBeforeDot(a: string, b: string, c: string)
    requires Free(a, '.') && |c| >= |a|
    requires var t := b + "." + c;
             forall k :: 0 <= k < |a| && k < |t| ==> t[k] == a[k]
    ensures a <= b
  {
    var t := b + "." + c;
    assert t[|b|] == '.';
    forall k | 0 <= k < |a|
      ensures a[k] != '.'
    {
      assert a[k] in a;
    }
    assert |a| <= |b|;
    assert b[..|a|] == a;
  }

  // Text copied until a rewritten occurrence reads on as the source does.
  lemma {:induction false} OutputReadsAsSource(s: string, i: nat, m: nat, r: TableRef, sandbox: string)
    requires IsRef(r) && IsSegment(sandbox) && !RunsUpToDot(r, sandbox)
    requires i <= |s| && 0 < m <= |r.FullyQualified()|
    requires r.FullyQualified()[m..] <= Substitute(s, i, r.FullyQualified(), r.(dataset := sandbox).FullyQualified(), false)
    ensures r.FullyQualified()[m..] <= s[i..]
    decreases |s| - i
  {
    var p, q := r.FullyQualified(), r.(dataset := sandbox).FullyQualified();
    hide TableRef.FullyQualified, RunsUpToDot;
    if m < |p| && i < |s| {
      if Fires(s, i, p, false) {
        var rest := Substitute(s, i + |p|, p, q, false);
        hide Substitute;
        RewriteReadsAsSource(r, sandbox, m, rest);
      } else {
        var rest := Substitute(s, i + 1, p, q, false);
        hide Fires, Substitute;
        CopiedReads(p[m..], s[i], rest);
        assert p[m..][1..] == p[m + 1..];
        OutputReadsAsSource(s, i + 1, m + 1, r, sandbox);
        ReadsOn(p[m..], s[i..]);
      }
    }
  }

  lemma CopiedReads(a: string, c: char, rest: string)
    requires a != [] && a <= [c] + rest
    ensures a[0] == c && a[1..] <= rest
  {
    assert ([c] + rest)[1..] == rest;
  }

  lemma ReadsOn(a: string, s: string)
    requires a != [] && s != [] && a[0] == s[0] && a[1..] <= s[1..]
    ensures a <= s
  {
    assert a == [a[0]] + a[1..] && s == [s[0]] + s[1..];
  }

  // A suffix that begins a rewritten occurrence begins the name itself.
  lemma RewriteReadsAsSource(r: TableRef, sandbox: string, m: nat, rest: string)
    requires IsRef(r) && IsSegment(sandbox) && !RunsUpToDot(r, sandbox)
    requires 0 < m < |r.FullyQualified()|
    requires r.FullyQualified()[m..] <= r.(dataset := sandbox).FullyQualified() + rest
    ensures r.FullyQualified()[m..] <= r.FullyQualified()
  {
    SuffixMeetsRewrite(r, sandbox, m, rest);
    if r.table <= r.dataset {
      assert r.FullyQualified()[..|r.project| + 1 + |r.table|] == r.project + "." + r.table;
    }
  }

  // How the name could begin inside a rewritten occurrence.
  lemma InsideRewrite(r: TableRef, sandbox: string, k: nat, rest: string)
    requires IsRef(r) && IsSegment(sandbox)
    requires k < |r.(dataset := sandbox).FullyQualified()|
    requires At(r.(dataset := sandbox).FullyQualified() + rest, k, r.FullyQualified())
    requires rest == [] || rest[0] !in r.project
    ensures !Separated(r, sandbox)
  {
    hide TableRef.FullyQualified, At, EndsWith, RunsUpToDot, Free, IsSegment;
    var q := r.(dataset := sandbox).FullyQualified();
    var o := q + rest;
    var e := k + |r.project|;
    NameRead(r, o, k);
    assert rest != [] ==> o[|q|] == rest[0];
    if k == 0 {
      assert o[0..] == o;
      AtStart(o, r.FullyQualified());
      SameDataset(r, sandbox, o);
    } else {
      assert e < |q| ==> q[e] == o[e];
      assert q[k..e] == o[k..e];
      ProjectInside(r, sandbox, k);
      if e < |q| {
        DatasetFromDot(r, sandbox, rest, e);
      }
    }
  }

  lemma AtStart(o: string, p: string)
    requires At(o, 0, p)
    ensures p <= o
  {
    assert o[0..] == o;
  }

  // The name, read at `k`.
  lemma NameRead(r: TableRef, o: string, k: nat)
    requires IsRef(r) && k <= |o| && At(o, k, r.FullyQualified())
    ensures var e := k + |r.project|;
            && e + 1 + |r.dataset| < |o|
            && o[k..e] == r.project && o[e] == '.'
            && o[e + 1..e + 1 + |r.dataset|] == r.dataset && o[e + 1 + |r.dataset|] == '.'
            && forall j :: k <= j < e ==> o[j] in r.project
  {
    var p := r.FullyQualified();
    var e := k + |r.project|;
    NameCharacters(r);
    ReadAt(o, k, p);
    hide TableRef.FullyQualified, At;
    assert o[k..e] == p[..|r.project|];
    assert o[e + 1..e + 1 + |r.dataset|] == p[|r.project| + 1..|r.project| + 1 + |r.dataset|];
    forall j | k <= j < e
      ensures o[j] in r.project
    {
      assert o[j] == r.project[j - k];
    }
  }

  // The dataset, read from the second dot of a rewritten name on.
  lemma DatasetFromDot(r: TableRef, sandbox: string, rest: string, e: nat)
    requires IsRef(r) && IsSegment(sandbox)
    requires rest == [] || rest[0] !in r.project
    requires e == |r.project| + 1 + |sandbox|
    requires var o := r.(dataset := sandbox).FullyQualified() + rest;
             && e + 1 + |r.dataset| < |o| && o[e + 1 + |r.dataset|] == '.'
             && o[e + 1..e + 1 + |r.dataset|] == r.dataset
    ensures r.table <= r.dataset
    ensures |r.table| < |r.dataset| ==> r.dataset[|r.table|] !in r.project
  {
    var q := r.(dataset := sandbox).FullyQualified();
    var o := q + rest;
    NameCharacters(r.(dataset := sandbox));
    hide TableRef.FullyQualified;
    forall j | e < j < |q|
      ensures o[j] != '.'
    {
      assert o[j] == q[j];
    }
    assert |q| == e + 1 + |r.table|;
    assert |r.table| <= |r.dataset|;
    assert o[e + 1..e + 1 + |r.dataset|][..|r.table|] == q[e + 1..] == r.table;
    if |r.table| < |r.dataset| {
      assert r.dataset[|r.table|] == o[|q|] == rest[0];
    }
  }

  // The project name, inside a rewritten name and followed by its second dot
  // or its end.
  lemma ProjectInside(r: TableRef, sandbox: string, k: nat)
    requires IsRef(r) && IsSegment(sandbox) && k > 0
    requires var q, e := r.(dataset := sandbox).FullyQualified(), k + |r.project|;
             e <= |q| && q[k..e] == r.project && (e < |q| ==> q[e] == '.')
    ensures var q, e := r.(dataset := sandbox).FullyQualified(), k + |r.project|;
            if e < |q| then e == |r.project| + 1 + |sandbox| && EndsWith(sandbox, r.project)
            else EndsWith(r.table, r.project)
  {
    var q, e := r.(dataset := sandbox).FullyQualified(), k + |r.project|;
    var first, second := |r.project|, |r.project| + 1 + |sandbox|;
    NameCharacters(r.(dataset := sandbox));
    hide TableRef.FullyQualified, EndsWith;
    forall j | k <= j < e
      ensures q[j] != '.'
    {
      assert q[j] == r.project[j - k];
    }
    assert q[first] == q[second] == '.';
    if e < |q| {
      assert e == second && first < k;
      assert sandbox[k - first - 1..] == q[first + 1..second][k - first - 1..] == q[k..e];
      SuffixEnds(sandbox, k - first - 1, r.project);
    } else {
      assert r.table[k - second - 1..] == q[second + 1..][k - second - 1..] == q[k..e];
      SuffixEnds(r.table, k - second - 1, r.project);
    }
  }

  lemma SuffixEnds(s: string, k: nat, suffix: string)
    requires k <= |s| && s[k..] == suffix
    ensures EndsWith(s, suffix)
  {
  }

  lemma SameDataset(r: TableRef, sandbox: string, o: string)
    requires IsRef(r) && IsSegment(sandbox)
    requires r.(dataset := sandbox).FullyQualified() <= o
    requires r.FullyQualified() <= o
    ensures r.dataset == sandbox
  {
    DatasetRead(r, o);
    DatasetRead(r.(dataset := sandbox), o);
    SameName(o, |r.project| + 1, r.dataset, sandbox);
  }

  lemma DatasetRead(r: TableRef, o: string)
    requires r.FullyQualified() <= o
    ensures var a, m := |r.project| + 1, |r.project| + 1 + |r.dataset|;
            m < |o| && o[a..m] == r.dataset && o[m] == '.'
  {
    var p := r.FullyQualified();
    var a, m := |r.project| + 1, |r.project| + 1 + |r.dataset|;
    assert p == (r.project + ".") + r.dataset + ("." + r.table);
    assert o[..|p|] == p && o[..|p|][a..m] == o[a..m];
  }

  // Two dot-free names read at one place, each up to a dot.
  lemma SameName(o: string, a: nat, d: string, e: string)
    requires a + |d| < |o| && a + |e| < |o|
    requires o[a..a + |d|] == d && o[a..a + |e|] == e
    requires o[a + |d|] == o[a + |e|] == '.'
    requires Free(d, '.') && Free(e, '.')
    ensures d == e
  {
    forall j | a <= j < a + |d|
      ensures o[j] != '.'
    {
      assert o[j] == d[j - a];
    }
    forall j | a <= j < a + |e|
      ensures o[j] != '.'
    {
      assert o[j] == e[j - a];
    }
  }

  lemma {:induction false} NoResidueFrom(s: string, i: nat, r: TableRef, sandbox: string, k: nat)
    requires IsRef(r) && IsSegment(sandbox) && Separated(r, sandbox) && Delimited(s, r)
    requires i <= |s|
    ensures !At(Substitute(s, i, r.FullyQualified(), r.(dataset := sandbox).FullyQualified(), false), k, r.FullyQualified())
    decreases |s| - i
  {
    hide EndsWith, RunsOnFromDot, RunsUpToDot;
    var p, q := r.FullyQualified(), r.(dataset := sandbox).FullyQualified();
    var o := Substitute(s, i, p, q, false);
    if i < |s| && At(o, k, p) {
      if Fires(s, i, p, false) {
        var j := i + |p|;
        var rest := Substitute(s, j, p, q, false);
        if k < |q| {
          RestBegins(s, j, r, sandbox);
          InsideRewrite(r, sandbox, k, rest);
        } else {
          assert o[k..] == rest[k - |q|..];
          NoResidueFrom(s, j, r, sandbox, k - |q|);
        }
      } else {
        var rest := Substitute(s, i + 1, p, q, false);
        if k == 0 {
          assert p == [p[0]] + p[1..] && o[1..] == rest;
          assert s[i..] == [s[i]] + s[i + 1..];
          OutputReadsAsSource(s, i + 1, 1, r, sandbox);
        } else {
          assert o[k..] == rest[k - 1..];
          NoResidueFrom(s, i + 1, r, sandbox, k - 1);
        }
      }
    }
  }

  // The output begins with the source's own next character.
  lemma RestBegins(s: string, j: nat, r: TableRef, sandbox: string)
    requires IsRef(r) && j <= |s|
    ensures var o := Substitute(s, j, r.FullyQualified(), r.(dataset := sandbox).FullyQualified(), false);
            if j == |s| then o == [] else o != [] && o[0] == s[j]
  {
  }

  // ---------- What survives when the names are not separated ----------

  // Where an occurrence can lie, by the dots around it.
  lemma OccurrenceDots(s: string, i: nat, r: TableRef)
    requires IsRef(r) && i <= |s| && At(s, i, r.FullyQualified())
    ensures var d := i + |r.project|;
            && i + |r.FullyQualified()| == d + |r.dataset| + |r.table| + 2 <= |s|
            && s[d] == '.' && s[d + 1 + |r.dataset|] == '.'
            && forall j :: d < j < d + 1 + |r.dataset| ==> s[j] != '.'
  {
    var p := r.FullyQualified();
    NameCharacters(r);
    ReadAt(s, i, p);
    hide TableRef.FullyQualified, At;
    var d := i + |r.project|;
    assert s[d] == p[|r.project|] && s[d + 1 + |r.dataset|] == p[|r.project| + 1 + |r.dataset|];
    forall j | d < j < d + 1 + |r.dataset|
      ensures s[j] != '.'
    {
      assert s[j] == p[j - i];
    }
  }

  // A text of dot-free parts has its dots at the seams.
  lemma ThreeDots(a: string, b: string, c: string, d: string, j: nat)
    requires Free(a, '.') && Free(b, '.') && Free(c, '.') && Free(d, '.')
    requires j < |a| + |b| + |c| + |d| + 3
    ensures (a + "." + b + "." + c + "." + d)[j] == '.'
            <==> j == |a| || j == |a| + 1 + |b| || j == |a| + |b| + |c| + 2
  {
    var s := a + "." + b + "." + c + "." + d;
    var x, y, z := |a|, |a| + 1 + |b|, |a| + |b| + |c| + 2;
    if j < x {
      assert s[j] == a[j];
    } else if x < j < y {
      assert s[j] == b[j - x - 1];
    } else if y < j < z {
      assert s[j] == c[j - y - 1];
    } else if z < j {
      assert s[j] == d[j - z - 1];
    }
  }

  lemma FourDots(a: string, b: string, c: string, d: string, e: string, j: nat)
    requires Free(a, '.') && Free(b, '.') && Free(c, '.') && Free(d, '.') && Free(e, '.')
    requires j < |a| + |b| + |c| + |d| + |e| + 4
    ensures (a + "." + b + "." + c + "." + d + "." + e)[j] == '.'
            <==> || j == |a| || j == |a| + 1 + |b| || j == |a| + |b| + |c| + 2
                 || j == |a| + |b| + |c| + |d| + 3
  {
    var front := a + "." + b + "." + c + "." + d;
    if j < |front| {
      ThreeDots(a, b, c, d, j);
      assert (front + "." + e)[j] == front[j];
    } else if j > |front| {
      assert (front + "." + e)[j] == e[j - |front| - 1];
    }
  }

  lemma SameNameSurvives(r: TableRef, sandbox: string)
    requires IsRef(r) && r.dataset == sandbox
    ensures Delimited(r.FullyQualified(), r) && Names(QualifiedPass(r.FullyQualified(), r, sandbox), r)
  {
    var p := r.FullyQualified();
    OnlyTheFirst(p, p, []);
    assert p + [] == p && p[0..] == p;
    assert At(p, 0, p);
    forall i | 0 <= i < |p| && At(p, i, p)
      ensures i + |p| >= |p|
    {
    }
  }

  lemma RunOnSurvives(r: TableRef, sandbox: string)
    requires IsRef(r) && RunsOnFromDot(r, sandbox)
    ensures var sql := r.FullyQualified() + (r.dataset[|r.table|..] + "." + r.table);
            Delimited(sql, r) && Names(QualifiedPass(sql, r, sandbox), r)
  {
    var p, q := r.FullyQualified(), r.(dataset := sandbox).FullyQualified();
    var more := r.dataset[|r.table|..];
    var tail := more + "." + r.table;
    assert r.table + more == r.dataset;
    assert |tail| < |p| && tail[0] == if more == [] then '.' else r.dataset[|r.table|];
    RunOnJoins(r.project + "." + r.dataset, r.table, more);
    DoubledIsDelimited(r, p + tail, tail[0]);
    OnlyTheFirst(p, q, tail);
    RunOnReads(r, sandbox);
  }

  lemma RunOnReads(r: TableRef, sandbox: string)
    requires RunsOnFromDot(r, sandbox)
    ensures Names(r.(dataset := sandbox).FullyQualified() + (r.dataset[|r.table|..] + "." + r.table), r)
  {
    var q := r.(dataset := sandbox).FullyQualified();
    var more := r.dataset[|r.table|..];
    var a := r.project + "." + sandbox;
    assert r.table + more == r.dataset;
    RunOnJoins(a, r.table, more);
    PrefixedEnd(r.project + ".", sandbox, r.project);
    EndThenTail(a, r.project, "." + r.dataset + "." + r.table);
    assert r.FullyQualified() == r.project + ("." + r.dataset + "." + r.table);
    hide EndsWith, At;
    assert At(q + (more + "." + r.table), |a| - |r.project|, r.FullyQualified());
  }

  lemma RunOnJoins(a: string, table: string, more: string)
    ensures (a + "." + table) + (more + "." + table) == a + ("." + (table + more) + "." + table)
    ensures (a + "." + table) + (more + "." + table) == a + "." + (table + more) + "." + table
  {
  }

  lemma PrefixedEnd(a: string, s: string, end: string)
    requires EndsWith(s, end)
    ensures EndsWith(a + s, end)
  {
    assert (a + s)[|a + s| - |end|..] == s[|s| - |end|..];
  }

  // `P.D.D.T`, when it begins with the whole name followed by `next`.
  lemma DoubledIsDelimited(r: TableRef, sql: string, next: char)
    requires IsRef(r)
    requires sql == r.project + "." + r.dataset + "." + r.dataset + "." + r.table
    requires |r.FullyQualified()| < |sql| && sql[|r.FullyQualified()|] == next && next !in r.project
    ensures Delimited(sql, r)
  {
    var p := r.FullyQualified();
    NameCharacters(r);
    hide TableRef.FullyQualified, At;
    forall i | 0 <= i < |sql| && At(sql, i, p) && i + |p| < |sql|
      ensures sql[i + |p|] !in r.project
    {
      OccurrenceDots(sql, i, r);
      var x := i + |r.project|;
      ThreeDots(r.project, r.dataset, r.dataset, r.table, x);
      ThreeDots(r.project, r.dataset, r.dataset, r.table, x + 1 + |r.dataset|);
      assert i == 0;
    }
  }

  lemma OverlapSurvives(r: TableRef, sandbox: string)
    requires IsRef(r) && EndsWith(r.table, r.project)
    ensures var sql := r.FullyQualified() + ("." + r.dataset + "." + r.table);
            Delimited(sql, r) && Names(QualifiedPass(sql, r, sandbox), r)
  {
    var p, q := r.FullyQualified(), r.(dataset := sandbox).FullyQualified();
    var tail := "." + r.dataset + "." + r.table;
    assert r.project + tail == p;
    OverlapIsDelimited(r, p + tail);
    RewriteEndsInProject(r, sandbox);
    OnlyTheFirst(p, q, tail);
    EndThenTail(q, r.project, tail);
    hide At, EndsWith, Substitute;
    assert At(QualifiedPass(p + tail, r, sandbox), |q| - |r.project|, p);
  }

  lemma OverlapIsDelimited(r: TableRef, sql: string)
    requires IsRef(r) && sql == r.FullyQualified() + ("." + r.dataset + "." + r.table)
    ensures Delimited(sql, r)
  {
    var p := r.FullyQualified();
    var n := |p|;
    NameCharacters(r);
    assert sql == r.project + "." + r.dataset + "." + r.table + "." + r.dataset + "." + r.table;
    hide TableRef.FullyQualified, At;
    forall j | 0 <= j < |sql|
      ensures sql[j] == '.' <==> j in {|r.project|, |r.project| + 1 + |r.dataset|, n, n + 1 + |r.dataset|}
    {
      FourDots(r.project, r.dataset, r.table, r.dataset, r.table, j);
    }
    forall i | 0 <= i < |sql| && At(sql, i, p) && i + n < |sql|
      ensures sql[i + n] !in r.project
    {
      OccurrenceDots(sql, i, r);
      var x := i + |r.project|;
      var y := x + 1 + |r.dataset|;
      assert sql[|r.project| + 1 + |r.dataset|] == '.';
      assert y == |r.project| + 1 + |r.dataset| || (y == n && |r.dataset| == |r.table|);
      assert sql[i + n] == '.';
    }
  }

  lemma RunUpSurvives(r: TableRef, sandbox: string)
    requires IsRef(r) && RunsUpToDot(r, sandbox)
    ensures var sql := (r.project + "." + r.dataset[..|r.dataset| - |r.project|]) + r.FullyQualified();
            Delimited(sql, r) && Names(QualifiedPass(sql, r, sandbox), r)
  {
    var p, q := r.FullyQualified(), r.(dataset := sandbox).FullyQualified();
    var d := r.dataset;
    var head := r.project + "." + d[..|d| - |r.project|];
    var sql := head + p;
    assert d == d[..|d| - |r.project|] + r.project;
    assert sql == r.project + "." + d + "." + d + "." + r.table;
    OnlyLastOccurrence(r, sql);
    RunUpReads(r, sandbox);
    hide TableRef.FullyQualified, At, Delimited;
    assert head + p + [] == sql && head + q + [] == head + q;
    FiresIsAt(sql, p);
    SubstituteOnce(head, p, [], q);
  }

  lemma FiresIsAt(s: string, p: string)
    ensures forall j :: 0 <= j < |s| && Fires(s, j, p, false) ==> At(s, j, p)
  {
  }

  lemma RunUpReads(r: TableRef, sandbox: string)
    requires RunsUpToDot(r, sandbox)
    ensures var head := r.project + "." + r.dataset[..|r.dataset| - |r.project|];
            Names(head + r.(dataset := sandbox).FullyQualified(), r)
  {
    var q := r.(dataset := sandbox).FullyQualified();
    var d := r.dataset;
    var cut := d[..|d| - |r.project|];
    var more := sandbox[|r.table|..];
    assert d == cut + r.project && sandbox == r.table + more;
    var o := (r.project + "." + cut) + q;
    RunUpJoins(r.project, cut, r.table, more, o);
    BeginsAtZero(o, r.FullyQualified());
  }

  lemma RunUpJoins(project: string, cut: string, table: string, more: string, o: string)
    requires o == (project + "." + cut) + (project + "." + (table + more) + "." + table)
    ensures project + "." + (cut + project) + "." + table <= o
  {
    var p := project + "." + (cut + project) + "." + table;
    assert o == p + (more + "." + table);
  }

  lemma BeginsAtZero(o: string, p: string)
    requires p <= o
    ensures At(o, 0, p)
  {
    assert o[0..] == o;
  }

  // In `P.D.D.T` the name occurs only at the end, unless the dataset begins
  // with the table.
  lemma OnlyLastOccurrence(r: TableRef, sql: string)
    requires IsRef(r) && !(r.table <= r.dataset)
    requires sql == r.project + "." + r.dataset + "." + r.dataset + "." + r.table
    ensures forall i :: 0 <= i < |sql| && At(sql, i, r.FullyQualified()) ==> i == |sql| - |r.FullyQualified()|
    ensures Delimited(sql, r)
  {
    var p := r.FullyQualified();
    NameCharacters(r);
    hide TableRef.FullyQualified, At;
    forall i | 0 <= i < |sql| && At(sql, i, p)
      ensures i == |sql| - |p|
    {
      OccurrenceDots(sql, i, r);
      var x := i + |r.project|;
      ThreeDots(r.project, r.dataset, r.dataset, r.table, x);
      ThreeDots(r.project, r.dataset, r.dataset, r.table, x + 1 + |r.dataset|);
      if i == 0 {
        TableBeginsDataset(r, sql);
      }
    }
  }

  lemma TableBeginsDataset(r: TableRef, sql: string)
    requires IsRef(r) && At(sql, 0, r.FullyQualified())
    requires sql == r.project + "." + r.dataset + "." + r.dataset + "." + r.table
    ensures r.table <= r.dataset
  {
    hide TableRef.FullyQualified, At, IsSegment;
    NameCharacters(r);
    TableFree(r);
    TableAfterTwoDots(r, sql);
    PrefixBeforeDot(r.dataset + "." + r.table, r.table, r.dataset);
  }

  lemma TableFree(r: TableRef)
    requires IsRef(r)
    ensures Free(r.table, '.')
  {
  }

  lemma TableAfterTwoDots(r: TableRef, sql: string)
    requires At(sql, 0, r.FullyQualified())
    requires sql == r.project + "." + r.dataset + "." + r.dataset + "." + r.table
    ensures r.table <= r.dataset + "." + r.table
  {
    var head, rest := r.project + "." + r.dataset + ".", r.dataset + "." + r.table;
    assert sql[0..] == sql == head + rest && r.FullyQualified() == head + r.table;
    PrefixBehind(head, r.table, rest);
  }

  lemma PrefixBehind(head: string, a: string, b: string)
    requires head + a <= head + b
    ensures a <= b
  {
    assert (head + a)[|head|..] == a && (head + b)[|head|..] == b;
    assert (head + b)[..|head + a|] == head + a;
    assert (head + b)[..|head + a|][|head|..] == b[..|a|];
  }

  lemma PrefixBeforeDot(s: string, a: string, b: string)
    requires a <= s && b <= s && |b| < |s| && s[|b|] == '.'
    requires Free(a, '.')
    ensures a <= b
  {
    forall k | 0 <= k < |a|
      ensures s[k] != '.'
    {
      assert s[k] == a[k];
    }
    assert b[..|a|] == s[..|a|] == a;
  }

  // A delimited statement in which the name survives.
  function Survivor(r: TableRef, sandbox: string): string {
    if r.dataset == sandbox then r.FullyQualified()
    else if r.table <= r.dataset && RunsOnFromDot(r, sandbox) then
      r.FullyQualified() + (r.dataset[|r.table|..] + "." + r.table)
    else if EndsWith(r.table, r.project) then r.FullyQualified() + ("." + r.dataset + "." + r.table)
    else (r.project + "." + r.dataset[..Max(0, |r.dataset| - |r.project|)]) + r.FullyQualified()
  }

  lemma SurvivorSurvives(r: TableRef, sandbox: string)
    requires IsRef(r) && !Separated(r, sandbox)
    ensures Delimited(Survivor(r, sandbox), r)
    ensures Names(QualifiedPass(Survivor(r, sandbox), r, sandbox), r)
  {
    hide EndsWith, Delimited, Names, TableRef.FullyQualified, QualifiedPass;
    if r.dataset == sandbox {
      SameNameSurvives(r, sandbox);
    } else if r.table <= r.dataset && RunsOnFromDot(r, sandbox) {
      RunOnSurvives(r, sandbox);
    } else if EndsWith(r.table, r.project) {
      OverlapSurvives(r, sandbox);
    } else {
      FitsAtEnd(r.dataset, r.project);
      RunUpSurvives(r, sandbox);
    }
  }

  lemma FitsAtEnd(s: string, suffix: string)
    ensures EndsWith(s, suffix) ==> |suffix| <= |s|
  {
  }

  /** No residual source name, exactly: the qualified pass removes the source
      table's full name from every statement in which it occurs delimited if
      and only if the names are separated. */
  lemma NoResidualSourceName(r: TableRef, sandbox: string)
    requires IsRef(r) && IsSegment(sandbox)
    ensures (forall sql :: Delimited(sql, r) ==> !Names(QualifiedPass(sql, r, sandbox), r))
            <==> Separated(r, sandbox)
  {
    hide Delimited, Names, QualifiedPass, Survivor;
    if Separated(r, sandbox) {
      hide Separated;
      forall sql | Delimited(sql, r)
        ensures !Names(QualifiedPass(sql, r, sandbox), r)
      {
        NothingLeft(sql, r, sandbox);
      }
    } else {
      SurvivorSurvives(r, sandbox);
    }
  }

  lemma NothingLeft(sql: string, r: TableRef, sandbox: string)
    requires IsRef(r) && IsSegment(sandbox) && Separated(r, sandbox) && Delimited(sql, r)
    ensures !Names(QualifiedPass(sql, r, sandbox), r)
  {
    forall k | 0 <= k <= |QualifiedPass(sql, r, sandbox)|
      ensures !At(QualifiedPass(sql, r, sandbox), k, r.FullyQualified())
    {
      NoResidueFrom(sql, 0, r, sandbox, k);
    }
  }

  lemma EndThenTail(q: string, end: string, tail: string)
    requires EndsWith(q, end)
    ensures At(q + tail, |q| - |end|, end + tail)
  {
    assert (q + tail)[|q| - |end|..] == end + tail;
  }

  lemma RewriteEndsInProject(r: TableRef, sandbox: string)
    requires EndsWith(r.table, r.project)
    ensures EndsWith(r.(dataset := sandbox).FullyQualified(), r.project)
  {
    var a := r.project + "." + sandbox + ".";
    var q := r.(dataset := sandbox).FullyQualified();
    assert q == a + r.table;
    assert q[|q| - |r.project|..] == r.table[|r.table| - |r.project|..];
  }

  // A tail shorter than the pattern is copied.
  lemma OnlyTheFirst(p: string, q: string, tail: string)
    requires p != [] && |tail| < |p|
    ensures Substitute(p + tail, 0, p, q, false) == q + tail
  {
    var s := p + tail;
    assert s[0..] == s;
    assert Fires(s, 0, p, false);
    forall j | |p| <= j < |s|
      ensures !Fires(s, j, p, false)
    {
      assert |s[j..]| < |p|;
    }
    SubstituteSkips(s, |p|, |s|, p, q, false);
    assert s[|p|..|s|] == tail && Substitute(s, |s|, p, q, false) == [];
  }
}
