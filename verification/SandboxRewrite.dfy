/** Rewriting a generated statement to the sandbox dataset: when the result is
    the statement generated for the sandbox in the first place. */
module SandboxRewrite {
  import opened BqSandbox
  import opened Models
  import opened PatchSql
  import opened Prelude
  import opened Text

  // The second pass mistakes `project.sandbox` for `dataset.table`: the text
  // before the first dot ends in the dataset name, at the start of a word,
  // and the sandbox name starts with the table name.
  predicate Collides(head: string, source: TableRef, sandbox: string) {
    var a := head + source.project;
    && source.table <= sandbox
    && |source.dataset| <= |a|
    && a[|a| - |source.dataset|..] == source.dataset
    && (|source.dataset| < |a| ==> !Qualifies(a[|a| - |source.dataset| - 1]))
  }

  // The qualified pattern fires only where the statement names the table.
  lemma QualifiedFiresOnce(head: string, r: TableRef, tail: string, i: nat)
    requires Free(head, '.') && IsRef(r) && Free(tail, '.')
    requires Fires(head + r.FullyQualified() + tail, i, r.FullyQualified(), false)
    ensures i == |head|
  {
    var s := head + r.FullyQualified() + tail;
    var p := r.FullyQualified();
    var m, n := i + |r.project|, i + |r.project| + 1 + |r.dataset|;
    assert p[|r.project|] == '.' && p[|r.project| + 1 + |r.dataset|] == '.';
    assert s[m] == s[i..][|r.project|] && s[n] == s[i..][|r.project| + 1 + |r.dataset|];
    var a, b, c := head + r.project, r.dataset, r.table + tail;
    assert s == a + "." + b + "." + c;
    TwoDots(a, b, c, s, m);
    TwoDots(a, b, c, s, n);
  }

  lemma FirstPass(head: string, r: TableRef, tail: string, sandbox: string)
    requires Free(head, '.') && IsRef(r) && Free(tail, '.')
    ensures Substitute(head + r.FullyQualified() + tail, 0, r.FullyQualified(),
                       r.(dataset := sandbox).FullyQualified(), false)
            == head + r.(dataset := sandbox).FullyQualified() + tail
  {
    var p, q := r.FullyQualified(), r.(dataset := sandbox).FullyQualified();
    var s := head + p + tail;
    forall j | 0 <= j < |s| && Fires(s, j, p, false)
      ensures j == |head|
    {
      QualifiedFiresOnce(head, r, tail, j);
    }
    SubstituteOnce(head, p, tail, q);
  }

  lemma FiresPointwise(s: string, i: nat, p: string)
    requires Fires(s, i, p, true)
    ensures i + |p| <= |s|
    ensures forall k :: 0 <= k < |p| ==> s[i + k] == p[k]
    ensures i > 0 ==> !Qualifies(s[i - 1])
  {
    assert forall k :: 0 <= k < |p| ==> s[i + k] == s[i..][k];
  }

  // The last dot is out of reach: the lookbehind forbids the match, or it
  // would have to span the first dot.
  lemma FiresAtFirstDot(a: string, sandbox: string, c: string, dataset: string, table: string, i: nat)
    requires Free(a, '.') && AllWord(sandbox) && Free(c, '.')
    requires IsSegment(dataset) && IsSegment(table)
    requires Fires(a + "." + sandbox + "." + c, i, dataset + "." + table, true)
    ensures i + |dataset| == |a|
  {
    hide Fires;
    var s := a + "." + sandbox + "." + c;
    var p := dataset + "." + table;
    FiresPointwise(s, i, p);
    assert s[i + |dataset|] == p[|dataset|] == '.';
    var k := |a| - i;
    assert 0 <= k < |p| ==> s[i + k] == p[k];
    TwoDots(a, sandbox, c, s, i + |dataset|);
  }

  lemma TableIsPrefix(s: string, m: nat, sandbox: string, table: string)
    requires Free(table, '.')
    requires m + |sandbox| < |s| && s[m..m + |sandbox|] == sandbox && s[m + |sandbox|] == '.'
    requires m + |table| <= |s| && s[m..m + |table|] == table
    ensures table <= sandbox
  {
    var t := s[m..m + |table|];
    assert s[m..][|sandbox|] == '.';
    assert forall k :: 0 <= k < |table| ==> t[k] == s[m..][k];
    assert forall k :: 0 <= k < |sandbox| ==> sandbox[k] == s[m..][k];
  }

  // Where the unqualified pattern can fire after the first pass.
  lemma UnqualifiedFires(a: string, sandbox: string, c: string, dataset: string, table: string, i: nat)
    requires Free(a, '.') && AllWord(sandbox) && Free(c, '.')
    requires IsSegment(dataset) && IsSegment(table)
    requires Fires(a + "." + sandbox + "." + c, i, dataset + "." + table, true)
    ensures i + |dataset| == |a|
    ensures table <= sandbox
    ensures a[i..] == dataset
    ensures i > 0 ==> !Qualifies(a[i - 1])
  {
    hide Fires, Qualifies;
    var s := a + "." + sandbox + "." + c;
    var p := dataset + "." + table;
    FiresAtFirstDot(a, sandbox, c, dataset, table, i);
    FiresPointwise(s, i, p);
    assert s[i..i + |p|] == p;
    var m := |a| + 1;
    assert s[m..m + |table|] == p[|dataset| + 1..] == table;
    assert s[m..m + |sandbox|] == sandbox;
    TableIsPrefix(s, m, sandbox, table);
    assert a[i..] == s[i..|a|] == p[..|dataset|] == dataset;
    if i > 0 {
      assert s[i - 1] == a[i - 1];
    }
  }

  lemma SecondPassKeeps(s: string, p: string, q: string)
    requires p != []
    requires forall i :: 0 <= i < |s| ==> !Fires(s, i, p, true)
    ensures Substitute(s, 0, p, q, true) == s
  {
    SubstituteSkips(s, 0, |s|, p, q, true);
    assert s[0..|s|] == s;
    assert Substitute(s, |s|, p, q, true) == [];
  }

  lemma SubstituteAt(s: string, k: nat, p: string, q: string)
    requires p != [] && k + |p| <= |s| && Fires(s, k, p, true)
    requires forall i :: 0 <= i < |s| && Fires(s, i, p, true) ==> i == k
    ensures Substitute(s, 0, p, q, true) == s[..k] + q + s[k + |p|..]
  {
    var n := k + |p|;
    assert Substitute(s, k, p, q, true) == q + Substitute(s, n, p, q, true);
    assert Substitute(s, |s|, p, q, true) == [];
    hide Fires, Substitute;
    SubstituteSkips(s, 0, k, p, q, true);
    SubstituteSkips(s, n, |s|, p, q, true);
    assert s[0..k] == s[..k] && s[n..|s|] + [] == s[n..];
  }

  // One firing, at `k`: everything around it is copied.
  lemma SecondPassDamages(a: string, sandbox: string, c: string, dataset: string, table: string, k: nat)
    requires Free(a, '.') && AllWord(sandbox) && Free(c, '.')
    requires IsSegment(dataset) && IsSegment(table)
    requires Fires(a + "." + sandbox + "." + c, k, dataset + "." + table, true)
    ensures var s := a + "." + sandbox + "." + c;
            var p, q := dataset + "." + table, sandbox + "." + table;
            && k + |p| <= |s|
            && Substitute(s, 0, p, q, true) == s[..k] + q + s[k + |p|..]
  {
    var s, p, q := a + "." + sandbox + "." + c, dataset + "." + table, sandbox + "." + table;
    UnqualifiedFires(a, sandbox, c, dataset, table, k);
    forall i | 0 <= i < |s| && Fires(s, i, p, true)
      ensures i == k
    {
      UnqualifiedFires(a, sandbox, c, dataset, table, i);
    }
    FiresPointwise(s, k, p);
    SubstituteAt(s, k, p, q);
  }

  lemma CollisionFires(head: string, r: TableRef, tail: string, sandbox: string)
    requires Free(head, '.') && IsRef(r) && Free(tail, '.') && AllWord(sandbox)
    requires Collides(head, r, sandbox)
    ensures var a := head + r.project;
            Fires(a + "." + sandbox + "." + (r.table + tail), |a| - |r.dataset|, r.dataset + "." + r.table, true)
  {
    var a := head + r.project;
    var s := a + "." + sandbox + "." + (r.table + tail);
    var k := |a| - |r.dataset|;
    var p := r.dataset + "." + r.table;
    assert s[k..k + |p|] == p by {
      assert s[k..k + |p|] == a[k..] + "." + sandbox[..|r.table|];
    }
    assert s[k..][..|p|] == p;
  }

  lemma Reassociate(head: string, r: TableRef, tail: string)
    ensures head + r.FullyQualified() + tail == (head + r.project) + "." + r.dataset + "." + (r.table + tail)
  {
  }

  // The second pass alone, on the output of the first.
  lemma SecondPass(head: string, r: TableRef, tail: string, sandbox: string)
    requires Free(head, '.') && IsRef(r) && Free(tail, '.') && AllWord(sandbox)
    ensures var s := (head + r.project) + "." + sandbox + "." + (r.table + tail);
            Substitute(s, 0, r.dataset + "." + r.table, sandbox + "." + r.table, true) == s
            <==> !Collides(head, r, sandbox) || r.dataset == sandbox
  {
    hide Fires;
    var a, c := head + r.project, r.table + tail;
    var s := a + "." + sandbox + "." + c;
    if Collides(head, r, sandbox) {
      var k := |a| - |r.dataset|;
      CollisionFires(head, r, tail, sandbox);
      SecondPassDamages(a, sandbox, c, r.dataset, r.table, k);
      DamageShows(s, k, r.dataset, sandbox, r.table);
    } else {
      var p := r.dataset + "." + r.table;
      forall i | 0 <= i < |s|
        ensures !Fires(s, i, p, true)
      {
        if Fires(s, i, p, true) {
          UnqualifiedFires(a, sandbox, c, r.dataset, r.table, i);
        }
      }
      SecondPassKeeps(s, p, sandbox + "." + r.table);
    }
  }

  /** Pointing a statement at the sandbox gives exactly the statement for the
      sandbox table, for every dot-free text around the table name, unless the
      second pass finds `dataset.table` across the first dot it must keep. */
  lemma RewriteCommutes(head: string, r: TableRef, tail: string, sandbox: string)
    requires Free(head, '.') && IsRef(r) && Free(tail, '.') && AllWord(sandbox)
    ensures RewriteSqlForDataset(head + r.FullyQualified() + tail, r, sandbox)
            == head + r.(dataset := sandbox).FullyQualified() + tail
            <==> !Collides(head, r, sandbox) || r.dataset == sandbox
  {
    hide Collides, Substitute;
    FirstPass(head, r, tail, sandbox);
    Reassociate(head, r.(dataset := sandbox), tail);
    SecondPass(head, r, tail, sandbox);
  }

  lemma DamageShows(s: string, k: nat, dataset: string, sandbox: string, table: string)
    requires Fires(s, k, dataset + "." + table, true)
    ensures s[..k] + (sandbox + "." + table) + s[k + |dataset + "." + table|..] == s <==> dataset == sandbox
  {
    var p, q := dataset + "." + table, sandbox + "." + table;
    var t := s[..k] + q + s[k + |p|..];
    assert s == s[..k] + p + s[k + |p|..];
    if t == s {
      assert |p| == |q|;
      assert t[k..k + |q|] == q;
      assert s[k..k + |p|] == p;
      assert p[..|dataset|] == dataset && q[..|sandbox|] == sandbox;
    }
  }

  /** Both statement shapes the patch tool emits, for a dot-free column. */
  lemma RewriteOfGeneratedDdl(r: TableRef, column: string, sandbox: string)
    requires IsRef(r) && Free(column, '.') && AllWord(sandbox)
    ensures (RewriteSqlForDataset(AddColumnDdl(r, column), r, sandbox)
             == AddColumnDdl(r.(dataset := sandbox), column))
            <==> (!Collides(HEAD, r, sandbox) || r.dataset == sandbox)
    ensures (RewriteSqlForDataset(ClusteringDdl(r, column), r, sandbox)
             == ClusteringDdl(r.(dataset := sandbox), column))
            <==> (!Collides(HEAD, r, sandbox) || r.dataset == sandbox)
  {
    hide RewriteSqlForDataset, Collides;
    assert Free(AddColumnTail(column), '.') && Free(ClusteringTail(column), '.');
    RewriteCommutes(HEAD, r, AddColumnTail(column), sandbox);
    RewriteCommutes(HEAD, r, ClusteringTail(column), sandbox);
  }

  /** The guard is not vacuous: a table called `w` under a project whose name
      ends in `-sales`, in the dataset `sales`, is sent to the wrong place. */
  lemma CollisionExample()
    ensures var r := TableRef("acme-sales", "sales", "w");
            && Collides(HEAD, r, "warden_sandbox_1")
            && RewriteSqlForDataset(AddColumnDdl(r, "email"), r, "warden_sandbox_1")
               != AddColumnDdl(r.(dataset := "warden_sandbox_1"), "email")
  {
    var r := TableRef("acme-sales", "sales", "w");
    var a := HEAD + r.project;
    assert a[|a| - 5..] == "sales";
    assert a[|a| - 6] == '-';
    RewriteOfGeneratedDdl(r, "email", "warden_sandbox_1");
  }
}
