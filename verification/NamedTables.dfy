/** The rewrite of a statement that names the source table any number of times,
    in full or as a bare `dataset.table`. */
module NamedTables {
  import opened BqSandbox
  import opened DatasetTokens
  import opened Models
  import opened Prelude
  import opened Text

  datatype Mention = Bare | Full

  function Name(m: Mention, r: TableRef): string {
    match m
    case Bare => r.dataset + "." + r.table
    case Full => r.FullyQualified()
  }

  // Texts with a mention of the table between any two of them.
  function Statement(parts: seq<string>, mentions: seq<Mention>, r: TableRef): string
    requires |parts| == |mentions| + 1
  {
    if mentions == [] then parts[0]
    else parts[0] + Name(mentions[0], r) + Statement(parts[1..], mentions[1..], r)
  }

  // The same statement for the sandbox: a full name always changes, a bare one
  // unless a word character or a dot stands in front of it. `left` is the
  // character in front of the first text, if there is one.
  function Rebased(parts: seq<string>, mentions: seq<Mention>, left: Option<char>, r: TableRef, sandbox: string): string
    requires |parts| == |mentions| + 1 && r.table != []
  {
    if mentions == [] then parts[0]
    else
      var before := if parts[0] == [] then left else Some(Last(parts[0]));
      var changes := mentions[0].Full? || before.None? || !Qualifies(before.value);
      parts[0] + Name(mentions[0], if changes then r.(dataset := sandbox) else r)
      + Rebased(parts[1..], mentions[1..], Some(Last(r.table)), r, sandbox)
  }

  // A bare name and a full one behind it do not read as a full name together.
  predicate Apart(parts: seq<string>, mentions: seq<Mention>, r: TableRef)
    requires |parts| == |mentions| + 1
  {
    forall k :: 0 < k < |mentions| && mentions[k - 1].Bare? && mentions[k].Full? ==>
                  r.table + parts[k] + r.project != r.dataset
  }

  // ---------- The tokens of such a statement ----------

  // `full` is the dataset written in full names, `bare` decides about bare ones.
  function Tokens(u: string, parts: seq<string>, mentions: seq<Mention>, r: TableRef, full: string): (ts: seq<string>)
    requires |parts| == |mentions| + 1
    ensures ts != []
    decreases |mentions|
  {
    if mentions == [] then [u + parts[0]]
    else match mentions[0]
      case Bare => [u + parts[0] + r.dataset] + Tokens(r.table, parts[1..], mentions[1..], r, full)
      case Full => [u + parts[0] + r.project, full] + Tokens(r.table, parts[1..], mentions[1..], r, full)
  }

  lemma TokensBegin(u: string, parts: seq<string>, mentions: seq<Mention>, r: TableRef, full: string)
    requires |parts| == |mentions| + 1
    ensures u <= Tokens(u, parts, mentions, r, full)[0]
    ensures mentions != [] ==> |Tokens(u, parts, mentions, r, full)| > 1
  {
  }

  lemma {:induction false} TokensAreDotFree(u: string, parts: seq<string>, mentions: seq<Mention>, r: TableRef, full: string)
    requires |parts| == |mentions| + 1 && DotFree(parts) && IsRef(r) && Free(u, '.') && Free(full, '.')
    ensures DotFree(Tokens(u, parts, mentions, r, full))
    decreases |mentions|
  {
    if mentions != [] {
      TokensAreDotFree(r.table, parts[1..], mentions[1..], r, full);
    }
  }

  lemma {:induction false} TokensJoin(u: string, parts: seq<string>, mentions: seq<Mention>, r: TableRef)
    requires |parts| == |mentions| + 1
    ensures JoinDots(Tokens(u, parts, mentions, r, r.dataset)) == u + Statement(parts, mentions, r)
    decreases |mentions|
  {
    if mentions != [] {
      hide JoinDots;
      var rest := Tokens(r.table, parts[1..], mentions[1..], r, r.dataset);
      var text := Statement(parts[1..], mentions[1..], r);
      TokensJoin(r.table, parts[1..], mentions[1..], r);
      match mentions[0]
      case Bare =>
        JoinCons(u + parts[0] + r.dataset, rest);
        BareJoins(u, parts[0], r.dataset, r.table, text);
      case Full =>
        JoinTwo(u + parts[0] + r.project, r.dataset, rest);
        FullTextHere(u, parts[0], r, r.dataset, text);
        assert r.(dataset := r.dataset) == r;
    } else {
      One(u + parts[0]);
    }
  }

  lemma One(t: string)
    ensures JoinDots([t]) == t
  {
  }

  lemma BareJoins(u: string, part: string, dataset: string, table: string, rest: string)
    ensures (u + part + dataset) + "." + (table + rest) == u + (part + (dataset + "." + table) + rest)
  {
  }

  lemma ApartTail(parts: seq<string>, mentions: seq<Mention>, r: TableRef)
    requires |parts| == |mentions| + 1 && mentions != [] && Apart(parts, mentions, r)
    ensures Apart(parts[1..], mentions[1..], r)
    ensures |mentions| > 1 && mentions[0].Bare? && mentions[1].Full? ==> r.table + parts[1] + r.project != r.dataset
  {
    forall k | 0 < k < |mentions[1..]| && mentions[1..][k - 1].Bare? && mentions[1..][k].Full?
      ensures r.table + parts[1..][k] + r.project != r.dataset
    {
      assert mentions[k].Bare? && mentions[k + 1].Full?;
    }
  }

  lemma EndsThere(a: string, end: string)
    ensures EndsWith(a + end, end)
  {
  }

  // A bare name is not the beginning of a full one.
  lemma BareIsNotFull(u: string, parts: seq<string>, mentions: seq<Mention>, used: nat, r: TableRef, full: string)
    requires |parts| == |mentions| + 1 && mentions != [] && mentions[0].Bare? && Apart(parts, mentions, r)
    requires r.table != []
    ensures !FullHere(Tokens(u, parts, mentions, r, full), used, r)
  {
    ApartTail(parts, mentions, r);
    if |mentions| > 1 {
      var next := Tokens(r.table, parts[1..], mentions[1..], r, full)[0];
      match mentions[1]
      case Bare => assert next == r.table + parts[1] + r.dataset;
      case Full => assert next == r.table + parts[1] + r.project;
    }
  }

  lemma {:induction false} FullNames(u: string, parts: seq<string>, mentions: seq<Mention>, used: nat, r: TableRef,
                                     sandbox: string)
    requires |parts| == |mentions| + 1 && Apart(parts, mentions, r) && IsRef(r) && used <= |u|
    ensures FullRetargeted(Tokens(u, parts, mentions, r, r.dataset), used, r, sandbox)
            == Tokens(u, parts, mentions, r, sandbox)
    decreases |mentions|
  {
    if mentions != [] {
      var ts := Tokens(u, parts, mentions, r, r.dataset);
      var rest := Tokens(r.table, parts[1..], mentions[1..], r, r.dataset);
      ApartTail(parts, mentions, r);
      match mentions[0]
      case Bare =>
        BareIsNotFull(u, parts, mentions, used, r, r.dataset);
        FullNames(r.table, parts[1..], mentions[1..], 0, r, sandbox);
        assert ts[1..] == rest;
      case Full =>
        EndsThere(u + parts[0], r.project);
        TokensBegin(r.table, parts[1..], mentions[1..], r, r.dataset);
        FullNames(r.table, parts[1..], mentions[1..], |r.table|, r, sandbox);
        assert ts[2..] == rest && ts[2] == rest[0];
        assert FullHere(ts, used, r);
    }
  }

  // ---------- Bare names ----------

  lemma BareMention(t: string, used: nat, first: bool, rest: seq<string>, r: TableRef)
    requires rest != [] && r.table <= rest[0] && used <= |t| && Free(t, '.')
    ensures BareHere([t + r.dataset] + rest, first, used, r)
            <==> if t == [] then first else !Qualifies(Last(t))
  {
    var ts := [t + r.dataset] + rest;
    EndsThere(t, r.dataset);
    assert ts[1] == rest[0];
    if t != [] {
      assert ts[0][|t| - 1] == Last(t);
      assert Last(t) in t;
    }
  }

  // In a rewritten full name the second pass finds nothing.
  lemma FullStays(t: string, used: nat, first: bool, sandbox: string, rest: seq<string>, r: TableRef)
    requires rest != [] && !(r.table <= sandbox) && AllWord(sandbox)
    ensures !BareHere([t, sandbox] + rest, first, used, r)
    ensures !BareHere([sandbox] + rest, false, 0, r)
  {
  }

  lemma JoinTwo(a: string, b: string, rest: seq<string>)
    requires rest != []
    ensures JoinDots([a, b] + rest) == a + "." + b + "." + JoinDots(rest)
  {
    JoinCons(b, rest);
    JoinCons(a, [b] + rest);
    assert [a, b] + rest == [a] + ([b] + rest);
  }

  lemma BareUnfoldTwo(t: string, sandbox: string, rest: seq<string>, first: bool, used: nat, r: TableRef)
    requires rest != [] && !(r.table <= sandbox) && AllWord(sandbox)
    ensures BareRetargeted([t, sandbox] + rest, first, used, r, sandbox)
            == [t, sandbox] + BareRetargeted(rest, false, 0, r, sandbox)
  {
    FullStays(t, used, first, sandbox, rest, r);
    assert ([t, sandbox] + rest)[1..] == [sandbox] + rest;
    assert ([sandbox] + rest)[1..] == rest;
    hide BareHere;
    assert BareRetargeted([sandbox] + rest, false, 0, r, sandbox) == [sandbox] + BareRetargeted(rest, false, 0, r, sandbox);
  }

  function LeftChar(u: string): Option<char> {
    if u == [] then None else Some(Last(u))
  }

  lemma {:induction false} BareNames(u: string, parts: seq<string>, mentions: seq<Mention>, used: nat, r: TableRef,
                                     sandbox: string)
    requires |parts| == |mentions| + 1 && IsRef(r) && used <= |u| && DotFree(parts) && Free(u, '.') && Free(sandbox, '.')
    requires Full in mentions ==> !(r.table <= sandbox) && AllWord(sandbox)
    ensures JoinDots(BareRetargeted(Tokens(u, parts, mentions, r, sandbox), u == [], used, r, sandbox))
            == u + Rebased(parts, mentions, LeftChar(u), r, sandbox)
    decreases |mentions|
  {
    if mentions != [] {
      hide BareHere, AllWord, IsWord, Qualifies;
      var t := u + parts[0];
      var rest := Tokens(r.table, parts[1..], mentions[1..], r, sandbox);
      TokensBegin(r.table, parts[1..], mentions[1..], r, sandbox);
      assert DotFree(parts[1..]) && Free(parts[0], '.');
      if mentions[0].Bare? {
        var here := BareHere([t + r.dataset] + rest, u == [], used, r);
        BareMention(t, used, u == [], rest, r);
        BareNames(r.table, parts[1..], mentions[1..], if here then |r.table| else 0, r, sandbox);
        BareStep(t, u == [], used, rest, r, sandbox);
        BareText(u, parts, mentions, here, r, sandbox);
      } else {
        BareUnfoldTwo(t + r.project, sandbox, rest, u == [], used, r);
        BareNames(r.table, parts[1..], mentions[1..], 0, r, sandbox);
        JoinTwo(t + r.project, sandbox, BareRetargeted(rest, false, 0, r, sandbox));
        FullTextHere(u, parts[0], r, sandbox, Rebased(parts[1..], mentions[1..], Some(Last(r.table)), r, sandbox));
      }
    }
  }

  lemma FullTextHere(u: string, part: string, r: TableRef, sandbox: string, rest: string)
    ensures (u + part + r.project) + "." + sandbox + "." + (r.table + rest)
            == u + (part + r.(dataset := sandbox).FullyQualified() + rest)
  {
  }

  lemma BareStep(t: string, first: bool, used: nat, rest: seq<string>, r: TableRef, sandbox: string)
    requires rest != []
    ensures var here := BareHere([t + r.dataset] + rest, first, used, r);
            JoinDots(BareRetargeted([t + r.dataset] + rest, first, used, r, sandbox))
            == t + (if here then sandbox else r.dataset) + "."
               + JoinDots(BareRetargeted(rest, false, if here then |r.table| else 0, r, sandbox))
  {
    hide BareHere, JoinDots, BareRetargeted;
    var ts := [t + r.dataset] + rest;
    BareUnfold(ts, first, used, r, sandbox);
    assert ts[1..] == rest && ts[0] == t + r.dataset;
    assert ts[0][..|ts[0]| - |r.dataset|] == t;
  }

  lemma BareText(u: string, parts: seq<string>, mentions: seq<Mention>, here: bool, r: TableRef, sandbox: string)
    requires |parts| == |mentions| + 1 && mentions != [] && mentions[0].Bare? && r.table != []
    requires here <==> if u + parts[0] == [] then true else !Qualifies(Last(u + parts[0]))
    ensures u + Rebased(parts, mentions, LeftChar(u), r, sandbox)
            == (u + parts[0]) + (if here then sandbox else r.dataset) + "."
               + (r.table + Rebased(parts[1..], mentions[1..], LeftChar(r.table), r, sandbox))
  {
    hide Qualifies;
    var rest := Rebased(parts[1..], mentions[1..], Some(Last(r.table)), r, sandbox);
    var d := if here then sandbox else r.dataset;
    LastOf(u, parts[0]);
    BareJoins(u, parts[0], d, r.table, rest);
  }

  lemma LastOf(u: string, part: string)
    ensures part == [] ==> u + part == u
    ensures part != [] ==> u + part != [] && Last(u + part) == Last(part)
  {
  }

  /** A statement that names the table any number of times, in full or bare:
      every full name is moved to the sandbox, and every bare one unless a word
      character or a dot stands in front of it; all other text stays. Full
      names need a sandbox of word characters that the table name does not
      begin, and must not run together with a bare name before them. */
  lemma RewriteEveryMention(parts: seq<string>, mentions: seq<Mention>, r: TableRef, sandbox: string)
    requires |parts| == |mentions| + 1 && IsRef(r) && DotFree(parts) && Free(sandbox, '.')
    requires Apart(parts, mentions, r)
    requires Full in mentions ==> !(r.table <= sandbox) && AllWord(sandbox)
    ensures RewriteSqlForDataset(Statement(parts, mentions, r), r, sandbox) == Rebased(parts, mentions, None, r, sandbox)
  {
    var sql := Statement(parts, mentions, r);
    var ts := Tokens([], parts, mentions, r, r.dataset);
    TokensJoin([], parts, mentions, r);
    assert [] + sql == sql;
    TokensAreDotFree([], parts, mentions, r, r.dataset);
    JoinSplits(ts);
    RewriteIs(sql, r, sandbox);
    FullNames([], parts, mentions, 0, r, sandbox);
    BareNames([], parts, mentions, 0, r, sandbox);
    assert [] + Rebased(parts, mentions, None, r, sandbox) == Rebased(parts, mentions, None, r, sandbox);
  }

  /** One bare name in a statement without other dots: it is moved to the
      sandbox exactly when neither a word character nor a dot stands in front
      of it. */
  lemma RewriteBareName(head: string, r: TableRef, tail: string, sandbox: string)
    requires IsRef(r) && Free(head, '.') && Free(tail, '.') && Free(sandbox, '.')
    ensures RewriteSqlForDataset(head + r.dataset + "." + r.table + tail, r, sandbox)
            == if head == [] || !Qualifies(Last(head)) then head + sandbox + "." + r.table + tail
               else head + r.dataset + "." + r.table + tail
  {
    hide RewriteSqlForDataset, Qualifies;
    RewriteEveryMention([head, tail], [Bare], r, sandbox);
    OneBare(head, r, tail, sandbox);
  }

  lemma OneBare(head: string, r: TableRef, tail: string, sandbox: string)
    requires r.table != []
    ensures Statement([head, tail], [Bare], r) == head + r.dataset + "." + r.table + tail
    ensures Rebased([head, tail], [Bare], None, r, sandbox)
            == if head == [] || !Qualifies(Last(head)) then head + sandbox + "." + r.table + tail
               else head + r.dataset + "." + r.table + tail
  {
    hide Qualifies;
    assert [head, tail][1..] == [tail] && [Bare][1..] == [];
    var d := if head == [] || !Qualifies(Last(head)) then sandbox else r.dataset;
    Spelled(head, r.dataset, r.table, tail);
    Spelled(head, d, r.table, tail);
  }

  lemma Spelled(head: string, dataset: string, table: string, tail: string)
    ensures head + (dataset + "." + table) + tail == head + dataset + "." + table + tail
  {
  }
}
