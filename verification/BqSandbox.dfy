/** The text helpers of the BigQuery sandbox: resource URIs, sandbox dataset
    names, the two-pass dataset rewrite, the destructive-statement gate and
    the `ADD COLUMN` reader. */
module BqSandbox {
  import opened Models
  import opened Prelude
  import opened Text

  // ---------- Resource URIs ----------

  datatype TableRef = TableRef(project: string, dataset: string, table: string) {
    function FullyQualified(): string {
      project + "." + dataset + "." + table
    }
  }

  datatype UriError = PostgresUnsupported | Malformed

  const SCHEME: string := "bq://"

  // `[^./]+`
  predicate IsSegment(s: string) {
    s != [] && Free(s, '.') && Free(s, '/')
  }

  predicate IsRef(r: TableRef) {
    IsSegment(r.project) && IsSegment(r.dataset) && IsSegment(r.table)
  }

  function PrintUri(r: TableRef): string {
    SCHEME + r.FullyQualified()
  }

  function DotIndex(s: string): (i: nat)
    ensures i <= |s|
    ensures Free(s[..i], '.')
    ensures i < |s| ==> s[i] == '.'
  {
    if s == [] || s[0] == '.' then 0
    else
      var i := DotIndex(s[1..]);
      assert s[..i + 1] == [s[0]] + s[1..][..i];
      i + 1
  }

  function ParseResourceUri(uri: string): Result<TableRef, UriError> {
    if SCHEME <= uri then
      var rest := uri[|SCHEME|..];
      var i := DotIndex(rest);
      if i == |rest| then Failure(Malformed)
      else
        var tail := rest[i + 1..];
        var j := DotIndex(tail);
        if j == |tail| then Failure(Malformed)
        else
          var r := TableRef(rest[..i], tail[..j], tail[j + 1..]);
          if IsRef(r) then Success(r) else Failure(Malformed)
    else if "postgres://" <= uri then Failure(PostgresUnsupported)
    else Failure(Malformed)
  }

  lemma DotIndexOf(a: string, b: string)
    requires Free(a, '.')
    ensures DotIndex(a + "." + b) == |a|
  {
    var s := a + "." + b;
    assert s[|a|] == '.';
  }

  lemma SegmentIsFree(s: string)
    requires IsSegment(s)
    ensures Free(s, '.')
  {
  }

  lemma PrintParses(r: TableRef)
    requires IsRef(r)
    ensures ParseResourceUri(PrintUri(r)) == Success(r)
  {
    hide DotIndex, IsSegment;
    var uri := PrintUri(r);
    var rest := uri[|SCHEME|..];
    assert SCHEME <= uri && rest == r.project + "." + (r.dataset + "." + r.table);
    SegmentIsFree(r.project);
    SegmentIsFree(r.dataset);
    DotIndexOf(r.project, r.dataset + "." + r.table);
    var tail := rest[|r.project| + 1..];
    assert tail == r.dataset + "." + r.table;
    DotIndexOf(r.dataset, r.table);
    assert rest[..|r.project|] == r.project;
    assert tail[..|r.dataset|] == r.dataset && tail[|r.dataset| + 1..] == r.table;
  }

  lemma ParsePrints(uri: string)
    requires ParseResourceUri(uri).Success?
    ensures IsRef(ParseResourceUri(uri).value) && uri == PrintUri(ParseResourceUri(uri).value)
  {
    var r := ParseResourceUri(uri).value;
    var rest := uri[|SCHEME|..];
    var tail := rest[DotIndex(rest) + 1..];
    assert tail == r.dataset + "." + r.table;
    assert rest == r.project + "." + tail;
    assert rest == r.FullyQualified();
    assert uri == SCHEME + rest;
  }

  /** The grammar of resource URIs: a string parses to `r` exactly when it is
      the printed form of `r`, so parsing and printing are mutually inverse
      and the decomposition is unique. */
  lemma ParsePrint(uri: string, r: TableRef)
    ensures ParseResourceUri(uri) == Success(r) <==> IsRef(r) && uri == PrintUri(r)
  {
    hide ParseResourceUri, PrintUri;
    if IsRef(r) {
      PrintParses(r);
    }
    if ParseResourceUri(uri).Success? {
      ParsePrints(uri);
    }
  }

  /** A URI of the source database is told apart from one that is merely
      malformed, and nothing else is taken for it. */
  lemma PostgresIsTold(uri: string)
    ensures ParseResourceUri(uri) == Failure(PostgresUnsupported) <==> "postgres://" <= uri
  {
    if "postgres://" <= uri {
      assert uri[0] == 'p';
    }
    if SCHEME <= uri {
      assert uri[0] == 'b';
    }
  }

  // Replaces the project of a `bq://` URI by the configured one.
  function BindToProject(uri: string, configured: Option<string>): string {
    if configured.None? || configured.value == "" || !(SCHEME <= uri) then uri
    else match ParseResourceUri(uri)
      case Failure(_) => uri
      case Success(r) =>
        if r.project == configured.value then uri
        else PrintUri(r.(project := configured.value))
  }

  /** Rebinding is idempotent whatever the configured project is, even one
      that makes the result unparsable; without a configured project, or on a
      URI that is not a table URI, it changes nothing, and otherwise it keeps
      dataset and table. */
  lemma BindIdempotent(uri: string, configured: Option<string>)
    ensures BindToProject(BindToProject(uri, configured), configured) == BindToProject(uri, configured)
    ensures configured in {None, Some("")} ==> BindToProject(uri, configured) == uri
    ensures ParseResourceUri(uri).Failure? ==> BindToProject(uri, configured) == uri
    ensures ParseResourceUri(uri).Success? && configured.Some? && IsSegment(configured.value) ==>
              ParseResourceUri(BindToProject(uri, configured))
              == Success(ParseResourceUri(uri).value.(project := configured.value))
    ensures ParseResourceUri(uri).Success? && configured.Some? && configured.value != "" ==>
              var r := ParseResourceUri(uri).value;
              BindToProject(uri, configured) == "bq://" + (configured.value + "." + r.dataset + "." + r.table)
  {
    var once := BindToProject(uri, configured);
    match ParseResourceUri(uri)
    case Failure(_) =>
    case Success(r) =>
      ParsePrint(uri, r);
      if once != uri {
        var bound := r.(project := configured.value);
        ParsePrint(once, bound);
        match ParseResourceUri(once)
        case Failure(_) =>
        case Success(r2) =>
          ParsePrint(once, r2);
          BoundParse(configured.value, r.dataset, r.table, r2);
      }
  }

  // Even for an arbitrary project string, what parses back has that project.
  lemma BoundParse(project: string, dataset: string, table: string, r: TableRef)
    requires IsRef(r)
    requires Free(dataset, '.') && Free(table, '.')
    requires PrintUri(TableRef(project, dataset, table)) == PrintUri(r)
    ensures r == TableRef(project, dataset, table)
  {
    var u := PrintUri(r);
    var rest := u[|SCHEME|..];
    assert rest == project + "." + dataset + "." + table;
    assert rest == r.project + "." + r.dataset + "." + r.table;
    var i, j := |r.project|, |r.project| + 1 + |r.dataset|;
    var m, n := |project|, |project| + 1 + |dataset|;
    assert rest[i] == '.' && rest[j] == '.' && rest[m] == '.' && rest[n] == '.';
    TwoDots(r.project, r.dataset, r.table, rest, m);
    TwoDots(r.project, r.dataset, r.table, rest, n);
    assert m == i && n == j;
    assert rest[..i] == project == r.project;
    assert rest[i + 1..j] == dataset == r.dataset;
    assert rest[j + 1..] == table == r.table;
  }

  // In a text made of three dot-free parts the dots are where the seams are.
  lemma TwoDots(a: string, b: string, c: string, s: string, k: nat)
    requires Free(a, '.') && Free(b, '.') && Free(c, '.')
    requires s == a + "." + b + "." + c
    requires k < |s| && s[k] == '.'
    ensures k == |a| || k == |a| + 1 + |b|
  {
  }

  // ---------- Sandbox dataset names ----------

  function SafeChar(c: char): char {
    if IsWord(Lower(c)) then Lower(c) else '_'
  }

  function SafeSuffix(s: string): (r: string)
    ensures |r| == |s|
    ensures forall i :: 0 <= i < |s| ==> r[i] == SafeChar(s[i])
  {
    if s == [] then [] else [SafeChar(s[0])] + SafeSuffix(s[1..])
  }

  function SandboxDatasetId(prefix: string, incidentId: string): string {
    prefix + SafeSuffix(incidentId)
  }

  // The alphabet of ULIDs (a superset: digits and capitals).
  predicate IsUlid(s: string) {
    forall i :: 0 <= i < |s| ==> '0' <= s[i] <= '9' || 'A' <= s[i] <= 'Z'
  }

  lemma SafeCharOnUlids(c: char, d: char)
    ensures IsWord(SafeChar(c)) && SafeChar(c) != '.'
    ensures IsUlid([c]) && IsUlid([d]) ==> (SafeChar(c) == SafeChar(d) <==> c == d)
  {
    assert IsUlid([c]) ==> '0' <= [c][0] <= '9' || 'A' <= [c][0] <= 'Z';
    assert IsUlid([d]) ==> '0' <= [d][0] <= '9' || 'A' <= [d][0] <= 'Z';
  }

  /** The sandbox of an incident: the configured prefix, then the lower-cased
      id with everything but word characters replaced by underscores. */
  lemma SandboxNameIs(prefix: string, incidentId: string)
    ensures var x := SandboxDatasetId(prefix, incidentId);
            && |x| == |prefix| + |incidentId| && x[..|prefix|] == prefix
            && (forall i :: 0 <= i < |incidentId| ==>
                  x[|prefix| + i] == if IsWord(incidentId[i]) then Lower(incidentId[i]) else '_')
            && (IsUlid(incidentId) ==> x == prefix + LowerAll(incidentId))
  {
    var suffix := SafeSuffix(incidentId);
    if IsUlid(incidentId) {
      assert suffix == LowerAll(incidentId);
    }
  }

  /** Sandbox dataset names contain only word characters, and distinct ULIDs
      never share a sandbox. */
  lemma SandboxDatasetsDistinct(prefix: string, a: string, b: string)
    requires IsUlid(a) && IsUlid(b) && |a| == |b|
    requires AllWord(prefix)
    ensures AllWord(SandboxDatasetId(prefix, a)) && Free(SandboxDatasetId(prefix, a), '.')
    ensures SandboxDatasetId(prefix, a) == SandboxDatasetId(prefix, b) <==> a == b
  {
    hide SafeChar, SafeSuffix, IsWord;
    var n := |prefix|;
    var x, y := SandboxDatasetId(prefix, a), SandboxDatasetId(prefix, b);
    forall i | 0 <= i < |a|
      ensures IsWord(x[n + i]) && x[n + i] != '.' && (x[n + i] == y[n + i] <==> a[i] == b[i])
    {
      SafeCharOnUlids(a[i], b[i]);
    }
    WordsHaveNoDots(prefix);
    forall j | 0 <= j < |x|
      ensures IsWord(x[j]) && x[j] != '.'
    {
      assert j >= n ==> IsWord(x[n + (j - n)]);
    }
    if x == y {
      assert forall i :: 0 <= i < |a| ==> a[i] == b[i];
    }
  }

  lemma SandboxIsWords(prefix: string, incidentId: string)
    requires AllWord(prefix)
    ensures AllWord(SandboxDatasetId(prefix, incidentId))
  {
    hide SafeChar, IsWord;
    var x, n := SandboxDatasetId(prefix, incidentId), |prefix|;
    forall j | 0 <= j < |x|
      ensures IsWord(x[j])
    {
      if j >= n {
        SafeCharOnUlids(incidentId[j - n], incidentId[j - n]);
      }
    }
  }

  lemma WordsHaveNoDots(s: string)
    requires AllWord(s)
    ensures Free(s, '.')
  {
  }

  // ---------- Rewriting to another dataset ----------

  function QualifiedPass(sql: string, source: TableRef, newDataset: string): string {
    Substitute(sql, 0, source.FullyQualified(), source.(dataset := newDataset).FullyQualified(), false)
  }

  function RewriteSqlForDataset(sql: string, source: TableRef, newDataset: string): string {
    Substitute(QualifiedPass(sql, source, newDataset), 0, source.dataset + "." + source.table, newDataset + "." + source.table, true)
  }

  // ---------- Destructive statements ----------

  predicate DestructiveAt(sql: string, i: nat, first: string, second: string)
    requires i <= |sql|
  {
    && Boundary(sql, i)
    && PairAt(sql, i, first, second)
    && Boundary(sql, PairEnd(sql, i, first, second))
  }

  predicate ContainsDestructiveStatement(sql: string) {
    exists i | 0 <= i < |sql| ::
      || DestructiveAt(sql, i, "drop", "table")
      || DestructiveAt(sql, i, "drop", "column")
      || DestructiveAt(sql, i, "truncate", "table")
  }

  // ---------- Reading `ADD COLUMN` clauses ----------

  datatype ColumnMatch = NoMatch | ColumnMatch(column: ColumnSpec, end: nat)

  // `word\s+` at `i`: the position behind it, or `i` when it is not there.
  function SkipWord(sql: string, i: nat, word: string): (j: nat)
    requires i <= |sql|
    ensures i <= j <= |sql|
  {
    if !NoCaseAt(sql, i, word) then i
    else
      var j := SkipSpaces(sql, i + |word|);
      if j == i + |word| then i else j
  }

  // `(?:IF\s+NOT\s+EXISTS\s+)?`
  function SkipIfNotExists(sql: string, i: nat): (j: nat)
    requires i <= |sql|
    ensures i <= j <= |sql|
  {
    var a := SkipWord(sql, i, "if");
    var b := SkipWord(sql, a, "not");
    var c := SkipWord(sql, b, "exists");
    if i < a < b < c then c else i
  }

  function SkipTick(sql: string, i: nat): (j: nat)
    requires i <= |sql|
    ensures i <= j <= |sql|
  {
    if i < |sql| && sql[i] == '`' then i + 1 else i
  }

  // "`?(\w+)`?\s+(\w+)" at `i`
  function NameAndType(sql: string, i: nat): (m: ColumnMatch)
    requires i <= |sql|
    ensures m.ColumnMatch? ==> i < m.end <= |sql|
  {
    var a := SkipTick(sql, i);
    var b := WordEnd(sql, a);
    var c := SkipTick(sql, b);
    var d := SkipSpaces(sql, c);
    var e := WordEnd(sql, d);
    if a < b && c < d && d < e
    then ColumnMatch(ColumnSpec(sql[a..b], UpperAll(sql[d..e]), Nullable), e)
    else NoMatch
  }

  // The optional group is tried first, then the match without it.
  function AddColumnAt(sql: string, i: nat): (m: ColumnMatch)
    requires i <= |sql|
    ensures m.ColumnMatch? ==> i < m.end <= |sql|
  {
    if !PairAt(sql, i, "add", "column") then NoMatch
    else
      var a := PairEnd(sql, i, "add", "column");
      var b := SkipSpaces(sql, a);
      if a == b then NoMatch
      else
        var guarded := NameAndType(sql, SkipIfNotExists(sql, b));
        if guarded.ColumnMatch? then guarded else NameAndType(sql, b)
  }

  function AddedColumnsFrom(sql: string, i: nat): seq<ColumnSpec>
    requires i <= |sql|
    decreases |sql| - i
  {
    if i == |sql| then []
    else match AddColumnAt(sql, i)
      case NoMatch => AddedColumnsFrom(sql, i + 1)
      case ColumnMatch(column, end) => [column] + AddedColumnsFrom(sql, end)
  }

  function ParseAddedColumns(sql: string): seq<ColumnSpec> {
    AddedColumnsFrom(sql, 0)
  }

  lemma {:induction false} AddedColumnsSkip(sql: string, i: nat, k: nat)
    requires i <= k <= |sql|
    requires forall j :: i <= j < k ==> AddColumnAt(sql, j).NoMatch?
    ensures AddedColumnsFrom(sql, i) == AddedColumnsFrom(sql, k)
    decreases k - i
  {
    hide AddColumnAt;
    if i < k {
      AddedColumnsSkip(sql, i + 1, k);
    }
  }
}
