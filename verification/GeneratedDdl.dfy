/** What the generated statements can and cannot say: they are never
    destructive, and the column they add is the column that is read back. */
module GeneratedDdl {
  import opened BqSandbox
  import opened Governance
  import opened Models
  import opened PatchSql
  import opened Prelude
  import opened Text

  // What may stand before white space: not the end of DROP or TRUNCATE.
  predicate TameBefore(s: string, k: nat)
    requires k <= |s|
  {
    k > 0 && (s[k - 1] == '`' || (k > 1 && TameEnding(s[k - 2], s[k - 1])))
  }

  predicate TameEnding(c: char, d: char) {
    Lower(d) != 'p' && !(Lower(c) == 't' && Lower(d) == 'e')
  }

  predicate Tame(s: string) {
    forall k :: 0 <= k < |s| && IsSpace(s[k]) ==> TameBefore(s, k)
  }

  lemma TameConcat(a: string, b: string)
    requires Tame(a) && Tame(b)
    ensures Tame(a + b)
  {
    var s := a + b;
    forall k | 0 <= k < |s| && IsSpace(s[k])
      ensures TameBefore(s, k)
    {
      if k < |a| {
        assert s[k] == a[k];
        assert TameBefore(a, k);
      } else {
        assert s[k] == b[k - |a|];
        assert TameBefore(b, k - |a|);
      }
    }
  }

  // White space after a D, in any case, occurs nowhere but at `p`.
  predicate DSpaceOnlyAt(s: string, p: int) {
    forall k :: 0 < k < |s| && IsSpace(s[k]) && Lower(s[k - 1]) == 'd' ==> k == p
  }

  lemma HeadText()
    ensures Tame(HEAD) && DSpaceOnlyAt(HEAD, -1)
  {
    var s := HEAD;
    forall k | 0 <= k < |s| && IsSpace(s[k])
      ensures TameBefore(s, k) && Lower(s[k - 1]) != 'd'
    {
      HeadSpaces(k);
      assert s[3] == 'E' && s[4] == 'R' && s[9] == 'L' && s[10] == 'E';
    }
  }

  lemma HeadSpaces(k: nat)
    requires k < |HEAD| && IsSpace(HEAD[k])
    ensures k in {5, 11}
  {
  }

  lemma EndText()
    ensures Tame("'])") && DSpaceOnlyAt("'])", -1)
  {
  }

  const ADD: string := "` ADD COLUMN IF NOT EXISTS `"

  lemma AddSpaces(k: nat)
    requires k < |ADD| && IsSpace(ADD[k])
    ensures k in {1, 5, 12, 15, 19, 26}
  {
  }

  lemma AddText()
    ensures Tame(ADD) && DSpaceOnlyAt(ADD, 5)
  {
    var s := ADD;
    forall k | 0 <= k < |s| && IsSpace(s[k])
      ensures TameBefore(s, k) && (Lower(s[k - 1]) == 'd' ==> k == 5)
    {
      AddSpaces(k);
      assert s[0] == '`' && s[4] == 'D' && s[11] == 'N' && s[14] == 'F' && s[18] == 'T' && s[25] == 'S';
    }
  }

  lemma TypeText()
    ensures Tame("` STRING") && DSpaceOnlyAt("` STRING", -1)
  {
  }

  const OPTIONS: string := "` SET OPTIONS (clustering_fields = ['"

  lemma OptionsSpaces(k: nat)
    requires k < |OPTIONS| && IsSpace(OPTIONS[k])
    ensures k in {1, 5, 13, 32, 34}
  {
  }

  lemma OptionsText()
    ensures Tame(OPTIONS) && DSpaceOnlyAt(OPTIONS, -1)
  {
    var s := OPTIONS;
    forall k | 0 <= k < |s| && IsSpace(s[k])
      ensures TameBefore(s, k) && Lower(s[k - 1]) != 'd'
    {
      OptionsSpaces(k);
      assert s[0] == '`' && s[4] == 'T' && s[12] == 'S' && s[31] == 's' && s[33] == '=';
    }
  }

  lemma DSpaceConcat(a: string, b: string, p: int, q: int)
    requires DSpaceOnlyAt(a, p) && DSpaceOnlyAt(b, q)
    requires p == -1 || q == -1
    requires b != [] ==> !IsSpace(b[0])
    ensures DSpaceOnlyAt(a + b, if q == -1 then p else |a| + q)
  {
    var s := a + b;
    forall k | 0 < k < |s| && IsSpace(s[k]) && Lower(s[k - 1]) == 'd'
      ensures k == if q == -1 then p else |a| + q
    {
      if k < |a| {
        assert s[k] == a[k] && s[k - 1] == a[k - 1];
      } else {
        assert s[k] == b[k - |a|];
        assert s[k - 1] == b[k - |a| - 1];
      }
    }
  }

  // Whitespace-free names, as in any real table reference.
  predicate PlainRef(r: TableRef) {
    IsRef(r) && NoSpace(r.project) && NoSpace(r.dataset) && NoSpace(r.table)
  }

  lemma PlainText(s: string)
    requires NoSpace(s)
    ensures Tame(s) && DSpaceOnlyAt(s, -1)
  {
  }

  // A statement: fixed head, table, fixed text (with at most one D before
  // white space, at `p`), column, fixed end.
  lemma StatementShape(head: string, table: string, text: string, column: string, end: string, p: int)
    requires Tame(head) && DSpaceOnlyAt(head, -1)
    requires Tame(text) && DSpaceOnlyAt(text, p) && text != [] && !IsSpace(text[0])
    requires Tame(end) && DSpaceOnlyAt(end, -1) && end != [] && !IsSpace(end[0])
    requires NoSpace(table) && NoSpace(column)
    ensures Tame(head + table + text + column + end)
    ensures DSpaceOnlyAt(head + table + text + column + end, if p == -1 then -1 else |head + table| + p)
  {
    hide Tame, DSpaceOnlyAt;
    PlainText(table);
    PlainText(column);
    var h := head + table;
    TameConcat(head, table);
    DSpaceConcat(head, table, -1, -1);
    var q := if p == -1 then -1 else |h| + p;
    TameConcat(h, text);
    DSpaceConcat(h, text, -1, p);
    TameConcat(h + text, column);
    DSpaceConcat(h + text, column, q, -1);
    TameConcat(h + text + column, end);
    DSpaceConcat(h + text + column, end, q, -1);
  }

  lemma AddColumnDdlShape(r: TableRef, column: string)
    requires PlainRef(r) && NoSpace(column)
    ensures Tame(AddColumnDdl(r, column))
    ensures DSpaceOnlyAt(AddColumnDdl(r, column), |HEAD + r.FullyQualified()| + 5)
  {
    hide Tame, DSpaceOnlyAt;
    HeadText();
    AddText();
    TypeText();
    var f := r.FullyQualified();
    assert NoSpace(f);
    StatementShape(HEAD, f, ADD, column, "` STRING", 5);
    assert AddColumnDdl(r, column) == HEAD + f + ADD + column + "` STRING";
  }

  lemma ClusteringDdlShape(r: TableRef, column: string)
    requires PlainRef(r) && NoSpace(column)
    ensures Tame(ClusteringDdl(r, column))
    ensures DSpaceOnlyAt(ClusteringDdl(r, column), -1)
  {
    hide Tame, DSpaceOnlyAt;
    HeadText();
    OptionsText();
    EndText();
    var f := r.FullyQualified();
    assert NoSpace(f);
    StatementShape(HEAD, f, OPTIONS, column, "'])", -1);
    assert ClusteringDdl(r, column) == HEAD + f + OPTIONS + column + "'])";
  }

  lemma PairSpace(s: string, i: nat, first: string, second: string)
    requires PairAt(s, i, first, second) && |first| >= 2
    ensures i + |first| < |s| && IsSpace(s[i + |first|])
    ensures Lower(s[i + |first| - 1]) == first[|first| - 1]
    ensures Lower(s[i + |first| - 2]) == first[|first| - 2]
  {
    assert s[i + (|first| - 1)] == s[i + |first| - 1];
    assert s[i + (|first| - 2)] == s[i + |first| - 2];
  }

  lemma TameIsHarmless(s: string)
    requires Tame(s)
    ensures !DropsColumn(s) && !ContainsDestructiveStatement(s)
  {
    forall i: nat, second: string | i < |s|
      ensures !PairAt(s, i, "drop", second) && !PairAt(s, i, "truncate", second)
    {
      if PairAt(s, i, "drop", second) {
        PairSpace(s, i, "drop", second);
      }
      if PairAt(s, i, "truncate", second) {
        PairSpace(s, i, "truncate", second);
      }
    }
  }

  /** Generated statements pass the destructive gate, and governance never
      blocks them, whatever the labels of the dataset are. */
  lemma GeneratedDdlIsHarmless(r: TableRef, column: string, sql: string, kind: PatchKind, m: TableMetadata)
    requires PlainRef(r) && AllWord(column)
    requires sql == AddColumnDdl(r, column) || sql == ClusteringDdl(r, column)
    ensures !ContainsDestructiveStatement(sql)
    ensures VerdictFromChecks(PolicyChecks(sql, kind, m)) != Block
  {
    if sql == AddColumnDdl(r, column) {
      AddColumnDdlShape(r, column);
    } else {
      ClusteringDdlShape(r, column);
    }
    TameIsHarmless(sql);
    BlockIff(sql, kind, m);
  }

  // ---------- Reading the added column back ----------

  lemma AddColumnNeedsDSpace(s: string, i: nat)
    requires i <= |s| && AddColumnAt(s, i).ColumnMatch?
    ensures i + 3 < |s| && IsSpace(s[i + 3]) && Lower(s[i + 2]) == 'd'
  {
    PairSpace(s, i, "add", "column");
  }

  lemma SkipSpacesOne(s: string, i: nat)
    requires i + 1 < |s| && IsSpace(s[i]) && !IsSpace(s[i + 1])
    ensures SkipSpaces(s, i) == i + 1
  {
  }

  // "`name` TYPE" with everything pinned down by position
  lemma NameAndTypeAt(s: string, b: nat, e: nat)
    requires b + 1 < e && e + 2 < |s|
    requires s[b] == '`' && s[e] == '`' && s[e + 1] == ' ' && IsWord(s[e + 2])
    requires forall k :: b < k < e ==> IsWord(s[k])
    ensures NameAndType(s, b)
            == ColumnMatch(ColumnSpec(s[b + 1..e], UpperAll(s[e + 2..WordEnd(s, e + 2)]), Nullable), WordEnd(s, e + 2))
  {
    WordRun(s, b + 1, e);
    SkipSpacesOne(s, e + 1);
  }

  lemma {:induction false} WordRun(s: string, i: nat, e: nat)
    requires i <= e < |s| && !IsWord(s[e])
    requires forall k :: i <= k < e ==> IsWord(s[k])
    ensures WordEnd(s, i) == e
    decreases e - i
  {
    if i < e {
      WordRun(s, i + 1, e);
    }
  }

  // From the backtick before the column to the end of the statement.
  lemma NameAndTypeOf(s: string, b: nat, column: string)
    requires column != [] && AllWord(column)
    requires b <= |s| && s[b..] == "`" + column + "` STRING"
    ensures NameAndType(s, b) == ColumnMatch(ColumnSpec(column, "STRING", Nullable), |s|)
  {
    hide NameAndType, WordEnd, UpperAll;
    var e := b + 1 + |column|;
    ColumnText(s, b, column);
    StringTail(s, e + 2);
    NameAndTypeAt(s, b, e);
  }

  lemma ColumnText(s: string, b: nat, column: string)
    requires b <= |s| && s[b..] == "`" + column + "` STRING"
    ensures var e := b + 1 + |column|;
            && e + 2 < |s|
            && s[b] == '`' && s[e] == '`' && s[e + 1] == ' ' && s[e + 2] == 'S'
            && s[b + 1..e] == column && s[e + 2..] == "STRING"
    ensures forall k :: b < k < b + 1 + |column| ==> s[k] == column[k - b - 1]
  {
    assert s == s[..b] + ("`" + column + "` STRING");
  }

  lemma StringTail(s: string, d: nat)
    requires d <= |s| && s[d..] == "STRING"
    ensures WordEnd(s, d) == |s| && UpperAll(s[d..|s|]) == "STRING"
  {
    assert s[d..|s|] == s[d..];
    assert forall k :: 0 <= k < 6 ==> s[d + k] == "STRING"[k];
    assert forall k :: d <= k < |s| ==> s[k] == "STRING"[k - d];
  }

  // Text `w` followed by one space, then something else.
  lemma WordAndSpace(s: string, i: nat, text: string, word: string)
    requires i + |text| + 1 < |s| && s[i..i + |text|] == text
    requires s[i + |text|] == ' ' && !IsSpace(s[i + |text| + 1])
    requires LowerAll(text) == word
    ensures NoCaseAt(s, i, word)
    ensures SkipSpaces(s, i + |word|) == i + |word| + 1
  {
    assert forall k :: 0 <= k < |text| ==> text[k] == s[i + k];
    SkipSpacesOne(s, i + |text|);
  }

  const CLAUSE: string := "ADD COLUMN IF NOT EXISTS "

  lemma ClauseWords(s: string, p: nat)
    requires p + 25 < |s| && s[p..p + 25] == CLAUSE
    ensures s[p..p + 3] == "ADD" && s[p + 3] == ' ' && s[p + 4..p + 10] == "COLUMN" && s[p + 10] == ' '
    ensures s[p + 11..p + 13] == "IF" && s[p + 13] == ' ' && s[p + 14..p + 17] == "NOT" && s[p + 17] == ' '
    ensures s[p + 18..p + 24] == "EXISTS" && s[p + 24] == ' '
    ensures s[p + 4] == 'C' && s[p + 11] == 'I' && s[p + 14] == 'N' && s[p + 18] == 'E'
  {
    assert CLAUSE[0..3] == "ADD" && CLAUSE[4..10] == "COLUMN" && CLAUSE[11..13] == "IF";
    assert CLAUSE[14..17] == "NOT" && CLAUSE[18..24] == "EXISTS";
    SubSlice(s, p, CLAUSE, 0, 3);
    SubSlice(s, p, CLAUSE, 4, 10);
    SubSlice(s, p, CLAUSE, 11, 13);
    SubSlice(s, p, CLAUSE, 14, 17);
    SubSlice(s, p, CLAUSE, 18, 24);
    var t := s[p..p + 25];
    assert s[p + 3] == t[3] && s[p + 10] == t[10] && s[p + 13] == t[13] && s[p + 17] == t[17] && s[p + 24] == t[24];
    assert s[p + 4] == t[4] && s[p + 11] == t[11] && s[p + 14] == t[14] && s[p + 18] == t[18];
  }

  lemma AddColumnPrefix(s: string, p: nat)
    requires p + 25 < |s| && s[p..p + 25] == CLAUSE && !IsSpace(s[p + 25])
    ensures PairAt(s, p, "add", "column") && PairEnd(s, p, "add", "column") == p + 10
    ensures SkipSpaces(s, p + 10) == p + 11
    ensures SkipIfNotExists(s, p + 11) == p + 25
  {
    hide NoCaseAt, SkipSpaces, IsSpace;
    assert !IsSpace('C') && !IsSpace('I') && !IsSpace('N') && !IsSpace('E') by { SpacelessLetters(); }
    ClauseWords(s, p);
    LowerWords();
    WordAndSpace(s, p, "ADD", "add");
    WordAndSpace(s, p + 4, "COLUMN", "column");
    WordAndSpace(s, p + 11, "IF", "if");
    WordAndSpace(s, p + 14, "NOT", "not");
    WordAndSpace(s, p + 18, "EXISTS", "exists");
  }

  lemma SpacelessLetters()
    ensures !IsSpace('C') && !IsSpace('I') && !IsSpace('N') && !IsSpace('E')
  {
  }

  lemma LowerWords()
    ensures LowerAll("ADD") == "add" && LowerAll("COLUMN") == "column" && LowerAll("IF") == "if"
    ensures LowerAll("NOT") == "not" && LowerAll("EXISTS") == "exists"
  {
    LowerIs("ADD", "add");
    LowerIs("COLUMN", "column");
    LowerIs("IF", "if");
    LowerIs("NOT", "not");
    LowerIs("EXISTS", "exists");
  }

  lemma LowerIs(s: string, t: string)
    requires |s| == |t| && forall i :: 0 <= i < |s| ==> Lower(s[i]) == t[i]
    ensures LowerAll(s) == t
  {
  }

  lemma AddColumnMatch(s: string, p: nat, column: string)
    requires column != [] && AllWord(column)
    requires p <= |s| && s[p..] == CLAUSE + ("`" + column + "` STRING")
    ensures AddColumnAt(s, p) == ColumnMatch(ColumnSpec(column, "STRING", Nullable), |s|)
  {
    hide NameAndType, SkipIfNotExists, PairAt, PairEnd;
    assert s[p..p + 25] == s[p..][..25];
    assert s[p + 25..] == s[p..][25..];
    assert s[p + 25] == s[p + 25..][0];
    AddColumnPrefix(s, p);
    NameAndTypeOf(s, p + 25, column);
  }

  lemma AddedColumnsOfAdd(r: TableRef, column: string)
    requires PlainRef(r) && AllWord(column) && column != []
    ensures ParseAddedColumns(AddColumnDdl(r, column)) == [ColumnSpec(column, "STRING", Nullable)]
  {
    hide AddColumnAt;
    var s := AddColumnDdl(r, column);
    var p := |HEAD + r.FullyQualified()| + 2;
    AddColumnDdlShape(r, column);
    forall i: nat | i < p
      ensures AddColumnAt(s, i).NoMatch?
    {
      if AddColumnAt(s, i).ColumnMatch? {
        AddColumnNeedsDSpace(s, i);
      }
    }
    assert s[p..] == CLAUSE + ("`" + column + "` STRING");
    AddColumnMatch(s, p, column);
    AddedColumnsSkip(s, 0, p);
  }

  lemma AddedColumnsOfClustering(r: TableRef, column: string)
    requires PlainRef(r) && NoSpace(column)
    ensures ParseAddedColumns(ClusteringDdl(r, column)) == []
  {
    hide AddColumnAt;
    var t := ClusteringDdl(r, column);
    ClusteringDdlShape(r, column);
    forall i: nat | i <= |t|
      ensures AddColumnAt(t, i).NoMatch?
    {
      if AddColumnAt(t, i).ColumnMatch? {
        AddColumnNeedsDSpace(t, i);
      }
    }
    AddedColumnsSkip(t, 0, |t|);
  }

  /** The column a statement adds is the one column read back from it, and a
      clustering statement adds none. */
  lemma AddedColumnsOfGeneratedDdl(r: TableRef, column: string)
    requires PlainRef(r) && AllWord(column) && column != []
    ensures ParseAddedColumns(AddColumnDdl(r, column)) == [ColumnSpec(column, "STRING", Nullable)]
    ensures ParseAddedColumns(ClusteringDdl(r, column)) == []
  {
    hide ParseAddedColumns;
    AddedColumnsOfAdd(r, column);
    AddedColumnsOfClustering(r, column);
  }
}
