/** Reading `ADD COLUMN` clauses back: any number of them, in any case and
    spacing, guarded or not, with or without backticks. */
module AddedColumns {
  import opened BqSandbox
  import opened Models
  import opened Prelude
  import opened SqlWords
  import opened Text

  // `IF NOT EXISTS `, in any case and spacing, or nothing.
  datatype Guard = Unguarded | Guarded(ifWord: string, a: string, notWord: string, b: string, existsWord: string, c: string) {
    function Print(): string {
      match this
      case Unguarded => ""
      case Guarded(_, _, _, _, _, _) => (ifWord + a) + ((notWord + b) + (existsWord + c))
    }

    predicate Fits() {
      Guarded? ==>
        && LowerAll(ifWord) == "if" && LowerAll(notWord) == "not" && LowerAll(existsWord) == "exists"
        && AllSpace(a) && AllSpace(b) && AllSpace(c)
    }
  }

  function Tick(ticked: bool): string {
    if ticked then "`" else ""
  }

  datatype Clause = Clause(add: string, a: string, column: string, b: string, guard: Guard, left: bool, name: string,
                           right: bool, c: string, columnType: string) {
    function Head(): string { add + (a + (column + b)) }

    function Tail(): string { Tick(left) + (name + (Tick(right) + (c + columnType))) }

    function Print(): string { Head() + (guard.Print() + Tail()) }

    // A bare column called `if` could be the beginning of a guard.
    predicate Fits() {
      && LowerAll(add) == "add" && LowerAll(column) == "column" && AllSpace(a) && AllSpace(b) && AllSpace(c)
      && guard.Fits()
      && name != [] && AllWord(name) && columnType != [] && AllWord(columnType)
      && (LowerAll(name) == "if" ==> left || right)
    }
  }

  predicate NoAdd(t: string) {
    forall i | 0 <= i < |t| :: !NoCaseAt(t, i, "add")
  }

  // Other text, then a clause.
  datatype Piece = Piece(before: string, clause: Clause)

  function Print(pieces: seq<Piece>, tail: string): string {
    if pieces == [] then tail
    else pieces[0].before + (pieces[0].clause.Print() + Print(pieces[1..], tail))
  }

  function Columns(pieces: seq<Piece>): seq<ColumnSpec> {
    if pieces == [] then []
    else
      var clause := pieces[0].clause;
      [ColumnSpec(clause.name, UpperAll(clause.columnType), Nullable)] + Columns(pieces[1..])
  }

  // The other text never spells `add`, and no word runs on behind a type.
  predicate Separated(pieces: seq<Piece>, tail: string) {
    if pieces == [] then NoAdd(tail)
    else
      && NoAdd(pieces[0].before) && pieces[0].clause.Fits()
      && Separated(pieces[1..], tail)
      && var rest := Print(pieces[1..], tail);
         rest == [] || !IsWord(rest[0])
  }

  // ---------- Reading at a position ----------

  lemma WordHere(s: string, i: nat, t: string)
    requires Here(s, i, t) && AllWord(t) && (i + |t| < |s| ==> !IsWord(s[i + |t|]))
    ensures WordEnd(s, i) == i + |t|
  {
    hide IsWord;
    HereChars(s, i, t);
    EndsThere(s, i, i + |t|);
  }

  lemma {:induction false} EndsThere(s: string, i: nat, j: nat)
    requires i <= j <= |s| && (forall k | i <= k < j :: IsWord(s[k])) && (j < |s| ==> !IsWord(s[j]))
    ensures WordEnd(s, i) == j
    decreases j - i
  {
    hide IsWord;
    if i < j {
      EndsThere(s, i + 1, j);
    }
  }

  // `word\s+`
  lemma SkipWordHere(s: string, i: nat, t: string, w: string, space: string)
    requires Here(s, i, t) && Here(s, i + |t|, space) && LowerAll(t) == w && IsKeyword(w) && AllSpace(space)
    requires i + |t| + |space| < |s| ==> !IsSpace(s[i + |t| + |space|])
    ensures i <= |s| && SkipWord(s, i, w) == i + |t| + |space| > i
  {
    hide IsSpace, IsKeyword, AllSpace, NoCaseAt, SkipSpaces, LowerAll;
    KeywordHere(s, i, t, w);
    SpaceHere(s, i + |t|, space);
  }

  lemma GuardWords()
    ensures IsKeyword("if") && IsKeyword("not") && IsKeyword("exists") && IsKeyword("add") && IsKeyword("column")
  {
  }

  lemma GuardHere(s: string, i: nat, g: Guard)
    requires g.Guarded? && g.Fits() && Here(s, i, g.Print())
    requires i + |g.Print()| < |s| ==> !IsSpace(s[i + |g.Print()|])
    ensures i <= |s| && SkipIfNotExists(s, i) == i + |g.Print()|
  {
    hide Here, IsSpace, IsKeyword, AllSpace, SkipWord, LowerAll;
    GuardWords();
    HereParts(s, i, g.ifWord + g.a, (g.notWord + g.b) + (g.existsWord + g.c));
    HereParts(s, i, g.ifWord, g.a);
    var j := i + |g.ifWord + g.a|;
    HereParts(s, j, g.notWord + g.b, g.existsWord + g.c);
    HereParts(s, j, g.notWord, g.b);
    var k := j + |g.notWord + g.b|;
    HereParts(s, k, g.existsWord, g.c);
    KeywordHere(s, j, g.notWord, "not");
    KeywordHere(s, k, g.existsWord, "exists");
    SkipWordHere(s, i, g.ifWord, "if", g.a);
    SkipWordHere(s, j, g.notWord, "not", g.b);
    SkipWordHere(s, k, g.existsWord, "exists", g.c);
  }

  lemma Disjoint(c: char)
    ensures IsWord(c) ==> !IsSpace(c) && c != '`'
    ensures IsSpace(c) ==> c != '`'
  {
  }

  lemma TickHere(s: string, i: nat, ticked: bool)
    requires Here(s, i, Tick(ticked)) && (!ticked && i < |s| ==> s[i] != '`')
    ensures i <= |s| && SkipTick(s, i) == i + |Tick(ticked)|
  {
    HereChars(s, i, Tick(ticked));
  }

  // The parts of a clause from the opening tick to the type.
  lemma TailParts(s: string, i: nat, clause: Clause)
    requires Here(s, i, clause.Tail())
    ensures var a := i + |Tick(clause.left)|;
            var b := a + |clause.name|;
            var c := b + |Tick(clause.right)|;
            var d := c + |clause.c|;
            && Here(s, i, Tick(clause.left)) && Here(s, a, clause.name) && Here(s, b, Tick(clause.right))
            && Here(s, c, clause.c) && Here(s, d, clause.columnType)
            && d + |clause.columnType| == i + |clause.Tail()| <= |s|
  {
    hide Here, Tick;
    var a := i + |Tick(clause.left)|;
    var b := a + |clause.name|;
    var c := b + |Tick(clause.right)|;
    HereParts(s, i, Tick(clause.left), clause.name + (Tick(clause.right) + (clause.c + clause.columnType)));
    HereParts(s, a, clause.name, Tick(clause.right) + (clause.c + clause.columnType));
    HereParts(s, b, Tick(clause.right), clause.c + clause.columnType);
    HereParts(s, c, clause.c, clause.columnType);
  }

  lemma NameAndTypeIs(s: string, i: nat, a: nat, b: nat, c: nat, d: nat, e: nat)
    requires i <= a < b <= c < d < e <= |s|
    requires SkipTick(s, i) == a && WordEnd(s, a) == b && SkipTick(s, b) == c && SkipSpaces(s, c) == d && WordEnd(s, d) == e
    ensures NameAndType(s, i) == ColumnMatch(ColumnSpec(s[a..b], UpperAll(s[d..e]), Nullable), e)
  {
    hide SkipTick, WordEnd, SkipSpaces, UpperAll;
  }

  // The name with its ticks, up to white space.
  lemma NameHere(s: string, i: nat, left: bool, name: string, right: bool)
    requires var a := i + |Tick(left)|;
             var b := a + |name|;
             var c := b + |Tick(right)|;
             && Here(s, i, Tick(left)) && Here(s, a, name) && Here(s, b, Tick(right)) && c < |s| && IsSpace(s[c])
    requires name != [] && AllWord(name)
    ensures var a := i + |Tick(left)|;
            var b := a + |name|;
            && a < b < |s| && SkipTick(s, i) == a && WordEnd(s, a) == b && SkipTick(s, b) == b + |Tick(right)|
            && s[a..b] == name && !IsSpace(s[i])
  {
    hide Here, IsSpace, IsWord, AllWord, Tick, SkipTick, WordEnd;
    var a := i + |Tick(left)|;
    var b := a + |name|;
    var c := b + |Tick(right)|;
    Disjoint(s[c]);
    TickEdge(s, i, left);
    Edges(s, a, name);
    TickEdge(s, b, right);
    TickHere(s, i, left);
    WordHere(s, a, name);
    TickHere(s, b, right);
    HereSlice(s, a, name);
  }

  // White space and the type, up to a character no word contains.
  lemma TypeHere(s: string, c: nat, space: string, columnType: string)
    requires Here(s, c, space) && Here(s, c + |space|, columnType) && AllSpace(space)
    requires columnType != [] && AllWord(columnType)
    requires var e := c + |space| + |columnType|;
             e < |s| ==> !IsWord(s[e])
    ensures var d := c + |space|;
            var e := d + |columnType|;
            && c < d < e <= |s| && SkipSpaces(s, c) == d && WordEnd(s, d) == e && s[d..e] == columnType && IsSpace(s[c])
  {
    hide *;
    var d := c + |space|;
    SpaceEdge(s, c, space);
    Edges(s, d, columnType);
    SpaceHere(s, c, space);
    WordHere(s, d, columnType);
    HereSlice(s, d, columnType);
  }

  lemma TailHere(s: string, i: nat, clause: Clause)
    requires clause.Fits() && Here(s, i, clause.Tail())
    requires var e := i + |clause.Tail()|;
             e < |s| ==> !IsWord(s[e])
    ensures i < i + |clause.Tail()| <= |s| && !IsSpace(s[i])
    ensures NameAndType(s, i)
            == ColumnMatch(ColumnSpec(clause.name, UpperAll(clause.columnType), Nullable), i + |clause.Tail()|)
  {
    hide *;
    FitsMeans(clause);
    TailParts(s, i, clause);
    var a := i + |Tick(clause.left)|;
    var b := a + |clause.name|;
    var c := b + |Tick(clause.right)|;
    var d := c + |clause.c|;
    TypeHere(s, c, clause.c, clause.columnType);
    NameHere(s, i, clause.left, clause.name, clause.right);
    NameAndTypeIs(s, i, a, b, c, d, d + |clause.columnType|);
  }

  lemma FitsMeans(clause: Clause)
    requires clause.Fits()
    ensures AllSpace(clause.c) && clause.name != [] && AllWord(clause.name)
    ensures clause.columnType != [] && AllWord(clause.columnType)
  {
  }

  lemma Edges(s: string, i: nat, t: string)
    requires Here(s, i, t) && t != [] && AllWord(t)
    ensures i < |s| && IsWord(s[i]) && !IsSpace(s[i]) && s[i] != '`'
  {
    HereChars(s, i, t);
    assert s[i] == t[0];
  }

  lemma SpaceEdge(s: string, i: nat, t: string)
    requires Here(s, i, t) && AllSpace(t)
    ensures i < |s| && IsSpace(s[i]) && !IsWord(s[i]) && s[i] != '`'
  {
    HereChars(s, i, t);
    assert s[i] == t[0];
  }

  lemma TickEdge(s: string, i: nat, ticked: bool)
    requires Here(s, i, Tick(ticked))
    ensures ticked ==> i < |s| && s[i] == '`' && !IsWord(s[i]) && !IsSpace(s[i])
    ensures !ticked ==> |Tick(ticked)| == 0
  {
    HereChars(s, i, Tick(ticked));
  }

  // Without a guard nothing is taken for one.
  lemma NoGuardHere(s: string, i: nat, clause: Clause)
    requires clause.Fits() && Here(s, i, clause.Tail())
    ensures i <= |s| && SkipIfNotExists(s, i) == i
  {
    hide Here, IsSpace, IsWord, IsKeyword, AllSpace, AllWord, NoCaseAt, SkipSpaces, LowerAll, Clause.Fits;
    FitsMeans(clause);
    var a := i + |Tick(clause.left)|;
    HereParts(s, i, Tick(clause.left), clause.name + (Tick(clause.right) + (clause.c + clause.columnType)));
    HereParts(s, a, clause.name, Tick(clause.right) + (clause.c + clause.columnType));
    if NoCaseAt(s, i, "if") {
      NotIf(s, i, clause);
    }
  }

  lemma NotIf(s: string, i: nat, clause: Clause)
    requires clause.Fits() && Here(s, i, Tick(clause.left)) && Here(s, i + |Tick(clause.left)|, clause.name)
    requires Here(s, i, clause.Tail()) && NoCaseAt(s, i, "if")
    ensures i + 2 <= |s| && SkipSpaces(s, i + 2) == i + 2
  {
    hide Here, IsSpace, IsWord, Clause.Tail, NoCaseAt, LowerAll;
    IfLetters(s, i);
    TickEdge(s, i, clause.left);
    TickIsNoLetter();
    var name := clause.name;
    HereChars(s, i, name);
    AfterName(s, i, clause);
    ClosingIsNoLetter(s, i + |name|, clause.right);
    if |name| == 2 {
      assert LowerAll(name)[0] == 'i' && LowerAll(name)[1] == 'f';
      assert LowerAll(name) == "if";
    } else if |name| > 2 {
      assert IsWord(name[2]) && s[i + 2] == name[2];
      Disjoint(s[i + 2]);
    }
  }

  lemma IfLetters(s: string, i: nat)
    requires NoCaseAt(s, i, "if")
    ensures i + 2 <= |s| && Lower(s[i]) == 'i' && Lower(s[i + 1]) == 'f'
  {
    var w := "if";
    assert Lower(s[i + 0]) == w[0] && Lower(s[i + 1]) == w[1];
  }

  lemma AddLetters(s: string, i: nat)
    requires NoCaseAt(s, i, "add")
    ensures i + 3 <= |s| && Lower(s[i]) == 'a' && Lower(s[i + 1]) == 'd' && Lower(s[i + 2]) == 'd'
  {
    var w := "add";
    assert Lower(s[i + 0]) == w[0] && Lower(s[i + 1]) == w[1] && Lower(s[i + 2]) == w[2];
  }

  lemma LettersAdd(s: string, i: nat)
    requires i + 3 <= |s| && Lower(s[i]) == 'a' && Lower(s[i + 1]) == 'd' && Lower(s[i + 2]) == 'd'
    ensures NoCaseAt(s, i, "add")
  {
  }

  lemma TickIsNoLetter()
    ensures Lower('`') != 'i' && Lower('`') != 'f'
  {
  }

  lemma ClosingIsNoLetter(s: string, j: nat, ticked: bool)
    requires j < |s| && if ticked then s[j] == '`' else IsSpace(s[j])
    ensures Lower(s[j]) != 'f' && (ticked ==> !IsSpace(s[j]))
  {
  }

  // What stands behind an unticked name.
  lemma AfterName(s: string, i: nat, clause: Clause)
    requires clause.Fits() && Here(s, i, clause.Tail()) && !clause.left
    ensures var j := i + |clause.name|;
            j < |s| && if clause.right then s[j] == '`' else IsSpace(s[j])
  {
    var b := i + |clause.name|;
    HereParts(s, i, "", clause.name + (Tick(clause.right) + (clause.c + clause.columnType)));
    HereParts(s, i, clause.name, Tick(clause.right) + (clause.c + clause.columnType));
    HereParts(s, b, Tick(clause.right), clause.c + clause.columnType);
    if clause.right {
      TickEdge(s, b, true);
    } else {
      HereParts(s, b, clause.c, clause.columnType);
      SpaceEdge(s, b, clause.c);
    }
  }

  // The parts of a clause up to its guard.
  lemma HeadParts(s: string, i: nat, clause: Clause)
    requires Here(s, i, clause.Head())
    ensures var j := i + |clause.add|;
            var k := j + |clause.a|;
            var e := k + |clause.column|;
            && Here(s, i, clause.add) && Here(s, j, clause.a) && Here(s, k, clause.column) && Here(s, e, clause.b)
            && e + |clause.b| == i + |clause.Head()| <= |s|
  {
    hide Here;
    var j := i + |clause.add|;
    var k := j + |clause.a|;
    HereParts(s, i, clause.add, clause.a + (clause.column + clause.b));
    HereParts(s, j, clause.a, clause.column + clause.b);
    HereParts(s, k, clause.column, clause.b);
  }

  lemma HeadMeans(clause: Clause)
    requires clause.Fits()
    ensures LowerAll(clause.add) == "add" && LowerAll(clause.column) == "column" && AllSpace(clause.a) && AllSpace(clause.b)
    ensures IsKeyword("add") && IsKeyword("column")
  {
    GuardWords();
  }

  lemma HeadHere(s: string, i: nat, clause: Clause)
    requires clause.Fits() && Here(s, i, clause.Head())
    requires var b := i + |clause.Head()|;
             b < |s| ==> !IsSpace(s[b])
    ensures i <= |s| && PairAt(s, i, "add", "column")
    ensures PairEnd(s, i, "add", "column") == i + |clause.add| + |clause.a| + |clause.column| < i + |clause.Head()|
    ensures SkipSpaces(s, PairEnd(s, i, "add", "column")) == i + |clause.Head()|
  {
    hide *;
    HeadParts(s, i, clause);
    HeadMeans(clause);
    var k := i + |clause.add| + |clause.a|;
    KeywordHere(s, i, clause.add, "add");
    KeywordHere(s, k, clause.column, "column");
    WordsStand(s, i, k, clause.a, "add", "column");
    SpaceHere(s, k + |clause.column|, clause.b);
  }

  /** One clause, wherever it stands. */
  lemma ClauseHere(s: string, i: nat, clause: Clause)
    requires clause.Fits() && Here(s, i, clause.Print())
    requires var e := i + |clause.Print()|;
             e < |s| ==> !IsWord(s[e])
    ensures i < i + |clause.Print()| <= |s| && NoCaseAt(s, i, "add")
    ensures AddColumnAt(s, i)
            == ColumnMatch(ColumnSpec(clause.name, UpperAll(clause.columnType), Nullable), i + |clause.Print()|)
  {
    hide Here, IsSpace, IsWord, SkipSpaces, SkipIfNotExists, NameAndType, LowerAll, UpperAll, Clause.Fits, Clause.Head,
         Clause.Tail, Guard.Print, Guard.Fits, NoCaseAt, PairEnd;
    var head, guard, tail := clause.Head(), clause.guard.Print(), clause.Tail();
    var b := i + |head|;
    var t := b + |guard|;
    HereParts(s, i, head, guard + tail);
    HereParts(s, b, guard, tail);
    TailHere(s, t, clause);
    GuardEdge(s, b, clause);
    HeadHere(s, i, clause);
    if clause.guard.Guarded? {
      GuardFits(clause);
      GuardHere(s, b, clause.guard);
    } else {
      UnguardedPrints(clause.guard);
      NoGuardHere(s, b, clause);
    }
  }

  lemma GuardFits(clause: Clause)
    requires clause.Fits()
    ensures clause.guard.Fits()
  {
  }

  lemma UnguardedPrints(g: Guard)
    requires g.Unguarded?
    ensures g.Print() == ""
  {
  }

  // What follows the head is no white space.
  lemma GuardEdge(s: string, b: nat, clause: Clause)
    requires clause.Fits() && Here(s, b, clause.guard.Print())
    requires var t := b + |clause.guard.Print()|;
             t < |s| && !IsSpace(s[t])
    ensures b < |s| && !IsSpace(s[b])
  {
    hide Here, IsSpace, IsWord, IsKeyword, AllSpace, LowerAll;
    if clause.guard.Guarded? {
      var g := clause.guard;
      GuardWords();
      HereParts(s, b, g.ifWord + g.a, (g.notWord + g.b) + (g.existsWord + g.c));
      HereParts(s, b, g.ifWord, g.a);
      KeywordHere(s, b, g.ifWord, "if");
    }
  }

  // ---------- Any number of clauses ----------

  // Text that never spells `add`, in front of a clause or of the end.
  lemma NoneBefore(s: string, i: nat, before: string, j: nat)
    requires Here(s, i, before) && NoAdd(before) && i <= j < i + |before|
    requires i + |before| == |s| || NoCaseAt(s, i + |before|, "add")
    ensures j <= |s| && AddColumnAt(s, j).NoMatch?
  {
    HereChars(s, i, before);
    hide NoCaseAt, Here, Lower;
    if NoCaseAt(s, j, "add") {
      AddLetters(s, j);
      var n := i + |before|;
      if j + 3 <= n {
        LettersAdd(before, j - i);
      } else if n < |s| {
        AddLetters(s, n);
      }
    }
  }

  lemma SkipBefore(s: string, i: nat, before: string)
    requires Here(s, i, before) && NoAdd(before)
    requires i + |before| == |s| || NoCaseAt(s, i + |before|, "add")
    ensures i <= i + |before| <= |s| && AddedColumnsFrom(s, i) == AddedColumnsFrom(s, i + |before|)
  {
    hide Here, NoAdd, NoCaseAt, AddColumnAt, AddedColumnsFrom;
    HereSlice(s, i, before);
    var n := i + |before|;
    forall j | i <= j < n
      ensures AddColumnAt(s, j).NoMatch?
    {
      NoneBefore(s, i, before, j);
    }
    AddedColumnsSkip(s, i, n);
  }

  lemma RestHere(s: string, i: nat, a: string, b: string)
    requires i <= |s| && s[i..] == a + b
    ensures Here(s, i, a) && i + |a| <= |s| && s[i + |a|..] == b
  {
    assert s[i + |a|..] == s[i..][|a|..];
  }

  // The next piece, at its position.
  lemma PieceHere(s: string, i: nat, before: string, clause: Clause, rest: string) returns (e: nat)
    requires i <= |s| && s[i..] == before + (clause.Print() + rest)
    requires NoAdd(before) && clause.Fits() && (rest == [] || !IsWord(rest[0]))
    ensures e <= |s| && s[e..] == rest
    ensures AddedColumnsFrom(s, i)
            == [ColumnSpec(clause.name, UpperAll(clause.columnType), Nullable)] + AddedColumnsFrom(s, e)
  {
    hide Here, NoAdd, NoCaseAt, AddColumnAt, IsWord, UpperAll, Clause.Print, Clause.Fits;
    var n := i + |before|;
    RestHere(s, i, before, clause.Print() + rest);
    RestHere(s, n, clause.Print(), rest);
    e := n + |clause.Print()|;
    assert e < |s| ==> s[e] == s[e..][0];
    ClauseHere(s, n, clause);
    SkipBefore(s, i, before);
  }

  lemma {:induction false} ReadFrom(s: string, i: nat, pieces: seq<Piece>, tail: string)
    requires i <= |s| && s[i..] == Print(pieces, tail) && Separated(pieces, tail)
    ensures AddedColumnsFrom(s, i) == Columns(pieces)
    decreases |pieces|
  {
    hide Here, NoAdd, AddColumnAt, NoCaseAt, IsWord, UpperAll, Clause.Print, Clause.Fits;
    if pieces == [] {
      assert tail + [] == tail;
      RestHere(s, i, tail, []);
      SkipBefore(s, i, tail);
    } else {
      var e := PieceHere(s, i, pieces[0].before, pieces[0].clause, Print(pieces[1..], tail));
      ReadFrom(s, e, pieces[1..], tail);
    }
  }

  /** Every `ADD COLUMN` clause of a statement is read back, in order, with its
      column's name and its type in capitals, and nothing else is. */
  lemma ParseReadsEveryClause(pieces: seq<Piece>, tail: string)
    requires Separated(pieces, tail)
    ensures ParseAddedColumns(Print(pieces, tail)) == Columns(pieces)
  {
    hide Separated, Print, Columns, AddedColumnsFrom;
    ReadFrom(Print(pieces, tail), 0, pieces, tail);
  }
}
