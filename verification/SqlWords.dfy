/** The keyword patterns of the destructive gate and of governance, by the
    texts they recognise. */
module SqlWords {
  import opened BqSandbox
  import opened Governance
  import opened Prelude
  import opened Text

  predicate AllSpace(s: string) {
    s != [] && forall i :: 0 <= i < |s| ==> IsSpace(s[i])
  }

  // Two words, in any case, with white space between them.
  predicate Reads(sql: string, a: string, first: string, space: string, second: string, b: string) {
    sql == a + first + space + second + b && AllSpace(space)
  }

  // No word character touches what stands between `a` and `b`.
  predicate Standalone(a: string, b: string) {
    (a == [] || !IsWord(Last(a))) && (b == [] || !IsWord(b[0]))
  }

  /** A statement that drops a table, drops a column or truncates a table. */
  ghost predicate Destroys(sql: string) {
    exists a, first, space, second, b ::
      && Reads(sql, a, first, space, second, b) && Standalone(a, b)
      && (|| (LowerAll(first) == "drop" && LowerAll(second) == "table")
          || (LowerAll(first) == "drop" && LowerAll(second) == "column")
          || (LowerAll(first) == "truncate" && LowerAll(second) == "table"))
  }

  ghost predicate SaysDropColumn(sql: string) {
    exists a, first, space, second, b ::
      Reads(sql, a, first, space, second, b) && LowerAll(first) == "drop" && LowerAll(second) == "column"
  }

  ghost predicate SaysWhere(sql: string) {
    exists a, word, b | Standalone(a, b) :: sql == a + word + b && LowerAll(word) == "where"
  }

  // ---------- Character classes ----------

  /** The classes by code point: tab to carriage return, the four separators
      and the space; the digits, the letters and the underscore. */
  lemma CharacterClasses(c: char)
    ensures IsSpace(c) <==> c as int in {9, 10, 11, 12, 13, 28, 29, 30, 31, 32}
    ensures IsWord(c) <==> 48 <= c as int <= 57 || 65 <= c as int <= 90 || c as int == 95 || 97 <= c as int <= 122
    ensures Lower(c) as int == if 65 <= c as int <= 90 then c as int + 32 else c as int
    ensures Upper(c) as int == if 97 <= c as int <= 122 then c as int - 32 else c as int
  {
  }

  lemma LetterOfLower(c: char)
    ensures IsWord(Lower(c)) ==> IsWord(c) && !IsSpace(c)
  {
  }

  predicate IsKeyword(w: string) {
    w != [] && AllWord(w)
  }

  lemma NoCaseReads(s: string, i: nat, w: string)
    requires i + |w| <= |s|
    ensures NoCaseAt(s, i, w) <==> LowerAll(s[i..i + |w|]) == w
  {
    var t := s[i..i + |w|];
    assert forall k :: 0 <= k < |w| ==> t[k] == s[i + k];
    if NoCaseAt(s, i, w) {
      assert forall k :: 0 <= k < |w| ==> LowerAll(t)[k] == Lower(s[i + k]) == w[k];
      assert LowerAll(t) == w;
    }
    if LowerAll(t) == w {
      assert forall k :: 0 <= k < |w| ==> Lower(s[i + k]) == LowerAll(t)[k];
    }
  }

  lemma KeywordChars(s: string, i: nat, w: string, k: nat)
    requires IsKeyword(w) && NoCaseAt(s, i, w) && k < |w|
    ensures IsWord(s[i + k]) && !IsSpace(s[i + k])
  {
    assert IsWord(w[k]);
    LetterOfLower(s[i + k]);
  }

  lemma BoundaryLeft(s: string, i: nat)
    requires i < |s| && IsWord(s[i])
    ensures Boundary(s, i) <==> s[..i] == [] || !IsWord(Last(s[..i]))
  {
  }

  lemma BoundaryRight(s: string, i: nat)
    requires 0 < i <= |s| && IsWord(s[i - 1])
    ensures Boundary(s, i) <==> s[i..] == [] || !IsWord(s[i..][0])
  {
  }

  // ---------- One word ----------

  /** A standalone keyword is at `i` exactly when the text reads so there. */
  lemma WordReads(s: string, i: nat, w: string)
    requires IsKeyword(w) && i + |w| <= |s|
    ensures WordAt(s, i, w) <==> LowerAll(s[i..i + |w|]) == w && Standalone(s[..i], s[i + |w|..])
  {
    NoCaseReads(s, i, w);
    if NoCaseAt(s, i, w) {
      KeywordChars(s, i, w, 0);
      KeywordChars(s, i, w, |w| - 1);
      BoundaryLeft(s, i);
      BoundaryRight(s, i + |w|);
    }
  }

  lemma CutWord(a: string, w: string, b: string)
    ensures var s := a + w + b;
            s[..|a|] == a && s[|a|..|a| + |w|] == w && s[|a| + |w|..] == b
  {
  }

  lemma Cut(s: string, i: nat, j: nat)
    requires i <= j <= |s|
    ensures s == s[..i] + s[i..j] + s[j..]
  {
  }

  /** `\bWHERE\b` in any case. */
  lemma WhereIff(sql: string)
    ensures HasWhere(sql) <==> SaysWhere(sql)
  {
    hide WordAt, Standalone, LowerAll, IsWord;
    WhereIsKeyword();
    if i :| 0 <= i < |sql| && WordAt(sql, i, "where") {
      WordAtFits(sql, i, "where");
      WordReads(sql, i, "where");
      Cut(sql, i, i + 5);
    }
    if a, word, b :| Standalone(a, b) && sql == a + word + b && LowerAll(word) == "where" {
      CutWord(a, word, b);
      WordReads(sql, |a|, "where");
    }
  }

  lemma WhereIsKeyword()
    ensures IsKeyword("where")
  {
  }

  lemma WordAtFits(s: string, i: nat, w: string)
    requires WordAt(s, i, w)
    ensures i + |w| <= |s|
  {
  }

  lemma WordFits(s: string, i: nat, w: string)
    requires NoCaseAt(s, i, w)
    ensures i + |w| <= |s|
  {
  }

  // ---------- Two words ----------

  lemma {:induction false} SkipsAll(s: string, i: nat, j: nat)
    requires i <= j <= |s| && forall k :: i <= k < j ==> IsSpace(s[k])
    requires j < |s| ==> !IsSpace(s[j])
    ensures SkipSpaces(s, i) == j
    decreases j - i
  {
    if i < j {
      SkipsAll(s, i + 1, j);
    }
  }

  // The text at `i` begins with `t`.
  predicate Here(s: string, i: nat, t: string) {
    i <= |s| && t <= s[i..]
  }

  lemma HereParts(s: string, i: nat, a: string, b: string)
    requires Here(s, i, a + b)
    ensures Here(s, i, a) && Here(s, i + |a|, b) && i + |a| + |b| <= |s|
  {
    assert s[i..][..|a + b|] == a + b;
    assert s[i..][..|a|] == a;
    assert s[i + |a|..] == s[i..][|a|..];
    assert s[i..][|a|..][..|b|] == b;
  }

  lemma HereSlice(s: string, i: nat, t: string)
    requires Here(s, i, t)
    ensures i + |t| <= |s| && s[i..i + |t|] == t
  {
    assert s[i..][..|t|] == t;
  }

  lemma HereChars(s: string, i: nat, t: string)
    requires Here(s, i, t)
    ensures i + |t| <= |s| && forall k | i <= k < i + |t| :: s[k] == t[k - i]
  {
    forall k | i <= k < i + |t|
      ensures s[k] == t[k - i]
    {
      assert s[k] == s[i..][k - i];
    }
  }

  lemma SpaceHere(s: string, i: nat, t: string)
    requires Here(s, i, t) && AllSpace(t) && (i + |t| < |s| ==> !IsSpace(s[i + |t|]))
    ensures SkipSpaces(s, i) == i + |t| > i
  {
    hide IsSpace;
    HereChars(s, i, t);
    SkipsAll(s, i, i + |t|);
  }

  lemma ReadsHere(sql: string, a: string, first: string, space: string, second: string, b: string)
    requires Reads(sql, a, first, space, second, b)
    ensures var i, j := |a| + |first|, |a| + |first| + |space|;
            && Here(sql, |a|, first) && Here(sql, i, space) && Here(sql, j, second) && AllSpace(space)
            && i < j && j + |second| + |b| == |sql|
  {
    hide AllSpace;
    SpaceIsSome(space);
    assert sql == a + (first + (space + (second + b)));
    assert sql[|a|..] == first + (space + (second + b));
    assert sql[|a| + |first|..] == space + (second + b);
    assert sql[|a| + |first| + |space|..] == second + b;
  }

  lemma SpaceIsSome(space: string)
    requires AllSpace(space)
    ensures |space| > 0
  {
  }

  // From the text to the pattern.
  lemma PairStands(sql: string, a: string, first: string, space: string, second: string, b: string, w: string, v: string)
    requires Reads(sql, a, first, space, second, b) && LowerAll(first) == w && LowerAll(second) == v
    requires IsKeyword(w) && IsKeyword(v)
    ensures PairAt(sql, |a|, w, v)
    ensures PairEnd(sql, |a|, w, v) == |a| + |first| + |space| + |second|
    ensures Standalone(a, b) <==> Boundary(sql, |a|) && Boundary(sql, PairEnd(sql, |a|, w, v))
  {
    hide *;
    ReadsHere(sql, a, first, space, second, b);
    KeywordHere(sql, |a|, first, w);
    KeywordHere(sql, |a| + |first| + |space|, second, v);
    WordsStand(sql, |a|, |a| + |first| + |space|, space, w, v);
    PairEdges(sql, a, first, space, second, b);
  }

  // The same by positions.
  lemma WordsStand(sql: string, n: nat, j: nat, space: string, w: string, v: string)
    requires Here(sql, n + |w|, space) && AllSpace(space) && j == n + |w| + |space|
    requires NoCaseAt(sql, n, w) && NoCaseAt(sql, j, v) && j < |sql| && !IsSpace(sql[j])
    ensures PairAt(sql, n, w, v) && PairEnd(sql, n, w, v) == j + |v|
  {
    hide *;
    SpaceHere(sql, n + |w|, space);
    PairIs(sql, n, j, w, v);
  }

  lemma PairIs(sql: string, n: nat, j: nat, w: string, v: string)
    requires NoCaseAt(sql, n, w) && NoCaseAt(sql, j, v)
    requires n + |w| < j <= |sql| && SkipSpaces(sql, n + |w|) == j
    ensures PairAt(sql, n, w, v) && PairEnd(sql, n, w, v) == j + |v|
  {
    hide SkipSpaces;
  }

  lemma NoCaseWord(s: string, n: nat, word: string, w: string)
    requires n + |word| <= |s| && s[n..n + |word|] == word && LowerAll(word) == w
    ensures |w| == |word| && NoCaseAt(s, n, w)
  {
    forall k | 0 <= k < |w|
      ensures Lower(s[n + k]) == w[k]
    {
      assert s[n + k] == word[k];
    }
  }

  lemma WordStands(sql: string, n: nat, word: string, w: string)
    requires n + |word| <= |sql| && sql[n..n + |word|] == word && LowerAll(word) == w && IsKeyword(w)
    ensures |w| == |word| > 0 && NoCaseAt(sql, n, w)
    ensures IsWord(sql[n]) && !IsSpace(sql[n]) && IsWord(sql[n + |w| - 1])
  {
    NoCaseWord(sql, n, word, w);
    KeywordEdges(sql, n, w);
  }

  lemma KeywordEdges(s: string, n: nat, w: string)
    requires IsKeyword(w) && NoCaseAt(s, n, w)
    ensures |w| > 0 && n + |w| <= |s| && IsWord(s[n]) && !IsSpace(s[n]) && IsWord(s[n + |w| - 1])
  {
    KeywordChars(s, n, w, 0);
    KeywordChars(s, n, w, |w| - 1);
  }

  lemma KeywordHere(s: string, i: nat, t: string, w: string)
    requires Here(s, i, t) && LowerAll(t) == w && IsKeyword(w)
    ensures |w| == |t| > 0 && NoCaseAt(s, i, w) && i + |t| <= |s|
    ensures IsWord(s[i]) && !IsSpace(s[i]) && IsWord(s[i + |t| - 1])
  {
    hide *;
    HereSlice(s, i, t);
    WordStands(s, i, t, w);
  }

  lemma PairEdges(sql: string, a: string, first: string, space: string, second: string, b: string)
    requires Reads(sql, a, first, space, second, b)
    requires var e := |a| + |first| + |space| + |second|;
             |a| < e && IsWord(sql[|a|]) && IsWord(sql[e - 1])
    ensures Standalone(a, b) <==> Boundary(sql, |a|) && Boundary(sql, |a| + |first| + |space| + |second|)
  {
    hide IsWord, IsSpace, AllSpace;
    var mid := first + space + second;
    assert sql == a + mid + b;
    CutWord(a, mid, b);
    BoundaryLeft(sql, |a|);
    BoundaryRight(sql, |a| + |mid|);
  }

  // From the pattern to the text.
  lemma PairReads(sql: string, n: nat, w: string, v: string)
    requires PairAt(sql, n, w, v) && IsKeyword(w) && IsKeyword(v)
    ensures var i := n + |w|;
            var j := SkipSpaces(sql, i);
            && j + |v| <= |sql|
            && Reads(sql, sql[..n], sql[n..i], sql[i..j], sql[j..j + |v|], sql[j + |v|..])
            && LowerAll(sql[n..i]) == w && LowerAll(sql[j..j + |v|]) == v
  {
    hide NoCaseAt, IsSpace, IsKeyword, LowerAll;
    WordFits(sql, n, w);
    var i := n + |w|;
    var j := SkipSpaces(sql, i);
    WordFits(sql, j, v);
    NoCaseReads(sql, n, w);
    NoCaseReads(sql, j, v);
    CutFive(sql, n, i, j, j + |v|);
  }

  lemma CutFive(s: string, n: nat, i: nat, j: nat, e: nat)
    requires n <= i < j <= e <= |s| && forall k :: i <= k < j ==> IsSpace(s[k])
    ensures Reads(s, s[..n], s[n..i], s[i..j], s[j..e], s[e..])
  {
    hide IsSpace;
    Cut(s, n, i);
    Cut(s, i, j);
    Cut(s, j, e);
    assert s[..i] == s[..n] + s[n..i] && s[..j] == s[..i] + s[i..j] && s[..e] == s[..j] + s[j..e];
    forall k | 0 <= k < |s[i..j]|
      ensures IsSpace(s[i..j][k])
    {
      assert s[i..j][k] == s[i + k];
    }
  }

  lemma Keywords()
    ensures IsKeyword("drop") && IsKeyword("table") && IsKeyword("column") && IsKeyword("truncate")
  {
  }

  /** The destructive gate recognises exactly the statements that destroy. */
  lemma DestructiveIff(sql: string)
    ensures ContainsDestructiveStatement(sql) <==> Destroys(sql)
  {
    hide PairAt, PairEnd, Boundary, Reads, Standalone, IsKeyword, LowerAll;
    Keywords();
    if ContainsDestructiveStatement(sql) {
      var n :| 0 <= n < |sql|
               && (|| DestructiveAt(sql, n, "drop", "table")
                   || DestructiveAt(sql, n, "drop", "column")
                   || DestructiveAt(sql, n, "truncate", "table"));
      if DestructiveAt(sql, n, "drop", "table") {
        DestructiveReads(sql, n, "drop", "table");
      } else if DestructiveAt(sql, n, "drop", "column") {
        DestructiveReads(sql, n, "drop", "column");
      } else {
        DestructiveReads(sql, n, "truncate", "table");
      }
    }
    if a, first, space, second, b :|
      && Reads(sql, a, first, space, second, b) && Standalone(a, b)
      && (|| (LowerAll(first) == "drop" && LowerAll(second) == "table")
          || (LowerAll(first) == "drop" && LowerAll(second) == "column")
          || (LowerAll(first) == "truncate" && LowerAll(second) == "table")) {
      PairStands(sql, a, first, space, second, b, LowerAll(first), LowerAll(second));
      Within(sql, a, first, space, second, b);
      assert DestructiveAt(sql, |a|, LowerAll(first), LowerAll(second));
    }
  }

  lemma Within(sql: string, a: string, first: string, space: string, second: string, b: string)
    requires Reads(sql, a, first, space, second, b)
    ensures |a| < |sql|
  {
  }

  lemma DestructiveReads(sql: string, n: nat, w: string, v: string)
    requires n < |sql| && DestructiveAt(sql, n, w, v) && IsKeyword(w) && IsKeyword(v)
    ensures exists a, first, space, second, b ::
              && Reads(sql, a, first, space, second, b) && Standalone(a, b)
              && LowerAll(first) == w && LowerAll(second) == v
  {
    hide Boundary, Reads, Standalone, LowerAll;
    var i := n + |w|;
    var j := SkipSpaces(sql, i);
    PairReads(sql, n, w, v);
    PairStands(sql, sql[..n], sql[n..i], sql[i..j], sql[j..j + |v|], sql[j + |v|..], w, v);
  }

  /** Governance's column drop, which needs no word boundary. */
  lemma DropsColumnIff(sql: string)
    ensures DropsColumn(sql) <==> SaysDropColumn(sql)
  {
    hide PairAt, Boundary, Reads, Standalone, IsKeyword, LowerAll;
    Keywords();
    if n :| 0 <= n < |sql| && PairAt(sql, n, "drop", "column") {
      PairReads(sql, n, "drop", "column");
    }
    if a, first, space, second, b :|
      Reads(sql, a, first, space, second, b) && LowerAll(first) == "drop" && LowerAll(second) == "column" {
      PairStands(sql, a, first, space, second, b, "drop", "column");
      Within(sql, a, first, space, second, b);
    }
  }

  // ---------- Names that look like personal data ----------

  predicate PiiStem(w: string) {
    w in {"email", "ssn", "social_security", "phone", "address", "date_of_birth", "dob", "credit_card", "password",
          "passport", "national_id"}
  }

  /** `name` is, in lower case, a whole word of the text that begins with one
      of the stems. */
  ghost predicate SaysPii(sql: string, name: string) {
    exists a, stem, rest, b | Standalone(a, b) ::
      sql == a + (stem + rest) + b && PiiStem(LowerAll(stem)) && AllWord(rest) && name == LowerAll(stem + rest)
  }

  lemma StemsAreKeywords()
    ensures forall w :: PiiStem(w) ==> IsKeyword(w)
  {
    hide IsKeyword;
    ShortStems();
    LongStems();
  }

  lemma ShortStems()
    ensures IsKeyword("email") && IsKeyword("ssn") && IsKeyword("phone") && IsKeyword("address") && IsKeyword("dob")
  {
  }

  lemma LongStems()
    ensures IsKeyword("social_security") && IsKeyword("date_of_birth") && IsKeyword("credit_card")
    ensures IsKeyword("password") && IsKeyword("passport") && IsKeyword("national_id")
  {
  }

  lemma KeywordInCase(word: string)
    requires IsKeyword(LowerAll(word))
    ensures word != [] && AllWord(word)
  {
    var w := LowerAll(word);
    forall i | 0 <= i < |word|
      ensures IsWord(word[i])
    {
      assert w[i] == Lower(word[i]);
      LetterOfLower(word[i]);
    }
  }

  lemma StemIsWord(stem: string)
    requires PiiStem(LowerAll(stem))
    ensures stem != [] && AllWord(stem)
  {
    hide *;
    StemsAreKeywords();
    KeywordInCase(stem);
  }

  lemma StemAt(sql: string, i: nat, n: nat)
    requires i + n <= |sql| && PiiStem(LowerAll(sql[i..i + n]))
    ensures KeywordAt(sql, i)
  {
    var w := LowerAll(sql[i..i + n]);
    NoCaseReads(sql, i, w);
    KeywordIsListed(w);
  }

  lemma KeywordIsListed(w: string)
    ensures PiiStem(w) <==> exists k | 0 <= k < |PII_KEYWORDS| :: PII_KEYWORDS[k] == w
  {
    assert PII_KEYWORDS[0] == "email" && PII_KEYWORDS[1] == "ssn" && PII_KEYWORDS[2] == "social_security"
           && PII_KEYWORDS[3] == "phone" && PII_KEYWORDS[4] == "address" && PII_KEYWORDS[5] == "date_of_birth"
           && PII_KEYWORDS[6] == "dob" && PII_KEYWORDS[7] == "credit_card" && PII_KEYWORDS[8] == "password"
           && PII_KEYWORDS[9] == "passport" && PII_KEYWORDS[10] == "national_id";
  }

  lemma AtStem(sql: string, i: nat) returns (n: nat)
    requires KeywordAt(sql, i)
    ensures i + n <= |sql| && PiiStem(LowerAll(sql[i..i + n]))
  {
    var k :| 0 <= k < |PII_KEYWORDS| && NoCaseAt(sql, i, PII_KEYWORDS[k]);
    var w := PII_KEYWORDS[k];
    n := |w|;
    NoCaseReads(sql, i, w);
    KeywordIsListed(w);
  }

  lemma PiiWordMeans(sql: string, i: nat, j: nat)
    requires PiiWord(sql, i, j)
    ensures i < j <= |sql| && KeywordAt(sql, i) && AllWord(sql[i..j]) && Standalone(sql[..i], sql[j..])
  {
    hide KeywordAt;
    BoundaryLeft(sql, i);
    BoundaryRight(sql, j);
  }

  lemma MeansPiiWord(sql: string, i: nat, j: nat)
    requires i < j <= |sql| && KeywordAt(sql, i) && AllWord(sql[i..j]) && Standalone(sql[..i], sql[j..])
    ensures PiiWord(sql, i, j)
  {
    hide KeywordAt;
    forall k | i <= k < j
      ensures IsWord(sql[k])
    {
      assert sql[k] == sql[i..j][k - i];
    }
    BoundaryLeft(sql, i);
    BoundaryRight(sql, j);
  }

  // A run of word characters that ends at `j` holds every stem it begins with.
  lemma StemFits(sql: string, i: nat, j: nat, n: nat)
    requires i <= j <= |sql| && i + n <= |sql| && AllWord(sql[i..i + n]) && (j < |sql| ==> !IsWord(sql[j]))
    ensures i + n <= j
  {
    forall k | i <= k < i + n
      ensures IsWord(sql[k])
    {
      assert sql[k] == sql[i..i + n][k - i];
    }
  }

  lemma PiiWordSays(sql: string, i: nat, j: nat)
    requires PiiWord(sql, i, j)
    ensures SaysPii(sql, LowerAll(sql[i..j]))
  {
    hide PiiWord, KeywordAt, PiiStem, LowerAll, IsWord;
    PiiWordMeans(sql, i, j);
    var n := AtStem(sql, i);
    StemIsWord(sql[i..i + n]);
    StemFits(sql, i, j, n);
    var stem, rest := sql[i..i + n], sql[i + n..j];
    assert sql[i..j] == stem + rest;
    Cut(sql, i, j);
    assert sql == sql[..i] + (stem + rest) + sql[j..];
  }

  lemma SaidIsPiiWord(sql: string, a: string, stem: string, rest: string, b: string)
    requires Standalone(a, b) && sql == a + (stem + rest) + b && PiiStem(LowerAll(stem)) && AllWord(rest)
    ensures PiiWord(sql, |a|, |a| + |stem + rest|) && sql[|a|..|a| + |stem + rest|] == stem + rest
  {
    hide *;
    StemIsWord(stem);
    CutWord(a, stem + rest, b);
    WordsJoin(stem, rest);
    PrefixOfWord(sql, |a|, stem, rest);
    StemAt(sql, |a|, |stem|);
    MeansPiiWord(sql, |a|, |a| + |stem + rest|);
  }

  lemma WordsJoin(a: string, b: string)
    requires AllWord(a) && AllWord(b)
    ensures AllWord(a + b)
  {
  }

  lemma PrefixOfWord(s: string, i: nat, stem: string, rest: string)
    requires i + |stem + rest| <= |s| && s[i..i + |stem + rest|] == stem + rest
    ensures s[i..i + |stem|] == stem
  {
    assert s[i..i + |stem|] == s[i..i + |stem + rest|][..|stem|];
  }

  lemma PiiWordFits()
    ensures forall sql, i: nat, j: nat :: PiiWord(sql, i, j) ==> i < j <= |sql|
  {
  }

  /** The taxonomy scan reports exactly the names of the text that look like
      personal data. */
  lemma PiiNamesIff(sql: string, name: string)
    ensures name in MentionsPiiLikeColumn(sql) <==> SaysPii(sql, name)
  {
    hide PiiWord, PiiStem, MentionsPiiLikeColumn, Standalone, LowerAll;
    PiiWordFits();
    PiiScanIsExact(sql, name);
    if i: nat, j: nat :| PiiWord(sql, i, j) && name == LowerAll(sql[i..j]) {
      PiiWordSays(sql, i, j);
    }
    if a, stem, rest, b :|
      Standalone(a, b) && sql == a + (stem + rest) + b && PiiStem(LowerAll(stem)) && AllWord(rest)
      && name == LowerAll(stem + rest) {
      SaidIsPiiWord(sql, a, stem, rest, b);
    }
  }
}
