/** The deterministic governance rules: four policy checks on the SQL text and
    the dataset's labels, and the verdict they add up to. */
module Governance {
  import opened BqSandbox
  import opened Models
  import opened Prelude
  import opened Text

  datatype Sensitivity = Low | High

  datatype TableMetadata = TableMetadata(piiTagged: bool, sensitivity: Sensitivity, stewardBound: bool)

  const BENIGN := TableMetadata(false, Low, false)

  // ---------- The PII naming taxonomy ----------

  const PII_KEYWORDS: seq<string> := [
    "email", "ssn", "social_security", "phone", "address", "date_of_birth", "dob",
    "credit_card", "password", "passport", "national_id"]

  predicate KeywordAt(sql: string, i: nat) {
    exists k | 0 <= k < |PII_KEYWORDS| :: NoCaseAt(sql, i, PII_KEYWORDS[k])
  }

  predicate PiiAt(sql: string, i: nat)
    requires i <= |sql|
  {
    Boundary(sql, i) && KeywordAt(sql, i)
  }

  lemma KeywordIsWord(sql: string, i: nat)
    requires i <= |sql| && KeywordAt(sql, i)
    ensures i < WordEnd(sql, i)
  {
    var k :| 0 <= k < |PII_KEYWORDS| && NoCaseAt(sql, i, PII_KEYWORDS[k]);
    assert PII_KEYWORDS[k] != [] && 'a' <= PII_KEYWORDS[k][0] <= 'z';
    assert Lower(sql[i + 0]) == PII_KEYWORDS[k][0];
  }

  // `finditer`: every match runs to the end of its word.
  function PiiMatches(sql: string, i: nat): seq<string>
    requires i <= |sql|
    decreases |sql| - i
  {
    if i == |sql| then []
    else if PiiAt(sql, i) then
      KeywordIsWord(sql, i);
      [sql[i..WordEnd(sql, i)]] + PiiMatches(sql, WordEnd(sql, i))
    else PiiMatches(sql, i + 1)
  }

  predicate StrictlySorted(s: seq<string>) {
    forall i, j :: 0 <= i < j < |s| ==> Less(s[i], s[j])
  }

  function InsertSorted(s: seq<string>, x: string): (r: seq<string>)
    requires StrictlySorted(s)
    ensures StrictlySorted(r)
    ensures forall y :: y in r <==> y in s || y == x
  {
    if s == [] then [x]
    else if s[0] == x then s
    else if Less(x, s[0]) then
      InsertFirst(s, x);
      [x] + s
    else
      var r := InsertSorted(s[1..], x);
      InsertLater(s, x, r);
      [s[0]] + r
  }

  lemma InsertFirst(s: seq<string>, x: string)
    requires StrictlySorted(s) && s != [] && Less(x, s[0])
    ensures StrictlySorted([x] + s)
  {
    forall j | 0 < j < |s|
      ensures Less(x, s[j])
    {
      LessTransitive(x, s[0], s[j]);
    }
  }

  lemma InsertLater(s: seq<string>, x: string, r: seq<string>)
    requires StrictlySorted(s) && s != [] && s[0] != x && !Less(x, s[0])
    requires StrictlySorted(r) && forall y :: y in r <==> y in s[1..] || y == x
    ensures StrictlySorted([s[0]] + r)
    ensures forall y :: y in [s[0]] + r <==> y in s || y == x
  {
    LessTotal(s[0], x);
    forall j | 0 <= j < |r|
      ensures Less(s[0], r[j])
    {
      assert r[j] in r;
      if r[j] != x {
        var k :| 0 <= k < |s[1..]| && s[1..][k] == r[j];
        assert s[k + 1] == r[j];
      }
    }
    assert s == [s[0]] + s[1..];
  }

  function SortedLower(words: seq<string>): (r: seq<string>)
    ensures StrictlySorted(r)
    ensures forall y :: y in r <==> exists k :: 0 <= k < |words| && LowerAll(words[k]) == y
  {
    if words == [] then []
    else
      var r := SortedLower(words[1..]);
      assert forall k :: 0 < k < |words| ==> words[k] == words[1..][k - 1];
      assert forall k :: 0 <= k < |words| - 1 ==> words[1..][k] == words[k + 1];
      InsertSorted(r, LowerAll(words[0]))
  }

  function MentionsPiiLikeColumn(sql: string): seq<string> {
    SortedLower(PiiMatches(sql, 0))
  }

  // `sql[i..j]` is a whole word that begins with a taxonomy keyword.
  predicate PiiWord(sql: string, i: nat, j: nat) {
    && i < j <= |sql|
    && Boundary(sql, i) && Boundary(sql, j)
    && (forall k :: i <= k < j ==> IsWord(sql[k]))
    && KeywordAt(sql, i)
  }

  lemma PiiWordEnd(sql: string, i: nat, j: nat)
    requires PiiWord(sql, i, j)
    ensures j == WordEnd(sql, i)
  {
  }

  lemma PiiAtIsWord(sql: string, i: nat)
    requires i < |sql| && PiiAt(sql, i)
    ensures PiiWord(sql, i, WordEnd(sql, i))
  {
    KeywordIsWord(sql, i);
  }

  lemma {:induction false} PiiMatchesAreWords(sql: string, i: nat, w: string)
    requires i <= |sql|
    ensures w in PiiMatches(sql, i) ==>
              exists a: nat, b: nat :: i <= a && PiiWord(sql, a, b) && w == sql[a..b]
    decreases |sql| - i
  {
    hide Boundary, KeywordAt, IsWord;
    if i < |sql| {
      if PiiAt(sql, i) {
        PiiAtIsWord(sql, i);
        PiiMatchesAreWords(sql, WordEnd(sql, i), w);
      } else {
        PiiMatchesAreWords(sql, i + 1, w);
      }
    }
  }

  // No word begins strictly inside a run of word characters.
  lemma NoWordInside(sql: string, i: nat, a: nat, b: nat)
    requires i <= |sql| && i < a < WordEnd(sql, i)
    ensures !PiiWord(sql, a, b)
  {
  }

  lemma {:induction false} PiiWordsAreMatched(sql: string, i: nat, a: nat, b: nat)
    requires i <= a && PiiWord(sql, a, b)
    ensures sql[a..b] in PiiMatches(sql, i)
    decreases |sql| - i
  {
    PiiWordEnd(sql, a, b);
    hide Boundary, KeywordAt, IsWord;
    if i < a {
      if PiiAt(sql, i) {
        KeywordIsWord(sql, i);
        if a < WordEnd(sql, i) {
          NoWordInside(sql, i, a, b);
        }
        PiiWordsAreMatched(sql, WordEnd(sql, i), a, b);
      } else {
        PiiWordsAreMatched(sql, i + 1, a, b);
      }
    }
  }

  /** The scanner, against its reference: the strictly sorted, lower-cased set
      of whole words that begin with a taxonomy keyword. */
  lemma PiiScanIsExact(sql: string, y: string)
    ensures StrictlySorted(MentionsPiiLikeColumn(sql))
    ensures y in MentionsPiiLikeColumn(sql)
            <==> exists a: nat, b: nat :: PiiWord(sql, a, b) && y == LowerAll(sql[a..b])
  {
    var matches := PiiMatches(sql, 0);
    if y in MentionsPiiLikeColumn(sql) {
      var k :| 0 <= k < |matches| && LowerAll(matches[k]) == y;
      PiiMatchesAreWords(sql, 0, matches[k]);
    }
    if a: nat, b: nat :| PiiWord(sql, a, b) && y == LowerAll(sql[a..b]) {
      PiiWordsAreMatched(sql, 0, a, b);
      var k :| 0 <= k < |matches| && matches[k] == sql[a..b];
    }
  }

  // ---------- The policy checks ----------

  predicate DropsColumn(sql: string) {
    exists i | 0 <= i < |sql| :: PairAt(sql, i, "drop", "column")
  }

  // `\bword\b`, case-insensitively, at `i`
  predicate WordAt(sql: string, i: nat, word: string) {
    NoCaseAt(sql, i, word) && Boundary(sql, i) && Boundary(sql, i + |word|)
  }

  predicate HasWhere(sql: string) {
    exists i | 0 <= i < |sql| :: WordAt(sql, i, "where")
  }

  const PII_DROP_GUARD := "pii-drop-guard"
  const STEWARD_BINDING := "data-steward-binding"
  const BROAD_DML_GUARD := "broad-dml-guard"
  const PII_CROSSCHECK := "pii-taxonomy-crosscheck"

  function FlagIf(flag: bool, result: CheckResult): CheckResult {
    if flag then result else CheckPass
  }

  function PolicyChecks(sql: string, kind: PatchKind, m: TableMetadata): seq<PolicyCheck> {
    [ PolicyCheck(PII_DROP_GUARD, FlagIf(DropsColumn(sql) && m.piiTagged, CheckFail)),
      PolicyCheck(STEWARD_BINDING, FlagIf(m.sensitivity == High && !m.stewardBound, CheckWarn)),
      PolicyCheck(BROAD_DML_GUARD, FlagIf(kind != DDL && !HasWhere(sql), CheckWarn)),
      PolicyCheck(PII_CROSSCHECK, FlagIf(MentionsPiiLikeColumn(sql) != [] && !m.piiTagged, CheckWarn)) ]
  }

  // The rules in the order they are run, each appending its outcome.
  method EvaluatePolicyChecks(sql: string, kind: PatchKind, m: TableMetadata) returns (checks: seq<PolicyCheck>)
    ensures checks == PolicyChecks(sql, kind, m)
  {
    checks := [];
    if DropsColumn(sql) && m.piiTagged {
      checks := checks + [PolicyCheck(PII_DROP_GUARD, CheckFail)];
    } else {
      checks := checks + [PolicyCheck(PII_DROP_GUARD, CheckPass)];
    }
    if m.sensitivity == High && !m.stewardBound {
      checks := checks + [PolicyCheck(STEWARD_BINDING, CheckWarn)];
    } else {
      checks := checks + [PolicyCheck(STEWARD_BINDING, CheckPass)];
    }
    var isDml := kind == DML || kind == Both;
    if isDml && !HasWhere(sql) {
      checks := checks + [PolicyCheck(BROAD_DML_GUARD, CheckWarn)];
    } else {
      checks := checks + [PolicyCheck(BROAD_DML_GUARD, CheckPass)];
    }
    if MentionsPiiLikeColumn(sql) != [] && !m.piiTagged {
      checks := checks + [PolicyCheck(PII_CROSSCHECK, CheckWarn)];
    } else {
      checks := checks + [PolicyCheck(PII_CROSSCHECK, CheckPass)];
    }
  }

  function VerdictFromChecks(checks: seq<PolicyCheck>): Verdict {
    if exists i | 0 <= i < |checks| :: checks[i].result == CheckFail then Block
    else if exists i | 0 <= i < |checks| :: checks[i].result == CheckWarn then Warn
    else Pass
  }

  function Severity(result: CheckResult): nat {
    match result
    case CheckPass => 0
    case CheckWarn => 1
    case CheckFail => 2
  }

  function VerdictSeverity(verdict: Verdict): nat {
    match verdict
    case Pass => 0
    case Warn => 1
    case Block => 2
  }

  /** The verdict is the most severe outcome, so the order of the checks does
      not matter. */
  lemma VerdictIsMaximum(checks: seq<PolicyCheck>, others: seq<PolicyCheck>)
    ensures forall c :: c in checks ==> Severity(c.result) <= VerdictSeverity(VerdictFromChecks(checks))
    ensures checks != [] ==>
              exists c :: c in checks && Severity(c.result) == VerdictSeverity(VerdictFromChecks(checks))
    ensures (forall c :: c in checks <==> c in others) ==> VerdictFromChecks(checks) == VerdictFromChecks(others)
  {
    if checks != [] {
      assert checks[0] in checks;
    }
    if forall c :: c in checks <==> c in others {
      assert forall i :: 0 <= i < |checks| ==> checks[i] in others;
      assert forall i :: 0 <= i < |others| ==> others[i] in checks;
    }
  }

  /** BLOCK means exactly a column drop on PII-tagged data; nothing else, not
      even every warning at once, amounts to it. */
  lemma BlockIff(sql: string, kind: PatchKind, m: TableMetadata)
    ensures |PolicyChecks(sql, kind, m)| == 4
    ensures VerdictFromChecks(PolicyChecks(sql, kind, m)) == Block <==> DropsColumn(sql) && m.piiTagged
  {
    var checks := PolicyChecks(sql, kind, m);
    assert checks[0].result == CheckFail <==> DropsColumn(sql) && m.piiTagged;
  }

  /** A column drop the destructive gate can see, governance sees too. */
  lemma GateDropsAreSeen(sql: string, i: nat)
    requires i < |sql| && DestructiveAt(sql, i, "drop", "column")
    ensures DropsColumn(sql)
  {
  }
}
