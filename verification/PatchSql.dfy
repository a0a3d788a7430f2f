/** The DDL the patch tool emits on its own: for the demo scenarios, and for
    everything else through the offline heuristic generator. */
module PatchSql {
  import opened BqSandbox
  import opened Models
  import opened Prelude
  import opened Text

  datatype GeneratedSql = GeneratedSql(kind: PatchKind, productionSql: string)

  const HEAD: string := "ALTER TABLE `"

  function AddColumnTail(column: string): string {
    "` ADD COLUMN IF NOT EXISTS `" + column + "` STRING"
  }

  function ClusteringTail(column: string): string {
    "` SET OPTIONS (clustering_fields = ['" + column + "'])"
  }

  function AddColumnDdl(table: TableRef, column: string): string {
    HEAD + table.FullyQualified() + AddColumnTail(column)
  }

  function ClusteringDdl(table: TableRef, column: string): string {
    HEAD + table.FullyQualified() + ClusteringTail(column)
  }

  predicate IsDemo(event: RawEvent) {
    event.scenario == "schema_drift" || event.scenario == "slow_copy"
  }

  function OrDefault(s: string, default: string): string {
    if s == "" then default else s
  }

  function DemoColumn(event: RawEvent): string {
    if event.scenario == "slow_copy" then OrDefault(event.filterColumn, "customer_id")
    else OrDefault(event.droppedColumn, "email")
  }

  // `None` means the scenario is not one of the presets.
  function DeterministicDemoPatch(event: RawEvent, targetUri: string): Result<Option<GeneratedSql>, UriError> {
    if !IsDemo(event) then Success(None)
    else match ParseResourceUri(targetUri)
      case Failure(e) => Failure(e)
      case Success(table) =>
        var sql := if event.scenario == "slow_copy" then ClusteringDdl(table, DemoColumn(event))
                   else AddColumnDdl(table, DemoColumn(event));
        Success(Some(GeneratedSql(DDL, sql)))
  }

  // ---------- The offline generator ----------

  const CLUSTER_HINT: string := "clustering it on "

  predicate IsIdentifierStart(c: char) {
    IsWord(c) && !('0' <= c <= '9')
  }

  // A backticked identifier at `i`
  function HintAt(s: string, i: nat): Option<string>
    requires i <= |s|
  {
    if i + 1 < |s| && s[i] == '`' && IsIdentifierStart(s[i + 1]) then
      var e := WordEnd(s, i + 1);
      if e < |s| && s[e] == '`' then Some(s[i + 1..e]) else None
    else None
  }

  // The first backticked identifier at or after `i` that follows `before`
  function FindHint(s: string, i: nat, before: string): Option<string>
    requires i <= |s|
    decreases |s| - i
  {
    if i == |s| then None
    else if At(s, i, before) && HintAt(s, i + |before|).Some? then HintAt(s, i + |before|)
    else FindHint(s, i + 1, before)
  }

  function LocalHeuristicGenerate(targetUri: string, summary: string): Result<GeneratedSql, UriError> {
    match ParseResourceUri(targetUri)
    case Failure(e) => Failure(e)
    case Success(table) =>
      match FindHint(summary, 0, CLUSTER_HINT)
      case Some(column) => Success(GeneratedSql(DDL, ClusteringDdl(table, column)))
      case None =>
        var hint := FindHint(summary, 0, "");
        var column := if hint.Some? then hint.value else "unknown_column";
        Success(GeneratedSql(DDL, AddColumnDdl(table, column)))
  }

  predicate IsIdentifier(s: string) {
    s != [] && AllWord(s) && IsIdentifierStart(s[0])
  }

  lemma {:induction false} HintIsIdentifier(s: string, i: nat, before: string)
    requires i <= |s|
    requires FindHint(s, i, before).Some?
    ensures IsIdentifier(FindHint(s, i, before).value)
    decreases |s| - i
  {
    if !(At(s, i, before) && HintAt(s, i + |before|).Some?) {
      HintIsIdentifier(s, i + 1, before);
    }
  }

  /** Whatever a drift summary says, the offline generator only ever emits
      one of the two statement shapes, on the target table, with a plain
      identifier for a column. */
  lemma LocalGeneratorShape(targetUri: string, summary: string)
    requires LocalHeuristicGenerate(targetUri, summary).Success?
    ensures ParseResourceUri(targetUri).Success?
    ensures exists column ::
              && IsIdentifier(column)
              && var table := ParseResourceUri(targetUri).value;
                 LocalHeuristicGenerate(targetUri, summary).value.productionSql
                 in {AddColumnDdl(table, column), ClusteringDdl(table, column)}
  {
    var hinted := FindHint(summary, 0, CLUSTER_HINT);
    var plain := FindHint(summary, 0, "");
    assert IsIdentifier("unknown_column");
    if hinted.Some? {
      HintIsIdentifier(summary, 0, CLUSTER_HINT);
    } else if plain.Some? {
      HintIsIdentifier(summary, 0, "");
    }
  }

  // At `k` the text reads `before` and a backticked identifier.
  predicate Hinted(s: string, k: nat, before: string, name: string) {
    k <= |s| && IsIdentifier(name) && before + "`" + name + "`" <= s[k..]
  }

  lemma WordEndsAt(s: string, i: nat, j: nat)
    requires i <= j < |s| && !IsWord(s[j]) && AllWord(s[i..j])
    ensures WordEnd(s, i) == j
  {
    forall k | i <= k < j
      ensures IsWord(s[k])
    {
      assert s[k] == s[i..j][k - i];
    }
  }

  lemma HintReads(s: string, i: nat)
    requires i <= |s| && HintAt(s, i).Some?
    ensures Hinted(s, i, "", HintAt(s, i).value)
  {
    var e := WordEnd(s, i + 1);
    assert s[i..e + 1] == "" + "`" + s[i + 1..e] + "`";
    assert s[i..e + 1] <= s[i..];
  }

  lemma HintStands(s: string, i: nat, name: string)
    requires Hinted(s, i, "", name)
    ensures HintAt(s, i) == Some(name)
  {
    hide IsWord, IsIdentifierStart;
    var t, j := "" + "`" + name + "`", i + 1 + |name|;
    assert s[i..j + 1] == t;
    assert s[i] == t[0] && s[i + 1] == t[1] && s[j] == t[|name| + 1];
    assert s[i + 1..j] == name;
    assert !IsWord('`') by { TickIsNoWord(); }
    WordEndsAt(s, i + 1, j);
  }

  lemma TickIsNoWord()
    ensures !IsWord('`')
  {
  }

  lemma HintedBehind(s: string, i: nat, before: string, name: string)
    requires i <= |s|
    ensures Hinted(s, i, before, name) <==> At(s, i, before) && Hinted(s, i + |before|, "", name)
  {
    var tail := "`" + name + "`";
    assert before + "`" + name + "`" == before + tail && "" + "`" + name + "`" == tail;
    PrefixParts(s[i..], before, tail);
    if At(s, i, before) {
      assert s[i..][|before|..] == s[i + |before|..];
    }
  }

  lemma PrefixParts(t: string, a: string, b: string)
    ensures a + b <= t <==> a <= t && b <= t[|a|..]
  {
    if a + b <= t {
      assert t[..|a + b|] == a + b && t[..|a|] == a && t[|a|..|a| + |b|] == b;
    }
    if a <= t && b <= t[|a|..] {
      assert t == a + t[|a|..] && t[|a|..] == b + t[|a|..][|b|..];
    }
  }

  // The search stops at `i` exactly when a hint can be read there.
  lemma HintedIs(s: string, i: nat, before: string)
    requires i <= |s|
    ensures At(s, i, before) && HintAt(s, i + |before|).Some? ==> Hinted(s, i, before, HintAt(s, i + |before|).value)
    ensures forall name :: Hinted(s, i, before, name) ==> At(s, i, before) && HintAt(s, i + |before|) == Some(name)
  {
    hide Hinted, HintAt;
    if At(s, i, before) && HintAt(s, i + |before|).Some? {
      HintReads(s, i + |before|);
      HintedBehind(s, i, before, HintAt(s, i + |before|).value);
    }
    forall name | Hinted(s, i, before, name)
      ensures At(s, i, before) && HintAt(s, i + |before|) == Some(name)
    {
      HintedBehind(s, i, before, name);
      HintStands(s, i + |before|, name);
    }
  }

  // `found` is the leftmost hint at or after `i`.
  ghost predicate IsHintFrom(s: string, i: nat, before: string, found: string) {
    exists k: nat | i <= k :: Hinted(s, k, before, found) && forall j: nat, name | i <= j < k :: !Hinted(s, j, before, name)
  }

  lemma HintFromNext(s: string, i: nat, before: string, found: string)
    requires IsHintFrom(s, i + 1, before, found) && forall name :: !Hinted(s, i, before, name)
    ensures IsHintFrom(s, i, before, found)
  {
    hide Hinted;
    var k: nat :| i + 1 <= k && Hinted(s, k, before, found)
                  && forall j: nat, name | i + 1 <= j < k :: !Hinted(s, j, before, name);
    assert forall j: nat, name | i <= j < k :: !Hinted(s, j, before, name);
  }

  lemma {:induction false} FindHintFrom(s: string, i: nat, before: string)
    requires i <= |s|
    ensures FindHint(s, i, before).None? ==> forall k: nat, name | i <= k :: !Hinted(s, k, before, name)
    ensures FindHint(s, i, before).Some? ==> IsHintFrom(s, i, before, FindHint(s, i, before).value)
    decreases |s| - i
  {
    hide HintAt, Hinted;
    HintedFits(s, before);
    if i < |s| {
      HintedIs(s, i, before);
      if !(At(s, i, before) && HintAt(s, i + |before|).Some?) {
        FindHintFrom(s, i + 1, before);
        if FindHint(s, i, before).Some? {
          HintFromNext(s, i, before, FindHint(s, i, before).value);
        }
      }
    }
  }

  lemma HintedFits(s: string, before: string)
    ensures forall k: nat, name :: Hinted(s, k, before, name) ==> k < |s|
  {
  }

  // `found` is the leftmost backticked identifier behind `before`.
  ghost predicate IsFirstHint(s: string, before: string, found: string) {
    IsHintFrom(s, 0, before, found)
  }

  ghost predicate HasHint(s: string, before: string) {
    exists k: nat, name :: Hinted(s, k, before, name)
  }

  /** The hint search finds the leftmost hint, and nothing exactly when there
      is none. */
  lemma FindHintIs(s: string, before: string)
    ensures FindHint(s, 0, before).Some? <==> HasHint(s, before)
    ensures FindHint(s, 0, before).Some? ==> IsFirstHint(s, before, FindHint(s, 0, before).value)
  {
    hide Hinted;
    FindHintFrom(s, 0, before);
  }

  function Named(table: TableRef): string {
    table.project + "." + table.dataset + "." + table.table
  }

  /** What the offline generator may emit: clustering by the first column the
      summary suggests clustering on, else the first backticked name as a new
      column, else the placeholder column. */
  ghost predicate IsHeuristic(summary: string, table: TableRef, g: GeneratedSql) {
    && g.kind == DDL
    && (HasHint(summary, "clustering it on ") ==>
          exists column :: IsFirstHint(summary, "clustering it on ", column)
            && g.productionSql == "ALTER TABLE `" + Named(table) + "` SET OPTIONS (clustering_fields = ['" + column + "'])")
    && (!HasHint(summary, "clustering it on ") && HasHint(summary, "") ==>
          exists column :: IsFirstHint(summary, "", column)
            && g.productionSql == "ALTER TABLE `" + Named(table) + "` ADD COLUMN IF NOT EXISTS `" + column + "` STRING")
    && (!HasHint(summary, "") ==>
          g.productionSql == "ALTER TABLE `" + Named(table) + "` ADD COLUMN IF NOT EXISTS `unknown_column` STRING")
  }

  lemma LocalGeneratorIs(targetUri: string, summary: string, table: TableRef)
    requires ParseResourceUri(targetUri) == Success(table)
    ensures var r := LocalHeuristicGenerate(targetUri, summary);
            r.Success? && IsHeuristic(summary, table, r.value)
  {
    hide Hinted, FindHint, ParseResourceUri, IsFirstHint, HasHint, Named, ClusteringDdl, AddColumnDdl;
    FindHintIs(summary, "clustering it on ");
    FindHintIs(summary, "");
    ClusterHintIsHint(summary);
    if FindHint(summary, 0, CLUSTER_HINT).Some? {
      ClusteringText(table, FindHint(summary, 0, CLUSTER_HINT).value);
    } else {
      var hint := FindHint(summary, 0, "");
      AddColumnText(table, if hint.Some? then hint.value else "unknown_column");
    }
  }

  /** The preset statement of a demo scenario. */
  predicate IsPreset(event: RawEvent, table: TableRef, g: GeneratedSql) {
    && g.kind == DDL
    && g.productionSql
       == if event.scenario == "slow_copy" then
            var column := if event.filterColumn == "" then "customer_id" else event.filterColumn;
            "ALTER TABLE `" + Named(table) + "` SET OPTIONS (clustering_fields = ['" + column + "'])"
          else
            var column := if event.droppedColumn == "" then "email" else event.droppedColumn;
            "ALTER TABLE `" + Named(table) + "` ADD COLUMN IF NOT EXISTS `" + column + "` STRING"
  }

  lemma PresetIs(event: RawEvent, targetUri: string, table: TableRef)
    requires ParseResourceUri(targetUri) == Success(table)
    ensures DeterministicDemoPatch(event, targetUri).Success?
    ensures var r := DeterministicDemoPatch(event, targetUri).value;
            && (r.Some? <==> event.scenario in {"schema_drift", "slow_copy"})
            && (r.Some? ==> IsPreset(event, table, r.value))
  {
    hide ParseResourceUri;
    ClusteringText(table, DemoColumn(event));
    AddColumnText(table, DemoColumn(event));
    hide ClusteringDdl, AddColumnDdl, Named;
  }

  lemma ClusterHintIsHint(s: string)
    ensures HasHint(s, "clustering it on ") ==> HasHint(s, "")
  {
    hide Hinted;
    if k: nat, name :| Hinted(s, k, "clustering it on ", name) {
      HintedFits(s, "clustering it on ");
      HintedBehind(s, k, "clustering it on ", name);
    }
  }

  lemma ClusteringText(table: TableRef, column: string)
    ensures ClusteringDdl(table, column)
            == "ALTER TABLE `" + Named(table) + "` SET OPTIONS (clustering_fields = ['" + column + "'])"
  {
  }

  lemma AddColumnText(table: TableRef, column: string)
    ensures AddColumnDdl(table, column)
            == "ALTER TABLE `" + Named(table) + "` ADD COLUMN IF NOT EXISTS `" + column + "` STRING"
  {
  }
}
