/** The four governance rules in terms of what the statement says and what the
    dataset's labels say. */
module PolicyRules {
  import opened Governance
  import opened Models
  import opened SqlWords

  ghost predicate Forbidden(sql: string, m: TableMetadata) {
    SaysDropColumn(sql) && m.piiTagged
  }

  predicate Unattended(m: TableMetadata) {
    m.sensitivity == High && !m.stewardBound
  }

  ghost predicate Broad(sql: string, kind: PatchKind) {
    (kind == DML || kind == Both) && !SaysWhere(sql)
  }

  ghost predicate Untagged(sql: string, m: TableMetadata) {
    (exists name :: SaysPii(sql, name)) && !m.piiTagged
  }

  // The outcome of one rule.
  predicate Finds(check: PolicyCheck, policyId: string, flagged: bool, result: CheckResult) {
    check == PolicyCheck(policyId, if flagged then result else CheckPass)
  }

  /** What an audit of this statement under these labels must say. */
  ghost predicate Judges(a: Audit, sql: string, kind: PatchKind, m: TableMetadata) {
    && |a.checks| == 4
    && Finds(a.checks[0], "pii-drop-guard", Forbidden(sql, m), CheckFail)
    && Finds(a.checks[1], "data-steward-binding", Unattended(m), CheckWarn)
    && Finds(a.checks[2], "broad-dml-guard", Broad(sql, kind), CheckWarn)
    && Finds(a.checks[3], "pii-taxonomy-crosscheck", Untagged(sql, m), CheckWarn)
    && (a.verdict == Block <==> Forbidden(sql, m))
    && (a.verdict == Pass <==> !Forbidden(sql, m) && !Unattended(m) && !Broad(sql, kind) && !Untagged(sql, m))
    && StrictlySorted(a.piiColumnsTouched)
    && (forall name :: name in a.piiColumnsTouched <==> m.piiTagged && SaysPii(sql, name))
  }

  lemma SomeName(sql: string)
    ensures MentionsPiiLikeColumn(sql) != [] <==> exists name :: SaysPii(sql, name)
  {
    hide SaysPii, MentionsPiiLikeColumn;
    var names := MentionsPiiLikeColumn(sql);
    if names != [] {
      PiiNamesIff(sql, names[0]);
      assert SaysPii(sql, names[0]);
    }
    if name :| SaysPii(sql, name) {
      PiiNamesIff(sql, name);
    }
  }

  /** The rules and the verdict they add up to, for every statement, kind and
      label: each check flags exactly what its rule is about, BLOCK is the
      forbidden drop alone, and PASS is the absence of every flag. */
  lemma RulesJudge(a: Audit, sql: string, kind: PatchKind, m: TableMetadata)
    requires a.checks == PolicyChecks(sql, kind, m) && a.verdict == VerdictFromChecks(a.checks)
    requires a.piiColumnsTouched == if m.piiTagged then MentionsPiiLikeColumn(sql) else []
    ensures Judges(a, sql, kind, m)
  {
    hide DropsColumn, SaysDropColumn, HasWhere, SaysWhere, SaysPii, MentionsPiiLikeColumn;
    DropsColumnIff(sql);
    WhereIff(sql);
    SomeName(sql);
    BlockIff(sql, kind, m);
    PiiScanIsExact(sql, "");
    forall name
      ensures name in MentionsPiiLikeColumn(sql) <==> SaysPii(sql, name)
    {
      PiiNamesIff(sql, name);
    }
    var checks := a.checks;
    assert checks[1].result == CheckWarn <==> Unattended(m);
    assert checks[2].result == CheckWarn <==> Broad(sql, kind);
    assert checks[3].result == CheckWarn <==> Untagged(sql, m);
  }
}
