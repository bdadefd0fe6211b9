/**
 * The scan-set scenarios the repository's unit tests describe, stated for
 * every CIDR parser that accepts (or rejects) the literal each one uses.
 */
module ScanSetExamples {
  import opened Wrappers
  import opened Policy
  import opened ScanSets

  /** The "custom/deep-audit" document: every field present. */
  function DeepAuditDocument(): ConfigDocument
  {
    ConfigDocument(
      "custom/deep-audit",
      "Deep audit",
      ["discovery", "memory", "privilege"],
      Some(["203.0.113.0/28"]),
      Some(Deep),
      Some(Aggressive),
      Some(Elevated),
      Some(Assertive),
      RateLimit(5, 2),
      "30d",
      Randomization(200, "per-scan"),
      "hela.scans.deep")
  }

  /** The "bad" document: an unparsable target, and no depth, detectability or risks. */
  function BadTargetDocument(): ConfigDocument
  {
    ConfigDocument(
      "bad",
      "Bad target",
      ["discovery"],
      Some(["not-a-network"]),
      None,
      None,
      None,
      None,
      RateLimit(1, 1),
      "7d",
      Randomization(0, "default"),
      "hela.scans.default")
  }

  /** The deep-audit document validates, keeping its policy, its three pipelines and its one target. */
  lemma DeepAuditValidates(parseNet: NetParser)
    requires parseNet("203.0.113.0/28").Ok?
    ensures var r := TryFrom(FromDocument(DeepAuditDocument()), parseNet);
      && r.Ok?
      && r.value.depth == Deep
      && r.value.detectability == Aggressive
      && |r.value.enabledPipelines| == 3
      && r.value.allowedTargets == [parseNet("203.0.113.0/28").value]
  {
  }

  /**
   * With its target risk lowered to Minimal, the deep-audit scan set previews
   * as Deep and Aggressive, at 240 minutes, with the noise warning.
   */
  lemma DeepAuditMinimalRiskWarns(parseNet: NetParser)
    requires parseNet("203.0.113.0/28").Ok?
    ensures var r := TryFrom(FromDocument(DeepAuditDocument()), parseNet);
      && r.Ok?
      && var preview := FromScanSet(r.value.(targetRisk := Minimal));
      && preview.depth == Deep
      && preview.detectability == Aggressive
      && preview.violations == [NoiseWarning]
      && preview.estimatedDurationMinutes == 240
  {
  }

  /**
   * The bad document takes the defaults for the fields it omits, and fails
   * validation naming exactly "not-a-network".
   */
  lemma BadTargetIsReported(parseNet: NetParser)
    requires parseNet("not-a-network").Err?
    ensures var config := FromDocument(BadTargetDocument());
      && config.depth == Low && config.detectability == Guided
      && config.targetRisk == Balanced && config.operatorRisk == Balanced
      && TryFrom(config, parseNet) == Err(InvalidTarget("not-a-network", parseNet("not-a-network").error))
  {
  }
}
