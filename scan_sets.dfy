/**
 * Scan-set configuration: the raw record, its validation into a scan set
 * with parsed network ranges, the preview derived from a scan set, and the
 * in-memory registry of scan sets by name.
 */
module ScanSets {
  import opened Wrappers
  import opened Policy

  /** Probe-rate settings, passed through to the execution engine unchanged. */
  datatype RateLimit = RateLimit(probesPerSecond: u32, concurrentTargets: u32)

  /** Randomisation settings, passed through to the execution engine unchanged. */
  datatype Randomization = Randomization(jitterMs: u64, ordering: string)

  /**
   * A network range as the CIDR parser produces it: an IPv4 or IPv6 address
   * with a prefix length. Its contents come from the parser and are not
   * constrained here.
   */
  datatype IpNet = V4(ipv4: bv32, prefixLen: nat) | V6(ipv6: bv128, prefixLen: nat)

  /** The CIDR parser's failure; it carries no information. */
  datatype AddrParseError = AddrParseError

  /**
   * The CIDR parser of the `ipnet` library. It is a parameter of every
   * operation that parses, so that each property holds whatever the parser
   * accepts.
   */
  type NetParser = string -> Result<IpNet, AddrParseError>

  /** The one way validation fails: the offending entry and the parser's reason. */
  datatype ScanSetError = InvalidTarget(target: string, source: AddrParseError)

  /**
   * The fields of a configuration document as deserialized, before defaults:
   * the fields that have a default may be absent.
   */
  datatype ConfigDocument = ConfigDocument(
    name: string,
    description: string,
    enabledPipelines: seq<string>,
    allowedTargets: Option<seq<string>>,
    depth: Option<Depth>,
    detectability: Option<Detectability>,
    targetRisk: Option<Risk>,
    operatorRisk: Option<Risk>,
    rateLimit: RateLimit,
    evidenceRetention: string,
    randomization: Randomization,
    requiresScope: string)

  /** The raw, unvalidated configuration record. */
  datatype ScanSetConfig = ScanSetConfig(
    name: string,
    description: string,
    enabledPipelines: seq<string>,
    allowedTargets: seq<string>,
    depth: Depth,
    detectability: Detectability,
    targetRisk: Risk,
    operatorRisk: Risk,
    rateLimit: RateLimit,
    evidenceRetention: string,
    randomization: Randomization,
    requiresScope: string)

  /** A validated scan set: the same shape, with parsed network ranges as targets. */
  datatype ScanSet = ScanSet(
    name: string,
    description: string,
    enabledPipelines: seq<string>,
    allowedTargets: seq<IpNet>,
    depth: Depth,
    detectability: Detectability,
    targetRisk: Risk,
    operatorRisk: Risk,
    rateLimit: RateLimit,
    evidenceRetention: string,
    randomization: Randomization,
    requiresScope: string)

  /**
   * The configuration record a document yields: a field the document omits
   * takes its default, every other field is taken from the document.
   */
  function FromDocument(doc: ConfigDocument): (config: ScanSetConfig)
    ensures doc.allowedTargets == None ==> config.allowedTargets == []
    ensures doc.depth == None ==> config.depth == Low
    ensures doc.detectability == None ==> config.detectability == Guided
    ensures doc.targetRisk == None ==> config.targetRisk == Balanced
    ensures doc.operatorRisk == None ==> config.operatorRisk == Balanced
    ensures doc.allowedTargets.Some? ==> config.allowedTargets == doc.allowedTargets.value
    ensures doc.depth.Some? ==> config.depth == doc.depth.value
    ensures doc.detectability.Some? ==> config.detectability == doc.detectability.value
    ensures doc.targetRisk.Some? ==> config.targetRisk == doc.targetRisk.value
    ensures doc.operatorRisk.Some? ==> config.operatorRisk == doc.operatorRisk.value
    ensures config.name == doc.name && config.description == doc.description
    ensures config.enabledPipelines == doc.enabledPipelines
    ensures config.rateLimit == doc.rateLimit && config.evidenceRetention == doc.evidenceRetention
    ensures config.randomization == doc.randomization && config.requiresScope == doc.requiresScope
  {
    ScanSetConfig(
      doc.name,
      doc.description,
      doc.enabledPipelines,
      doc.allowedTargets.UnwrapOr([]),
      doc.depth.UnwrapOr(Depth.Default()),
      doc.detectability.UnwrapOr(Detectability.Default()),
      doc.targetRisk.UnwrapOr(DefaultRiskBalanced()),
      doc.operatorRisk.UnwrapOr(DefaultRiskBalanced()),
      doc.rateLimit,
      doc.evidenceRetention,
      doc.randomization,
      doc.requiresScope)
  }

  // ---------------------------------------------------------------------------
  // Validation

  /** Every entry of `targets` parses. */
  ghost predicate AllParse(targets: seq<string>, parseNet: NetParser)
  {
    forall i :: 0 <= i < |targets| ==> parseNet(targets[i]).Ok?
  }

  /** `nets` holds the parse of each entry of `targets`, in the same order. */
  ghost predicate ParsedInOrder(targets: seq<string>, nets: seq<IpNet>, parseNet: NetParser)
  {
    && |nets| == |targets|
    && forall i :: 0 <= i < |targets| ==> parseNet(targets[i]) == Ok(nets[i])
  }

  /** Entry `k` is the first entry of `targets` that does not parse. */
  ghost predicate FirstInvalid(targets: seq<string>, parseNet: NetParser, k: int)
  {
    && 0 <= k < |targets|
    && parseNet(targets[k]).Err?
    && forall j :: 0 <= j < k ==> parseNet(targets[j]).Ok?
  }

  /** `error` names the first entry of `targets` that does not parse, with the parser's reason. */
  ghost predicate ReportsFirstInvalid(targets: seq<string>, parseNet: NetParser, error: ScanSetError)
  {
    exists k :: FirstInvalid(targets, parseNet, k) && error == InvalidTarget(targets[k], parseNet(targets[k]).error)
  }

  /**
   * Parses the target strings in order, stopping at the first one that does
   * not parse: it succeeds exactly when every entry parses, with the parsed
   * ranges in input order, and otherwise reports the first bad entry.
   */
  function ParseTargets(targets: seq<string>, parseNet: NetParser): (r: Result<seq<IpNet>, ScanSetError>)
    ensures r.Ok? <==> AllParse(targets, parseNet)
    ensures r.Ok? ==> ParsedInOrder(targets, r.value, parseNet)
    ensures r.Err? ==> ReportsFirstInvalid(targets, parseNet, r.error)
  {
    if targets == [] then
      Ok([])
    else
      match parseNet(targets[0])
      case Err(reason) =>
        assert FirstInvalid(targets, parseNet, 0);
        Err(InvalidTarget(targets[0], reason))
      case Ok(net) =>
        match ParseTargets(targets[1..], parseNet)
        case Err(error) =>
          ghost var k :| FirstInvalid(targets[1..], parseNet, k) && error == InvalidTarget(targets[1..][k], parseNet(targets[1..][k]).error);
          assert FirstInvalid(targets, parseNet, k + 1);
          Err(error)
        case Ok(nets) =>
          Ok([net] + nets)
  }

  /** The non-target fields of `scanSet` are those of `config`, unchanged. */
  ghost predicate CopiesSettings(config: ScanSetConfig, scanSet: ScanSet)
  {
    && scanSet.name == config.name
    && scanSet.description == config.description
    && scanSet.enabledPipelines == config.enabledPipelines
    && scanSet.depth == config.depth
    && scanSet.detectability == config.detectability
    && scanSet.targetRisk == config.targetRisk
    && scanSet.operatorRisk == config.operatorRisk
    && scanSet.rateLimit == config.rateLimit
    && scanSet.evidenceRetention == config.evidenceRetention
    && scanSet.randomization == config.randomization
    && scanSet.requiresScope == config.requiresScope
  }

  /**
   * Validates a configuration into a scan set. It succeeds exactly when every
   * allowed target parses; the scan set then holds the parsed targets in
   * input order and every other field unchanged. Otherwise no scan set is
   * produced and the error names the first target that does not parse.
   */
  function TryFrom(config: ScanSetConfig, parseNet: NetParser): (r: Result<ScanSet, ScanSetError>)
    ensures r.Ok? <==> AllParse(config.allowedTargets, parseNet)
    ensures r.Ok? ==> CopiesSettings(config, r.value)
    ensures r.Ok? ==> ParsedInOrder(config.allowedTargets, r.value.allowedTargets, parseNet)
    ensures r.Err? ==> ReportsFirstInvalid(config.allowedTargets, parseNet, r.error)
  {
    match ParseTargets(config.allowedTargets, parseNet)
    case Err(error) => Err(error)
    case Ok(allowedTargets) =>
      Ok(ScanSet(
        config.name,
        config.description,
        config.enabledPipelines,
        allowedTargets,
        config.depth,
        config.detectability,
        config.targetRisk,
        config.operatorRisk,
        config.rateLimit,
        config.evidenceRetention,
        config.randomization,
        config.requiresScope))
  }

  /** There is at most one first bad entry, so the reported one is determined. */
  lemma FirstInvalidUnique(targets: seq<string>, parseNet: NetParser, k1: int, k2: int)
    requires FirstInvalid(targets, parseNet, k1) && FirstInvalid(targets, parseNet, k2)
    ensures k1 == k2
  {
  }

  /**
   * Parsing a concatenation: a failure in the first part is the result, and
   * the second part is never looked at; otherwise the parsed parts are
   * concatenated, or the second part's failure is reported.
   */
  lemma {:induction false} ParseTargetsAppend(front: seq<string>, back: seq<string>, parseNet: NetParser)
    ensures ParseTargets(front + back, parseNet) ==
      match ParseTargets(front, parseNet)
      case Err(error) => Err(error)
      case Ok(frontNets) =>
        match ParseTargets(back, parseNet)
        case Err(error) => Err(error)
        case Ok(backNets) => Ok(frontNets + backNets)
  {
    if front == [] {
      assert front + back == back;
      match ParseTargets(back, parseNet)
      case Err(_) =>
      case Ok(backNets) => assert [] + backNets == backNets;
    } else {
      assert (front + back)[0] == front[0];
      assert (front + back)[1..] == front[1..] + back;
      ParseTargetsAppend(front[1..], back, parseNet);
      match parseNet(front[0])
      case Err(_) =>
      case Ok(net) =>
        match ParseTargets(front[1..], parseNet)
        case Err(_) =>
        case Ok(rest) =>
          match ParseTargets(back, parseNet)
          case Err(_) =>
          case Ok(backNets) =>
            assert [net] + (rest + backNets) == ([net] + rest) + backNets;
    }
  }

  /** When entry `k` is the first bad one, the result is the error for entry `k`. */
  lemma FailsAtFirstInvalid(targets: seq<string>, parseNet: NetParser, k: int)
    requires FirstInvalid(targets, parseNet, k)
    ensures ParseTargets(targets, parseNet) == Err(InvalidTarget(targets[k], parseNet(targets[k]).error))
  {
  }

  /**
   * Fail-fast: when entry `k` is the first bad one, the entries after it have
   * no influence on the result.
   */
  lemma StopsAtFirstInvalid(targets: seq<string>, parseNet: NetParser, k: int)
    requires FirstInvalid(targets, parseNet, k)
    ensures ParseTargets(targets, parseNet) == ParseTargets(targets[..k + 1], parseNet)
  {
  }

  // ---------------------------------------------------------------------------
  // Preview

  /** A read-only summary of a scan set, with policy warnings. */
  datatype ScanSetPreview = ScanSetPreview(
    applicablePipelines: seq<string>,
    estimatedDurationMinutes: u32,
    depth: Depth,
    detectability: Detectability,
    targetRisk: Risk,
    operatorRisk: Risk,
    violations: seq<string>)

  /** The warning of the one policy rule. */
  const NoiseWarning: string := "Aggressive detectability with minimal target risk may trigger noise"

  /**
   * The preview of a scan set. It never fails; it warns exactly when the
   * scan is aggressive against a minimal-risk target, and copies the
   * pipelines and the policy fields, with the duration taken from the depth.
   */
  function FromScanSet(scanSet: ScanSet): (preview: ScanSetPreview)
    ensures preview.violations != [] <==> scanSet.detectability == Aggressive && scanSet.targetRisk == Minimal
    ensures preview.violations == [] || preview.violations == [NoiseWarning]
    ensures preview.applicablePipelines == scanSet.enabledPipelines
    ensures preview.estimatedDurationMinutes == scanSet.depth.EstimatedDurationMinutes()
    ensures preview.depth == scanSet.depth && preview.detectability == scanSet.detectability
    ensures preview.targetRisk == scanSet.targetRisk && preview.operatorRisk == scanSet.operatorRisk
  {
    var violations :=
      if scanSet.detectability == Aggressive && scanSet.targetRisk == Minimal then [NoiseWarning] else [];
    ScanSetPreview(
      scanSet.enabledPipelines,
      scanSet.depth.EstimatedDurationMinutes(),
      scanSet.depth,
      scanSet.detectability,
      scanSet.targetRisk,
      scanSet.operatorRisk,
      violations)
  }

  /**
   * The preview reads only the pipelines and the four policy fields: two scan
   * sets that agree on those have the same preview, whatever their name,
   * targets, rate limit, retention, randomisation or scope.
   */
  lemma PreviewDependsOnlyOnPolicy(a: ScanSet, b: ScanSet)
    requires a.enabledPipelines == b.enabledPipelines && a.depth == b.depth
    requires a.detectability == b.detectability
    requires a.targetRisk == b.targetRisk && a.operatorRisk == b.operatorRisk
    ensures FromScanSet(a) == FromScanSet(b)
  {
  }

  /**
   * The preview of a validated configuration, in terms of the configuration
   * itself: validate a loaded configuration whose targets all parse, then
   * preview it.
   */
  lemma PreviewOfValidatedConfig(config: ScanSetConfig, parseNet: NetParser)
    requires AllParse(config.allowedTargets, parseNet)
    ensures TryFrom(config, parseNet).Ok?
    ensures var preview := FromScanSet(TryFrom(config, parseNet).value);
      && preview.applicablePipelines == config.enabledPipelines
      && preview.estimatedDurationMinutes == config.depth.EstimatedDurationMinutes()
      && preview.depth == config.depth && preview.detectability == config.detectability
      && preview.targetRisk == config.targetRisk && preview.operatorRisk == config.operatorRisk
      && (preview.violations != [] <==> config.detectability == Aggressive && config.targetRisk == Minimal)
  {
  }

  // ---------------------------------------------------------------------------
  // Registry

  /** An in-memory registry of scan sets keyed by name; a later insert replaces an earlier one. */
  class ScanSetStore {
    var sets: map<string, ScanSet>

    /** Every entry is stored under its own name. */
    ghost predicate Valid()
      reads this
    {
      forall name :: name in sets ==> sets[name].name == name
    }

    /** An empty registry. */
    constructor ()
      ensures Valid()
      ensures sets == map[]
    {
      sets := map[];
    }

    /** Stores `scanSet` under its name, replacing any entry of that name and leaving the others. */
    method Insert(scanSet: ScanSet)
      requires Valid()
      modifies this
      ensures Valid()
      ensures scanSet.name in sets && sets[scanSet.name] == scanSet
      ensures sets.Keys == old(sets.Keys) + {scanSet.name}
      ensures forall name :: name in old(sets) && name != scanSet.name ==> sets[name] == old(sets[name])
    {
      sets := sets[scanSet.name := scanSet];
    }

    /** The scan set stored under `name`, or None when there is none. */
    method Get(name: string) returns (r: Option<ScanSet>)
      requires Valid()
      ensures r == None <==> name !in sets
      ensures r.Some? ==> r.value == sets[name] && r.value.name == name
    {
      r := if name in sets then Some(sets[name]) else None;
    }

    /** Every stored scan set exactly once, in no particular order. */
    method List() returns (r: seq<ScanSet>)
      requires Valid()
      ensures |r| == |sets|
      ensures forall scanSet :: scanSet in r <==> scanSet in sets.Values
      ensures forall i, j :: 0 <= i < j < |r| ==> r[i] != r[j]
    {
      r := [];
      var remaining := sets.Keys;
      while remaining != {}
        invariant remaining <= sets.Keys
        invariant |r| + |remaining| == |sets|
        invariant forall i :: 0 <= i < |r| ==> r[i].name in sets && sets[r[i].name] == r[i] && r[i].name !in remaining
        invariant forall name :: name in sets && name !in remaining ==> sets[name] in r
        invariant forall i, j :: 0 <= i < j < |r| ==> r[i] != r[j]
        decreases remaining
      {
        var name :| name in remaining;
        r := r + [sets[name]];
        remaining := remaining - {name};
      }
      forall scanSet | scanSet in sets.Values
        ensures scanSet in r
      {
        var name :| name in sets && sets[name] == scanSet;
      }
    }
  }

  /** Inserting two scan sets of the same name: a lookup of that name finds the second. */
  method InsertTwiceKeepsLast(first: ScanSet, second: ScanSet) returns (found: Option<ScanSet>)
    requires first.name == second.name
    ensures found == Some(second)
  {
    var store := new ScanSetStore();
    store.Insert(first);
    store.Insert(second);
    found := store.Get(second.name);
  }
}
