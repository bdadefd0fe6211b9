# Scan sets: validation and preview, in Dafny

This project models the scan-set core of a security-scanning tool
(`src/scan_sets.rs`). A scan set is a named bundle of scan-campaign
parameters: the pipelines to run, the network ranges that may be targeted,
and the policy axes depth, detectability, target risk and operator risk.

The model covers four parts:

- **Policy enumerations** (`policy.dfy`, module `Policy`). `Depth`,
  `Detectability` and `Risk` are closed datatypes. Each has its default:
  `Depth.Default`, `Detectability.Default` and `DefaultRiskBalanced`. The
  total duration table is `Depth.EstimatedDurationMinutes`.
- **Configuration and validation** (`scan_sets.dfy`, module `ScanSets`).
  - `ConfigDocument` holds the fields of a deserialized document, where a
    field with a default may be absent. `FromDocument` fills in the
    defaults and yields the raw `ScanSetConfig`.
  - `TryFrom` turns a `ScanSetConfig` into a `ScanSet`. It parses every
    allowed target in order, through `ParseTargets`. It stops at the first
    entry that does not parse and reports that exact string in
    `InvalidTarget`. No scan set exists after a failure.
  - The CIDR parser of the `ipnet` library is not part of this model. It is
    a parameter `parseNet: NetParser` of every parsing operation, so each
    property holds for whatever the parser accepts. Its error,
    `AddrParseError`, carries no data, as in `ipnet`.
- **Preview** (`FromScanSet`). This is a total function from a scan set to
  its `ScanSetPreview`. It copies the pipelines and the policy fields, looks
  up the duration, and evaluates the one policy rule: aggressive
  detectability against a minimal-risk target.
- **Registry** (`ScanSetStore`). This is a class whose `sets` field maps
  names to scan sets. `Insert` overwrites, last write wins. `Get` looks up a
  name. `List` returns every stored set once, in an order the model leaves
  open. The invariant `Valid()` says that every entry is stored under its
  own name.

`scan_set_examples.dfy` (module `ScanSetExamples`) restates the
repository's three unit-test scenarios as lemmas. Each lemma holds for
every parser that accepts, or rejects, the literal the scenario uses.

## Model

| member | source | states |
|---|---|---|
| `Policy.Depth.EstimatedDurationMinutes` | src/scan_sets.rs:24-33 | The estimate is defined for every depth. It lies between 30 and 240 minutes; the entries themselves are stated by `Policy.DurationTable`. |
| `Policy.DurationTable` | src/scan_sets.rs:25-32 | The table is Low 30, Medium 60, High 120, Deep 240. |
| `Policy.DurationDeterminesDepth` | src/scan_sets.rs:25-32 | Two depths have the same estimate if and only if they are the same depth. This is derived from the four distinct table values, not a promise of the program. |
| `Policy.Depth.Default` | src/scan_sets.rs:18-22 | The default depth is Low; `ScanSets.FromDocument` states that an absent depth becomes Low. |
| `Policy.Detectability.Default` | src/scan_sets.rs:43-47 | The default detectability is Guided; `ScanSets.FromDocument` states that an absent detectability becomes Guided. |
| `Policy.DefaultRiskBalanced` | src/scan_sets.rs:93-95 | The default risk is Balanced; `ScanSets.FromDocument` states that an absent target or operator risk becomes Balanced. |
| `ScanSets.FromDocument` | src/scan_sets.rs:72-95 | An absent `allowed_targets` becomes the empty sequence. An absent depth becomes Low, an absent detectability Guided, and an absent target or operator risk Balanced. A field that is present is kept, and the required fields are copied. |
| `ScanSets.ParseTargets` | src/scan_sets.rs:117-126 | It succeeds if and only if every entry parses. On success it has one range per entry, and element i is the parse of entry i. On failure the error carries the first unparsable entry and the parser's reason. |
| `ScanSets.TryFrom` | src/scan_sets.rs:113-143 | It succeeds if and only if every target parses. On success the targets are parsed in order and the eleven other fields are copied unchanged. On failure no scan set is produced, and the error names the first unparsable target. |
| `ScanSets.FirstInvalidUnique` | src/scan_sets.rs:120-126 | There is at most one first unparsable entry, so the reported string is determined. |
| `ScanSets.ParseTargetsAppend` | src/scan_sets.rs:117-126 | Parsing `front + back` fails with the failure of `front` when `front` fails, and then `back` is never consulted. Otherwise it fails with the failure of `back`, or returns the two parsed parts concatenated. |
| `ScanSets.FailsAtFirstInvalid` | src/scan_sets.rs:120-126 | When entry k is the first bad one, the result is `InvalidTarget(entry k, reason)`. |
| `ScanSets.StopsAtFirstInvalid` | src/scan_sets.rs:120-126 | When entry k is the first bad one, the entries after k have no effect on the result: parsing the whole list gives the same result as parsing its first k + 1 entries. |
| `ScanSets.FromScanSet` | src/scan_sets.rs:188-210 | The preview never fails. Its violations are non-empty if and only if detectability is Aggressive and target risk is Minimal, and then they are exactly the one noise warning. The pipelines are copied, the duration comes from the depth, and the four policy fields are copied. |
| `ScanSets.PreviewDependsOnlyOnPolicy` | src/scan_sets.rs:200-208 | Two scan sets that agree on pipelines, depth, detectability and both risks have the same preview. |
| `ScanSets.PreviewOfValidatedConfig` | src/main.rs:43-45 | Validating a loaded configuration whose targets all parse, then previewing it, gives a preview stated in the configuration's own fields, including when the warning appears. |
| `ScanSets.ScanSetStore.constructor` | src/scan_sets.rs:158-162 | A new store is empty and satisfies its invariant. |
| `ScanSets.ScanSetStore.Insert` | src/scan_sets.rs:164-166 | After the insert, the set's name maps to the set, overwriting any earlier entry. The keys gain only that name, every other entry is unchanged, and the invariant is kept. |
| `ScanSets.ScanSetStore.Get` | src/scan_sets.rs:172-174 | It returns None if and only if the name is absent. Otherwise it returns the stored set, whose name is the one asked for. |
| `ScanSets.ScanSetStore.List` | src/scan_sets.rs:168-170 | It returns exactly the stored sets, each once: the length equals the number of entries, membership matches the stored values, and there are no repeats. |
| `ScanSets.InsertTwiceKeepsLast` | src/scan_sets.rs:164-174 | After inserting two sets with the same name, a lookup of that name returns the second one. |
| `ScanSetExamples.DeepAuditValidates` | src/scan_sets.rs:245-253 | The deep-audit document validates with depth Deep, detectability Aggressive, three pipelines and exactly its one target. |
| `ScanSetExamples.DeepAuditMinimalRiskWarns` | src/scan_sets.rs:255-265 | With target risk set to Minimal, the preview keeps Deep and Aggressive, estimates 240 minutes, and carries the noise warning. |
| `ScanSetExamples.BadTargetIsReported` | src/scan_sets.rs:267-286 | The bad document takes the default policy values. Its validation fails with `InvalidTarget("not-a-network", …)`. |

## Left out

- `load_config_from_path` (reading the file, JSON deserialization, error context) is I/O and foreign library code. `ConfigDocument` stands for its result.
- Serde's lowercase renaming of the enumeration variants, and its acceptance of unknown fields, concern only the JSON text, so they are not modelled.
- The CIDR grammar of IPv4 and IPv6 networks lives in the `ipnet` library. It is a function parameter here, and `IpNet` values are not constrained.
- The `Display` text of `ScanSetError` is not modelled.
- The command-line shell in `src/main.rs` is left out: argument parsing, pretty-printing the preview as JSON, and the exit status. Its validate-then-preview step, for a loaded configuration whose targets all parse, is stated by `PreviewOfValidatedConfig`.
- ScanSets.ScanSetStore.Get: returns a value, not a borrowed reference into the map, and requires the store invariant, which the constructor and `Insert` keep.
- ScanSets.ScanSetStore.List: returns values, not borrowed references, and requires the store invariant. It does not model the hash map's iteration order, only which sets are returned and that each appears once.
- `RateLimit` and `Randomization` are passed through without constraints, as the source does.
