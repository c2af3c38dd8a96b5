# rubric-gates in Dafny

This is a model of the core of rubric-gates. rubric-gates evaluates generated clinical-data artifacts against a three-tier rubric:

- tier 1 is the constitution;
- tier 2 holds the clinical invariants;
- tier 3 holds task-benchmark checks.

The evaluator turns the tier results into a gate decision: approve, revise or block. It records the outcome in a certificate. A certificate can later be checked against the certificate schema and against the digest of the artifact it certifies.

Around this sit:

- the rubric loader, which files the YAML rubric suites of `tier1/`, `tier2/` and `tier3/` by tier;
- the dataset manifests, which record per-file digests and a Merkle root of a dataset directory and can re-verify a directory against them;
- the benchmark harness, which evaluates and certifies every generated artifact of every configured dataset and tallies the decisions.

The model is organised by the source's own structure:

| file | module | models |
|---|---|---|
| `json.dfy` | `Json` | Python values after parsing: ordered dicts, `dict.get`, item assignment, `{**a, **b}`, truthiness, uncaught exceptions as `Fault` values |
| `text.dfy` | `Text` | ASCII `lower()`, substring search, integer formatting, UTF-8 encoding, the SHA-256 oracle type |
| `order.dfy` | `Order` | Python's stable `sorted` (insertion sort), lexicographic comparison of lists and strings |
| `schema.dfy` | `Schema` | what the code sees of JSON-Schema validation: errors with their `absolute_path` and message |
| `rubric_loader.dfy` | `Rubrics` | `rubric_loader.py` |
| `evaluator.dfy` | `Evaluator` | `evaluator.py`: checks, tiers, the gate decision, `evaluate` |
| `certificate.dfy` | `Certificates` | `evaluator.py`: the `to_dict` forms and `create_certificate` |
| `verify.dfy` | `Verifier` | `verify.py` |
| `manifest.dfy` | `Manifest` | `datasets/manifest.py` |
| `harness.dfy` | `Harness` | `harness.py` |

## How the model is written

Each operation that the source writes as a loop is a Dafny `method` with the same loop. Its `ensures` ties the result to a specification function. Lemmas state what the source promises about that function: round trips, counts, orderings, iff-characterisations of the error and success paths, and "nothing else changes".

The harness and the evaluator are classes with the fields the source gives them. Everything purely functional in the source is a function.

The following are parameters of the model rather than computations:

- the JSON-Schema validator;
- SHA-256;
- `Path.match`;
- the artifact generator;
- certificate ids, creation times and durations, given per dataset by its position in the run configuration;
- the clock;
- directory listings and file contents.

Python dicts are kept as insertion-ordered association lists, because the source's results depend on that order. Examples are which feature's unit is examined first and where the stamped provenance keys land.

An exception the source raises and does not catch is an `Err(Fault)` result, so every error path that the Python code implicitly has is a value of the model rather than a precondition.

## Model

| member | source | states |
|---|---|---|
| Rubrics.RubricSuite.GetCheck | src/rubric_gates/rubric_loader.py:60-64 | None exactly when no check has the id; otherwise the first check with that id |
| Rubrics.ParseCheck | src/rubric_gates/rubric_loader.py:93-104 | a parsed check comes from a dict whose `id` it keeps; absent `required_fixes` gives [] and absent `scoring` gives None |
| Rubrics.SuiteData | src/rubric_gates/rubric_loader.py:90 | succeeds exactly when the document is a dict whose `rubric_suite` entry is a dict, and yields that dict |
| Rubrics.SuiteFields | src/rubric_gates/rubric_loader.py:106-112 | the suite keeps the built checks and the `id` field; absent `purpose` gives "" |
| Rubrics.ParseSuiteChecks | src/rubric_gates/rubric_loader.py:92-104 | a loaded suite has one check per entry of `checks`, each the parse of the entry at its position |
| Rubrics.LoaderMessages | src/rubric_gates/rubric_loader.py:87 | one message per schema error, "<dotted path>: <message>" |
| Rubrics.SuiteOf | src/rubric_gates/rubric_loader.py:78-112 | a document with schema errors is rejected with exactly those messages; a loaded suite comes from a document the schema accepts |
| Rubrics.BuildSuite | src/rubric_gates/rubric_loader.py:90-112 | the check-appending loop builds exactly the parsed suite or raises its first fault |
| Rubrics.LoadRubricFile | src/rubric_gates/rubric_loader.py:78-112 | returns or raises what `SuiteOf` says |
| Rubrics.LoadedSuite | src/rubric_gates/rubric_loader.py:134-140 | a listed file contributes a suite exactly when its name ends in ".yaml" and it loads, and then contributes its suite |
| Rubrics.CatalogOf | src/rubric_gates/rubric_loader.py:115-142 | the catalog has exactly the tiers 1, 2 and 3 |
| Rubrics.CatalogBelowStep | src/rubric_gates/rubric_loader.py:125-137 | loading the next tier directory fills in only its own tier, which was empty before |
| Rubrics.LoadTier | src/rubric_gates/rubric_loader.py:134-140 | the file loop appends the suites of the loadable YAML files, in listing order |
| Rubrics.LoadAllRubrics | src/rubric_gates/rubric_loader.py:115-142 | the method builds exactly the catalog of the tree, with keys 1, 2 and 3 |
| Rubrics.TierDirDigit | src/rubric_gates/rubric_loader.py:132 | the last character of the k-th tier directory name is the digit k+1 |
| Rubrics.BadFileSkipped | src/rubric_gates/rubric_loader.py:135-140 | a file that is not YAML or fails to load is skipped and does not disturb the files around it |
| Rubrics.GoodFileKept | src/rubric_gates/rubric_loader.py:134-137 | a YAML file that loads contributes its suite at its place in the listing |
| Rubrics.SuiteFromItsDirectory | src/rubric_gates/rubric_loader.py:127-137 | every suite filed under tier n comes from a loadable YAML file of directory `tier<n>`; its own `tier` field plays no part |
| Rubrics.PutVersionsAbsent | src/rubric_gates/rubric_loader.py:149-151 | an id that no suite carries keeps its previous entry |
| Rubrics.PutVersionsLast | src/rubric_gates/rubric_loader.py:149-151 | an id holds the version of the last suite carrying it |
| Rubrics.VersionMapAbsent | src/rubric_gates/rubric_loader.py:145-152 | an id no suite carries is absent from the versions |
| Rubrics.VersionMapLast | src/rubric_gates/rubric_loader.py:145-152 | the versions map an id to the version of the last suite with that id |
| Rubrics.RecordVersions | src/rubric_gates/rubric_loader.py:150-151 | the inner loop assigns each suite's version under its id, in order |
| Rubrics.GetRubricVersions | src/rubric_gates/rubric_loader.py:145-152 | the result is the id-to-version map of all suites, tier 1 first |
| Evaluator.DecisionName | src/rubric_gates/evaluator.py:67 | a decision is recorded as one of "approve", "revise", "block" |
| Evaluator.KindOf | src/rubric_gates/evaluator.py:123-228 | an id reaches the unknown-check default exactly when it is none of the ten implemented ids |
| Evaluator.DeterminismCheck | src/rubric_gates/evaluator.py:124-133 | passes exactly when both `deterministic_executor` and `version` are truthy; a message exactly on failure |
| Evaluator.AuditCheck | src/rubric_gates/evaluator.py:135-143 | raises exactly when `provenance` is not a dict; otherwise passes exactly when `audit_trace_id` is truthy |
| Evaluator.PhiCheck | src/rubric_gates/evaluator.py:145-158 | raises exactly when `inputs_summary` is not a string; otherwise fails exactly when a PHI marker occurs in its lower-cased form |
| Evaluator.PhiCheckSubstrings | src/rubric_gates/evaluator.py:149-153 | passes exactly when no marker is a substring of the lower-cased summary, at any position |
| Evaluator.AllHaveUnits | src/rubric_gates/evaluator.py:168 | `all(f.get("unit") ...)` is true exactly when every feature is a dict with a truthy unit |
| Evaluator.ValuesOf | src/rubric_gates/evaluator.py:168 | `features.values()` in insertion order |
| Evaluator.UnitCheck | src/rubric_gates/evaluator.py:165-175 | no or an empty feature table passes; a truthy table raises unless it is a dict whose values, examined in order, are dicts up to the first without a unit; otherwise it passes exactly when `all` holds; threshold 1.0, score 1.0 or 0.0 and a message exactly on failure |
| Evaluator.UnitCheckPasses | src/rubric_gates/evaluator.py:167-168 | the check passes exactly when there is no feature table or every feature in it is a dict with a truthy unit |
| Evaluator.LeakageCheck | src/rubric_gates/evaluator.py:191-198 | passes exactly when `has_outcome_leakage` is falsy; a message exactly on failure |
| Evaluator.JaccardThreshold | src/rubric_gates/evaluator.py:213 | 0.7 for a falsy scoring; otherwise the scoring's `threshold`, 0.7 by default |
| Evaluator.JaccardCheck | src/rubric_gates/evaluator.py:210-221 | score and threshold are recorded as given, a bool staying a bool; it passes exactly when score >= threshold, a bool counting as 1 or 0; the score is `cohort_jaccard` with default 0.0; the threshold is the rubric's `scoring.threshold`, else 0.7; it raises exactly when the scoring cannot be read or the score or threshold is neither a number nor a bool, and the fault is `ValueError` exactly when both are strings (they compare, but `:.2f` rejects the string) |
| Evaluator.JaccardDefault | src/rubric_gates/evaluator.py:212-214 | without a scoring threshold a number or bool score is compared with 0.7, and both are recorded, the score as given |
| Evaluator.EvaluateCheck | src/rubric_gates/evaluator.py:109-228 | the result keeps the check id; only the four checks that read dicts or compare can raise; unknown ids pass with the "defaulting to pass" message |
| Evaluator.FailOpen | src/rubric_gates/evaluator.py:223-228 | an unknown check id never raises and always passes |
| Evaluator.TierOutcomeWith | src/rubric_gates/evaluator.py:230-246 | the tier result has the tier number and passes exactly when all its checks pass |
| Evaluator.TierOutcomeChecks | src/rubric_gates/evaluator.py:237-246 | one result per check of the tier's suites, each that check's evaluation, in order |
| Evaluator.TierOutcomeFault | src/rubric_gates/evaluator.py:240-243 | a tier raises exactly the fault of its first raising check, all earlier ones succeeding |
| Evaluator.EmptyTierPasses | src/rubric_gates/evaluator.py:237-246 | a tier without suites passes with no checks |
| Evaluator.DecisionOf | src/rubric_gates/evaluator.py:319-335 | block iff tier 1 or tier 2 fails; revise iff only tier 3 fails; approve iff none fails |
| Evaluator.GateOf | src/rubric_gates/evaluator.py:285-343 | deferral is recommended exactly on block, and then it is to "human_review" |
| Evaluator.ReasonsPerFailure | src/rubric_gates/evaluator.py:290-317 | exactly one blocking reason per failing check, each naming a failing check, every failing check named, in the order of the checks |
| Evaluator.ReasonsInOrder | src/rubric_gates/evaluator.py:292-295 | a tier's reasons are "Tier n violation: id" of its failing checks at strictly increasing positions, and every failing check is included |
| Evaluator.ReasonsCount | src/rubric_gates/evaluator.py:293-295 | the number of reasons equals the number of failing checks |
| Evaluator.ReasonsCover | src/rubric_gates/evaluator.py:293-295 | every failing check's "Tier n violation: id" is among the reasons |
| Evaluator.ReasonsNamed | src/rubric_gates/evaluator.py:293-295 | every reason names a failing check |
| Evaluator.FixesCount | src/rubric_gates/evaluator.py:293-297 | there is one required fix per failing check with a non-empty message |
| Evaluator.FixesInOrder | src/rubric_gates/evaluator.py:293-297 | the fixes are the messages of the failing checks that have one, at increasing positions, and every such check is included |
| Evaluator.FixesPerFailure | src/rubric_gates/evaluator.py:293-297 | every fix is the message of a failing check, and every failing check with a message gives its message |
| Evaluator.GateReasonsInOrder | src/rubric_gates/evaluator.py:287-317 | for consistent tier results, each blocking reason names a failing check of tiers 1 to 3, in increasing (tier, position) order, so tier 1 reasons come before tier 2 and tier 2 before tier 3, and every failing check of those tiers is named |
| Evaluator.GateReasons | src/rubric_gates/evaluator.py:287-317 | for consistent tier results, there is one blocking reason per failing check of tiers 1 to 3, every such check gives its "Tier n violation: id", and every reason names such a check |
| Evaluator.GateFixes | src/rubric_gates/evaluator.py:287-317 | for consistent tier results, the required fixes are exactly the messages of the failing checks of tiers 1 to 3 that have one, one per such check |
| Evaluator.ReasonsEmpty | src/rubric_gates/evaluator.py:293-295 | no reasons come from a tier exactly when all its checks pass |
| Evaluator.ApproveIffNoReasons | src/rubric_gates/evaluator.py:285-343 | for tier results as `evaluate_tier` builds them, approve exactly when there is no blocking reason |
| Evaluator.DecisionMonotone | src/rubric_gates/evaluator.py:319-335 | failing more tiers never improves the decision |
| Evaluator.FailingTierBlocks | src/rubric_gates/evaluator.py:320-329 | a failing tier 1 or tier 2 blocks with deferral to human review |
| Evaluator.AppendViolations | src/rubric_gates/evaluator.py:293-297 | the loop appends one reason per failing check and each non-empty message of a failing check |
| Evaluator.ComputeGateDecision | src/rubric_gates/evaluator.py:285-343 | the method computes exactly the gate decision of the tier results |
| Evaluator.PutTierVersionsLookup | src/rubric_gates/evaluator.py:276-277 | the tier's key ends with the last suite's version; other keys are unchanged |
| Evaluator.TierVersionsLookup | src/rubric_gates/evaluator.py:273-277 | `rubric_versions["tier<n>"]` is the version of tier n's last suite, absent for a tier without suites |
| Evaluator.ResultsBelow | src/rubric_gates/evaluator.py:266-268 | evaluated tiers are exactly those run so far, each consistent with its checks |
| Evaluator.ResultsBelowFault | src/rubric_gates/evaluator.py:266-268 | once a tier raises, evaluating the later tiers ends with that same fault |
| Evaluator.EvaluationOf | src/rubric_gates/evaluator.py:248-283 | an evaluation has tiers 1, 2 and 3, each consistent, and the gate decision computed from them |
| Evaluator.RubricEvaluator.constructor | src/rubric_gates/evaluator.py:103-107 | the evaluator holds the catalog of its rubrics directory, with tiers 1, 2 and 3 |
| Evaluator.RubricEvaluator.EvaluateTier | src/rubric_gates/evaluator.py:230-246 | the method returns the tier outcome of the tier's suites, passing exactly when all checks pass |
| Evaluator.RubricEvaluator.Evaluate | src/rubric_gates/evaluator.py:248-283 | the method returns or raises exactly the evaluation of the catalog |
| Evaluator.RunTiers | src/rubric_gates/evaluator.py:266-268 | the tier loop computes the results of tiers 1, 2 and 3 |
| Evaluator.CollectTierVersions | src/rubric_gates/evaluator.py:273-277 | the version loop computes the tier-keyed versions |
| Evaluator.RecordTierVersions | src/rubric_gates/evaluator.py:276-277 | the inner loop assigns each suite's version under the tier key |
| Evaluator.RunChecks | src/rubric_gates/evaluator.py:237-246 | the suite and check loops compute the tier outcome |
| Evaluator.AppendResults | src/rubric_gates/evaluator.py:241-243 | the inner loop extends the results by one evaluation per check, or stops at the first fault |
| Certificates.Optional | src/rubric_gates/evaluator.py:54-56 | `**({k: v} if b else {})` holds key k with value v exactly when b |
| Certificates.CheckRoundTrip | src/rubric_gates/evaluator.py:51-57 | reading a serialised check gives it back, losing only an empty message |
| Certificates.CheckFields | src/rubric_gates/evaluator.py:51-57 | each field of a serialised check holds the value it was written from, a bool score or threshold staying a bool |
| Certificates.ChecksToJson | src/rubric_gates/evaluator.py:50-59 | one serialised entry per check, in order |
| Certificates.TierRoundTrip | src/rubric_gates/evaluator.py:47-60 | a serialised tier gives back its flag and each of its checks, in order |
| Certificates.MissingTierIsEmptyTier | src/rubric_gates/evaluator.py:365-367 | the placeholder for a missing tier is exactly the serialised tier without checks |
| Certificates.DecisionNameRoundTrip | src/rubric_gates/evaluator.py:67 | a recorded decision name reads back to the decision |
| Certificates.DecisionRoundTrip | src/rubric_gates/evaluator.py:73-82 | a serialised gate decision gives back decision, reasons, fixes and the deferral flag |
| Certificates.GateDeferralRecorded | src/rubric_gates/evaluator.py:78-81 | a computed decision is recorded with deferral to "human_review", recommended exactly when it blocks |
| Certificates.VersionsToJson | src/rubric_gates/evaluator.py:373 | the versions are recorded key by key, in order |
| Certificates.ProvenanceBase | src/rubric_gates/evaluator.py:371-373 | the first provenance entries: the caller's ids or the derived ones, and the evaluation's versions |
| Certificates.ProvenanceIds | src/rubric_gates/evaluator.py:371-372 | `audit_trace_id` and `run_manifest_id` are the caller's when given, else "trace_" / "manifest_" plus the certificate id |
| Certificates.ProvenancePassThrough | src/rubric_gates/evaluator.py:373-374 | every other caller key is passed through unchanged; `rubric_versions` is the evaluation's unless the caller gave one |
| Certificates.CertificateContents | src/rubric_gates/evaluator.py:360-369 | each tier entry is the evaluation's, or the empty passing tier; artifact and gate decision are recorded as given |
| Certificates.CertificateTier | src/rubric_gates/evaluator.py:364-368 | `rubrics["tier_<n>"]` is the evaluation's tier n, or the empty passing tier |
| Certificates.CertificateDecision | src/rubric_gates/evaluator.py:369 | the decision read back from a certificate is the name of its gate decision |
| Schema.ElemLeLinear | src/rubric_gates/verify.py:65 | the path-element order is a linear order |
| Schema.ErrorLePreorder | src/rubric_gates/verify.py:65 | ordering errors by `list(e.absolute_path)` is a total preorder |
| Order.SortSorted | src/rubric_gates/verify.py:65 | `sorted` yields a sorted permutation of its input |
| Order.SortStable | src/rubric_gates/verify.py:65 | `sorted` is stable: elements that sort alike keep their input order |
| Order.SortPermutationInvariant | src/rubric_gates/datasets/manifest.py:124 | under a linear order, `sorted` depends only on the multiset of its input |
| Verifier.ErrorLines | src/rubric_gates/verify.py:66-68 | one "<location>: <message>" line per schema error, in order |
| Verifier.VerifyOutcome | src/rubric_gates/verify.py:59-92 | a returned result is valid exactly when it has no errors |
| Verifier.VerifyCertificate | src/rubric_gates/verify.py:59-92 | the method returns or raises exactly the outcome of the certificate |
| Verifier.FormatErrors | src/rubric_gates/verify.py:66-68 | the formatting loop computes the error lines of the sorted errors |
| Verifier.VerifyFileOutcome | src/rubric_gates/verify.py:95-99 | a document that is not an object is invalid with the single "must be an object" error; else the certificate's outcome |
| Verifier.SchemaErrorsShortCircuit | src/rubric_gates/verify.py:70-71 | with schema errors the result is invalid and independent of the artifact and the digest |
| Verifier.SchemaErrorsReported | src/rubric_gates/verify.py:65-71 | the errors reported are all schema errors, as a permutation sorted by path; each is reported |
| Verifier.SchemaErrorsStable | src/rubric_gates/verify.py:65 | errors at the same path are reported in the order the validator produced them |
| Verifier.CleanWithoutArtifactValid | src/rubric_gates/verify.py:73-92 | a clean certificate without an artifact is valid with no errors |
| Verifier.HashMissingReported | src/rubric_gates/verify.py:74-79 | with an artifact, "artifact.hash missing" is reported exactly when the recorded hash is absent, not a string, or empty |
| Verifier.HashCompared | src/rubric_gates/verify.py:81-92 | with a usable hash, valid exactly when the digests agree, else the three mismatch lines |
| Verifier.VerifyFault | src/rubric_gates/verify.py:73-74 | it raises exactly when the schema pass is clean, an artifact is given and `artifact` is not a dict |
| Manifest.NextLevel | src/rubric_gates/datasets/manifest.py:128-135 | a level of n digests yields (n+1)/2, strictly fewer while n > 1 |
| Manifest.MerkleRoot | src/rubric_gates/datasets/manifest.py:118-137 | no hashes give the digest of the empty string; one hash is its own root |
| Manifest.MerklePermutation | src/rubric_gates/datasets/manifest.py:123-124 | the root depends only on the multiset of hashes, not their order |
| Manifest.MerkleTwo | src/rubric_gates/datasets/manifest.py:124-134 | two hashes in either order combine smaller-first |
| Manifest.MerkleTwoSorted | src/rubric_gates/datasets/manifest.py:129-134 | two sorted hashes combine into the digest of their concatenation |
| Manifest.ComputeMerkleRoot | src/rubric_gates/datasets/manifest.py:118-137 | the while loop computes the Merkle root |
| Manifest.CombinePairs | src/rubric_gates/datasets/manifest.py:128-135 | the pair loop computes the next level, the odd last digest paired with itself |
| Manifest.PairDigest | src/rubric_gates/datasets/manifest.py:130-134 | the loop body yields the digest of the pair at an even position, or of the last digest with itself |
| Manifest.EntryLePreorder | src/rubric_gates/datasets/manifest.py:174 | paths compared part by part form a total preorder |
| Manifest.Infos | src/rubric_gates/datasets/manifest.py:187-199 | one file record per kept entry, in order |
| Manifest.HashesOf | src/rubric_gates/datasets/manifest.py:203 | the digests of the records, in order |
| Manifest.ManifestOf | src/rubric_gates/datasets/manifest.py:140-217 | raises exactly when the directory does not exist; a created manifest's totals and root agree with its records |
| Manifest.CreateManifest | src/rubric_gates/datasets/manifest.py:140-217 | the method returns or raises exactly what `ManifestOf` says |
| Manifest.RecordFiles | src/rubric_gates/datasets/manifest.py:174-200 | the loop records the kept entries of the sorted listing and sums their sizes |
| Manifest.MatchesAny | src/rubric_gates/datasets/manifest.py:179-185 | the early-exit pattern loop skips an entry exactly when some pattern matches it |
| Manifest.KeptEntriesSorted | src/rubric_gates/datasets/manifest.py:174 | records follow the sorted order of paths |
| Manifest.KeptEntriesMembers | src/rubric_gates/datasets/manifest.py:174-185 | an entry is recorded exactly when it is a listed regular file that no pattern matches |
| Manifest.EntryError | src/rubric_gates/datasets/manifest.py:241-254 | no error for a record exactly when its file is present with the recorded size and digest |
| Manifest.VerifyManifestOf | src/rubric_gates/datasets/manifest.py:226-267 | valid exactly when the error list is empty |
| Manifest.VerifyManifest | src/rubric_gates/datasets/manifest.py:226-267 | the method returns exactly the verification outcome |
| Manifest.CheckEntries | src/rubric_gates/datasets/manifest.py:240-254 | the first loop reports each record's error, in order |
| Manifest.CollectCurrentHashes | src/rubric_gates/datasets/manifest.py:257-261 | the second loop collects the digests of the files present, in record order |
| Manifest.VerifyErrorCount | src/rubric_gates/datasets/manifest.py:240-267 | at most one error per record plus one for the root |
| Manifest.VerifyValidIff | src/rubric_gates/datasets/manifest.py:226-267 | valid exactly when every record is intact and the current root is the recorded one |
| Manifest.EntryErrorsReported | src/rubric_gates/datasets/manifest.py:240-254 | every damaged record's error is reported |
| Manifest.VerifyIntact | src/rubric_gates/datasets/manifest.py:257-265 | with all records intact the current digests are the recorded ones, so validity is the root comparison |
| Manifest.UnlistedFileIgnored | src/rubric_gates/datasets/manifest.py:240-261 | adding or changing a file the manifest does not list never changes the outcome |
| Manifest.CreatedManifestVerifies | src/rubric_gates/datasets/manifest.py:140-267 | a created manifest verifies, with no errors, against a directory holding the recorded contents |
| Manifest.FilesToJson | src/rubric_gates/datasets/manifest.py:67-75 | one serialised entry per record, in order |
| Manifest.FileRoundTrip | src/rubric_gates/datasets/manifest.py:86-94 | reading a serialised file record gives it back |
| Manifest.FilesRoundTrip | src/rubric_gates/datasets/manifest.py:86-94 | reading the serialised records gives them back, in order |
| Manifest.ManifestHeaderLookups | src/rubric_gates/datasets/manifest.py:57-63 | the saved dict holds the ids, timestamps, creator and source under their keys |
| Manifest.ManifestBodyLookups | src/rubric_gates/datasets/manifest.py:64-76 | the saved dict holds totals, root, records and metadata under their keys |
| Manifest.ManifestRoundTrip | src/rubric_gates/datasets/manifest.py:55-106 | `from_dict(to_dict(m))` gives m back |
| Harness.InjectProvenance | src/rubric_gates/harness.py:174-177 | stamping succeeds exactly when `provenance` is absent or a dict |
| Harness.ProvenanceInjected | src/rubric_gates/harness.py:174-177 | the provenance then names the dataset id and version, keeps every other entry, and the rest of the context is unchanged |
| Harness.CertificatesOf | src/rubric_gates/harness.py:172-184 | one certificate per generated pair, or the first fault |
| Harness.Tally | src/rubric_gates/harness.py:186-193 | the three counters add up to the number of certificates |
| Harness.TallyMatches | src/rubric_gates/harness.py:186-193 | counting recorded decision names counts the decisions themselves |
| Harness.DatasetOutcome | src/rubric_gates/harness.py:156-205 | the result names the dataset, has one certificate per pair, and its counters add up to the artifact count |
| Harness.CertificateRecordsDecision | src/rubric_gates/harness.py:180-187 | each certificate records the gate decision of its artifact's evaluation |
| Harness.DatasetCounts | src/rubric_gates/harness.py:172-193 | a dataset's counters are the counts of its gate decisions |
| Harness.ResultsInOrder | src/rubric_gates/harness.py:121-123 | one result per configured dataset, each its outcome, in order |
| Harness.SumsBalanced | src/rubric_gates/harness.py:128-131 | the summed counters add up to the summed artifact counts |
| Harness.RunBalanced | src/rubric_gates/harness.py:121-131 | every dataset result of a run splits its artifacts into the three counts |
| Harness.RatesAddUp | src/rubric_gates/harness.py:133-138 | with artifacts the three rates sum to 1; without, all three are 0 |
| Harness.SampleCheck | src/rubric_gates/evaluator.py:124-228 | on a context and artifact that read like the stamped sample (`SampleReads`, which `SampleLookups` proves of the test's sample) every check evaluates and passes, except a jaccard check whose threshold the score does not reach |
| Harness.SampleDecision | tests/test_harness.py:20-51 | against rubrics whose jaccard checks sit in tier 3 with a threshold between 0.5 and 0.85 (0.7 by default), the sample with overlap 0.85 is approved and the one with 0.5 is revised |
| Harness.SampleOutcome | src/rubric_gates/harness.py:156-205 | a dataset of those two samples gives two artifacts, pass 1, revise 1, block 0 and pass rate 0.5 |
| Harness.SampleRun | tests/test_harness.py:20-85 | the test's generator, evaluated by the harness, gives artifact count 2, pass 1, revise 1 and pass rate 0.5 |
| Harness.BenchmarkHarness.constructor | src/rubric_gates/harness.py:98-100 | the harness keeps its configuration and an evaluator over its rubrics tree |
| Harness.BenchmarkHarness.EvaluateDataset | src/rubric_gates/harness.py:156-205 | the artifact loop returns or raises exactly the dataset outcome |
| Harness.BenchmarkHarness.CountDecision | src/rubric_gates/harness.py:186-193 | "approve" increments the pass count, "revise" the revise count, anything else the block count |
| Harness.BenchmarkHarness.CertifyArtifact | src/rubric_gates/harness.py:173-184 | the loop body stamps, evaluates and certifies one artifact |
| Harness.BenchmarkHarness.Run | src/rubric_gates/harness.py:104-154 | the dataset loop and summary give exactly the run outcome, with versions from the default rubrics directory |

## Left out

- File I/O, directory creation, `_save_result`, `DatasetManifest.save`, `load_manifest`, `create_run_config`, `generate_run_manifest` and the CLI are not modelled. They only read, write or package data around the modelled operations.
- YAML and JSON parsing and the loading of the JSON schemas are outside the model. The parsed document is given, as `None` when a file cannot be read or parsed. The validator is a parameter.
- SHA-256, `Path.match`, `uuid.uuid4`, `datetime.now`, `time.time`, `stat` and `st_mtime` are parameters: certificate ids, creation times, durations, modification times and started/completed timestamps come from the caller.
- The default rubrics directory of `RubricEvaluator()` and `get_rubric_versions()` is a parameter (a rubrics tree). `run` reports the versions of the default directory, not of `config.rubrics_dir`. The model keeps this as written.
- Evaluator.EvaluateCheck: for tier3.sql_executes the source stores the raw `sql_executed` value as `passed`. The model stores its truthiness, which is how every later use of `passed` reads it; only the serialised `pass` field of a non-bool value differs.
- Evaluator.JaccardCheck: the message keeps only the direction of the comparison, not the `{:.2f}` formatting of the score and threshold, because float formatting is not modelled.
- Floats are modelled as reals, and Python's bool-as-int comparison is modelled for the jaccard score and threshold, which are recorded as given. Floating-point rounding of `count / total` is not modelled.
- Exceptions are modelled by their class and a descriptive message. Python's exact message text is not reproduced.
- Rubrics.ParseCheck: a field of the wrong type is reported as malformed. The source would store the raw value in the frozen dataclass; this choice keeps the types of `RubricCheck` exact.
- Rubrics.SuiteFields: a suite whose `id` or `version` is not a string, whose `tier` is not an integer, or whose `purpose` is not a string is reported as malformed and skipped. The source keeps the raw values in the frozen dataclass, so such a suite is still evaluated and its version reported.
- Manifest.ManifestFromDict: a field of the wrong type is a `TypeError`. The source stores the raw value.
- Harness.InjectProvenance: the in-place update of the caller's context dict is modelled by returning the new context. The aliasing of the caller's dict is not modelled.
- Text.Lower: folds ASCII letters only, because Unicode case mapping is not modelled.
- Comparing a dict key with a list index in a schema error path raises `TypeError` in Python. The model orders such elements instead (indices before keys). Two paths into one document first differ inside the same container, so this choice never decides a real comparison.
- The recursive directory listing is given with each entry's path parts relative to the dataset directory. `Path.match` is applied to those parts, since the absolute prefix is not modelled. Manifest errors for unreadable files are not modelled.
- The `tier` field of a rubric suite is read but not checked against its directory, as in the source.
- Concurrency (the `parallel` flag of `RunConfig`) plays no part in the source's logic and is only carried as data.
- Verifier.VerifyOutcome: the artifact is given by its bytes, so a given artifact path at which no file exists, where `_sha256_file` raises `FileNotFoundError`, is not modelled.
- Manifest.VerifyManifestOf: the dataset is a map from path to bytes, so a directory at a recorded path is reported as a missing file. The source finds that it exists and then reports a size mismatch or raises `IsADirectoryError`.
