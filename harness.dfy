/** The benchmark harness: for every configured dataset, each generated
    (artifact, context) pair gets its provenance stamped with the dataset,
    is evaluated and certified, and its gate decision is tallied; a run
    collects the per-dataset results and sums them into a summary. The
    artifact generator, certificate ids, clocks and durations are
    parameters. */
module Harness {
  import opened Json
  import opened Text
  import opened Schema
  import opened Rubrics
  import opened Evaluator
  import opened Certificates

  datatype DatasetSpec = DatasetSpec(
    id: string,
    name: string,
    source: string,
    version: string,
    hash: Option<string>,
    adapter: Option<string>)

  datatype RunConfig = RunConfig(
    runId: string,
    datasets: seq<DatasetSpec>,
    rubricsDir: Option<string>,
    outputDir: string,
    seed: int,
    parallel: bool)

  datatype DatasetResult = DatasetResult(
    datasetId: string,
    artifactCount: int,
    passCount: int,
    reviseCount: int,
    blockCount: int,
    certificates: seq<Json>,
    durationSeconds: real)

  datatype Summary = Summary(
    totalDatasets: int,
    totalArtifacts: int,
    passRate: real,
    reviseRate: real,
    blockRate: real,
    totalDurationSeconds: real)

  datatype BenchmarkResult = BenchmarkResult(
    runId: string,
    startedAt: string,
    completedAt: string,
    rubricVersions: Dict<string>,
    datasetResults: seq<DatasetResult>,
    summary: Summary)

  /** An artifact and the context it is evaluated in. */
  type Pair = (Dict<Json>, Dict<Json>)

  type Generator = DatasetSpec -> seq<Pair>

  /** What the harness takes from the outside world while it evaluates one
      dataset: the id and creation time of the certificate of artifact `i`,
      and the time spent on the dataset. */
  datatype Environment = Environment(
    certificateId: nat -> string,
    createdAt: nat -> string,
    duration: real)

  /** The environment of the dataset at each position of the configuration. */
  type Clocks = nat -> Environment

  // ---------------------------------------------------------------------
  // One artifact
  // ---------------------------------------------------------------------

  /** The context after `provenance` is created when absent and given the
      dataset's id and version; a provenance that is not a dict cannot be
      assigned into. */
  function InjectProvenance(context: Dict<Json>, spec: DatasetSpec): (r: Result<Dict<Json>, Fault>)
    ensures r.Ok? <==> GetOr(context, "provenance", Obj([])).Obj?
  {
    var provenance := GetOr(context, "provenance", Obj([]));
    if !provenance.Obj? then Err(TypeError("provenance does not support item assignment"))
    else
      var stamped := Put(Put(provenance.fields, "dataset_id", Str(spec.id)), "dataset_version", Str(spec.version));
      Ok(Put(context, "provenance", Obj(stamped)))
  }

  /** `context.get("provenance", {})`. */
  function ProvenanceIn(context: Dict<Json>): Dict<Json>
  {
    var provenance := Lookup(context, "provenance");
    if provenance.Some? && provenance.value.Obj? then provenance.value.fields else []
  }

  /** The stamped provenance names the dataset and keeps every other entry
      the caller gave; the rest of the context is untouched. */
  lemma ProvenanceInjected(context: Dict<Json>, spec: DatasetSpec, k: string)
    requires InjectProvenance(context, spec).Ok?
    ensures var ctx := InjectProvenance(context, spec).value;
            var before := GetOr(context, "provenance", Obj([])).fields;
            Lookup(ProvenanceIn(ctx), "dataset_id") == Some(Str(spec.id))
            && Lookup(ProvenanceIn(ctx), "dataset_version") == Some(Str(spec.version))
            && (k != "dataset_id" && k != "dataset_version" ==> Lookup(ProvenanceIn(ctx), k) == Lookup(before, k))
            && (k != "provenance" ==> Lookup(ctx, k) == Lookup(context, k))
  {
    var before := GetOr(context, "provenance", Obj([])).fields;
    var once := Put(before, "dataset_id", Str(spec.id));
    var stamped := Put(once, "dataset_version", Str(spec.version));
    PutLookup(context, "provenance", Obj(stamped), "provenance");
    PutLookup(context, "provenance", Obj(stamped), k);
    PutLookup(once, "dataset_version", Str(spec.version), "dataset_id");
    PutLookup(before, "dataset_id", Str(spec.id), "dataset_id");
    PutLookup(once, "dataset_version", Str(spec.version), "dataset_version");
    PutLookup(once, "dataset_version", Str(spec.version), k);
    PutLookup(before, "dataset_id", Str(spec.id), k);
  }

  /** The stamped context and the evaluation of the artifact in it. */
  function ArtifactEvaluation(c: Catalog, spec: DatasetSpec, pair: Pair): Result<(Dict<Json>, EvaluationResult), Fault>
    requires c.Keys == {1, 2, 3}
  {
    var context :- InjectProvenance(pair.1, spec);
    var evaluation :- EvaluationOf(c, pair.0, Some(context));
    Ok((context, evaluation))
  }

  /** The certificate of artifact `i` of a dataset. */
  function ArtifactCertificate(c: Catalog, spec: DatasetSpec, env: Environment, i: nat, pair: Pair)
    : Result<Json, Fault>
    requires c.Keys == {1, 2, 3}
  {
    var evaluated :- ArtifactEvaluation(c, spec, pair);
    Ok(CreateCertificate(pair.0, evaluated.1, ProvenanceIn(evaluated.0),
                         env.certificateId(i), env.createdAt(i)))
  }

  function CertifyStep(c: Catalog, spec: DatasetSpec, env: Environment): ((nat, Pair)) -> Result<Json, Fault>
    requires c.Keys == {1, 2, 3}
  {
    (ip: (nat, Pair)) => ArtifactCertificate(c, spec, env, ip.0, ip.1)
  }

  /** The items of a list with their positions. */
  function Indexed<T>(xs: seq<T>): (r: seq<(nat, T)>)
    ensures |r| == |xs|
    ensures forall i :: 0 <= i < |xs| ==> r[i] == (i, xs[i])
  {
    seq(|xs|, i requires 0 <= i < |xs| => (i as nat, xs[i]))
  }

  /** The certificates of a dataset's pairs, in order; the first fault aborts. */
  function CertificatesOf(c: Catalog, spec: DatasetSpec, env: Environment, pairs: seq<Pair>)
    : (r: Result<seq<Json>, Fault>)
    requires c.Keys == {1, 2, 3}
    ensures r.Ok? ==> |r.value| == |pairs|
  {
    MapAll(CertifyStep(c, spec, env), Indexed(pairs))
  }

  // ---------------------------------------------------------------------
  // Counting decisions
  // ---------------------------------------------------------------------

  /** `certificate["gate_decision"]["decision"]`. */
  function DecisionIn(certificate: Json): Option<string>
  {
    if !certificate.Obj? then None
    else
      match Lookup(certificate.fields, "gate_decision")
      case Some(g) => RecordedDecision(g)
      case None => None
  }

  datatype Counts = Counts(pass: int, revise: int, block: int)

  /** One increment of the counters for a recorded decision name. */
  function Counted(t: Counts, decision: Option<string>): Counts
  {
    if decision == Some("approve") then t.(pass := t.pass + 1)
    else if decision == Some("revise") then t.(revise := t.revise + 1)
    else t.(block := t.block + 1)
  }

  /** The three counters of `_evaluate_dataset`: "approve" passes,
      "revise" revises, anything else blocks. */
  function Tally(certificates: seq<Json>): (t: Counts)
    ensures t.pass + t.revise + t.block == |certificates|
  {
    if certificates == [] then Counts(0, 0, 0)
    else
      Counted(Tally(certificates[..|certificates| - 1]), DecisionIn(certificates[|certificates| - 1]))
  }

  lemma TallyStep(certificates: seq<Json>, certificate: Json)
    ensures Tally(certificates + [certificate]) == Counted(Tally(certificates), DecisionIn(certificate))
  {
    assert (certificates + [certificate])[..|certificates|] == certificates;
  }

  /** The same counts taken on the gate decisions themselves. */
  function TallyDecisions(ds: seq<Decision>): Counts
  {
    if ds == [] then Counts(0, 0, 0)
    else
      var t := TallyDecisions(ds[..|ds| - 1]);
      match ds[|ds| - 1]
      case Approve => t.(pass := t.pass + 1)
      case Revise => t.(revise := t.revise + 1)
      case Block => t.(block := t.block + 1)
  }

  /** Counting recorded decision names counts the decisions. */
  lemma {:induction false} TallyMatches(certificates: seq<Json>, ds: seq<Decision>)
    requires |certificates| == |ds|
    requires forall i :: 0 <= i < |ds| ==> DecisionIn(certificates[i]) == Some(DecisionName(ds[i]))
    ensures Tally(certificates) == TallyDecisions(ds)
  {
    if ds != [] {
      var n := |ds|;
      TallyMatches(certificates[..n - 1], ds[..n - 1]);
    }
  }

  // ---------------------------------------------------------------------
  // One dataset
  // ---------------------------------------------------------------------

  /** What `_evaluate_dataset` returns or raises. */
  function DatasetOutcome(c: Catalog, spec: DatasetSpec, generator: Generator, env: Environment)
    : (r: Result<DatasetResult, Fault>)
    requires c.Keys == {1, 2, 3}
    ensures r.Ok? ==> r.value.datasetId == spec.id
                      && r.value.artifactCount == |r.value.certificates| == |generator(spec)|
                      && r.value.passCount + r.value.reviseCount + r.value.blockCount == r.value.artifactCount
  {
    var certificates :- CertificatesOf(c, spec, env, generator(spec));
    var t := Tally(certificates);
    Ok(DatasetResult(spec.id, |certificates|, t.pass, t.revise, t.block, certificates, env.duration))
  }

  /** Each certificate records the gate decision of its artifact's evaluation. */
  lemma CertificateRecordsDecision(c: Catalog, spec: DatasetSpec, env: Environment, pairs: seq<Pair>, i: nat)
    requires c.Keys == {1, 2, 3}
    requires CertificatesOf(c, spec, env, pairs).Ok? && i < |pairs|
    ensures ArtifactEvaluation(c, spec, pairs[i]).Ok?
    ensures DecisionIn(CertificatesOf(c, spec, env, pairs).value[i])
            == Some(DecisionName(ArtifactEvaluation(c, spec, pairs[i]).value.1.gateDecision.decision))
  {
    var f := CertifyStep(c, spec, env);
    var items := Indexed(pairs);
    MapAllOk(f, items);
    assert f(items[i]) == ArtifactCertificate(c, spec, env, i, pairs[i]);
    var evaluated := ArtifactEvaluation(c, spec, pairs[i]).value;
    CertificateDecision(pairs[i].0, evaluated.1, ProvenanceIn(evaluated.0),
                        env.certificateId(i), env.createdAt(i));
  }

  /** The decisions of a dataset's evaluations, when all of them succeed. */
  function Decisions(c: Catalog, spec: DatasetSpec, pairs: seq<Pair>): (ds: seq<Decision>)
    requires c.Keys == {1, 2, 3}
    requires forall i :: 0 <= i < |pairs| ==> ArtifactEvaluation(c, spec, pairs[i]).Ok?
    ensures |ds| == |pairs|
    ensures forall i :: 0 <= i < |pairs| ==> ds[i] == ArtifactEvaluation(c, spec, pairs[i]).value.1.gateDecision.decision
  {
    seq(|pairs|, i requires 0 <= i < |pairs| => ArtifactEvaluation(c, spec, pairs[i]).value.1.gateDecision.decision)
  }

  /** The counters of a dataset are the counts of its gate decisions. */
  lemma DatasetCounts(c: Catalog, spec: DatasetSpec, generator: Generator, env: Environment)
    requires c.Keys == {1, 2, 3}
    requires DatasetOutcome(c, spec, generator, env).Ok?
    ensures forall i :: 0 <= i < |generator(spec)| ==> ArtifactEvaluation(c, spec, generator(spec)[i]).Ok?
    ensures var r := DatasetOutcome(c, spec, generator, env).value;
            Counts(r.passCount, r.reviseCount, r.blockCount) == TallyDecisions(Decisions(c, spec, generator(spec)))
  {
    var pairs := generator(spec);
    var certificates := CertificatesOf(c, spec, env, pairs).value;
    forall i | 0 <= i < |pairs|
      ensures ArtifactEvaluation(c, spec, pairs[i]).Ok?
      ensures DecisionIn(certificates[i])
              == Some(DecisionName(ArtifactEvaluation(c, spec, pairs[i]).value.1.gateDecision.decision))
    {
      CertificateRecordsDecision(c, spec, env, pairs, i);
    }
    TallyMatches(certificates, Decisions(c, spec, pairs));
  }

  // ---------------------------------------------------------------------
  // A run
  // ---------------------------------------------------------------------

  function DatasetStep(c: Catalog, generator: Generator, clocks: Clocks): ((nat, DatasetSpec)) -> Result<DatasetResult, Fault>
    requires c.Keys == {1, 2, 3}
  {
    (ds: (nat, DatasetSpec)) => DatasetOutcome(c, ds.1, generator, clocks(ds.0))
  }

  /** The dataset results of a run, in the order of the configuration. */
  function ResultsOf(c: Catalog, datasets: seq<DatasetSpec>, generator: Generator, clocks: Clocks)
    : Result<seq<DatasetResult>, Fault>
    requires c.Keys == {1, 2, 3}
  {
    MapAll(DatasetStep(c, generator, clocks), Indexed(datasets))
  }

  /** One result per dataset, each that dataset's outcome, in order. */
  lemma ResultsInOrder(c: Catalog, datasets: seq<DatasetSpec>, generator: Generator, clocks: Clocks)
    requires c.Keys == {1, 2, 3}
    requires ResultsOf(c, datasets, generator, clocks).Ok?
    ensures var results := ResultsOf(c, datasets, generator, clocks).value;
            |results| == |datasets|
            && forall i :: 0 <= i < |datasets| ==> Ok(results[i]) == DatasetOutcome(c, datasets[i], generator, clocks(i))
  {
    var f := DatasetStep(c, generator, clocks);
    var items := Indexed(datasets);
    MapAllOk(f, items);
    forall i | 0 <= i < |datasets| ensures f(items[i]) == DatasetOutcome(c, datasets[i], generator, clocks(i)) {
    }
  }

  function SumCounts(results: seq<DatasetResult>, count: DatasetResult -> int): int
  {
    if results == [] then 0 else SumCounts(results[..|results| - 1], count) + count(results[|results| - 1])
  }

  function SumDurations(results: seq<DatasetResult>): real
  {
    if results == [] then 0.0 else SumDurations(results[..|results| - 1]) + results[|results| - 1].durationSeconds
  }

  /** `count / total if total > 0 else 0`. */
  function Rate(count: int, total: int): real
  {
    if total > 0 then count as real / total as real else 0.0
  }

  function Artifacts(r: DatasetResult): int { r.artifactCount }
  function Passes(r: DatasetResult): int { r.passCount }
  function Revisions(r: DatasetResult): int { r.reviseCount }
  function Blocks(r: DatasetResult): int { r.blockCount }

  /** The summary of `run`. */
  function SummaryOf(results: seq<DatasetResult>): Summary
  {
    var total := SumCounts(results, Artifacts);
    Summary(|results|, total,
            Rate(SumCounts(results, Passes), total),
            Rate(SumCounts(results, Revisions), total),
            Rate(SumCounts(results, Blocks), total),
            SumDurations(results))
  }

  /** What `run` returns or raises; the reported versions are those of the
      rubrics directory `get_rubric_versions` reads by default. */
  function RunOutcome(config: RunConfig, c: Catalog, generator: Generator, clocks: Clocks,
                      versions: Dict<string>, startedAt: string, completedAt: string)
    : (r: Result<BenchmarkResult, Fault>)
    requires c.Keys == {1, 2, 3}
  {
    var results :- ResultsOf(c, config.datasets, generator, clocks);
    Ok(BenchmarkResult(config.runId, startedAt, completedAt, versions, results, SummaryOf(results)))
  }

  /** Every dataset result splits its artifacts into the three counts. */
  predicate Balanced(results: seq<DatasetResult>)
  {
    forall i :: 0 <= i < |results| ==>
      results[i].passCount + results[i].reviseCount + results[i].blockCount == results[i].artifactCount
  }

  lemma {:induction false} SumsBalanced(results: seq<DatasetResult>)
    requires Balanced(results)
    ensures SumCounts(results, Passes) + SumCounts(results, Revisions) + SumCounts(results, Blocks)
            == SumCounts(results, Artifacts)
  {
    if results != [] {
      var init := results[..|results| - 1];
      assert forall i :: 0 <= i < |init| ==> init[i] == results[i];
      SumsBalanced(init);
    }
  }

  /** The results of a run are balanced. */
  lemma RunBalanced(c: Catalog, datasets: seq<DatasetSpec>, generator: Generator, clocks: Clocks)
    requires c.Keys == {1, 2, 3}
    requires ResultsOf(c, datasets, generator, clocks).Ok?
    ensures Balanced(ResultsOf(c, datasets, generator, clocks).value)
  {
    ResultsInOrder(c, datasets, generator, clocks);
  }

  /** With artifacts, the three rates sum to one; without, all are zero. */
  lemma RatesAddUp(results: seq<DatasetResult>)
    requires Balanced(results)
    ensures var s := SummaryOf(results);
            s.totalArtifacts > 0 ==> s.passRate + s.reviseRate + s.blockRate == 1.0
    ensures var s := SummaryOf(results);
            s.totalArtifacts <= 0 ==> s.passRate == 0.0 && s.reviseRate == 0.0 && s.blockRate == 0.0
  {
    SumsBalanced(results);
    var total := SumCounts(results, Artifacts);
    if total > 0 {
      var p, v, b := SumCounts(results, Passes), SumCounts(results, Revisions), SumCounts(results, Blocks);
      assert p as real / total as real + v as real / total as real + b as real / total as real
             == (p + v + b) as real / total as real;
    }
  }

  // ---------------------------------------------------------------------
  // The sample dataset of the harness test
  // ---------------------------------------------------------------------

  /** A sample artifact: a cohort spec with an executor and a version. */
  function SampleArtifact(hash: string): Dict<Json>
  {
    [("type", Str("cohort_spec")), ("version", Str("1.0.0")), ("hash", Str(hash)),
     ("deterministic_executor", Str("duckdb+sql"))]
  }

  /** A sample context: an audit trace, an index time, executed SQL and a
      cohort overlap score. */
  function SampleContext(trace: string, jaccard: real): Dict<Json>
  {
    [("provenance", Obj([("audit_trace_id", Str(trace))])),
     ("index_time", Str("2024-01-01T00:00:00Z")),
     ("sql_executed", Bool(true)),
     ("cohort_jaccard", Num(jaccard))]
  }

  function SamplePair(hash: string, trace: string, jaccard: real): Pair
  {
    (SampleArtifact(hash), SampleContext(trace, jaccard))
  }

  /** The generator of the harness test: an artifact with overlap 0.85 and
      one with overlap 0.5, the same for every dataset. */
  function SampleGenerator(): Generator
  {
    spec => SampleTwo("abc123", "trace_001", "def456", "trace_002")
  }

  /** The threshold a jaccard check compares with. */
  function ThresholdOf(k: RubricCheck): Option<real>
  {
    match JaccardThreshold(k.scoring)
    case Ok(t) => if AsMeasure(t).Some? then Some(Magnitude(AsMeasure(t).value)) else None
    case Err(_) => None
  }

  /** A jaccard check whose threshold lies between the two sample scores,
      as the default 0.7 does. */
  predicate SampleThreshold(k: RubricCheck)
  {
    KindOf(k.id) == CohortJaccard ==> ThresholdOf(k).Some? && 0.5 < ThresholdOf(k).value <= 0.85
  }

  /** Every jaccard check of `suites` has a threshold between the two sample scores. */
  predicate SampleThresholds(suites: seq<RubricSuite>)
  {
    forall i :: 0 <= i < |TierChecks(suites)| ==> SampleThreshold(TierChecks(suites)[i])
  }

  /** `suites` hold a jaccard check. */
  predicate HasJaccard(suites: seq<RubricSuite>)
  {
    exists i :: 0 <= i < |TierChecks(suites)| && KindOf(TierChecks(suites)[i].id) == CohortJaccard
  }

  /** A catalog the sample is judged against: every jaccard check sits in
      tier 3 with a threshold between the two scores, and tier 3 has one. */
  predicate SampleRubrics(c: Catalog)
  {
    c.Keys == {1, 2, 3}
    && SampleThresholds(c[3]) && HasJaccard(c[3])
    && !HasJaccard(c[1]) && !HasJaccard(c[2])
  }

  /** What the checks read from a stamped sample `ctx` and its artifact `a`. */
  predicate SampleReads(ctx: Dict<Json>, a: Dict<Json>, trace: string, jaccard: real)
  {
    GetOr(ctx, "provenance", Obj([])).Obj?
    && Lookup(GetOr(ctx, "provenance", Obj([])).fields, "audit_trace_id") == Some(Str(trace))
    && GetOr(ctx, "index_time", Null) == Str("2024-01-01T00:00:00Z")
    && GetOr(ctx, "sql_executed", Bool(false)) == Bool(true)
    && GetOr(ctx, "cohort_jaccard", Num(0.0)) == Num(jaccard)
    && GetOr(ctx, "features", Obj([])) == Obj([])
    && GetOr(ctx, "has_outcome_leakage", Bool(false)) == Bool(false)
    && GetOr(a, "deterministic_executor", Null) == Str("duckdb+sql")
    && GetOr(a, "version", Null) == Str("1.0.0")
    && GetOr(a, "inputs_summary", Str("")) == Str("")
  }

  /** What the checks read from a sample stamped with `spec`. */
  lemma SampleLookups(spec: DatasetSpec, hash: string, trace: string, jaccard: real)
    ensures InjectProvenance(SampleContext(trace, jaccard), spec).Ok?
    ensures SampleReads(InjectProvenance(SampleContext(trace, jaccard), spec).value,
                        SampleArtifact(hash), trace, jaccard)
  {
    var ctx0 := SampleContext(trace, jaccard);
    var a := SampleArtifact(hash);
    var ctx := InjectProvenance(ctx0, spec).value;
    LookupFirst(ctx0, 0, "provenance");
    assert "provenance"[0] != "index_time"[0];
    LookupFirst(ctx0, 1, "index_time");
    LookupFirst(ctx0, 2, "sql_executed");
    LookupFirst(ctx0, 3, "cohort_jaccard");
    LookupMissing(ctx0, "features");
    LookupMissing(ctx0, "has_outcome_leakage");
    LookupFirst(ctx0[0].1.fields, 0, "audit_trace_id");
    ProvenanceInjected(ctx0, spec, "audit_trace_id");
    ProvenanceInjected(ctx0, spec, "index_time");
    ProvenanceInjected(ctx0, spec, "sql_executed");
    ProvenanceInjected(ctx0, spec, "cohort_jaccard");
    ProvenanceInjected(ctx0, spec, "features");
    ProvenanceInjected(ctx0, spec, "has_outcome_leakage");
    var stamped := Put(Put(ctx0[0].1.fields, "dataset_id", Str(spec.id)), "dataset_version", Str(spec.version));
    PutLookup(ctx0, "provenance", Obj(stamped), "provenance");
    LookupFirst(a, 1, "version");
    LookupFirst(a, 3, "deterministic_executor");
    LookupMissing(a, "inputs_summary");
  }

  /** On a stamped sample, every check passes except a jaccard check whose
      threshold the score does not reach. */
  lemma SampleCheck(k: RubricCheck, ctx: Dict<Json>, a: Dict<Json>, trace: string, jaccard: real)
    requires trace != "" && SampleThreshold(k) && SampleReads(ctx, a, trace, jaccard)
    ensures EvaluateCheck(k, a, ctx).Ok?
    ensures EvaluateCheck(k, a, ctx).value.passed
            <==> KindOf(k.id) != CohortJaccard || jaccard >= ThresholdOf(k).value
  {
    var r := EvaluateCheck(k, a, ctx);
    match KindOf(k.id)
    case NoPhi =>
      assert Lower("") == "";
      forall i | 0 <= i < |PhiMarkers| ensures !Contains("", PhiMarkers[i]) {
        assert PhiMarkers[i] != "";
      }
      assert r == PhiCheck(k.id, a);
    case AuditTrace =>
      assert r == AuditCheck(k.id, ctx);
    case UnitConsistency =>
      assert r == UnitCheck(k.id, ctx);
    case CohortJaccard =>
      assert r == JaccardCheck(k, ctx);
    case _ =>
  }

  /** A tier of a sample catalog passes on the stamped sample, unless the
      score is 0.5 and the tier holds a jaccard check. */
  lemma SampleTier(n: int, suites: seq<RubricSuite>, ctx: Dict<Json>, a: Dict<Json>, trace: string, jaccard: real)
    requires trace != "" && (jaccard == 0.85 || jaccard == 0.5) && SampleReads(ctx, a, trace, jaccard)
    requires SampleThresholds(suites) || !HasJaccard(suites)
    ensures TierOutcome(n, suites, a, ctx).Ok?
    ensures TierOutcome(n, suites, a, ctx).value.passed <==> jaccard == 0.85 || !HasJaccard(suites)
  {
    var checks := TierChecks(suites);
    var f := Checker(a, ctx);
    forall i | 0 <= i < |checks|
      ensures f(checks[i]).Ok?
      ensures f(checks[i]).value.passed <==> jaccard == 0.85 || KindOf(checks[i].id) != CohortJaccard
    {
      assert SampleThreshold(checks[i]);
      SampleCheck(checks[i], ctx, a, trace, jaccard);
      assert f(checks[i]) == EvaluateCheck(checks[i], a, ctx);
    }
    MapAllOk(f, checks);
    assert TierOutcome(n, suites, a, ctx).Ok?;
    TierOutcomeChecks(n, suites, a, ctx);
  }

  /** The stamped sample is approved when its score is 0.85 and sent back
      for revision when it is 0.5. */
  lemma SampleDecision(c: Catalog, spec: DatasetSpec, hash: string, trace: string, jaccard: real)
    requires SampleRubrics(c)
    requires trace != "" && (jaccard == 0.85 || jaccard == 0.5)
    ensures ArtifactEvaluation(c, spec, SamplePair(hash, trace, jaccard)).Ok?
    ensures ArtifactEvaluation(c, spec, SamplePair(hash, trace, jaccard)).value.1.gateDecision.decision
            == if jaccard == 0.85 then Approve else Revise
  {
    SampleLookups(spec, hash, trace, jaccard);
    var ctx := InjectProvenance(SampleContext(trace, jaccard), spec).value;
    var artifact := SampleArtifact(hash);
    assert ContextOf(Some(ctx)) == ctx;
    var f := Checker(artifact, ctx);
    SampleTier(1, c[1], ctx, artifact, trace, jaccard);
    SampleTier(2, c[2], ctx, artifact, trace, jaccard);
    SampleTier(3, c[3], ctx, artifact, trace, jaccard);
    var r1 := TierOutcome(1, c[1], artifact, ctx).value;
    var r2 := TierOutcome(2, c[2], artifact, ctx).value;
    var r3 := TierOutcome(3, c[3], artifact, ctx).value;
    assert ResultsBelow(c, f, 1) == Ok(map[]);
    assert ResultsBelow(c, f, 2) == Ok(map[1 := r1]);
    assert ResultsBelow(c, f, 3) == Ok(map[1 := r1, 2 := r2]);
    var tiers := map[1 := r1, 2 := r2, 3 := r3];
    assert ResultsBelow(c, f, 4) == Ok(tiers);
    assert r1.passed && r2.passed;
    assert r3.passed <==> jaccard == 0.85;
    assert DecisionOf(tiers) == if jaccard == 0.85 then Approve else Revise;
    assert EvaluationOf(c, artifact, Some(ctx)).value.gateDecision == GateOf(tiers);
  }

  /** Two sample pairs, the first with overlap 0.85 and the second with 0.5. */
  function SampleTwo(h1: string, t1: string, h2: string, t2: string): seq<Pair>
  {
    [SamplePair(h1, t1, 0.85), SamplePair(h2, t2, 0.5)]
  }

  /** Both sample pairs evaluate, to approve and to revise. */
  lemma SampleDecisions(c: Catalog, spec: DatasetSpec, h1: string, t1: string, h2: string, t2: string)
    requires SampleRubrics(c) && t1 != "" && t2 != ""
    ensures forall i :: 0 <= i < 2 ==> ArtifactEvaluation(c, spec, SampleTwo(h1, t1, h2, t2)[i]).Ok?
    ensures Decisions(c, spec, SampleTwo(h1, t1, h2, t2)) == [Approve, Revise]
  {
    var pairs := SampleTwo(h1, t1, h2, t2);
    SampleDecision(c, spec, h1, t1, 0.85);
    SampleDecision(c, spec, h2, t2, 0.5);
    assert pairs[0] == SamplePair(h1, t1, 0.85) && pairs[1] == SamplePair(h2, t2, 0.5);
    DecisionsOfTwo(c, spec, pairs, Approve, Revise);
  }

  /** The decisions of two pairs that evaluate to `d1` and `d2`. */
  lemma DecisionsOfTwo(c: Catalog, spec: DatasetSpec, pairs: seq<Pair>, d1: Decision, d2: Decision)
    requires c.Keys == {1, 2, 3} && |pairs| == 2
    requires ArtifactEvaluation(c, spec, pairs[0]).Ok? && ArtifactEvaluation(c, spec, pairs[1]).Ok?
    requires ArtifactEvaluation(c, spec, pairs[0]).value.1.gateDecision.decision == d1
    requires ArtifactEvaluation(c, spec, pairs[1]).value.1.gateDecision.decision == d2
    ensures forall i :: 0 <= i < |pairs| ==> ArtifactEvaluation(c, spec, pairs[i]).Ok?
    ensures Decisions(c, spec, pairs) == [d1, d2]
  {
    forall i | 0 <= i < |pairs| ensures ArtifactEvaluation(c, spec, pairs[i]).Ok? {
      if i == 0 {
      } else {
        assert i == 1;
      }
    }
    var ds := Decisions(c, spec, pairs);
    assert ds[0] == d1 && ds[1] == d2;
  }

  /** Every sample pair is certified. */
  lemma SampleCertified(c: Catalog, spec: DatasetSpec, env: Environment, h1: string, t1: string, h2: string, t2: string)
    requires SampleRubrics(c) && t1 != "" && t2 != ""
    ensures CertificatesOf(c, spec, env, SampleTwo(h1, t1, h2, t2)).Ok?
  {
    var pairs := SampleTwo(h1, t1, h2, t2);
    SampleDecisions(c, spec, h1, t1, h2, t2);
    var f := CertifyStep(c, spec, env);
    var items := Indexed(pairs);
    forall i | 0 <= i < |items| ensures f(items[i]).Ok? {
      assert f(items[i]) == ArtifactCertificate(c, spec, env, i, pairs[i]);
    }
    MapAllOk(f, items);
  }

  /** A dataset of two sample pairs has one approved and one revised
      artifact, so its pass rate is one half. */
  lemma SampleOutcome(c: Catalog, spec: DatasetSpec, env: Environment, generator: Generator,
                      h1: string, t1: string, h2: string, t2: string)
    requires SampleRubrics(c) && t1 != "" && t2 != ""
    requires generator(spec) == SampleTwo(h1, t1, h2, t2)
    ensures DatasetOutcome(c, spec, generator, env).Ok?
    ensures var r := DatasetOutcome(c, spec, generator, env).value;
            r.artifactCount == 2 && r.passCount == 1 && r.reviseCount == 1 && r.blockCount == 0
            && SummaryOf([r]).passRate == 0.5
  {
    SampleCertified(c, spec, env, h1, t1, h2, t2);
    SampleDecisions(c, spec, h1, t1, h2, t2);
    ApproveReviseOutcome(c, spec, generator, env);
  }

  /** A dataset of two artifacts, the first approved and the second revised,
      counts one pass and one revision and has pass rate one half. */
  lemma ApproveReviseOutcome(c: Catalog, spec: DatasetSpec, generator: Generator, env: Environment)
    requires c.Keys == {1, 2, 3} && |generator(spec)| == 2
    requires CertificatesOf(c, spec, env, generator(spec)).Ok?
    requires forall i :: 0 <= i < 2 ==> ArtifactEvaluation(c, spec, generator(spec)[i]).Ok?
    requires Decisions(c, spec, generator(spec)) == [Approve, Revise]
    ensures DatasetOutcome(c, spec, generator, env).Ok?
    ensures var r := DatasetOutcome(c, spec, generator, env).value;
            r.artifactCount == 2 && r.passCount == 1 && r.reviseCount == 1 && r.blockCount == 0
            && SummaryOf([r]).passRate == 0.5
  {
    DatasetCounts(c, spec, generator, env);
    assert [Approve, Revise][..1] == [Approve];
    OneDatasetRate(DatasetOutcome(c, spec, generator, env).value);
  }

  /** The pass rate of a run of one dataset is that dataset's pass rate. */
  lemma OneDatasetRate(r: DatasetResult)
    ensures SummaryOf([r]).passRate == Rate(r.passCount, r.artifactCount)
  {
    assert [r][..0] == [];
    assert SumCounts([r], Passes) == r.passCount;
    assert SumCounts([r], Artifacts) == r.artifactCount;
  }

  /** The harness test: the sample dataset has two artifacts, one approved
      and one revised, so its pass rate is one half. */
  lemma SampleRun(c: Catalog, spec: DatasetSpec, env: Environment)
    requires SampleRubrics(c)
    ensures DatasetOutcome(c, spec, SampleGenerator(), env).Ok?
    ensures var r := DatasetOutcome(c, spec, SampleGenerator(), env).value;
            r.artifactCount == 2 && r.passCount == 1 && r.reviseCount == 1 && r.blockCount == 0
            && SummaryOf([r]).passRate == 0.5
  {
    SampleOutcome(c, spec, env, SampleGenerator(), "abc123", "trace_001", "def456", "trace_002");
  }

  // ---------------------------------------------------------------------
  // The harness
  // ---------------------------------------------------------------------

  class BenchmarkHarness {
    const config: RunConfig
    const evaluator: RubricEvaluator

    /** The harness with an evaluator over the rubrics tree of
        `config.rubricsDir` (or of the default directory), given as `tree`. */
    constructor(config: RunConfig, tree: RubricTree, validator: Validator)
      ensures this.config == config
      ensures evaluator.rubricsByTier == CatalogOf(tree, validator)
      ensures evaluator.rubricsByTier.Keys == {1, 2, 3}
    {
      this.config := config;
      evaluator := new RubricEvaluator(tree, validator);
    }

    /** `_evaluate_dataset`. */
    method EvaluateDataset(spec: DatasetSpec, generator: Generator, env: Environment)
      returns (r: Result<DatasetResult, Fault>)
      requires evaluator.rubricsByTier.Keys == {1, 2, 3}
      ensures r == DatasetOutcome(evaluator.rubricsByTier, spec, generator, env)
    {
      var pairs := generator(spec);
      ghost var f := CertifyStep(evaluator.rubricsByTier, spec, env);
      ghost var items := Indexed(pairs);
      var certificates: seq<Json> := [];
      var passCount, reviseCount, blockCount := 0, 0, 0;
      for i := 0 to |pairs|
        invariant MapAll(f, items[..i]) == Ok(certificates)
        invariant Tally(certificates) == Counts(passCount, reviseCount, blockCount)
      {
        var certificate := CertifyArtifact(spec, env, i, pairs[i]);
        assert f(items[i]) == certificate;
        MapAllStep(f, items, i, certificates);
        if certificate.Err? {
          return Err(certificate.error);
        }
        TallyStep(certificates, certificate.value);
        certificates := certificates + [certificate.value];
        passCount, reviseCount, blockCount := CountDecision(passCount, reviseCount, blockCount, certificate.value);
      }
      assert items[..|pairs|] == items;
      r := Ok(DatasetResult(spec.id, |certificates|, passCount, reviseCount, blockCount, certificates,
                            env.duration));
    }

    /** The counting at the end of the artifact loop of `_evaluate_dataset`. */
    static method CountDecision(passCount0: int, reviseCount0: int, blockCount0: int, certificate: Json)
      returns (passCount: int, reviseCount: int, blockCount: int)
      ensures Counts(passCount, reviseCount, blockCount)
              == Counted(Counts(passCount0, reviseCount0, blockCount0), DecisionIn(certificate))
    {
      passCount, reviseCount, blockCount := passCount0, reviseCount0, blockCount0;
      var decision := DecisionIn(certificate);
      if decision == Some("approve") {
        passCount := passCount + 1;
      } else if decision == Some("revise") {
        reviseCount := reviseCount + 1;
      } else {
        blockCount := blockCount + 1;
      }
    }

    /** The body of the artifact loop of `_evaluate_dataset`. */
    method CertifyArtifact(spec: DatasetSpec, env: Environment, i: nat, pair: Pair)
      returns (r: Result<Json, Fault>)
      requires evaluator.rubricsByTier.Keys == {1, 2, 3}
      ensures r == ArtifactCertificate(evaluator.rubricsByTier, spec, env, i, pair)
    {
      var context :- InjectProvenance(pair.1, spec);
      var evaluation :- evaluator.Evaluate(pair.0, Some(context));
      r := Ok(CreateCertificate(pair.0, evaluation, ProvenanceIn(context),
                                env.certificateId(i), env.createdAt(i)));
    }

    /** `run`, given the rubrics tree of the default directory, which is
        where the reported versions come from. */
    method Run(generator: Generator, clocks: Clocks, defaultTree: RubricTree, validator: Validator,
               startedAt: string, completedAt: string)
      returns (r: Result<BenchmarkResult, Fault>)
      requires evaluator.rubricsByTier.Keys == {1, 2, 3}
      ensures r == RunOutcome(config, evaluator.rubricsByTier, generator, clocks,
                              VersionMap(AllSuites(CatalogOf(defaultTree, validator))), startedAt, completedAt)
    {
      ghost var f := DatasetStep(evaluator.rubricsByTier, generator, clocks);
      ghost var items := Indexed(config.datasets);
      var results: seq<DatasetResult> := [];
      for i := 0 to |config.datasets|
        invariant MapAll(f, items[..i]) == Ok(results)
      {
        var result := EvaluateDataset(config.datasets[i], generator, clocks(i));
        assert f(items[i]) == result;
        MapAllStep(f, items, i, results);
        if result.Err? {
          return Err(result.error);
        }
        results := results + [result.value];
      }
      assert items[..|config.datasets|] == items;
      var versions := GetRubricVersions(defaultTree, validator);
      r := Ok(BenchmarkResult(config.runId, startedAt, completedAt, versions, results, SummaryOf(results)));
    }
  }
}
