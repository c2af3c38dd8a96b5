/** The check engine and the gate policy: each rubric check is evaluated
    against an artifact and its context, the checks of a tier are combined,
    and the three tier results decide approve, revise or block. */
module Evaluator {
  import opened Json
  import opened Text
  import opened Schema
  import opened Rubrics

  /** A recorded score or threshold: a number, or a bool, which Python
      keeps as it is and compares as 1 or 0. */
  datatype Measure = Real(n: real) | Flag(b: bool)

  /** The number Python compares a measure as. */
  function Magnitude(m: Measure): real
  {
    match m
    case Real(n) => n
    case Flag(b) => if b then 1.0 else 0.0
  }

  datatype CheckResult = CheckResult(
    id: string,
    passed: bool,
    score: Option<Measure>,
    threshold: Option<Measure>,
    message: Option<string>)

  datatype TierResult = TierResult(tier: int, passed: bool, checks: seq<CheckResult>)

  datatype Decision = Approve | Revise | Block

  /** The string a decision is recorded as. */
  function DecisionName(d: Decision): (s: string)
    ensures s in {"approve", "revise", "block"}
  {
    match d
    case Approve => "approve"
    case Revise => "revise"
    case Block => "block"
  }

  /** Decisions get worse from approve to block. */
  function Rank(d: Decision): nat
  {
    match d
    case Approve => 0
    case Revise => 1
    case Block => 2
  }

  datatype GateDecision = GateDecision(
    decision: Decision,
    blockingReasons: seq<string>,
    requiredFixes: seq<string>,
    deferralRecommended: bool,
    deferralTo: Option<string>)

  datatype EvaluationResult = EvaluationResult(
    tierResults: map<int, TierResult>,
    gateDecision: GateDecision,
    rubricVersions: Dict<string>)

  // ----- Dispatch on the check id -----

  /** The checks the evaluator implements; any other id is unknown. */
  datatype CheckKind =
    | Determinism | AuditTrace | NoPhi | OutcomeClaims
    | UnitConsistency | PlausibleRanges | TemporalCoherence | OutcomeLeakage
    | SqlExecutes | CohortJaccard
    | Unknown

  const KnownIds: seq<string> := [
    "tier1.determinism_required", "tier1.audit_trace_complete",
    "tier1.no_phi_in_artifacts", "tier1.no_outcome_claims_without_validation",
    "tier2.unit_consistency", "tier2.plausible_ranges",
    "tier2.temporal_coherence", "tier2.outcome_leakage_prevention",
    "tier3.sql_executes", "tier3.cohort_overlap_jaccard"]

  /** The branch of `evaluate_check` an id selects. */
  function KindOf(id: string): (k: CheckKind)
    ensures k == Unknown <==> id !in KnownIds
  {
    if id == "tier1.determinism_required" then Determinism
    else if id == "tier1.audit_trace_complete" then AuditTrace
    else if id == "tier1.no_phi_in_artifacts" then NoPhi
    else if id == "tier1.no_outcome_claims_without_validation" then OutcomeClaims
    else if id == "tier2.unit_consistency" then UnitConsistency
    else if id == "tier2.plausible_ranges" then PlausibleRanges
    else if id == "tier2.temporal_coherence" then TemporalCoherence
    else if id == "tier2.outcome_leakage_prevention" then OutcomeLeakage
    else if id == "tier3.sql_executes" then SqlExecutes
    else if id == "tier3.cohort_overlap_jaccard" then CohortJaccard
    else Unknown
  }

  /** A result that carries a message only when it fails. */
  function Verdict(id: string, passed: bool, failure: string): (r: CheckResult)
    ensures r.id == id && r.passed == passed && r.score.None? && r.threshold.None?
    ensures r.message.None? <==> passed
  {
    CheckResult(id, passed, None, None, if passed then None else Some(failure))
  }

  // ----- The individual checks -----

  /** tier1.determinism_required: the artifact names an executor and a version. */
  function DeterminismCheck(id: string, artifact: Dict<Json>): (r: CheckResult)
    ensures r.passed <==> Truthy(GetOr(artifact, "deterministic_executor", Null))
                          && Truthy(GetOr(artifact, "version", Null))
    ensures r.message.None? <==> r.passed
  {
    var hasExecutor := Truthy(GetOr(artifact, "deterministic_executor", Null));
    var hasVersion := Truthy(GetOr(artifact, "version", Null));
    Verdict(id, hasExecutor && hasVersion, "Missing deterministic_executor or version")
  }

  /** tier1.audit_trace_complete: the provenance names an audit trace; a
      provenance that is not a dict has no `get` and raises. */
  function AuditCheck(id: string, context: Dict<Json>): (r: Result<CheckResult, Fault>)
    ensures r.Err? <==> !GetOr(context, "provenance", Obj([])).Obj?
    ensures r.Ok? ==> (r.value.passed <==>
              Truthy(GetOr(GetOr(context, "provenance", Obj([])).fields, "audit_trace_id", Null)))
  {
    var provenance := GetOr(context, "provenance", Obj([]));
    if !provenance.Obj? then Err(AttributeError("provenance has no attribute 'get'"))
    else
      var hasTrace := Truthy(GetOr(provenance.fields, "audit_trace_id", Null));
      Ok(Verdict(id, hasTrace, "Missing audit_trace_id in provenance"))
  }

  const PhiMarkers: seq<string> := ["ssn", "social security", "patient name", "mrn", "medical record"]

  /** Some marker occurs in the lower-cased text. */
  predicate HasPhiMarker(text: string)
  {
    exists i :: 0 <= i < |PhiMarkers| && Contains(Lower(text), PhiMarkers[i])
  }

  /** tier1.no_phi_in_artifacts: no marker occurs in the lower-cased
      `inputs_summary`; a summary that is not a string has no `lower` and raises. */
  function PhiCheck(id: string, artifact: Dict<Json>): (r: Result<CheckResult, Fault>)
    ensures r.Err? <==> !GetOr(artifact, "inputs_summary", Str("")).Str?
    ensures r.Ok? ==> (!r.value.passed <==> HasPhiMarker(GetOr(artifact, "inputs_summary", Str("")).s))
  {
    var summary := GetOr(artifact, "inputs_summary", Str(""));
    if !summary.Str? then Err(AttributeError("inputs_summary has no attribute 'lower'"))
    else Ok(Verdict(id, !HasPhiMarker(summary.s), "Potential PHI detected in inputs_summary"))
  }

  /** The check passes exactly when no marker is a substring of the
      lower-cased summary. */
  lemma PhiCheckSubstrings(id: string, artifact: Dict<Json>)
    requires PhiCheck(id, artifact).Ok?
    ensures PhiCheck(id, artifact).value.passed <==>
              forall i :: 0 <= i < |PhiMarkers| ==>
                !Substring(PhiMarkers[i], Lower(GetOr(artifact, "inputs_summary", Str("")).s))
  {
    var text := Lower(GetOr(artifact, "inputs_summary", Str("")).s);
    forall i | 0 <= i < |PhiMarkers| ensures Contains(text, PhiMarkers[i]) <==> Substring(PhiMarkers[i], text) {
      ContainsIff(text, PhiMarkers[i]);
    }
  }

  /** `all(f.get("unit") for f in values)`: examined in order, stopping at
      the first value without a unit; a value that is not a dict raises. */
  function AllHaveUnits(values: seq<Json>): (r: Result<bool, Fault>)
    ensures r == Ok(true) <==> forall i :: 0 <= i < |values| ==>
                                 values[i].Obj? && Truthy(GetOr(values[i].fields, "unit", Null))
  {
    if values == [] then Ok(true)
    else if !values[0].Obj? then Err(AttributeError("feature has no attribute 'get'"))
    else if !Truthy(GetOr(values[0].fields, "unit", Null)) then Ok(false)
    else
      var rest := AllHaveUnits(values[1..]);
      assert forall i :: 1 <= i < |values| ==> values[i] == values[1..][i - 1];
      rest
  }

  /** The values of a dict, in order. */
  function ValuesOf<V>(d: Dict<V>): (vs: seq<V>)
    ensures |vs| == |d| && forall i :: 0 <= i < |d| ==> vs[i] == d[i].1
  {
    seq(|d|, i requires 0 <= i < |d| => d[i].1)
  }

  /** tier2.unit_consistency: every declared feature has a unit; no (or an
      empty) feature table passes. */
  function UnitCheck(id: string, context: Dict<Json>): (r: Result<CheckResult, Fault>)
    ensures !Truthy(GetOr(context, "features", Obj([]))) ==> r.Ok? && r.value.passed
    ensures r.Ok? ==> r.value.threshold == Some(Real(1.0))
                      && r.value.score == Some(Real(if r.value.passed then 1.0 else 0.0))
    ensures r.Ok? ==> r.value.id == id && (r.value.message.None? <==> r.value.passed)
    ensures var f := GetOr(context, "features", Obj([]));
            Truthy(f) ==> (r.Ok? <==> f.Obj? && AllHaveUnits(ValuesOf(f.fields)).Ok?)
    ensures var f := GetOr(context, "features", Obj([]));
            Truthy(f) && r.Ok? ==> f.Obj? && (r.value.passed <==> AllHaveUnits(ValuesOf(f.fields)) == Ok(true))
  {
    var features := GetOr(context, "features", Obj([]));
    var units :- if !Truthy(features) then Ok(true)
                 else if !features.Obj? then Err(AttributeError("features has no attribute 'values'"))
                 else AllHaveUnits(ValuesOf(features.fields));
    Ok(CheckResult(id, units, Some(Real(if units then 1.0 else 0.0)), Some(Real(1.0)),
                   if units then None else Some("Some features missing unit declarations")))
  }

  /** The unit check passes exactly when there is no feature table, or
      every feature in it declares a unit. */
  lemma UnitCheckPasses(id: string, context: Dict<Json>)
    requires UnitCheck(id, context).Ok?
    ensures var f := GetOr(context, "features", Obj([]));
            UnitCheck(id, context).value.passed <==>
              !Truthy(f) || (f.Obj? && forall i :: 0 <= i < |f.fields| ==>
                               f.fields[i].1.Obj? && Truthy(GetOr(f.fields[i].1.fields, "unit", Null)))
  {
    var f := GetOr(context, "features", Obj([]));
    if Truthy(f) {
      var vs := ValuesOf(f.fields);
      assert forall i :: 0 <= i < |f.fields| ==> vs[i] == f.fields[i].1;
    }
  }

  /** tier2.outcome_leakage_prevention: fails when the context flags leakage. */
  function LeakageCheck(id: string, context: Dict<Json>): (r: CheckResult)
    ensures r.passed <==> !Truthy(GetOr(context, "has_outcome_leakage", Bool(false)))
    ensures r.message.None? <==> r.passed
  {
    var hasLeakage := Truthy(GetOr(context, "has_outcome_leakage", Bool(false)));
    Verdict(id, !hasLeakage, "Outcome leakage detected")
  }

  /** A value Python compares and formats as a number: a number, or a bool,
      which is an int. */
  function AsMeasure(j: Json): Option<Measure>
  {
    match j
    case Num(n) => Some(Real(n))
    case Bool(b) => Some(Flag(b))
    case _ => None
  }

  /** The threshold of the jaccard check: the rubric's `scoring.threshold`,
      else 0.7. A truthy scoring that is not a dict has no `get` and raises. */
  function JaccardThreshold(scoring: Json): (r: Result<Json, Fault>)
    ensures !Truthy(scoring) ==> r == Ok(Num(0.7))
    ensures scoring.Obj? && scoring.fields != [] ==> r == Ok(GetOr(scoring.fields, "threshold", Num(0.7)))
  {
    if !Truthy(scoring) then Ok(Num(0.7))
    else if scoring.Obj? then Ok(GetOr(scoring.fields, "threshold", Num(0.7)))
    else Err(AttributeError("scoring has no attribute 'get'"))
  }

  /** The jaccard message; only its direction is modelled. */
  function JaccardMessage(passed: bool): string
  {
    if passed then "Jaccard ≥ threshold" else "Jaccard < threshold"
  }

  /** tier3.cohort_overlap_jaccard: the overlap score, 0.0 by default, must
      reach the threshold; both are recorded as they are. Two strings
      compare, but the score's `:.2f` format then raises `ValueError`; any
      other pair that is not two numbers cannot be compared or formatted and
      raises `TypeError`. */
  function JaccardCheck(check: RubricCheck, context: Dict<Json>): (r: Result<CheckResult, Fault>)
    ensures r.Ok? ==> r.value.score.Some? && r.value.threshold.Some?
                      && (r.value.passed <==> Magnitude(r.value.score.value) >= Magnitude(r.value.threshold.value))
                      && r.value.message.Some? && r.value.message.value != ""
    ensures r.Ok? ==> Some(r.value.score.value) == AsMeasure(GetOr(context, "cohort_jaccard", Num(0.0)))
    ensures r.Ok? ==> JaccardThreshold(check.scoring).Ok?
                      && r.value.threshold == AsMeasure(JaccardThreshold(check.scoring).value)
    ensures r.Err? <==> JaccardThreshold(check.scoring).Err?
                        || AsMeasure(GetOr(context, "cohort_jaccard", Num(0.0))).None?
                        || AsMeasure(JaccardThreshold(check.scoring).value).None?
    ensures JaccardThreshold(check.scoring).Ok? ==>
              (r.Err? && r.error.ValueError? <==>
                 GetOr(context, "cohort_jaccard", Num(0.0)).Str? && JaccardThreshold(check.scoring).value.Str?)
    ensures r.Ok? ==> r.value.id == check.id
  {
    var threshold :- JaccardThreshold(check.scoring);
    var jaccard := GetOr(context, "cohort_jaccard", Num(0.0));
    match (AsMeasure(jaccard), AsMeasure(threshold))
    case (Some(j), Some(t)) =>
      var passed := Magnitude(j) >= Magnitude(t);
      Ok(CheckResult(check.id, passed, Some(j), Some(t), Some(JaccardMessage(passed))))
    case _ =>
      if jaccard.Str? && threshold.Str? then Err(ValueError("Unknown format code 'f' for object of type 'str'"))
      else Err(TypeError("'>=' not supported between the score and the threshold"))
  }

  /** Without a scoring threshold the check compares a numeric or bool
      score with 0.7, and records both. */
  lemma JaccardDefault(check: RubricCheck, context: Dict<Json>, m: Measure)
    requires !Truthy(check.scoring) || (check.scoring.Obj? && Lookup(check.scoring.fields, "threshold").None?)
    requires AsMeasure(GetOr(context, "cohort_jaccard", Num(0.0))) == Some(m)
    ensures JaccardCheck(check, context).Ok?
    ensures JaccardCheck(check, context).value.threshold == Some(Real(0.7))
    ensures JaccardCheck(check, context).value.score == Some(m)
    ensures JaccardCheck(check, context).value.passed <==> Magnitude(m) >= 0.7
  {
  }

  /** `evaluate_check`: the branch the id selects; unknown ids pass. */
  function EvaluateCheck(check: RubricCheck, artifact: Dict<Json>, context: Dict<Json>)
    : (r: Result<CheckResult, Fault>)
    ensures r.Ok? ==> r.value.id == check.id
    ensures r.Err? ==> KindOf(check.id) in {AuditTrace, NoPhi, UnitConsistency, CohortJaccard}
    ensures KindOf(check.id) == Unknown ==>
              r == Ok(CheckResult(check.id, true, None, None,
                                  Some("Unknown check " + check.id + " - defaulting to pass")))
  {
    var id := check.id;
    match KindOf(id)
    case Determinism => Ok(DeterminismCheck(id, artifact))
    case AuditTrace => AuditCheck(id, context)
    case NoPhi => PhiCheck(id, artifact)
    case OutcomeClaims => Ok(CheckResult(id, true, None, None, Some("Policy check - requires human review")))
    case UnitConsistency => UnitCheck(id, context)
    case PlausibleRanges => Ok(CheckResult(id, true, Some(Real(1.0)), Some(Real(0.95)), None))
    case TemporalCoherence =>
      Ok(Verdict(id, Truthy(GetOr(context, "index_time", Null)),
                 "Missing index_time for temporal coherence check"))
    case OutcomeLeakage => Ok(LeakageCheck(id, context))
    case SqlExecutes =>
      Ok(Verdict(id, Truthy(GetOr(context, "sql_executed", Bool(false))), "SQL did not execute successfully"))
    case CohortJaccard => JaccardCheck(check, context)
    case Unknown => Ok(CheckResult(id, true, None, None, Some("Unknown check " + id + " - defaulting to pass")))
  }

  /** The unknown-id default never fails a check. */
  lemma FailOpen(check: RubricCheck, artifact: Dict<Json>, context: Dict<Json>)
    requires check.id !in KnownIds
    ensures EvaluateCheck(check, artifact, context).Ok?
    ensures EvaluateCheck(check, artifact, context).value.passed
  {
  }

  // ----- Tiers -----

  /** Every check of every suite, suite by suite. */
  function TierChecks(suites: seq<RubricSuite>): (cs: seq<RubricCheck>)
  {
    if suites == [] then [] else TierChecks(suites[..|suites| - 1]) + suites[|suites| - 1].checks
  }

  function Checker(artifact: Dict<Json>, context: Dict<Json>): RubricCheck -> Result<CheckResult, Fault>
  {
    c => EvaluateCheck(c, artifact, context)
  }

  predicate AllPassed(results: seq<CheckResult>)
  {
    forall i :: 0 <= i < |results| ==> results[i].passed
  }

  /** The tier result for the checks of `suites` under the check function
      `f`: every result in order, the first fault aborting. */
  function TierOutcomeWith(tier: int, suites: seq<RubricSuite>, f: RubricCheck -> Result<CheckResult, Fault>)
    : (r: Result<TierResult, Fault>)
    ensures r.Ok? ==> r.value.tier == tier && (r.value.passed <==> AllPassed(r.value.checks))
  {
    var results :- MapAll(f, TierChecks(suites));
    Ok(TierResult(tier, AllPassed(results), results))
  }

  /** What `evaluate_tier` returns or raises for the suites of one tier. */
  function TierOutcome(tier: int, suites: seq<RubricSuite>, artifact: Dict<Json>, context: Dict<Json>)
    : Result<TierResult, Fault>
  {
    TierOutcomeWith(tier, suites, Checker(artifact, context))
  }

  /** The tier has one result per check, each the check's own evaluation,
      and it passes exactly when every one of them passes. */
  lemma TierOutcomeChecks(tier: int, suites: seq<RubricSuite>, artifact: Dict<Json>, context: Dict<Json>)
    requires TierOutcome(tier, suites, artifact, context).Ok?
    ensures var t := TierOutcome(tier, suites, artifact, context).value;
            |t.checks| == |TierChecks(suites)|
            && (forall i :: 0 <= i < |t.checks| ==> EvaluateCheck(TierChecks(suites)[i], artifact, context) == Ok(t.checks[i]))
            && (t.passed <==> forall i :: 0 <= i < |t.checks| ==> t.checks[i].passed)
  {
    var f := Checker(artifact, context);
    MapAllOk(f, TierChecks(suites));
  }

  /** A tier raises exactly the fault of its first check that raises. */
  lemma TierOutcomeFault(tier: int, suites: seq<RubricSuite>, artifact: Dict<Json>, context: Dict<Json>)
    requires TierOutcome(tier, suites, artifact, context).Err?
    ensures exists i :: 0 <= i < |TierChecks(suites)|
              && EvaluateCheck(TierChecks(suites)[i], artifact, context) == Err(TierOutcome(tier, suites, artifact, context).error)
              && forall j :: 0 <= j < i ==> EvaluateCheck(TierChecks(suites)[j], artifact, context).Ok?
  {
    MapAllErr(Checker(artifact, context), TierChecks(suites));
  }

  /** A tier without checks passes. */
  lemma EmptyTierPasses(tier: int, artifact: Dict<Json>, context: Dict<Json>)
    ensures TierOutcome(tier, [], artifact, context) == Ok(TierResult(tier, true, []))
  {
    assert TierChecks([]) == [];
  }

  /** A tier result whose flag agrees with its checks, as `evaluate_tier` builds it. */
  predicate Consistent(tiers: map<int, TierResult>)
  {
    forall n :: n in tiers ==> tiers[n].passed == AllPassed(tiers[n].checks)
  }

  // ----- The gate -----

  /** `tier and not tier.passed`: the tier is present and failed. */
  predicate Failing(tiers: map<int, TierResult>, n: int)
  {
    n in tiers && !tiers[n].passed
  }

  function ReasonText(n: nat, id: string): string
  {
    "Tier " + NatToString(n) + " violation: " + id
  }

  predicate HasMessage(c: CheckResult)
  {
    c.message.Some? && c.message.value != ""
  }

  /** One reason per failing check, in order. */
  function Reasons(n: nat, checks: seq<CheckResult>): seq<string>
  {
    if checks == [] then []
    else
      var c := checks[|checks| - 1];
      Reasons(n, checks[..|checks| - 1]) + (if c.passed then [] else [ReasonText(n, c.id)])
  }

  /** The non-empty messages of the failing checks, in order. */
  function Fixes(checks: seq<CheckResult>): seq<string>
  {
    if checks == [] then []
    else
      var c := checks[|checks| - 1];
      Fixes(checks[..|checks| - 1]) + (if !c.passed && HasMessage(c) then [c.message.value] else [])
  }

  function TierReasons(tiers: map<int, TierResult>, n: nat): seq<string>
  {
    if Failing(tiers, n) then Reasons(n, tiers[n].checks) else []
  }

  function TierFixes(tiers: map<int, TierResult>, n: nat): seq<string>
  {
    if Failing(tiers, n) then Fixes(tiers[n].checks) else []
  }

  /** The decision table: tier 1 or tier 2 failing blocks, tier 3 failing
      asks for revision, otherwise the artifact is approved. */
  function DecisionOf(tiers: map<int, TierResult>): (d: Decision)
    ensures d == Block <==> Failing(tiers, 1) || Failing(tiers, 2)
    ensures d == Revise <==> !Failing(tiers, 1) && !Failing(tiers, 2) && Failing(tiers, 3)
    ensures d == Approve <==> !Failing(tiers, 1) && !Failing(tiers, 2) && !Failing(tiers, 3)
  {
    if Failing(tiers, 1) then Block
    else if Failing(tiers, 2) then Block
    else if Failing(tiers, 3) then Revise
    else Approve
  }

  /** What `_compute_gate_decision` returns. */
  function GateOf(tiers: map<int, TierResult>): (g: GateDecision)
    ensures g.deferralRecommended <==> g.decision == Block
    ensures g.deferralTo == if g.decision == Block then Some("human_review") else None
  {
    var d := DecisionOf(tiers);
    GateDecision(d,
                 TierReasons(tiers, 1) + TierReasons(tiers, 2) + TierReasons(tiers, 3),
                 TierFixes(tiers, 1) + TierFixes(tiers, 2) + TierFixes(tiers, 3),
                 d == Block,
                 if d == Block then Some("human_review") else None)
  }

  /** The positions of the failing checks. */
  function FailingPositions(checks: seq<CheckResult>): set<nat>
  {
    set i: nat | i < |checks| && !checks[i].passed
  }

  /** There is exactly one reason per failing check, each names it, and
      they come in the order of the checks. */
  lemma ReasonsPerFailure(n: nat, checks: seq<CheckResult>)
    ensures |Reasons(n, checks)| == |FailingPositions(checks)|
    ensures forall i :: 0 <= i < |checks| && !checks[i].passed ==> ReasonText(n, checks[i].id) in Reasons(n, checks)
    ensures forall s :: s in Reasons(n, checks) ==>
              exists i :: 0 <= i < |checks| && !checks[i].passed && s == ReasonText(n, checks[i].id)
    ensures exists idx :: ReasonIndices(n, checks, Reasons(n, checks), idx)
  {
    ReasonsCount(n, checks);
    ReasonsCover(n, checks);
    ReasonsNamed(n, checks);
    var idx := ReasonsInOrder(n, checks);
  }

  lemma {:induction false} ReasonsCount(n: nat, checks: seq<CheckResult>)
    ensures |Reasons(n, checks)| == |FailingPositions(checks)|
  {
    if checks != [] {
      var k := |checks| - 1;
      var prev := checks[..k];
      ReasonsCount(n, prev);
      assert forall i :: 0 <= i < k ==> prev[i] == checks[i];
      if checks[k].passed {
        assert FailingPositions(checks) == FailingPositions(prev);
      } else {
        assert FailingPositions(checks) == FailingPositions(prev) + {k};
      }
    }
  }

  lemma {:induction false} ReasonsCover(n: nat, checks: seq<CheckResult>)
    ensures forall i :: 0 <= i < |checks| && !checks[i].passed ==> ReasonText(n, checks[i].id) in Reasons(n, checks)
  {
    if checks != [] {
      var k := |checks| - 1;
      var prev := checks[..k];
      ReasonsCover(n, prev);
      assert forall i :: 0 <= i < k ==> prev[i] == checks[i];
    }
  }

  lemma {:induction false} ReasonsNamed(n: nat, checks: seq<CheckResult>)
    ensures forall s :: s in Reasons(n, checks) ==>
              exists i :: 0 <= i < |checks| && !checks[i].passed && s == ReasonText(n, checks[i].id)
  {
    if checks != [] {
      var k := |checks| - 1;
      var prev := checks[..k];
      ReasonsNamed(n, prev);
      forall s | s in Reasons(n, checks)
        ensures exists i :: 0 <= i < |checks| && !checks[i].passed && s == ReasonText(n, checks[i].id)
      {
        if s in Reasons(n, prev) {
          var i :| 0 <= i < |prev| && !prev[i].passed && s == ReasonText(n, prev[i].id);
          assert checks[i] == prev[i];
        } else {
          assert s == ReasonText(n, checks[k].id);
        }
      }
    }
  }

  /** No reasons come from a list of checks exactly when all of them pass. */
  lemma ReasonsEmpty(n: nat, checks: seq<CheckResult>)
    ensures Reasons(n, checks) == [] <==> AllPassed(checks)
  {
    ReasonsPerFailure(n, checks);
    if !AllPassed(checks) {
      var i :| 0 <= i < |checks| && !checks[i].passed;
      assert ReasonText(n, checks[i].id) in Reasons(n, checks);
    }
  }

  /** `idx` lists, increasing, the positions of the failing checks, and
      `reasons` holds their "Tier n violation: id" texts in that order. */
  predicate ReasonIndices(n: nat, checks: seq<CheckResult>, reasons: seq<string>, idx: seq<nat>)
  {
    |idx| == |reasons|
    && (forall j :: 0 <= j < |idx| ==>
          idx[j] < |checks| && !checks[idx[j]].passed && reasons[j] == ReasonText(n, checks[idx[j]].id))
    && (forall j, l :: 0 <= j < l < |idx| ==> idx[j] < idx[l])
    && (forall i :: 0 <= i < |checks| && !checks[i].passed ==> i in idx)
  }

  /** The reasons of a tier follow its failing checks, in the order of the checks. */
  lemma {:induction false} ReasonsInOrder(n: nat, checks: seq<CheckResult>) returns (idx: seq<nat>)
    ensures ReasonIndices(n, checks, Reasons(n, checks), idx)
  {
    if checks == [] {
      return [];
    }
    var k := |checks| - 1;
    var prev := checks[..k];
    var before := ReasonsInOrder(n, prev);
    assert checks == prev + [checks[k]];
    if !checks[k].passed {
      ReasonIndicesAppend(n, prev, Reasons(n, prev), before, checks[k]);
      idx := before + [k];
    } else {
      ReasonIndicesSkip(n, prev, Reasons(n, prev), before, checks[k]);
      idx := before;
    }
  }

  /** A failing check adds its position and its reason. */
  lemma ReasonIndicesAppend(n: nat, prev: seq<CheckResult>, reasons: seq<string>, before: seq<nat>, c: CheckResult)
    requires ReasonIndices(n, prev, reasons, before) && !c.passed
    ensures ReasonIndices(n, prev + [c], reasons + [ReasonText(n, c.id)], before + [|prev|])
  {
    var checks := prev + [c];
    var idx := before + [|prev|];
    var all := reasons + [ReasonText(n, c.id)];
    forall j | 0 <= j < |idx|
      ensures idx[j] < |checks| && !checks[idx[j]].passed && all[j] == ReasonText(n, checks[idx[j]].id)
    {
      if j < |before| {
        assert idx[j] == before[j] && all[j] == reasons[j] && checks[idx[j]] == prev[before[j]];
      }
    }
    forall j, l | 0 <= j < l < |idx| ensures idx[j] < idx[l] {
      if l < |before| {
        assert idx[j] == before[j] && idx[l] == before[l];
      } else {
        assert idx[j] == before[j] < |prev|;
      }
    }
    forall i | 0 <= i < |checks| && !checks[i].passed ensures i in idx {
      if i < |prev| {
        assert checks[i] == prev[i];
      } else {
        assert idx[|before|] == i;
      }
    }
  }

  /** A passing check changes nothing. */
  lemma ReasonIndicesSkip(n: nat, prev: seq<CheckResult>, reasons: seq<string>, before: seq<nat>, c: CheckResult)
    requires ReasonIndices(n, prev, reasons, before) && c.passed
    ensures ReasonIndices(n, prev + [c], reasons, before)
  {
    var checks := prev + [c];
    forall j | 0 <= j < |before| ensures checks[before[j]] == prev[before[j]] {
    }
    forall i | 0 <= i < |checks| && !checks[i].passed ensures i in before {
      assert i < |prev| && checks[i] == prev[i];
    }
  }

  /** A check whose message becomes a required fix: it failed and its
      message is not empty. */
  predicate NeedsFix(c: CheckResult)
  {
    !c.passed && HasMessage(c)
  }

  /** The positions of the checks whose message becomes a fix. */
  function FixPositions(checks: seq<CheckResult>): set<nat>
  {
    set i: nat | i < |checks| && NeedsFix(checks[i])
  }

  /** There is one fix per failing check with a message. */
  lemma {:induction false} FixesCount(checks: seq<CheckResult>)
    ensures |Fixes(checks)| == |FixPositions(checks)|
  {
    if checks != [] {
      var k := |checks| - 1;
      var prev := checks[..k];
      FixesCount(prev);
      assert forall i :: 0 <= i < k ==> prev[i] == checks[i];
      if NeedsFix(checks[k]) {
        assert FixPositions(checks) == FixPositions(prev) + {k};
      } else {
        assert FixPositions(checks) == FixPositions(prev);
      }
    }
  }

  /** `idx` lists, increasing, the positions of the checks whose message
      becomes a fix, and `fixes` holds those messages in that order. */
  predicate FixIndices(checks: seq<CheckResult>, fixes: seq<string>, idx: seq<nat>)
  {
    |idx| == |fixes|
    && (forall j :: 0 <= j < |idx| ==>
          idx[j] < |checks| && NeedsFix(checks[idx[j]]) && fixes[j] == checks[idx[j]].message.value)
    && (forall j, l :: 0 <= j < l < |idx| ==> idx[j] < idx[l])
    && (forall i :: 0 <= i < |checks| && NeedsFix(checks[i]) ==> i in idx)
  }

  /** The fixes are the messages of the failing checks that have one, in
      the order of the checks. */
  lemma {:induction false} FixesInOrder(checks: seq<CheckResult>) returns (idx: seq<nat>)
    ensures FixIndices(checks, Fixes(checks), idx)
  {
    if checks == [] {
      return [];
    }
    var k := |checks| - 1;
    var prev := checks[..k];
    var before := FixesInOrder(prev);
    assert checks == prev + [checks[k]];
    if NeedsFix(checks[k]) {
      assert Fixes(checks) == Fixes(prev) + [checks[k].message.value];
      FixIndicesAppend(prev, Fixes(prev), before, checks[k]);
      idx := before + [k];
    } else {
      assert Fixes(checks) == Fixes(prev);
      FixIndicesSkip(prev, Fixes(prev), before, checks[k]);
      idx := before;
    }
  }

  /** A check that needs a fix adds its position and its message. */
  lemma FixIndicesAppend(prev: seq<CheckResult>, fixes: seq<string>, before: seq<nat>, c: CheckResult)
    requires FixIndices(prev, fixes, before) && NeedsFix(c)
    ensures FixIndices(prev + [c], fixes + [c.message.value], before + [|prev|])
  {
    var checks := prev + [c];
    var idx := before + [|prev|];
    var all := fixes + [c.message.value];
    forall j | 0 <= j < |idx|
      ensures idx[j] < |checks| && NeedsFix(checks[idx[j]]) && all[j] == checks[idx[j]].message.value
    {
      if j < |before| {
        assert idx[j] == before[j] && all[j] == fixes[j] && checks[idx[j]] == prev[before[j]];
      }
    }
    forall j, l | 0 <= j < l < |idx| ensures idx[j] < idx[l] {
      if l < |before| {
        assert idx[j] == before[j] && idx[l] == before[l];
      } else {
        assert idx[j] == before[j] < |prev|;
      }
    }
    forall i | 0 <= i < |checks| && NeedsFix(checks[i]) ensures i in idx {
      if i < |prev| {
        assert checks[i] == prev[i];
      } else {
        assert idx[|before|] == i;
      }
    }
  }

  /** A check that needs no fix changes nothing. */
  lemma FixIndicesSkip(prev: seq<CheckResult>, fixes: seq<string>, before: seq<nat>, c: CheckResult)
    requires FixIndices(prev, fixes, before) && !NeedsFix(c)
    ensures FixIndices(prev + [c], fixes, before)
  {
    var checks := prev + [c];
    forall j | 0 <= j < |before| ensures checks[before[j]] == prev[before[j]] {
    }
    forall i | 0 <= i < |checks| && NeedsFix(checks[i]) ensures i in before {
      assert i < |prev| && checks[i] == prev[i];
    }
  }

  /** Every fix is the message of a failing check, and every failing check
      with a message contributes its message. */
  lemma FixesPerFailure(checks: seq<CheckResult>)
    ensures forall s :: s in Fixes(checks) ==>
              exists i :: 0 <= i < |checks| && NeedsFix(checks[i]) && s == checks[i].message.value
    ensures forall i :: 0 <= i < |checks| && NeedsFix(checks[i]) ==> checks[i].message.value in Fixes(checks)
  {
    var idx := FixesInOrder(checks);
    forall s | s in Fixes(checks)
      ensures exists i :: 0 <= i < |checks| && NeedsFix(checks[i]) && s == checks[i].message.value
    {
      var j :| 0 <= j < |Fixes(checks)| && Fixes(checks)[j] == s;
      assert checks[idx[j]].message.value == s;
    }
    forall i | 0 <= i < |checks| && NeedsFix(checks[i])
      ensures checks[i].message.value in Fixes(checks)
    {
      var j :| 0 <= j < |idx| && idx[j] == i;
      assert Fixes(checks)[j] == checks[i].message.value;
    }
  }

  /** The required fixes of the gate, tier by tier: for consistent tier
      results, every failing check of tiers 1 to 3 that has a message gives
      its message, and nothing else is a fix. */
  lemma GateFixes(tiers: map<int, TierResult>)
    requires Consistent(tiers)
    ensures var fixes := GateOf(tiers).requiredFixes;
            |fixes| == FixTotal(tiers, 1) + FixTotal(tiers, 2) + FixTotal(tiers, 3)
    ensures forall n, i :: n in {1, 2, 3} && n in tiers && 0 <= i < |tiers[n].checks| && NeedsFix(tiers[n].checks[i])
              ==> tiers[n].checks[i].message.value in GateOf(tiers).requiredFixes
    ensures forall s :: s in GateOf(tiers).requiredFixes ==>
              exists n, i :: n in {1, 2, 3} && n in tiers && 0 <= i < |tiers[n].checks|
                             && NeedsFix(tiers[n].checks[i]) && s == tiers[n].checks[i].message.value
  {
    forall n: nat | n in {1, 2, 3}
      ensures |TierFixes(tiers, n)| == FixTotal(tiers, n)
      ensures forall i :: n in tiers && 0 <= i < |tiers[n].checks| && NeedsFix(tiers[n].checks[i])
                ==> tiers[n].checks[i].message.value in TierFixes(tiers, n)
      ensures forall s :: s in TierFixes(tiers, n) ==>
                n in tiers && exists i :: 0 <= i < |tiers[n].checks|
                                          && NeedsFix(tiers[n].checks[i]) && s == tiers[n].checks[i].message.value
    {
      if n in tiers {
        FixesCount(tiers[n].checks);
        FixesPerFailure(tiers[n].checks);
        if !Failing(tiers, n) {
          assert FixPositions(tiers[n].checks) == {};
        }
      }
    }
  }

  /** The number of failing checks with a message in tier `n`. */
  function FixTotal(tiers: map<int, TierResult>, n: int): nat
  {
    if n in tiers then |FixPositions(tiers[n].checks)| else 0
  }

  /** The number of failing checks in tier `n`. */
  function FailTotal(tiers: map<int, TierResult>, n: int): nat
  {
    if n in tiers then |FailingPositions(tiers[n].checks)| else 0
  }

  /** `s` is the reason for the check at position `p.1` of tier `p.0`, which failed. */
  predicate NamesFailure(tiers: map<int, TierResult>, p: (nat, nat), s: string)
  {
    p.0 in tiers && p.1 < |tiers[p.0].checks| && !tiers[p.0].checks[p.1].passed
    && s == ReasonText(p.0, tiers[p.0].checks[p.1].id)
  }

  /** Tier by tier, then check by check. */
  predicate Before(a: (nat, nat), b: (nat, nat))
  {
    a.0 < b.0 || (a.0 == b.0 && a.1 < b.1)
  }

  /** `src` gives, in increasing (tier, position) order, the failing check
      each of `reasons` names, and names every failing check of the tiers
      `lo` to `hi - 1`. */
  predicate Sourced(tiers: map<int, TierResult>, lo: nat, hi: nat, reasons: seq<string>, src: seq<(nat, nat)>)
  {
    |src| == |reasons|
    && (forall j :: 0 <= j < |src| ==> lo <= src[j].0 < hi && NamesFailure(tiers, src[j], reasons[j]))
    && (forall j, l :: 0 <= j < l < |src| ==> Before(src[j], src[l]))
    && (forall n: nat, i: nat :: lo <= n < hi && n in tiers && i < |tiers[n].checks| && !tiers[n].checks[i].passed
          ==> (n, i) in src)
  }

  /** The reasons one tier contributes to the gate. */
  lemma TierSourced(tiers: map<int, TierResult>, n: nat) returns (src: seq<(nat, nat)>)
    requires Consistent(tiers)
    ensures Sourced(tiers, n, n + 1, TierReasons(tiers, n), src)
  {
    if !Failing(tiers, n) {
      return [];
    }
    var checks := tiers[n].checks;
    var idx := ReasonsInOrder(n, checks);
    src := seq(|idx|, j requires 0 <= j < |idx| => (n, idx[j]));
    forall m: nat, i: nat | n <= m < n + 1 && m in tiers && i < |tiers[m].checks| && !tiers[m].checks[i].passed
      ensures (m, i) in src
    {
      var j :| 0 <= j < |idx| && idx[j] == i;
      assert src[j] == (m, i);
    }
  }

  /** The reasons of lower tiers followed by those of higher tiers. */
  lemma SourcedJoin(tiers: map<int, TierResult>, lo: nat, mid: nat, hi: nat,
                    r1: seq<string>, s1: seq<(nat, nat)>, r2: seq<string>, s2: seq<(nat, nat)>)
    requires lo <= mid <= hi
    requires Sourced(tiers, lo, mid, r1, s1) && Sourced(tiers, mid, hi, r2, s2)
    ensures Sourced(tiers, lo, hi, r1 + r2, s1 + s2)
  {
    var r, s := r1 + r2, s1 + s2;
    forall j | 0 <= j < |s| ensures lo <= s[j].0 < hi && NamesFailure(tiers, s[j], r[j]) {
      if j < |s1| {
        assert s[j] == s1[j] && r[j] == r1[j];
      } else {
        assert s[j] == s2[j - |s1|] && r[j] == r2[j - |s1|];
      }
    }
    forall j, l | 0 <= j < l < |s| ensures Before(s[j], s[l]) {
      if l < |s1| {
        assert s[j] == s1[j] && s[l] == s1[l];
      } else if j < |s1| {
        assert s[j] == s1[j] && s[l] == s2[l - |s1|];
      } else {
        assert s[j] == s2[j - |s1|] && s[l] == s2[l - |s1|];
      }
    }
    forall n: nat, i: nat | lo <= n < hi && n in tiers && i < |tiers[n].checks| && !tiers[n].checks[i].passed
      ensures (n, i) in s
    {
      if n < mid {
        assert (n, i) in s1;
      } else {
        assert (n, i) in s2;
      }
    }
  }

  /** The blocking reasons of the gate, in order: for consistent tier
      results, one "Tier n violation: id" per failing check, tier 1 before
      tier 2 before tier 3 and in check order within a tier. */
  lemma GateReasonsInOrder(tiers: map<int, TierResult>) returns (src: seq<(nat, nat)>)
    requires Consistent(tiers)
    ensures Sourced(tiers, 1, 4, GateOf(tiers).blockingReasons, src)
  {
    var s1 := TierSourced(tiers, 1);
    var s2 := TierSourced(tiers, 2);
    var s3 := TierSourced(tiers, 3);
    SourcedJoin(tiers, 1, 2, 3, TierReasons(tiers, 1), s1, TierReasons(tiers, 2), s2);
    SourcedJoin(tiers, 1, 3, 4, TierReasons(tiers, 1) + TierReasons(tiers, 2), s1 + s2, TierReasons(tiers, 3), s3);
    src := s1 + s2 + s3;
  }

  /** The blocking reasons of the gate, counted and named: for consistent
      tier results, there is one per failing check of tiers 1 to 3, every
      such check gives its reason, and every reason names such a check. */
  lemma GateReasons(tiers: map<int, TierResult>)
    requires Consistent(tiers)
    ensures |GateOf(tiers).blockingReasons| == FailTotal(tiers, 1) + FailTotal(tiers, 2) + FailTotal(tiers, 3)
    ensures forall n: nat, i :: n in {1, 2, 3} && n in tiers && 0 <= i < |tiers[n].checks| && !tiers[n].checks[i].passed
              ==> ReasonText(n, tiers[n].checks[i].id) in GateOf(tiers).blockingReasons
    ensures forall s :: s in GateOf(tiers).blockingReasons ==>
              exists n: nat, i :: n in {1, 2, 3} && n in tiers && 0 <= i < |tiers[n].checks|
                                  && !tiers[n].checks[i].passed && s == ReasonText(n, tiers[n].checks[i].id)
  {
    forall n: nat | n in {1, 2, 3} ensures |TierReasons(tiers, n)| == FailTotal(tiers, n) {
      if n in tiers {
        ReasonsCount(n, tiers[n].checks);
        if !Failing(tiers, n) {
          assert FailingPositions(tiers[n].checks) == {};
        }
      }
    }
    var reasons := GateOf(tiers).blockingReasons;
    var src := GateReasonsInOrder(tiers);
    forall n: nat, i | n in {1, 2, 3} && n in tiers && 0 <= i < |tiers[n].checks| && !tiers[n].checks[i].passed
      ensures ReasonText(n, tiers[n].checks[i].id) in reasons
    {
      assert (n, i as nat) in src;
      var j :| 0 <= j < |src| && src[j] == (n, i as nat);
      assert NamesFailure(tiers, src[j], reasons[j]);
    }
    forall s | s in reasons
      ensures exists n: nat, i :: n in {1, 2, 3} && n in tiers && 0 <= i < |tiers[n].checks|
                                  && !tiers[n].checks[i].passed && s == ReasonText(n, tiers[n].checks[i].id)
    {
      var j :| 0 <= j < |reasons| && reasons[j] == s;
      assert NamesFailure(tiers, src[j], reasons[j]);
      var n, i := src[j].0, src[j].1;
      assert n in {1, 2, 3};
    }
  }

  /** For tier results built by `evaluate_tier`, the artifact is approved
      exactly when no blocking reason is recorded. */
  lemma ApproveIffNoReasons(tiers: map<int, TierResult>)
    requires Consistent(tiers)
    ensures GateOf(tiers).decision == Approve <==> GateOf(tiers).blockingReasons == []
  {
    forall n: nat | n in {1, 2, 3} ensures TierReasons(tiers, n) == [] <==> !Failing(tiers, n) {
      if Failing(tiers, n) {
        ReasonsEmpty(n, tiers[n].checks);
      }
    }
  }

  /** A tier that fails in one evaluation and also in a second makes the
      second's decision at least as severe. */
  lemma DecisionMonotone(tiers: map<int, TierResult>, worse: map<int, TierResult>)
    requires forall n :: Failing(tiers, n) ==> Failing(worse, n)
    ensures Rank(DecisionOf(tiers)) <= Rank(DecisionOf(worse))
  {
  }

  /** A failing tier 1 or tier 2 blocks, with deferral to human_review. */
  lemma FailingTierBlocks(tiers: map<int, TierResult>)
    requires Failing(tiers, 1) || Failing(tiers, 2)
    ensures GateOf(tiers).decision == Block && GateOf(tiers).deferralTo == Some("human_review")
  {
  }

  /** The blocks of `_compute_gate_decision` that append violations of one
      tier: a reason per failing check, and its message as a fix when there is one. */
  method AppendViolations(n: nat, checks: seq<CheckResult>, reasons0: seq<string>, fixes0: seq<string>)
    returns (reasons: seq<string>, fixes: seq<string>)
    ensures reasons == reasons0 + Reasons(n, checks)
    ensures fixes == fixes0 + Fixes(checks)
  {
    reasons, fixes := reasons0, fixes0;
    for i := 0 to |checks|
      invariant reasons == reasons0 + Reasons(n, checks[..i])
      invariant fixes == fixes0 + Fixes(checks[..i])
    {
      assert checks[..i + 1][..i] == checks[..i];
      var c := checks[i];
      if !c.passed {
        reasons := reasons + [ReasonText(n, c.id)];
        if HasMessage(c) {
          fixes := fixes + [c.message.value];
        }
      }
    }
    assert checks[..|checks|] == checks;
  }

  /** `_compute_gate_decision`. */
  method ComputeGateDecision(tiers: map<int, TierResult>) returns (g: GateDecision)
    ensures g == GateOf(tiers)
  {
    var reasons: seq<string> := [];
    var fixes: seq<string> := [];
    if Failing(tiers, 1) {
      reasons, fixes := AppendViolations(1, tiers[1].checks, reasons, fixes);
    }
    assert reasons == TierReasons(tiers, 1) && fixes == TierFixes(tiers, 1);
    if Failing(tiers, 2) {
      reasons, fixes := AppendViolations(2, tiers[2].checks, reasons, fixes);
    }
    assert reasons == TierReasons(tiers, 1) + TierReasons(tiers, 2);
    assert fixes == TierFixes(tiers, 1) + TierFixes(tiers, 2);
    if Failing(tiers, 3) {
      reasons, fixes := AppendViolations(3, tiers[3].checks, reasons, fixes);
    }
    assert reasons == TierReasons(tiers, 1) + TierReasons(tiers, 2) + TierReasons(tiers, 3);
    assert fixes == TierFixes(tiers, 1) + TierFixes(tiers, 2) + TierFixes(tiers, 3);
    var decision: Decision;
    var deferral: bool;
    if Failing(tiers, 1) {
      decision, deferral := Block, true;
    } else if Failing(tiers, 2) {
      decision, deferral := Block, true;
    } else if Failing(tiers, 3) {
      decision, deferral := Revise, false;
    } else {
      decision, deferral := Approve, false;
    }
    g := GateDecision(decision, reasons, fixes, deferral, if deferral then Some("human_review") else None);
  }

  // ----- Rubric versions -----

  function TierKey(n: nat): string
  {
    "tier" + NatToString(n)
  }

  /** `rubric_versions[f"tier{tier}"] = suite.version` for each suite of the tier. */
  function PutTierVersions(versions: Dict<string>, n: nat, suites: seq<RubricSuite>): Dict<string>
  {
    if suites == [] then versions
    else Put(PutTierVersions(versions, n, suites[..|suites| - 1]), TierKey(n), suites[|suites| - 1].version)
  }

  /** The versions recorded for the tiers below `t`. */
  function TierVersionsBelow(c: Catalog, t: nat): Dict<string>
    requires c.Keys == {1, 2, 3} && 1 <= t <= 4
  {
    if t == 1 then [] else PutTierVersions(TierVersionsBelow(c, t - 1), t - 1, c[t - 1])
  }

  /** The rubric versions of an evaluation: keyed by tier, not by suite. */
  function TierVersions(c: Catalog): Dict<string>
    requires c.Keys == {1, 2, 3}
  {
    TierVersionsBelow(c, 4)
  }

  /** Recording a tier's suites leaves the tier's key with the last suite's
      version and every other key as it was. */
  lemma {:induction false} PutTierVersionsLookup(versions: Dict<string>, n: nat, suites: seq<RubricSuite>, k: string)
    ensures Lookup(PutTierVersions(versions, n, suites), k) ==
              if k == TierKey(n) && suites != [] then Some(suites[|suites| - 1].version)
              else Lookup(versions, k)
  {
    if suites != [] {
      var prev := suites[..|suites| - 1];
      PutTierVersionsLookup(versions, n, prev, k);
      PutLookup(PutTierVersions(versions, n, prev), TierKey(n), suites[|suites| - 1].version, k);
    }
  }

  /** Each tier's key holds the version of that tier's last suite; a tier
      without suites has no key. */
  lemma TierVersionsLookup(c: Catalog, n: nat)
    requires c.Keys == {1, 2, 3} && n in {1, 2, 3}
    ensures Lookup(TierVersions(c), TierKey(n)) ==
              if c[n] == [] then None else Some(c[n][|c[n]| - 1].version)
  {
    assert TierKey(1) == "tier1" && TierKey(2) == "tier2" && TierKey(3) == "tier3";
    var k := TierKey(n);
    PutTierVersionsLookup(TierVersionsBelow(c, 3), 3, c[3], k);
    PutTierVersionsLookup(TierVersionsBelow(c, 2), 2, c[2], k);
    PutTierVersionsLookup(TierVersionsBelow(c, 1), 1, c[1], k);
  }

  // ----- The whole evaluation -----

  /** The suites of a tier, none for a tier the catalog lacks. */
  function SuitesOf(c: Catalog, tier: int): seq<RubricSuite>
  {
    if tier in c then c[tier] else []
  }

  /** The results of the tiers below `t` under the check function `f`,
      evaluated in order; the first fault aborts. */
  function ResultsBelow(c: Catalog, f: RubricCheck -> Result<CheckResult, Fault>, t: nat)
    : (r: Result<map<int, TierResult>, Fault>)
    requires c.Keys == {1, 2, 3} && 1 <= t <= 4
    ensures r.Ok? ==> (forall n :: n in r.value <==> 1 <= n < t) && Consistent(r.value)
  {
    if t == 1 then Ok(map[])
    else
      var below :- ResultsBelow(c, f, t - 1);
      var result :- TierOutcomeWith(t - 1, c[t - 1], f);
      Ok(below[t - 1 := result])
  }

  /** Once a tier raises, so does the evaluation of every later tier. */
  lemma {:induction false} ResultsBelowFault(c: Catalog, f: RubricCheck -> Result<CheckResult, Fault>, t: nat, u: nat)
    requires c.Keys == {1, 2, 3} && 1 <= t <= u <= 4
    requires ResultsBelow(c, f, t).Err?
    ensures ResultsBelow(c, f, u) == ResultsBelow(c, f, t)
    decreases u
  {
    if u > t {
      ResultsBelowFault(c, f, t, u - 1);
    }
  }

  /** The context `evaluate` works with: an empty one when none is given. */
  function ContextOf(context: Option<Dict<Json>>): Dict<Json>
  {
    if context.None? then [] else context.value
  }

  /** What `evaluate` returns or raises. */
  function EvaluationOf(c: Catalog, artifact: Dict<Json>, context: Option<Dict<Json>>)
    : (r: Result<EvaluationResult, Fault>)
    requires c.Keys == {1, 2, 3}
    ensures r.Ok? ==> r.value.tierResults.Keys == {1, 2, 3} && Consistent(r.value.tierResults)
    ensures r.Ok? ==> r.value.gateDecision == GateOf(r.value.tierResults)
  {
    var tiers :- ResultsBelow(c, Checker(artifact, ContextOf(context)), 4);
    AllThreeTiers(tiers);
    Ok(EvaluationResult(tiers, GateOf(tiers), TierVersions(c)))
  }

  /** Tier results for exactly the tiers 1 to 3. */
  lemma AllThreeTiers(tiers: map<int, TierResult>)
    requires forall n :: n in tiers <==> 1 <= n < 4
    ensures tiers.Keys == {1, 2, 3}
  {
    assert forall n :: n in tiers.Keys <==> n in {1, 2, 3};
  }

  /** The evaluator: the catalog it loaded when it was built. */
  class RubricEvaluator {
    const rubricsByTier: Catalog

    /** Load the catalog of the given rubrics directory (the caller passes
        the default directory when none is configured). */
    constructor(tree: RubricTree, validator: Validator)
      ensures rubricsByTier == CatalogOf(tree, validator)
      ensures rubricsByTier.Keys == {1, 2, 3}
    {
      var loaded := LoadAllRubrics(tree, validator);
      rubricsByTier := loaded;
    }

    /** `evaluate_tier`: every check of every suite of the tier, in order. */
    method EvaluateTier(tier: int, artifact: Dict<Json>, context: Dict<Json>)
      returns (r: Result<TierResult, Fault>)
      ensures r == TierOutcome(tier, SuitesOf(rubricsByTier, tier), artifact, context)
      ensures r.Ok? ==> (r.value.passed <==> AllPassed(r.value.checks))
    {
      r := RunChecks(tier, SuitesOf(rubricsByTier, tier), Checker(artifact, context));
    }

    /** `evaluate`: the three tiers, the gate decision and the versions. */
    method Evaluate(artifact: Dict<Json>, context: Option<Dict<Json>>)
      returns (r: Result<EvaluationResult, Fault>)
      requires rubricsByTier.Keys == {1, 2, 3}
      ensures r == EvaluationOf(rubricsByTier, artifact, context)
    {
      var tiers :- RunTiers(rubricsByTier, Checker(artifact, ContextOf(context)));
      var gate := ComputeGateDecision(tiers);
      var versions := CollectTierVersions(rubricsByTier);
      r := Ok(EvaluationResult(tiers, gate, versions));
    }
  }

  /** The tier loop of `evaluate`: tiers 1, 2 and 3 in order, each through
      `evaluate_tier`, the first fault aborting. */
  method RunTiers(c: Catalog, f: RubricCheck -> Result<CheckResult, Fault>)
    returns (r: Result<map<int, TierResult>, Fault>)
    requires c.Keys == {1, 2, 3}
    ensures r == ResultsBelow(c, f, 4)
  {
    var tiers: map<int, TierResult> := map[];
    for tier := 1 to 4
      invariant ResultsBelow(c, f, tier) == Ok(tiers)
    {
      var t := RunChecks(tier, c[tier], f);
      if t.Err? {
        ResultsBelowFault(c, f, tier + 1, 4);
        return Err(t.error);
      }
      tiers := tiers[tier := t.value];
    }
    r := Ok(tiers);
  }

  /** The version loop of `evaluate`. */
  method CollectTierVersions(c: Catalog) returns (versions: Dict<string>)
    requires c.Keys == {1, 2, 3}
    ensures versions == TierVersions(c)
  {
    versions := [];
    for tier := 1 to 4
      invariant versions == TierVersionsBelow(c, tier)
    {
      versions := RecordTierVersions(versions, tier, c[tier]);
    }
  }

  /** The inner loop of the version bookkeeping in `evaluate`. */
  method RecordTierVersions(versions0: Dict<string>, tier: nat, suites: seq<RubricSuite>)
    returns (versions: Dict<string>)
    ensures versions == PutTierVersions(versions0, tier, suites)
  {
    versions := versions0;
    for j := 0 to |suites|
      invariant versions == PutTierVersions(versions0, tier, suites[..j])
    {
      assert suites[..j + 1][..j] == suites[..j];
      versions := Put(versions, TierKey(tier), suites[j].version);
    }
    assert suites[..|suites|] == suites;
  }

  /** The loops of `evaluate_tier`: each suite in turn, each of its checks
      in turn, the result appended; `f` is `evaluate_check` with the
      artifact and context fixed. */
  method RunChecks(tier: int, suites: seq<RubricSuite>, f: RubricCheck -> Result<CheckResult, Fault>)
    returns (r: Result<TierResult, Fault>)
    ensures r == TierOutcomeWith(tier, suites, f)
  {
    var all: seq<CheckResult> := [];
    for s := 0 to |suites|
      invariant MapAll(f, TierChecks(suites[..s])) == Ok(all)
    {
      assert suites[..s + 1][..s] == suites[..s];
      var appended := AppendResults(f, TierChecks(suites[..s]), all, suites[s].checks);
      if appended.Err? {
        TierChecksPrefix(suites, s, |suites[s].checks|);
        assert suites[s].checks[..|suites[s].checks|] == suites[s].checks;
        MapAllPrefix(f, TierChecks(suites), |TierChecks(suites[..s + 1])|);
        return Err(appended.error);
      }
      all := appended.value;
    }
    assert suites[..|suites|] == suites;
    r := Ok(TierResult(tier, AllPassed(all), all));
  }

  /** The inner loop of `evaluate_tier`: the results of one suite's checks
      appended to those gathered so far, the first fault aborting. */
  method AppendResults(f: RubricCheck -> Result<CheckResult, Fault>, ghost done: seq<RubricCheck>,
                       all0: seq<CheckResult>, checks: seq<RubricCheck>)
    returns (r: Result<seq<CheckResult>, Fault>)
    requires MapAll(f, done) == Ok(all0)
    ensures r == MapAll(f, done + checks)
  {
    var all := all0;
    assert done + checks[..0] == done;
    for j := 0 to |checks|
      invariant MapAll(f, done + checks[..j]) == Ok(all)
    {
      var result := f(checks[j]);
      ghost var seen := done + checks[..j + 1];
      assert seen[..|seen| - 1] == done + checks[..j];
      assert seen[|seen| - 1] == checks[j];
      if result.Err? {
        assert (done + checks)[..|seen|] == seen;
        MapAllPrefix(f, done + checks, |seen|);
        return Err(result.error);
      }
      all := all + [result.value];
    }
    assert checks[..|checks|] == checks;
    r := Ok(all);
  }

  /** The checks of the first suites, followed by a prefix of the next
      suite's, are a prefix of the tier's checks. */
  lemma TierChecksPrefix(suites: seq<RubricSuite>, s: nat, j: nat)
    requires s < |suites| && j <= |suites[s].checks|
    ensures |TierChecks(suites[..s]) + suites[s].checks[..j]| <= |TierChecks(suites)|
    ensures TierChecks(suites)[..|TierChecks(suites[..s]) + suites[s].checks[..j]|]
            == TierChecks(suites[..s]) + suites[s].checks[..j]
  {
    TierChecksAppend(suites[..s + 1], suites[s + 1..]);
    assert suites[..s + 1] + suites[s + 1..] == suites;
    assert suites[..s + 1][..s] == suites[..s];
  }

  lemma {:induction false} TierChecksAppend(a: seq<RubricSuite>, b: seq<RubricSuite>)
    ensures TierChecks(a + b) == TierChecks(a) + TierChecks(b)
    decreases |b|
  {
    if b == [] {
      assert a + b == a;
    } else {
      var n := |b|;
      assert (a + b)[..|a + b| - 1] == a + b[..n - 1];
      assert (a + b)[|a + b| - 1] == b[n - 1];
      TierChecksAppend(a, b[..n - 1]);
    }
  }
}
