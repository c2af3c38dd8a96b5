/** The certificate record: the serialised form of check, tier and gate
    results (`to_dict`), and `create_certificate`, which wraps an
    evaluation with its artifact and provenance. The certificate id and
    the creation time come from `uuid4` and the clock; they are parameters. */
module Certificates {
  import opened Json
  import opened Text
  import opened Evaluator

  // ----- Check results -----

  /** `**({k: v} if b else {})`: one entry or none. */
  function Optional(b: bool, k: string, v: Json): (d: Dict<Json>)
    ensures forall k' :: Lookup(d, k') == if b && k' == k then Some(v) else None
  {
    if b then [(k, v)] else []
  }

  /** One entry of `TierResult.to_dict()["checks"]`: score and threshold
      only when set, the message only when it is non-empty. */
  function CheckToJson(c: CheckResult): Json
  {
    Obj([("id", Str(c.id)), ("pass", Bool(c.passed))]
        + Optional(c.score.Some?, "score", MeasureJson(if c.score.Some? then c.score.value else Real(0.0)))
        + Optional(c.threshold.Some?, "threshold", MeasureJson(if c.threshold.Some? then c.threshold.value else Real(0.0)))
        + Optional(HasMessage(c), "message", Str(if c.message.Some? then c.message.value else "")))
  }

  /** A check result as its serialised form keeps it: an empty message is dropped. */
  function Normalized(c: CheckResult): CheckResult
  {
    if HasMessage(c) then c else c.(message := None)
  }

  /** A measure as `to_dict` writes it: a number stays a number and a bool a bool. */
  function MeasureJson(m: Measure): Json
  {
    match m
    case Real(n) => Num(n)
    case Flag(b) => Bool(b)
  }

  function MeasureOf(j: Option<Json>): Option<Measure>
  {
    if j.Some? then AsMeasure(j.value) else None
  }

  function TextOf(j: Option<Json>): Option<string>
  {
    if j.Some? && j.value.Str? then Some(j.value.s) else None
  }

  /** Reads a serialised check back. */
  function CheckFromJson(j: Json): Option<CheckResult>
  {
    if !j.Obj? then None
    else
      var d := j.fields;
      var id := TextOf(Lookup(d, "id"));
      var pass := Lookup(d, "pass");
      if id.None? || pass.None? || !pass.value.Bool? then None
      else Some(CheckResult(id.value, pass.value.b, MeasureOf(Lookup(d, "score")),
                            MeasureOf(Lookup(d, "threshold")), TextOf(Lookup(d, "message"))))
  }

  /** Serialising a check loses nothing but an empty message. */
  lemma CheckRoundTrip(c: CheckResult)
    ensures CheckFromJson(CheckToJson(c)) == Some(Normalized(c))
  {
    CheckFields(c);
  }

  /** Each field of a serialised check holds the value it was written from. */
  lemma CheckFields(c: CheckResult)
    ensures var d := CheckToJson(c).fields;
            Lookup(d, "id") == Some(Str(c.id)) && Lookup(d, "pass") == Some(Bool(c.passed))
            && MeasureOf(Lookup(d, "score")) == c.score
            && MeasureOf(Lookup(d, "threshold")) == c.threshold
            && TextOf(Lookup(d, "message")) == Normalized(c).message
  {
    var d := CheckToJson(c).fields;
    LookupFirst(d, 0, "id");
    LookupFirst(d, 1, "pass");
    var base: Dict<Json> := [("id", Str(c.id)), ("pass", Bool(c.passed))];
    var s := Optional(c.score.Some?, "score", MeasureJson(if c.score.Some? then c.score.value else Real(0.0)));
    var t := Optional(c.threshold.Some?, "threshold", MeasureJson(if c.threshold.Some? then c.threshold.value else Real(0.0)));
    var m := Optional(HasMessage(c), "message", Str(if c.message.Some? then c.message.value else ""));
    assert d == base + s + t + m;
    OptionalFields(base, s, t, m, "score");
    OptionalFields(base, s, t, m, "threshold");
    OptionalFields(base, s, t, m, "message");
  }

  /** A key the first part lacks is looked up in the other three, in order. */
  lemma OptionalFields(base: Dict<Json>, s: Dict<Json>, t: Dict<Json>, m: Dict<Json>, k: string)
    requires forall i :: 0 <= i < |base| ==> base[i].0 != k
    ensures Lookup(base + s + t + m, k) ==
              if Lookup(s, k).Some? then Lookup(s, k) else if Lookup(t, k).Some? then Lookup(t, k) else Lookup(m, k)
  {
    LookupMissing(base, k);
    LookupAppend(base + s + t, m, k);
    LookupAppend(base + s, t, k);
    LookupAppend(base, s, k);
  }

  // ----- Tier results -----

  function ChecksToJson(checks: seq<CheckResult>): (items: seq<Json>)
    ensures |items| == |checks|
    ensures forall i :: 0 <= i < |checks| ==> items[i] == CheckToJson(checks[i])
  {
    seq(|checks|, i requires 0 <= i < |checks| => CheckToJson(checks[i]))
  }

  /** `TierResult.to_dict()`: the flag and the checks; the tier number is not kept. */
  function TierToJson(t: TierResult): Json
  {
    Obj([("pass", Bool(t.passed)), ("checks", Arr(ChecksToJson(t.checks)))])
  }

  /** The serialised form of a tier the evaluation lacks. */
  const MissingTier: Json := Obj([("pass", Bool(true)), ("checks", Arr([]))])

  /** Reads a serialised tier back: its flag and its checks. */
  function TierFromJson(j: Json): Option<(bool, seq<CheckResult>)>
  {
    if !j.Obj? then None
    else
      var pass := Lookup(j.fields, "pass");
      var checks := Lookup(j.fields, "checks");
      if pass.None? || !pass.value.Bool? || checks.None? || !checks.value.Arr? then None
      else
        var items := checks.value.items;
        if forall i :: 0 <= i < |items| ==> CheckFromJson(items[i]).Some? then
          Some((pass.value.b, seq(|items|, i requires 0 <= i < |items| => CheckFromJson(items[i]).value)))
        else None
  }

  /** Serialising a tier keeps its flag and each of its checks, in order. */
  lemma TierRoundTrip(t: TierResult)
    ensures TierFromJson(TierToJson(t)) ==
              Some((t.passed, seq(|t.checks|, i requires 0 <= i < |t.checks| => Normalized(t.checks[i]))))
  {
    var d := TierToJson(t).fields;
    LookupFirst(d, 0, "pass");
    LookupFirst(d, 1, "checks");
    var items := ChecksToJson(t.checks);
    forall i | 0 <= i < |items| ensures CheckFromJson(items[i]) == Some(Normalized(t.checks[i])) {
      CheckRoundTrip(t.checks[i]);
    }
    assert seq(|items|, i requires 0 <= i < |items| => CheckFromJson(items[i]).value)
        == seq(|t.checks|, i requires 0 <= i < |t.checks| => Normalized(t.checks[i]));
  }

  /** A tier missing from an evaluation is written as a tier without checks. */
  lemma MissingTierIsEmptyTier(tier: int, artifact: Dict<Json>, context: Dict<Json>)
    ensures TierToJson(TierOutcome(tier, [], artifact, context).value) == MissingTier
  {
    EmptyTierPasses(tier, artifact, context);
  }

  // ----- Gate decisions -----

  /** `self.deferral_to or "human_review"`. */
  function DeferralTarget(to: Option<string>): string
  {
    if to.Some? && to.value != "" then to.value else "human_review"
  }

  /** `GateDecision.to_dict()`. */
  function DecisionToJson(g: GateDecision): Json
  {
    Obj([("decision", Str(DecisionName(g.decision))),
         ("blocking_reasons", StrList(g.blockingReasons)),
         ("required_fixes", StrList(g.requiredFixes)),
         ("deferral", Obj([("recommended", Bool(g.deferralRecommended)),
                           ("to", Str(DeferralTarget(g.deferralTo)))]))])
  }

  /** The decision a recorded name stands for. */
  function DecisionFromName(s: string): Option<Decision>
  {
    if s == "approve" then Some(Approve)
    else if s == "revise" then Some(Revise)
    else if s == "block" then Some(Block)
    else None
  }

  lemma DecisionNameRoundTrip(d: Decision)
    ensures DecisionFromName(DecisionName(d)) == Some(d)
  {
  }

  /** The recorded decision of a serialised gate decision. */
  function RecordedDecision(j: Json): Option<string>
  {
    if j.Obj? then TextOf(Lookup(j.fields, "decision")) else None
  }

  /** Reads a serialised gate decision back: decision, reasons, fixes and
      the deferral flag. */
  function DecisionFromJson(j: Json): Option<(Decision, seq<string>, seq<string>, bool)>
  {
    if !j.Obj? then None
    else
      var name := TextOf(Lookup(j.fields, "decision"));
      var reasons := Lookup(j.fields, "blocking_reasons");
      var fixes := Lookup(j.fields, "required_fixes");
      var deferral := Lookup(j.fields, "deferral");
      if name.None? || DecisionFromName(name.value).None? || reasons.None? || fixes.None?
         || deferral.None? || !deferral.value.Obj? then None
      else
        var recommended := Lookup(deferral.value.fields, "recommended");
        var rs := AsStrList(reasons.value);
        var fs := AsStrList(fixes.value);
        if rs.None? || fs.None? || recommended.None? || !recommended.value.Bool? then None
        else Some((DecisionFromName(name.value).value, rs.value, fs.value, recommended.value.b))
  }

  /** Serialising a gate decision keeps all but the deferral target. */
  lemma DecisionRoundTrip(g: GateDecision)
    ensures DecisionFromJson(DecisionToJson(g)) ==
              Some((g.decision, g.blockingReasons, g.requiredFixes, g.deferralRecommended))
  {
    var d := DecisionToJson(g).fields;
    LookupFirst(d, 0, "decision");
    LookupFirst(d, 1, "blocking_reasons");
    LookupFirst(d, 2, "required_fixes");
    LookupFirst(d, 3, "deferral");
    LookupFirst(d[3].1.fields, 0, "recommended");
    StrListRoundTrip(g.blockingReasons);
    StrListRoundTrip(g.requiredFixes);
    DecisionNameRoundTrip(g.decision);
  }

  /** A gate decision the evaluator computed is recorded with deferral to
      human review, recommended exactly when it blocks. */
  lemma GateDeferralRecorded(tiers: map<int, TierResult>)
    ensures var d := DecisionToJson(GateOf(tiers)).fields;
            Lookup(d, "deferral") == Some(Obj([("recommended", Bool(GateOf(tiers).decision == Block)),
                                               ("to", Str("human_review"))]))
  {
    LookupFirst(DecisionToJson(GateOf(tiers)).fields, 3, "deferral");
  }

  // ----- Certificates -----

  function VersionsToJson(versions: Dict<string>): (d: Dict<Json>)
    ensures |d| == |versions|
    ensures forall i :: 0 <= i < |d| ==> d[i] == (versions[i].0, Str(versions[i].1))
  {
    seq(|versions|, i requires 0 <= i < |versions| => (versions[i].0, Str(versions[i].1)))
  }

  function TierName(n: nat): string
  {
    "tier_" + NatToString(n)
  }

  /** The entry of `rubrics` for tier `n`. */
  function TierEntry(ev: EvaluationResult, n: int): Json
  {
    if n in ev.tierResults then TierToJson(ev.tierResults[n]) else MissingTier
  }

  lemma LookupThree(d: Dict<Json>, k: string)
    requires |d| == 3
    ensures Lookup(d, k) ==
              if k == d[0].0 then Some(d[0].1)
              else if k == d[1].0 then Some(d[1].1)
              else if k == d[2].0 then Some(d[2].1)
              else None
  {
    if k == d[0].0 {
      LookupFirst(d, 0, k);
    } else if k == d[1].0 {
      LookupFirst(d, 1, k);
    } else if k == d[2].0 {
      LookupFirst(d, 2, k);
    } else {
      LookupMissing(d, k);
    }
  }

  /** The first three entries of the provenance block: the two ids,
      defaulting to ones derived from the certificate id, and the versions. */
  function ProvenanceBase(provenance: Dict<Json>, versions: Dict<string>, certificateId: string): (d: Dict<Json>)
    ensures forall k :: Lookup(d, k) ==
              if k == "audit_trace_id" then Some(GetOr(provenance, "audit_trace_id", Str("trace_" + certificateId)))
              else if k == "run_manifest_id" then Some(GetOr(provenance, "run_manifest_id", Str("manifest_" + certificateId)))
              else if k == "rubric_versions" then Some(Obj(VersionsToJson(versions)))
              else None
  {
    var d := [("audit_trace_id", GetOr(provenance, "audit_trace_id", Str("trace_" + certificateId))),
              ("run_manifest_id", GetOr(provenance, "run_manifest_id", Str("manifest_" + certificateId))),
              ("rubric_versions", Obj(VersionsToJson(versions)))];
    assert forall k :: Lookup(d, k) ==
              if k == d[0].0 then Some(d[0].1)
              else if k == d[1].0 then Some(d[1].1)
              else if k == d[2].0 then Some(d[2].1)
              else None
    by {
      forall k ensures Lookup(d, k) ==
              if k == d[0].0 then Some(d[0].1)
              else if k == d[1].0 then Some(d[1].1)
              else if k == d[2].0 then Some(d[2].1)
              else None
      {
        LookupThree(d, k);
      }
    }
    d
  }

  /** The provenance block: its first entries, then every other caller key,
      each as `**` unpacking stores it. */
  function ProvenanceOf(provenance: Dict<Json>, versions: Dict<string>, certificateId: string): Dict<Json>
  {
    Merge(ProvenanceBase(provenance, versions, certificateId),
          Without(provenance, {"audit_trace_id", "run_manifest_id"}))
  }

  /** `create_certificate`. */
  function CreateCertificate(artifact: Dict<Json>, ev: EvaluationResult, provenance: Dict<Json>,
                             certificateId: string, createdAt: string): Json
  {
    Obj([("certificate_id", Str(certificateId)),
         ("created_at", Str(createdAt)),
         ("artifact", Obj(artifact)),
         ("rubrics", Obj([("tier_1", TierEntry(ev, 1)), ("tier_2", TierEntry(ev, 2)), ("tier_3", TierEntry(ev, 3))])),
         ("gate_decision", DecisionToJson(ev.gateDecision)),
         ("provenance", Obj(ProvenanceOf(provenance, ev.rubricVersions, certificateId)))])
  }

  /** The two ids are the caller's when given, else derived from the certificate id. */
  lemma ProvenanceIds(provenance: Dict<Json>, versions: Dict<string>, certificateId: string)
    requires UniqueKeys(provenance)
    ensures var p := ProvenanceOf(provenance, versions, certificateId);
            Lookup(p, "audit_trace_id") == Some(GetOr(provenance, "audit_trace_id", Str("trace_" + certificateId)))
            && Lookup(p, "run_manifest_id") == Some(GetOr(provenance, "run_manifest_id", Str("manifest_" + certificateId)))
  {
    ProvenanceIdKept(provenance, versions, certificateId, "audit_trace_id");
    ProvenanceIdKept(provenance, versions, certificateId, "run_manifest_id");
  }

  /** An id key of the provenance block holds its first entry: the caller's
      duplicate was filtered out before the merge. */
  lemma ProvenanceIdKept(provenance: Dict<Json>, versions: Dict<string>, certificateId: string, k: string)
    requires UniqueKeys(provenance)
    requires k == "audit_trace_id" || k == "run_manifest_id"
    ensures Lookup(ProvenanceOf(provenance, versions, certificateId), k)
            == Lookup(ProvenanceBase(provenance, versions, certificateId), k)
  {
    var base := ProvenanceBase(provenance, versions, certificateId);
    var rest := Without(provenance, {"audit_trace_id", "run_manifest_id"});
    UniqueKeysWithout(provenance, {"audit_trace_id", "run_manifest_id"});
    assert Lookup(rest, k) == None;
    MergeLookup(base, rest, k);
  }

  /** Every other key of the caller's provenance is passed through
      unchanged; `rubric_versions` holds the evaluation's versions unless
      the caller gave one. */
  lemma ProvenancePassThrough(provenance: Dict<Json>, versions: Dict<string>, certificateId: string, k: string)
    requires UniqueKeys(provenance)
    requires k != "audit_trace_id" && k != "run_manifest_id"
    ensures Lookup(ProvenanceOf(provenance, versions, certificateId), k) ==
              if Lookup(provenance, k).Some? then Lookup(provenance, k)
              else if k == "rubric_versions" then Some(Obj(VersionsToJson(versions)))
              else None
  {
    var base := ProvenanceBase(provenance, versions, certificateId);
    var rest := Without(provenance, {"audit_trace_id", "run_manifest_id"});
    UniqueKeysWithout(provenance, {"audit_trace_id", "run_manifest_id"});
    MergeLookup(base, rest, k);
  }

  /** Each tier of the certificate is the evaluation's, or the empty passing
      tier when the evaluation lacks it; the gate decision and artifact are
      recorded as given. */
  lemma CertificateContents(artifact: Dict<Json>, ev: EvaluationResult, provenance: Dict<Json>,
                            certificateId: string, createdAt: string, n: nat)
    requires n in {1, 2, 3}
    ensures var cert := CreateCertificate(artifact, ev, provenance, certificateId, createdAt);
            Lookup(cert.fields, "rubrics").Some? && Lookup(cert.fields, "rubrics").value.Obj?
            && Lookup(Lookup(cert.fields, "rubrics").value.fields, TierName(n)) == Some(TierEntry(ev, n))
            && Lookup(cert.fields, "gate_decision") == Some(DecisionToJson(ev.gateDecision))
            && Lookup(cert.fields, "artifact") == Some(Obj(artifact))
  {
    var cert := CreateCertificate(artifact, ev, provenance, certificateId, createdAt);
    LookupFirst(cert.fields, 2, "artifact");
    LookupFirst(cert.fields, 4, "gate_decision");
    CertificateTier(artifact, ev, provenance, certificateId, createdAt, n);
  }

  lemma CertificateTier(artifact: Dict<Json>, ev: EvaluationResult, provenance: Dict<Json>,
                        certificateId: string, createdAt: string, n: nat)
    requires n in {1, 2, 3}
    ensures var cert := CreateCertificate(artifact, ev, provenance, certificateId, createdAt);
            Lookup(cert.fields, "rubrics").Some? && Lookup(cert.fields, "rubrics").value.Obj?
            && Lookup(Lookup(cert.fields, "rubrics").value.fields, TierName(n)) == Some(TierEntry(ev, n))
  {
    var cert := CreateCertificate(artifact, ev, provenance, certificateId, createdAt);
    LookupFirst(cert.fields, 3, "rubrics");
    var rubrics := cert.fields[3].1.fields;
    if n == 1 {
      assert TierName(1) == "tier_1";
      LookupFirst(rubrics, 0, "tier_1");
    } else if n == 2 {
      assert TierName(2) == "tier_2";
      LookupFirst(rubrics, 1, "tier_2");
    } else {
      assert TierName(3) == "tier_3";
      LookupFirst(rubrics, 2, "tier_3");
    }
  }

  /** The decision the harness reads back from a certificate is the gate's. */
  lemma CertificateDecision(artifact: Dict<Json>, ev: EvaluationResult, provenance: Dict<Json>,
                            certificateId: string, createdAt: string)
    ensures var cert := CreateCertificate(artifact, ev, provenance, certificateId, createdAt);
            Lookup(cert.fields, "gate_decision").Some?
            && RecordedDecision(Lookup(cert.fields, "gate_decision").value) == Some(DecisionName(ev.gateDecision.decision))
  {
    var cert := CreateCertificate(artifact, ev, provenance, certificateId, createdAt);
    LookupFirst(cert.fields, 4, "gate_decision");
    LookupFirst(DecisionToJson(ev.gateDecision).fields, 0, "decision");
  }
}
