/**
 * The report builder: the four-tier risk function, the per-metric label,
 * compliance and mitigation tables, and the assembly of the structured
 * report (ordered risk records, summary counts, overall tier, readiness
 * percentage, system echo and data-provenance flags).
 */
module ReportBuilder {
  import opened Common

  datatype ComplianceEntry = ComplianceEntry(framework: string, ref: string, desc: string)

  const COMPLIANCE_MAP: map<string, seq<ComplianceEntry>> := map[
    "bias" := [
      ComplianceEntry("EU AI Act", "Art. 10(2)", "Training data governance & fairness requirements"),
      ComplianceEntry("ISO 42001", "§6.1.2", "AI risk assessment — fairness dimension")],
    "hallucination" := [
      ComplianceEntry("NIST AI RMF", "GOVERN 1.1", "Policies for AI reliability and accuracy"),
      ComplianceEntry("EU AI Act", "Art. 13", "Transparency and information provision")],
    "toxicity" := [
      ComplianceEntry("EU AI Act", "Art. 9(4)", "Risk management — harmful output prevention"),
      ComplianceEntry("GDPR", "Art. 22", "Automated decision-making safeguards")],
    "robustness" := [
      ComplianceEntry("NIST AI RMF", "MANAGE 2.4", "Residual risk treatment controls"),
      ComplianceEntry("ISO 42001", "§8.4", "AI system performance monitoring")],
    "explainability" := [
      ComplianceEntry("GDPR", "Art. 13(2)(f)", "Right to explanation for automated decisions"),
      ComplianceEntry("EU AI Act", "Art. 13(1)", "Transparency obligations for AI outputs")],
    "data_leakage" := [
      ComplianceEntry("GDPR", "Art. 32", "Security of processing — breach prevention"),
      ComplianceEntry("ISO 42001", "§8.2.3", "Data privacy in AI system lifecycle")],
    "drift" := [
      ComplianceEntry("NIST AI RMF", "MEASURE 2.5", "Model performance monitoring over time"),
      ComplianceEntry("EU AI Act", "Art. 17", "Quality management — post-market monitoring")]
  ]

  const MITIGATION: map<string, string> := map[
    "bias" := "Implement stratified sampling, adversarial debiasing (Fairlearn/AIF360), and quarterly fairness audits.",
    "hallucination" := "Deploy RAG pipelines, output verification layers, and human-in-the-loop for high-stakes decisions.",
    "toxicity" := "Integrate Detoxify/Perspective API classifiers, apply I/O filtering, and run monthly red-team tests.",
    "robustness" := "Run adversarial testing (TextAttack/ART), implement input validation and confidence thresholds.",
    "explainability" := "Generate SHAP/LIME per decision, publish model cards, provide decision rationales to users.",
    "data_leakage" := "Apply differential privacy, enforce RBAC on data access, automate PII scrubbing in pipelines.",
    "drift" := "Deploy Evidently AI / WhyLabs drift detection, set PSI > 0.1 retraining triggers."
  ]

  const LABEL: map<string, string> := map[
    "bias" := "Bias / Fairness", "hallucination" := "Hallucination Rate",
    "toxicity" := "Toxicity", "robustness" := "Robustness Risk",
    "explainability" := "Explainability Gap", "data_leakage" := "Data Leakage Risk",
    "drift" := "Model Drift"
  ]

  const DEFAULT_MITIGATION: string := "Review and implement appropriate controls."

  const COMPLIANCE_FRAMEWORKS: seq<string> := ["EU AI Act", "GDPR", "NIST AI RMF", "ISO 42001"]

  const METHODOLOGY: seq<(string, string)> := [
    ("bias", "Demographic parity gap across gender/race/age groups"),
    ("hallucination", "Decision accuracy vs ground_truth column; confidence proxy if unavailable"),
    ("toxicity", "Detoxify transformer model (local) or keyword regex fallback"),
    ("robustness", "Confidence variance + non-determinism rate analysis"),
    ("explainability", "Confidence calibration + presence of explanation columns"),
    ("data_leakage", "PII pattern detection (email, phone, SSN, credit card, IP, credentials)"),
    ("drift", "Population Stability Index (PSI) on first vs second half of data")
  ]

  /**
   * The four-tier threshold function; a score exactly on a threshold
   * belongs to the higher tier.
   */
  function RiskLevel(score: real): (r: Level)
    ensures r == CRITICAL <==> score >= 0.75
    ensures r == HIGH <==> 0.5 <= score < 0.75
    ensures r == MEDIUM <==> 0.25 <= score < 0.5
    ensures r == LOW <==> score < 0.25
  {
    if score >= 0.75 then CRITICAL
    else if score >= 0.50 then HIGH
    else if score >= 0.25 then MEDIUM
    else LOW
  }

  /** A higher score never yields a lower tier. */
  lemma RiskLevelMonotone(s: real, t: real)
    requires s <= t
    ensures Rank(RiskLevel(s)) <= Rank(RiskLevel(t))
  {
  }

  /** `dict.get(k, default)`. */
  function Get<V>(m: map<string, V>, k: string, default: V): V
  {
    if k in m then m[k] else default
  }

  datatype RiskRecord = RiskRecord(
    key: string,
    riskLabel: string,
    score: real,
    level: Level,
    compliance: seq<ComplianceEntry>,
    mitigation: string)

  /**
   * The record built for one score; a key absent from the tables is
   * labelled by itself, has no compliance entries and the generic
   * mitigation text.
   */
  function RiskOf(m: Metric): (r: RiskRecord)
    ensures r.key == m.key && r.score == m.score && r.level == RiskLevel(m.score)
    ensures r.riskLabel == (if m.key in LABEL then LABEL[m.key] else m.key)
    ensures r.compliance == (if m.key in COMPLIANCE_MAP then COMPLIANCE_MAP[m.key] else [])
    ensures r.mitigation == (if m.key in MITIGATION then MITIGATION[m.key] else DEFAULT_MITIGATION)
  {
    RiskRecord(
      m.key,
      Get(LABEL, m.key, m.key),
      m.score,
      RiskLevel(m.score),
      Get(COMPLIANCE_MAP, m.key, []),
      Get(MITIGATION, m.key, DEFAULT_MITIGATION))
  }

  /** The `risks` list: one record per score key, in the dict's order. */
  method BuildRisks(scores: ScoreMap) returns (risks: seq<RiskRecord>)
    ensures |risks| == |scores|
    ensures forall i :: 0 <= i < |scores| ==> risks[i] == RiskOf(scores[i])
  {
    risks := [];
    for i := 0 to |scores|
      invariant |risks| == i
      invariant forall j :: 0 <= j < i ==> risks[j] == RiskOf(scores[j])
    {
      var m := scores[i];
      var level := RiskLevel(m.score);
      risks := risks + [RiskRecord(
        m.key,
        Get(LABEL, m.key, m.key),
        m.score,
        level,
        Get(COMPLIANCE_MAP, m.key, []),
        Get(MITIGATION, m.key, DEFAULT_MITIGATION))];
    }
  }

  /** `sum(1 for r in risks if r["level"] == level)`. */
  function CountLevel(risks: seq<RiskRecord>, level: Level): (n: nat)
    ensures n <= |risks|
    ensures n == 0 <==> forall i :: 0 <= i < |risks| ==> risks[i].level != level
  {
    if risks == [] then 0
    else (if risks[0].level == level then 1 else 0) + CountLevel(risks[1..], level)
  }

  /** The CRITICAL and HIGH counts together never exceed the number of risks. */
  lemma {:induction false} CountsBounded(risks: seq<RiskRecord>)
    ensures CountLevel(risks, CRITICAL) + CountLevel(risks, HIGH) <= |risks|
  {
    if risks != [] {
      CountsBounded(risks[1..]);
    }
  }

  /** The mean score, `sum(scores.values()) / len(scores)`: scores in [0, 1] have a mean in [0, 1]. */
  function MeanScore(scores: ScoreMap): (avg: real)
    requires |scores| > 0
    ensures avg * (|scores| as real) == SumOf(Values(scores))
    ensures AllInUnit(Values(scores)) ==> InUnit(avg)
  {
    var avg := MeanOf(Values(scores));
    assert AllInUnit(Values(scores)) ==> InUnit(avg) by {
      if AllInUnit(Values(scores)) {
        MeanInUnit(Values(scores));
      }
    }
    avg
  }

  /** `round((1 - avg) * 100)`; a mean in [0, 1] gives a percentage in [0, 100]. */
  function Readiness(avg: real): (pct: int)
    ensures InUnit(avg) ==> 0 <= pct <= 100
    ensures (1.0 - avg) * 100.0 - 0.5 <= pct as real <= (1.0 - avg) * 100.0 + 0.5
  {
    RoundHalfEven((1.0 - avg) * 100.0)
  }

  /** `system_info`: a dict whose values may be None. */
  type SystemInfo = map<string, Option<string>>

  /** `system_info.get(k)`. */
  function InfoGet(info: SystemInfo, k: string): Option<string>
  {
    if k in info then info[k] else None
  }

  /** `system_info.get(k, default)`. */
  function InfoGetOr(info: SystemInfo, k: string, default: string): Option<string>
  {
    if k in info then info[k] else Some(default)
  }

  datatype SystemEcho = SystemEcho(
    modelName: Option<string>,
    modelVersion: Option<string>,
    orgName: Option<string>,
    useCase: Option<string>,
    deployEnv: Option<string>,
    trainingData: Option<string>,
    oversightPolicy: Option<string>,
    incidentPolicy: Option<string>,
    framework: Option<string>)

  datatype DataSource = DataSource(rowCount: nat, hasRealData: bool, measurementMethod: string)

  const UPLOADED_METHOD: string := "Automated scoring from uploaded model output data"
  const MANUAL_METHOD: string := "Manual metric input"

  datatype Summary = Summary(overallRisk: Level, readinessPct: int, avgScore: real, critical: nat, high: nat)

  /** The report JSON; the AI analysis is carried through untouched. */
  datatype FullReport<A> = FullReport(
    id: string,
    generatedAt: string,
    system: SystemEcho,
    dataSource: DataSource,
    summary: Summary,
    risks: seq<RiskRecord>,
    aiAnalysis: A,
    complianceFrameworks: seq<string>,
    methodology: seq<(string, string)>)

  /**
   * Assembles the report. `id` and `generatedAt` stand for the fresh UUID
   * and the clock reading. The mean divides by the number of scores, so the
   * score map must not be empty.
   */
  method BuildReport<A>(scores: ScoreMap, info: SystemInfo, aiAnalysis: A, rowCount: nat,
                        id: string, generatedAt: string)
    returns (r: FullReport<A>)
    requires |scores| > 0
    ensures |r.risks| == |scores|
    ensures forall i :: 0 <= i < |scores| ==> r.risks[i] == RiskOf(scores[i])
    ensures r.summary.critical == CountLevel(r.risks, CRITICAL)
    ensures r.summary.high == CountLevel(r.risks, HIGH)
    ensures r.summary.critical + r.summary.high <= |scores|
    ensures r.summary.avgScore == MeanScore(scores)
    ensures r.summary.overallRisk == RiskLevel(MeanScore(scores))
    ensures r.summary.readinessPct == Readiness(MeanScore(scores))
    ensures AllInUnit(Values(scores)) ==> 0 <= r.summary.readinessPct <= 100
    ensures r.dataSource.rowCount == rowCount
    ensures r.dataSource.hasRealData <==> rowCount > 0
    ensures r.dataSource.measurementMethod == (if rowCount > 0 then UPLOADED_METHOD else MANUAL_METHOD)
    ensures r.system.deployEnv == (if "deploy_env" in info then info["deploy_env"] else Some("production"))
    ensures r.system.framework == (if "framework" in info then info["framework"] else Some("all"))
    ensures r.system.modelName == InfoGet(info, "model_name")
    ensures r.system.modelVersion == InfoGet(info, "model_version")
    ensures r.system.orgName == InfoGet(info, "org_name")
    ensures r.system.useCase == InfoGet(info, "use_case")
    ensures r.system.trainingData == InfoGet(info, "training_data")
    ensures r.system.oversightPolicy == InfoGet(info, "oversight_policy")
    ensures r.system.incidentPolicy == InfoGet(info, "incident_policy")
    ensures r.aiAnalysis == aiAnalysis && r.id == id && r.generatedAt == generatedAt
  {
    var risks := BuildRisks(scores);
    var critical := CountLevel(risks, CRITICAL);
    var high := CountLevel(risks, HIGH);
    CountsBounded(risks);
    var avg := MeanScore(scores);
    if AllInUnit(Values(scores)) {
      MeanInUnit(Values(scores));
    }
    var system := SystemEcho(
      InfoGet(info, "model_name"),
      InfoGet(info, "model_version"),
      InfoGet(info, "org_name"),
      InfoGet(info, "use_case"),
      InfoGetOr(info, "deploy_env", "production"),
      InfoGet(info, "training_data"),
      InfoGet(info, "oversight_policy"),
      InfoGet(info, "incident_policy"),
      InfoGetOr(info, "framework", "all"));
    var source := DataSource(rowCount, rowCount > 0,
                             if rowCount > 0 then UPLOADED_METHOD else MANUAL_METHOD);
    r := FullReport(id, generatedAt, system, source,
                    Summary(RiskLevel(avg), Readiness(avg), avg, critical, high),
                    risks, aiAnalysis, COMPLIANCE_FRAMEWORKS, METHODOLOGY);
  }
}
