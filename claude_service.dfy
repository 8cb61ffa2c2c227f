/**
 * The AI-analysis service: its own copy of the risk tiers and of the
 * (framework, ref) compliance table, the list of HIGH/CRITICAL obligations
 * that goes into the prompt, the dispatch between the language-model reply
 * and the rule-based fallback, and the rule-based analysis itself (stable
 * descending sort, top risk, at most four recommendations, readiness text).
 */
module ClaudeService {
  import opened Common
  import ReportBuilder

  const COMPLIANCE_MAP: map<string, seq<(string, string)>> := map[
    "bias" := [("EU AI Act", "Art. 10(2)"), ("ISO 42001", "§6.1.2")],
    "hallucination" := [("NIST AI RMF", "GOVERN 1.1"), ("EU AI Act", "Art. 13")],
    "toxicity" := [("EU AI Act", "Art. 9(4)"), ("GDPR", "Art. 22")],
    "robustness" := [("NIST AI RMF", "MANAGE 2.4"), ("ISO 42001", "§8.4")],
    "explainability" := [("GDPR", "Art. 13(2)(f)"), ("EU AI Act", "Art. 13(1)")],
    "data_leakage" := [("GDPR", "Art. 32"), ("ISO 42001", "§8.2.3")],
    "drift" := [("NIST AI RMF", "MEASURE 2.5"), ("EU AI Act", "Art. 17")]
  ]

  const MITIGATION_TEXT: map<string, string> := map[
    "bias" := "Implement stratified sampling and adversarial debiasing using Fairlearn or IBM AIF360. Schedule quarterly fairness audits across all protected attributes.",
    "hallucination" := "Deploy retrieval-augmented generation (RAG) pipelines, add output verification layers, and enforce human-in-the-loop for high-stakes decisions.",
    "toxicity" := "Integrate real-time toxicity classifiers (Detoxify or Perspective API), apply input/output filtering, and conduct monthly red-team testing.",
    "robustness" := "Run adversarial robustness testing using TextAttack or ART. Implement input validation and confidence thresholds for uncertain predictions.",
    "explainability" := "Generate SHAP/LIME explanations per decision, publish model cards, and provide human-readable decision rationales to affected parties.",
    "data_leakage" := "Apply differential privacy during training, enforce role-based data access, and implement automated PII scrubbing in all data pipelines.",
    "drift" := "Deploy automated drift detection (Evidently AI or WhyLabs), configure retraining triggers at PSI > 0.1, and maintain real-time performance dashboards."
  ]

  /** The service's own copy of the tier function; it agrees with the builder's everywhere. */
  function RiskLevel(score: real): (r: Level)
    ensures r == ReportBuilder.RiskLevel(score)
  {
    if score >= 0.75 then CRITICAL
    else if score >= 0.50 then HIGH
    else if score >= 0.25 then MEDIUM
    else LOW
  }

  /** The (framework, ref) projection of the builder's compliance entries. */
  function Project(es: seq<ReportBuilder.ComplianceEntry>): (ps: seq<(string, string)>)
    ensures |ps| == |es|
    ensures forall i :: 0 <= i < |es| ==> ps[i] == (es[i].framework, es[i].ref)
  {
    seq(|es|, i requires 0 <= i < |es| => (es[i].framework, es[i].ref))
  }

  /** Both tables cover the same metrics, and this one is the projection of the builder's, in order. */
  lemma ComplianceTablesAgree(metric: string)
    ensures metric in COMPLIANCE_MAP <==> metric in ReportBuilder.COMPLIANCE_MAP
    ensures metric in COMPLIANCE_MAP ==>
              COMPLIANCE_MAP[metric] == Project(ReportBuilder.COMPLIANCE_MAP[metric])
  {
  }

  // ---------------------------------------------------------------------
  // HIGH/CRITICAL compliance obligations (the prompt's obligation list)
  // ---------------------------------------------------------------------

  /**
   * One `f"{fw} {ref} ({metric.replace('_',' ')})"` line of the prompt, kept
   * structured: `metric` holds the raw key, which the line prints with its
   * underscores as spaces.
   */
  datatype Obligation = Obligation(framework: string, ref: string, metric: string)

  predicate Triggers(m: Metric)
  {
    RiskLevel(m.score) == HIGH || RiskLevel(m.score) == CRITICAL
  }

  function EntriesOf(metric: string): seq<(string, string)>
  {
    if metric in COMPLIANCE_MAP then COMPLIANCE_MAP[metric] else []
  }

  /** What one metric contributes: all its table entries, in order, when it is HIGH or CRITICAL. */
  function Triggered(m: Metric): (os: seq<Obligation>)
    ensures |os| == (if Triggers(m) then |EntriesOf(m.key)| else 0)
    ensures forall j :: 0 <= j < |os| ==>
              os[j] == Obligation(EntriesOf(m.key)[j].0, EntriesOf(m.key)[j].1, m.key)
  {
    if Triggers(m) then
      var es := EntriesOf(m.key);
      seq(|es|, j requires 0 <= j < |es| => Obligation(es[j].0, es[j].1, m.key))
    else []
  }

  /** The obligations of a score map, visiting metrics in the dict's order: at most two per metric. */
  function ObligationsOf(scores: ScoreMap): (os: seq<Obligation>)
    ensures |os| <= 2 * |scores|
  {
    assert forall m :: |Triggered(m)| <= 2 by {
      forall m: Metric ensures |Triggered(m)| <= 2 {
        assert |EntriesOf(m.key)| <= 2;
      }
    }
    FlatMapBound(Triggered, scores, 2);
    FlatMap(Triggered, scores)
  }

  /**
   * There are no obligations (the prompt then says "None — system is low
   * risk") exactly when no HIGH or CRITICAL metric has a table entry.
   */
  lemma {:induction false} NoObligationsIffLowRisk(scores: ScoreMap)
    ensures ObligationsOf(scores) == [] <==>
            forall i :: 0 <= i < |scores| ==> !Triggers(scores[i]) || EntriesOf(scores[i].key) == []
  {
    if scores != [] {
      var init := scores[..|scores| - 1];
      NoObligationsIffLowRisk(init);
      assert forall i :: 0 <= i < |init| ==> init[i] == scores[i];
    }
  }

  /** The nested loop that fills `compliance_refs`. */
  method ComplianceObligations(scores: ScoreMap) returns (refs: seq<Obligation>)
    ensures refs == ObligationsOf(scores)
  {
    refs := [];
    for i := 0 to |scores|
      invariant refs == ObligationsOf(scores[..i])
    {
      var m := scores[i];
      assert scores[..i + 1][..i] == scores[..i];
      var level := RiskLevel(m.score);
      if level == HIGH || level == CRITICAL {
        var es := EntriesOf(m.key);
        ghost var before := refs;
        for j := 0 to |es|
          invariant refs == before + Triggered(m)[..j]
        {
          var (fw, ref) := es[j];
          assert Triggered(m)[..j + 1] == Triggered(m)[..j] + [Obligation(fw, ref, m.key)];
          refs := refs + [Obligation(fw, ref, m.key)];
        }
        assert Triggered(m)[..|es|] == Triggered(m);
      }
    }
    assert scores[..|scores|] == scores;
  }

  /** Metrics contribute in the dict's order: the obligations of a concatenation concatenate. */
  lemma ObligationsAppend(s: ScoreMap, t: ScoreMap)
    ensures ObligationsOf(s + t) == ObligationsOf(s) + ObligationsOf(t)
  {
    FlatMapConcat(Triggered, s, t);
  }

  /** Every obligation comes from a HIGH or CRITICAL metric of the map and one of its table entries. */
  lemma {:induction false} ObligationsSound(scores: ScoreMap, o: Obligation)
    requires o in ObligationsOf(scores)
    ensures exists i :: 0 <= i < |scores| && scores[i].key == o.metric && Triggers(scores[i])
                        && (o.framework, o.ref) in EntriesOf(o.metric)
  {
    var n := |scores|;
    var init := scores[..n - 1];
    if o in ObligationsOf(init) {
      ObligationsSound(init, o);
      var i :| 0 <= i < |init| && init[i].key == o.metric && Triggers(init[i])
               && (o.framework, o.ref) in EntriesOf(o.metric);
      assert scores[i] == init[i];
    } else {
      var os := Triggered(scores[n - 1]);
      var j :| 0 <= j < |os| && os[j] == o;
      assert EntriesOf(o.metric)[j] == (o.framework, o.ref);
    }
  }

  /** Every table entry of every HIGH or CRITICAL metric appears among the obligations. */
  lemma {:induction false} ObligationsComplete(scores: ScoreMap, i: nat, j: nat)
    requires i < |scores| && Triggers(scores[i]) && j < |EntriesOf(scores[i].key)|
    ensures Obligation(EntriesOf(scores[i].key)[j].0, EntriesOf(scores[i].key)[j].1, scores[i].key)
              in ObligationsOf(scores)
  {
    var n := |scores|;
    if i < n - 1 {
      ObligationsComplete(scores[..n - 1], i, j);
    } else {
      assert Triggered(scores[i])[j] in Triggered(scores[i]);
    }
  }

  // ---------------------------------------------------------------------
  // Stable descending sort (`sorted(..., key=score, reverse=True)`)
  // ---------------------------------------------------------------------

  ghost predicate SortedDesc(s: ScoreMap)
  {
    forall i, j :: 0 <= i < j < |s| ==> s[i].score >= s[j].score
  }

  /** The entries of `s` whose score equals `v`, in order. */
  function WithScore(s: ScoreMap, v: real): ScoreMap
  {
    if s == [] then []
    else (if s[0].score == v then [s[0]] else []) + WithScore(s[1..], v)
  }

  /** Inserts `m` before the first entry whose score does not exceed its own. */
  function Insert(m: Metric, s: ScoreMap): (r: ScoreMap)
    ensures |r| == |s| + 1
  {
    if s == [] then [m]
    else if m.score >= s[0].score then [m] + s
    else [s[0]] + Insert(m, s[1..])
  }

  function SortDesc(s: ScoreMap): (r: ScoreMap)
    ensures |r| == |s|
  {
    if s == [] then [] else Insert(s[0], SortDesc(s[1..]))
  }

  lemma {:induction false} InsertPermutes(m: Metric, s: ScoreMap)
    ensures multiset(Insert(m, s)) == multiset(s) + multiset{m}
  {
    if s != [] && m.score < s[0].score {
      InsertPermutes(m, s[1..]);
      assert s == [s[0]] + s[1..];
    }
  }

  lemma {:induction false} InsertMembers(m: Metric, s: ScoreMap)
    ensures forall x :: x in Insert(m, s) <==> x == m || x in s
  {
    if s != [] && m.score < s[0].score {
      InsertMembers(m, s[1..]);
      assert s == [s[0]] + s[1..];
    }
  }

  lemma SortedCons(h: Metric, t: ScoreMap)
    requires SortedDesc(t) && forall x :: x in t ==> h.score >= x.score
    ensures SortedDesc([h] + t)
  {
    var r := [h] + t;
    forall i, j | 0 <= i < j < |r| ensures r[i].score >= r[j].score {
      assert r[j] == t[j - 1] && t[j - 1] in t;
      if i > 0 {
        assert r[i] == t[i - 1];
      }
    }
  }

  lemma {:induction false} InsertSorted(m: Metric, s: ScoreMap)
    requires SortedDesc(s)
    ensures SortedDesc(Insert(m, s))
  {
    if s == [] {
    } else if m.score >= s[0].score {
      SortedCons(m, s);
    } else {
      var t := s[1..];
      assert SortedDesc(t);
      InsertSorted(m, t);
      InsertMembers(m, t);
      assert forall x :: x in t ==> s[0].score >= x.score;
      SortedCons(s[0], Insert(m, t));
    }
  }

  /** The sort returns a permutation of the entries, in descending score order. */
  lemma {:induction false} SortDescCorrect(s: ScoreMap)
    ensures multiset(SortDesc(s)) == multiset(s)
    ensures SortedDesc(SortDesc(s))
  {
    if s != [] {
      SortDescCorrect(s[1..]);
      InsertPermutes(s[0], SortDesc(s[1..]));
      InsertSorted(s[0], SortDesc(s[1..]));
      assert s == [s[0]] + s[1..];
    }
  }

  lemma {:induction false} InsertStable(m: Metric, s: ScoreMap, v: real)
    ensures WithScore(Insert(m, s), v) ==
            (if m.score == v then [m] + WithScore(s, v) else WithScore(s, v))
  {
    if s == [] {
    } else if m.score >= s[0].score {
      assert ([m] + s)[1..] == s;
    } else {
      InsertStable(m, s[1..], v);
      assert ([s[0]] + Insert(m, s[1..]))[1..] == Insert(m, s[1..]);
    }
  }

  /** The sort is stable: entries with equal scores keep their insertion order. */
  lemma {:induction false} SortStable(s: ScoreMap, v: real)
    ensures WithScore(SortDesc(s), v) == WithScore(s, v)
  {
    if s != [] {
      SortStable(s[1..], v);
      InsertStable(s[0], SortDesc(s[1..]), v);
    }
  }

  /** The first sorted entry is one of the map's entries and has the highest score. */
  lemma TopIsMaximum(s: ScoreMap)
    requires |s| > 0
    ensures SortDesc(s)[0] in s
    ensures forall i :: 0 <= i < |s| ==> SortDesc(s)[0].score >= s[i].score
  {
    var r := SortDesc(s);
    SortDescCorrect(s);
    assert r[0] in multiset(s);
    forall i | 0 <= i < |s| ensures r[0].score >= s[i].score {
      assert s[i] in multiset(r);
      var j :| 0 <= j < |r| && r[j] == s[i];
    }
  }

  /** `sorted_risks[:n]`. */
  function TakeTop(s: ScoreMap, n: nat): (r: ScoreMap)
    ensures |r| <= n && |r| <= |s| && r == s[..|r|]
    ensures |s| >= n ==> |r| == n
  {
    if |s| < n then s else s[..n]
  }

  // ---------------------------------------------------------------------
  // Rule-based analysis
  // ---------------------------------------------------------------------

  /** `[(k, v) for k, v in scores.items() if risk_level(v) == level]`. */
  function WithLevel(s: ScoreMap, level: Level): (r: ScoreMap)
    ensures forall x :: x in r <==> x in s && RiskLevel(x.score) == level
  {
    if s == [] then []
    else (if RiskLevel(s[0].score) == level then [s[0]] else []) + WithLevel(s[1..], level)
  }

  /** The entries at tier MEDIUM or above, in order. */
  function Eligible(s: ScoreMap): (r: ScoreMap)
    ensures |r| <= |s|
    ensures forall x :: x in r <==> x in s && RiskLevel(x.score) != LOW
  {
    if s == [] then []
    else
      var init := s[..|s| - 1];
      var last := s[|s| - 1];
      assert s == init + [last];
      Eligible(init) + (if RiskLevel(last.score) != LOW then [last] else [])
  }

  /** Filtering keeps the descending order. */
  lemma {:induction false} EligibleSorted(s: ScoreMap)
    requires SortedDesc(s)
    ensures SortedDesc(Eligible(s))
  {
    if s != [] {
      var init := s[..|s| - 1];
      var last := s[|s| - 1];
      var e := Eligible(init);
      assert SortedDesc(init);
      EligibleSorted(init);
      if RiskLevel(last.score) != LOW {
        forall x | x in e ensures x.score >= last.score {
          var k :| 0 <= k < |init| && init[k] == x;
          assert s[k] == x;
        }
        var r := e + [last];
        forall i, j | 0 <= i < j < |r| ensures r[i].score >= r[j].score {
          if j == |r| - 1 {
            assert r[i] in e;
          }
        }
      }
    }
  }

  datatype Recommendation = Recommendation(
    title: string, detail: string, effort: string, timeline: string, regulation: string)

  const IMMEDIATE: string := "Immediate (0–2 weeks)"
  const SHORT_TERM: string := "Short-term (2–6 weeks)"
  const GENERAL_REGULATION: string := "General Best Practice"

  /** `COMPLIANCE_MAP.get(metric, [("General", "Best Practice")])[0]`, as one string. */
  function Regulation(metric: string): (r: string)
    ensures metric !in COMPLIANCE_MAP ==> r == GENERAL_REGULATION
    ensures metric in COMPLIANCE_MAP ==>
              r == COMPLIANCE_MAP[metric][0].0 + " " + COMPLIANCE_MAP[metric][0].1
  {
    var es := if metric in COMPLIANCE_MAP then COMPLIANCE_MAP[metric] else [("General", "Best Practice")];
    es[0].0 + " " + es[0].1
  }

  /**
   * The recommendation for one metric at tier MEDIUM or above: effort and
   * timeline follow the same test, CRITICAL or not.
   */
  function RecFor(m: Metric): (r: Recommendation)
    ensures r.effort == "High" <==> RiskLevel(m.score) == CRITICAL
    ensures r.effort == "Medium" <==> RiskLevel(m.score) != CRITICAL
    ensures r.timeline == IMMEDIATE <==> RiskLevel(m.score) == CRITICAL
    ensures r.timeline == SHORT_TERM <==> RiskLevel(m.score) != CRITICAL
    ensures r.regulation == Regulation(m.key)
  {
    assert IMMEDIATE[0] != SHORT_TERM[0];
    var level := RiskLevel(m.score);
    Recommendation(
      "Remediate " + Title(ReplaceChar(m.key, '_', ' ')) + " Risk",
      ReportBuilder.Get(MITIGATION_TEXT, m.key, "Implement appropriate controls"),
      if level == CRITICAL then "High" else "Medium",
      if level == CRITICAL then IMMEDIATE else SHORT_TERM,
      Regulation(m.key))
  }

  /** The `recs` list built from the given slice of the sorted metrics. */
  function RecsOf(s: ScoreMap): (recs: seq<Recommendation>)
    ensures |recs| <= |s|
  {
    if s == [] then []
    else
      var last := s[|s| - 1];
      RecsOf(s[..|s| - 1]) + (if RiskLevel(last.score) != LOW then [RecFor(last)] else [])
  }

  /** The recommendations are those of the eligible metrics, one each, in order. */
  lemma {:induction false} RecsOfEligible(s: ScoreMap)
    ensures |RecsOf(s)| == |Eligible(s)|
    ensures forall i :: 0 <= i < |RecsOf(s)| ==> RecsOf(s)[i] == RecFor(Eligible(s)[i])
  {
    if s != [] {
      RecsOfEligible(s[..|s| - 1]);
    }
  }

  /** A `system_info.get(k, default)` interpolated into an f-string (None prints as "None"). */
  function InfoText(info: ReportBuilder.SystemInfo, k: string, default: string): (r: string)
    ensures k !in info ==> r == default
    ensures k in info && info[k].Some? ==> r == info[k].value
    ensures k in info && info[k].None? ==> r == "None"
  {
    if k !in info then default
    else match info[k]
      case None => "None"
      case Some(v) => v
  }

  /** The values interpolated into the executive summary (the percentage rendering is left out). */
  datatype ExecSummary = ExecSummary(
    modelName: string, orgName: string, useCase: string,
    critical: nat, high: nat, topName: string, topScore: real)

  /** The values interpolated into the top-priority line. */
  datatype TopPriority = TopPriority(name: string, score: real, framework: string)

  datatype Analysis = Analysis(
    executiveSummary: ExecSummary,
    topPriority: TopPriority,
    complianceNarrative: string,
    recommendations: seq<Recommendation>,
    readinessAssessment: string)

  const SIGNIFICANT_NARRATIVE: string :=
    "The system presents significant regulatory exposure. Remediation of critical findings is required before regulatory submission or production scale-up."
  const MODERATE_NARRATIVE: string :=
    "The system presents moderate regulatory exposure. Remediation of critical findings is required before regulatory submission or production scale-up."
  const NOT_READY: string :=
    "The system is currently not ready for regulatory submission. Critical issues must be resolved first."
  const CONDITIONALLY_READY: string :=
    "The system is currently conditionally ready for regulatory submission. Address high-severity findings to improve confidence."

  /**
   * `COMPLIANCE_MAP.get(top,[])[0][0] if COMPLIANCE_MAP.get(top) else 'General'`:
   * the framework that the metric's recommendation cites first, the same
   * "General" default included.
   */
  function TopFramework(metric: string): (r: string)
    ensures metric in COMPLIANCE_MAP ==> Regulation(metric) == r + " " + COMPLIANCE_MAP[metric][0].1
    ensures metric !in COMPLIANCE_MAP ==> Regulation(metric) == r + " Best Practice"
  {
    if metric in COMPLIANCE_MAP && |COMPLIANCE_MAP[metric]| > 0 then COMPLIANCE_MAP[metric][0].0
    else "General"
  }

  /**
   * The rule-based analysis. `sorted_risks[0]` raises IndexError on an
   * empty map, so the map must not be empty.
   */
  function RuleBasedAnalysisOf(scores: ScoreMap, info: ReportBuilder.SystemInfo): (r: Analysis)
    requires |scores| > 0
    ensures |r.recommendations| <= 4
    ensures r.readinessAssessment == NOT_READY <==> r.executiveSummary.critical > 0
    ensures r.complianceNarrative == SIGNIFICANT_NARRATIVE <==> r.executiveSummary.critical > 0
  {
    assert |NOT_READY| != |CONDITIONALLY_READY|;
    assert |SIGNIFICANT_NARRATIVE| != |MODERATE_NARRATIVE|;
    var sorted := SortDesc(scores);
    var top := sorted[0];
    var critical := WithLevel(scores, CRITICAL);
    var high := WithLevel(scores, HIGH);
    Analysis(
      ExecSummary(
        InfoText(info, "model_name", "the AI system"),
        InfoText(info, "org_name", "the organisation"),
        InfoText(info, "use_case", "the stated use case"),
        |critical|, |high|, ReplaceChar(top.key, '_', ' '), top.score),
      TopPriority(Title(ReplaceChar(top.key, '_', ' ')), top.score, TopFramework(top.key)),
      if |critical| > 0 then SIGNIFICANT_NARRATIVE else MODERATE_NARRATIVE,
      RecsOf(TakeTop(sorted, 4)),
      if |critical| > 0 then NOT_READY else CONDITIONALLY_READY)
  }

  /** The `recs` loop: one recommendation per metric of tier MEDIUM or above, in the given order. */
  method Recommendations(head: ScoreMap) returns (recs: seq<Recommendation>)
    ensures recs == RecsOf(head)
  {
    recs := [];
    for i := 0 to |head|
      invariant recs == RecsOf(head[..i])
    {
      var m := head[i];
      assert head[..i + 1][..i] == head[..i];
      var level := RiskLevel(m.score);
      if level == CRITICAL || level == HIGH || level == MEDIUM {
        recs := recs + [RecFor(m)];
      }
    }
    assert head[..|head|] == head;
  }

  /** `_rule_based_analysis`, with its loop over the four highest metrics. */
  method RuleBasedAnalysis(scores: ScoreMap, info: ReportBuilder.SystemInfo) returns (a: Analysis)
    requires |scores| > 0
    ensures a == RuleBasedAnalysisOf(scores, info)
  {
    var sorted := SortDesc(scores);
    var top := sorted[0];
    var critical := WithLevel(scores, CRITICAL);
    var high := WithLevel(scores, HIGH);
    var recs := Recommendations(TakeTop(sorted, 4));
    a := Analysis(
      ExecSummary(
        InfoText(info, "model_name", "the AI system"),
        InfoText(info, "org_name", "the organisation"),
        InfoText(info, "use_case", "the stated use case"),
        |critical|, |high|, ReplaceChar(top.key, '_', ' '), top.score),
      TopPriority(Title(ReplaceChar(top.key, '_', ' ')), top.score, TopFramework(top.key)),
      if |critical| > 0 then SIGNIFICANT_NARRATIVE else MODERATE_NARRATIVE,
      recs,
      if |critical| > 0 then NOT_READY else CONDITIONALLY_READY);
  }

  /**
   * At most four recommendations, each the recommendation of a metric among
   * the four highest that is MEDIUM or above, in descending score order.
   */
  lemma RecommendationsChosen(scores: ScoreMap, info: ReportBuilder.SystemInfo)
    requires |scores| > 0
    ensures var recs := RuleBasedAnalysisOf(scores, info).recommendations;
            var chosen := Eligible(TakeTop(SortDesc(scores), 4));
            && |recs| <= 4
            && |recs| == |chosen|
            && (forall i :: 0 <= i < |recs| ==>
                  recs[i] == RecFor(chosen[i]) && chosen[i] in TakeTop(SortDesc(scores), 4)
                  && RiskLevel(chosen[i].score) != LOW)
            && (forall i, j :: 0 <= i < j < |chosen| ==> chosen[i].score >= chosen[j].score)
  {
    var sorted := SortDesc(scores);
    var head := TakeTop(sorted, 4);
    SortDescCorrect(scores);
    assert SortedDesc(head);
    EligibleSorted(head);
    RecsOfEligible(head);
    var chosen := Eligible(head);
    forall i | 0 <= i < |chosen|
      ensures chosen[i] in head && RiskLevel(chosen[i].score) != LOW
    {
      assert chosen[i] in chosen;
    }
  }

  /** The top priority names a metric of the map whose score is the highest. */
  lemma TopPriorityIsHighest(scores: ScoreMap, info: ReportBuilder.SystemInfo)
    requires |scores| > 0
    ensures var tp := RuleBasedAnalysisOf(scores, info).topPriority;
            && (exists i :: 0 <= i < |scores| && tp.score == scores[i].score
                   && tp.name == Title(ReplaceChar(scores[i].key, '_', ' ')))
            && forall i :: 0 <= i < |scores| ==> tp.score >= scores[i].score
  {
    TopIsMaximum(scores);
    var top := SortDesc(scores)[0];
    var k :| 0 <= k < |scores| && scores[k] == top;
  }

  /** The readiness text is the "not ready" one exactly when some metric is CRITICAL. */
  lemma NotReadyIffCritical(scores: ScoreMap, info: ReportBuilder.SystemInfo)
    requires |scores| > 0
    ensures (exists i :: 0 <= i < |scores| && RiskLevel(scores[i].score) == CRITICAL)
            ==> RuleBasedAnalysisOf(scores, info).readinessAssessment == NOT_READY
    ensures (forall i :: 0 <= i < |scores| ==> RiskLevel(scores[i].score) != CRITICAL)
            ==> RuleBasedAnalysisOf(scores, info).readinessAssessment == CONDITIONALLY_READY
  {
    var critical := WithLevel(scores, CRITICAL);
    if exists i :: 0 <= i < |scores| && RiskLevel(scores[i].score) == CRITICAL {
      var i :| 0 <= i < |scores| && RiskLevel(scores[i].score) == CRITICAL;
      assert scores[i] in critical;
    }
    if |critical| > 0 {
      assert critical[0] in critical;
    }
  }

  /** The summary's critical and high counts equal the builder's counts over the same scores. */
  lemma {:induction false} CountsAgree(scores: ScoreMap, risks: seq<ReportBuilder.RiskRecord>, level: Level)
    requires |risks| == |scores|
    requires forall i :: 0 <= i < |scores| ==> risks[i] == ReportBuilder.RiskOf(scores[i])
    ensures |WithLevel(scores, level)| == ReportBuilder.CountLevel(risks, level)
  {
    if scores != [] {
      CountsAgree(scores[1..], risks[1..], level);
    }
  }

  // ---------------------------------------------------------------------
  // Dispatch between the language model and the fallback
  // ---------------------------------------------------------------------

  /** The outcome of the API call: an exception, or the reply's first text block. */
  datatype ApiReply = ApiFailed | ApiReplied(raw: string)

  /** The analysis handed to the report: the model's parsed JSON, or the rule-based one. */
  datatype AiAnalysis = FromModel(cleaned: string) | RuleBased(analysis: Analysis)

  /** `raw.replace("```json", "").replace("```", "").strip()`. */
  function StripFences(raw: string): (r: string)
    ensures |r| <= |raw|
    ensures r != [] ==> !IsSpace(r[0]) && !IsSpace(r[|r| - 1])
  {
    Strip(ReplaceAll(ReplaceAll(raw, "```json", ""), "```", ""))
  }

  /**
   * A reply that is already clean (no backtick anywhere, no whitespace at
   * either end) is left exactly as it is.
   */
  lemma CleanReplyUnchanged(raw: string)
    requires '`' !in raw
    requires raw == [] || (!IsSpace(raw[0]) && !IsSpace(raw[|raw| - 1]))
    ensures StripFences(raw) == raw
  {
    NoBacktickNoFence(raw, "```json");
    NoBacktickNoFence(raw, "```");
    assert StripLeft(raw) == raw;
    assert StripRight(raw) == raw;
  }

  /** A text without a backtick contains no pattern that starts with one. */
  lemma {:induction false} NoBacktickNoFence(s: string, pat: string)
    requires '`' !in s
    requires |pat| > 0 && pat[0] == '`'
    ensures !Contains(s, pat)
  {
    if s != [] {
      assert s[0] != '`';
      if |pat| <= |s| {
        assert s[..|pat|][0] == s[0];
      }
      assert s == [s[0]] + s[1..];
      NoBacktickNoFence(s[1..], pat);
    }
  }

  /**
   * A reply the model wrapped in a JSON code fence, the body on its own lines
   * between the fences, is unwrapped to exactly that body when the body
   * holds no backtick and no whitespace at either end.
   */
  lemma FencedReplyUnwrapped(body: string)
    requires '`' !in body
    requires body == [] || (!IsSpace(body[0]) && !IsSpace(body[|body| - 1]))
    ensures StripFences("```json\n" + body + "\n```") == body
  {
    var inner := "\n" + body + "\n";
    assert '`' !in inner;
    assert "```json\n" + body + "\n```" == "```json" + (inner + "```");
    JsonFenceRemoved(inner);
    ClosingFenceRemoved(inner);
    StripNewlines(body);
  }

  /** The first replacement drops the opening fence and keeps the rest up to the closing one. */
  lemma JsonFenceRemoved(inner: string)
    requires '`' !in inner
    ensures ReplaceAll("```json" + (inner + "```"), "```json", "") == inner + "```"
  {
    ReplaceAllLeading("```json", inner + "```", "");
    ReplaceAllSkips(inner, "```", "```json", "");
    assert ReplaceAll("```", "```json", "") == "```";
  }

  /** The second replacement drops the closing fence. */
  lemma ClosingFenceRemoved(inner: string)
    requires '`' !in inner
    ensures ReplaceAll(inner + "```", "```", "") == inner
  {
    ReplaceAllSkips(inner, "```", "```", "");
    assert "```" == "```" + [];
    ReplaceAllLeading("```", [], "");
  }

  /** Stripping the newline before and after a stripped body gives the body. */
  lemma StripNewlines(body: string)
    requires body == [] || (!IsSpace(body[0]) && !IsSpace(body[|body| - 1]))
    ensures Strip("\n" + body + "\n") == body
  {
    var s := "\n" + body + "\n";
    assert s[1..] == body + "\n";
    if body == [] {
      assert StripLeft(body + "\n") == [] by {
        assert (body + "\n")[1..] == [];
      }
    } else {
      assert StripLeft(body + "\n") == body + "\n";
      assert (body + "\n")[..|body|] == body;
    }
    assert StripLeft(s) == StripLeft(body + "\n");
  }

  /**
   * `generate_ai_analysis`. The API key is the configured string; `reply`
   * is what the network call produced and `parses` says whether
   * `json.loads` accepts a text. A missing key, a failed call or an
   * unparsable reply all yield exactly the rule-based analysis.
   */
  method GenerateAiAnalysis(scores: ScoreMap, info: ReportBuilder.SystemInfo, apiKey: string,
                            reply: ApiReply, parses: string -> bool)
    returns (r: AiAnalysis)
    requires |scores| > 0
    ensures apiKey == "" ==> r == RuleBased(RuleBasedAnalysisOf(scores, info))
    ensures apiKey != "" && reply.ApiFailed? ==> r == RuleBased(RuleBasedAnalysisOf(scores, info))
    ensures apiKey != "" && reply.ApiReplied? ==>
              r == if parses(StripFences(reply.raw)) then FromModel(StripFences(reply.raw))
                   else RuleBased(RuleBasedAnalysisOf(scores, info))
  {
    if apiKey == "" {
      var a := RuleBasedAnalysis(scores, info);
      return RuleBased(a);
    }
    var refs := ComplianceObligations(scores);
    match reply {
      case ApiFailed =>
        var a := RuleBasedAnalysis(scores, info);
        r := RuleBased(a);
      case ApiReplied(raw) =>
        var cleaned := StripFences(raw);
        if parses(cleaned) {
          r := FromModel(cleaned);
        } else {
          var a := RuleBasedAnalysis(scores, info);
          r := RuleBased(a);
        }
    }
  }
}
