/**
 * The reports router: where a report's scores come from (a re-scored
 * upload of the caller's, or the request's own numbers with defaults), the
 * assembled and stored report, the response shape with its defaults, and
 * the owner-scoped list, get and delete.
 */
module ReportsRouter {
  import opened Common
  import ReportBuilder
  import ClaudeService
  import Scoring
  import Store
  import UploadRouter

  datatype ReportRequest = ReportRequest(
    uploadId: Option<string>,
    modelName: string,
    modelVersion: Option<string>,
    orgName: Option<string>,
    useCase: Option<string>,
    deployEnv: string,
    trainingData: Option<string>,
    oversightPolicy: Option<string>,
    incidentPolicy: Option<string>,
    framework: string,
    biasScore: Option<real>,
    hallucinationScore: Option<real>,
    toxicityScore: Option<real>,
    robustnessScore: Option<real>,
    explainabilityScore: Option<real>,
    dataLeakageScore: Option<real>,
    driftScore: Option<real>)

  /** `if body.upload_id:` — an empty id counts as no id. */
  predicate HasUpload(body: ReportRequest)
  {
    body.uploadId.Some? && body.uploadId.value != ""
  }

  // ---------------------------------------------------------------------
  // Falsy defaults
  // ---------------------------------------------------------------------

  /** `x or d` on an optional number: None and 0 both give `d`. */
  function OrReal(x: Option<real>, d: real): (r: real)
    ensures x.Some? && x.value != 0.0 ==> r == x.value
    ensures (x == None || x.value == 0.0) ==> r == d
  {
    if x.Some? && x.value != 0.0 then x.value else d
  }

  /** The request's seven scores in the dict's key order. */
  function RequestedScores(body: ReportRequest): (xs: seq<Option<real>>)
    ensures |xs| == 7
  {
    [body.biasScore, body.hallucinationScore, body.toxicityScore, body.robustnessScore,
     body.explainabilityScore, body.dataLeakageScore, body.driftScore]
  }

  const MANUAL_DEFAULTS: seq<real> := [0.3, 0.3, 0.1, 0.3, 0.4, 0.2, 0.25]

  /**
   * The manual score dict: each supplied value unless it is missing or
   * zero, in which case the metric's default.
   */
  function ManualScores(body: ReportRequest): (scores: ScoreMap)
    ensures Keys(scores) == Scoring.METRIC_KEYS
    ensures forall i :: 0 <= i < 7 ==> scores[i].score == OrReal(RequestedScores(body)[i], MANUAL_DEFAULTS[i])
  {
    Scoring.ScoreDict(OrReal(body.biasScore, 0.3), OrReal(body.hallucinationScore, 0.3),
                      OrReal(body.toxicityScore, 0.1), OrReal(body.robustnessScore, 0.3),
                      OrReal(body.explainabilityScore, 0.4), OrReal(body.dataLeakageScore, 0.2),
                      OrReal(body.driftScore, 0.25))
  }

  /** No manual score is ever 0: an explicit 0.0 is replaced by the default like a missing value. */
  lemma ManualScoresNeverZero(body: ReportRequest, i: nat)
    requires i < 7
    ensures ManualScores(body)[i].score != 0.0
    ensures RequestedScores(body)[i] == Some(0.0) ==> ManualScores(body)[i].score == MANUAL_DEFAULTS[i]
  {
    var s := ManualScores(body);
    assert s[i].score == OrReal(RequestedScores(body)[i], MANUAL_DEFAULTS[i]);
    assert MANUAL_DEFAULTS[i] != 0.0;
  }

  /** `system_info` built from the request. */
  function SystemInfoOf(body: ReportRequest): (info: ReportBuilder.SystemInfo)
    ensures info.Keys == {"model_name", "model_version", "org_name", "use_case", "deploy_env",
                          "training_data", "oversight_policy", "incident_policy", "framework"}
  {
    map[
      "model_name" := Some(body.modelName),
      "model_version" := body.modelVersion,
      "org_name" := body.orgName,
      "use_case" := body.useCase,
      "deploy_env" := Some(body.deployEnv),
      "training_data" := body.trainingData,
      "oversight_policy" := body.oversightPolicy,
      "incident_policy" := body.incidentPolicy,
      "framework" := Some(body.framework)
    ]
  }

  // ---------------------------------------------------------------------
  // Where the scores come from
  // ---------------------------------------------------------------------

  /** Re-reading a stored file: `pd.read_csv` when `csv`, else `pd.read_json`; an exception carries its text. */
  datatype Reloaded = Reloaded(df: Scoring.Frame) | ReloadFailed(msg: string)

  type Reload = (string, bool) -> Reloaded

  const UPLOAD_NOT_FOUND: HttpError := HttpError(404, "Upload not found")
  const REPORT_NOT_FOUND: HttpError := HttpError(404, "Report not found")

  const PROCESS_FAILED: string := "Failed to process uploaded file: "

  /**
   * Re-scoring a stored upload: the file is re-read as CSV when its name
   * ends in "csv" and as JSON otherwise. Reading and scoring share one
   * `try`: an exception from either is a 500 carrying its text; otherwise
   * the table gives its seven scores and its row count.
   */
  function Rescored(u: Store.UploadRow, lib: Scoring.Library, reload: Reload): (r: Result<(ScoreMap, nat)>)
    ensures r.Ok? ==> Keys(r.value.0) == Scoring.METRIC_KEYS
    ensures var loaded := reload(u.storagePath, UploadRouter.Extension(u.filename) == "csv");
            && (loaded.ReloadFailed? ==> r == Err(HttpError(500, PROCESS_FAILED + loaded.msg)))
            && (loaded.Reloaded? && Scoring.AllScoresOf(lib, loaded.df).Raised? ==>
                  r == Err(HttpError(500, PROCESS_FAILED + Scoring.AllScoresOf(lib, loaded.df).msg)))
            && (loaded.Reloaded? && Scoring.AllScoresOf(lib, loaded.df).Done? ==>
                  r == Ok((Scoring.AllScoresOf(lib, loaded.df).value, loaded.df.height)))
  {
    match reload(u.storagePath, UploadRouter.Extension(u.filename) == "csv")
    case ReloadFailed(msg) => Err(HttpError(500, PROCESS_FAILED + msg))
    case Reloaded(df) =>
      match Scoring.AllScoresOf(lib, df)
      case Raised(msg) => Err(HttpError(500, PROCESS_FAILED + msg))
      case Done(scores) => Ok((scores, df.height))
  }

  /**
   * The score dict and row count `generate_report` works with: from the
   * caller's own upload, re-scored (404 when it is missing or someone
   * else's), or from the request with row count 0.
   */
  function ScoreSource(uploads: map<string, Store.UploadRow>, userId: string, body: ReportRequest,
                       lib: Scoring.Library, reload: Reload): (r: Result<(ScoreMap, nat)>)
    ensures r.Ok? ==> Keys(r.value.0) == Scoring.METRIC_KEYS
    ensures HasUpload(body) && Store.Owned(uploads, Store.UploadOwner, body.uploadId.value, userId) == None ==>
              r == Err(UPLOAD_NOT_FOUND)
    ensures HasUpload(body) && Store.Owned(uploads, Store.UploadOwner, body.uploadId.value, userId).Some? ==>
              r == Rescored(uploads[body.uploadId.value], lib, reload)
    ensures !HasUpload(body) ==> r == Ok((ManualScores(body), 0))
  {
    if HasUpload(body) then
      match Store.Owned(uploads, Store.UploadOwner, body.uploadId.value, userId)
      case None => Err(UPLOAD_NOT_FOUND)
      case Some(u) => Rescored(u, lib, reload)
    else Ok((ManualScores(body), 0))
  }

  /** An upload id that is someone else's is treated exactly like one that does not exist. */
  lemma ForeignUploadNotFound(uploads: map<string, Store.UploadRow>, userId: string, body: ReportRequest,
                              lib: Scoring.Library, reload: Reload)
    requires HasUpload(body) && body.uploadId.value in uploads
    requires uploads[body.uploadId.value].userId != userId
    ensures ScoreSource(uploads, userId, body, lib, reload)
            == ScoreSource(uploads - {body.uploadId.value}, userId, body, lib, reload)
            == Err(UPLOAD_NOT_FOUND)
  {
  }

  // ---------------------------------------------------------------------
  // Responses
  // ---------------------------------------------------------------------

  datatype RiskMetrics = RiskMetrics(
    bias: real, hallucination: real, toxicity: real, robustness: real,
    explainability: real, dataLeakage: real, drift: real)

  datatype ReportResponse = ReportResponse(
    id: string,
    modelName: Option<string>,
    orgName: Option<string>,
    useCase: Option<string>,
    overallRisk: string,
    readinessPct: int,
    metrics: RiskMetrics,
    fullReport: Option<Store.Report>,
    createdAt: int)

  /** `report.overall_risk or "UNKNOWN"`: None and the empty text are both falsy. */
  function OrText(x: Option<string>, d: string): (r: string)
    ensures x.Some? && x.value != "" ==> r == x.value
    ensures x.None? || x.value == "" ==> r == d
    ensures d != "" ==> r != ""
  {
    if x.Some? && x.value != "" then x.value else d
  }

  /** `report.readiness_pct or 0`: None and 0 are both falsy. */
  function OrInt(x: Option<int>, d: int): (r: int)
    ensures x.Some? && x.value != 0 ==> r == x.value
    ensures x.None? || x.value == 0 ==> r == d
    ensures d != 0 ==> r != 0
  {
    if x.Some? && x.value != 0 then x.value else d
  }

  /**
   * `_to_response`: null columns become "UNKNOWN", 0 and 0; since the
   * default for a number is 0 itself, every number is the stored one or 0
   * when null. Everything else is copied.
   */
  function ToResponse(id: string, row: Store.ReportRow): (r: ReportResponse)
    ensures r.overallRisk != ""
    ensures r.overallRisk == (if row.overallRisk.Some? && row.overallRisk.value != "" then row.overallRisk.value else "UNKNOWN")
    ensures r.readinessPct == (if row.readinessPct.Some? then row.readinessPct.value else 0)
    ensures r.metrics.bias == (if row.biasScore.Some? then row.biasScore.value else 0.0)
    ensures r.metrics.hallucination == (if row.hallucinationScore.Some? then row.hallucinationScore.value else 0.0)
    ensures r.metrics.toxicity == (if row.toxicityScore.Some? then row.toxicityScore.value else 0.0)
    ensures r.metrics.robustness == (if row.robustnessScore.Some? then row.robustnessScore.value else 0.0)
    ensures r.metrics.explainability == (if row.explainabilityScore.Some? then row.explainabilityScore.value else 0.0)
    ensures r.metrics.dataLeakage == (if row.dataLeakageScore.Some? then row.dataLeakageScore.value else 0.0)
    ensures r.metrics.drift == (if row.driftScore.Some? then row.driftScore.value else 0.0)
    ensures r.id == id && r.modelName == row.modelName && r.orgName == row.orgName && r.useCase == row.useCase
    ensures r.fullReport == row.fullReport && r.createdAt == row.createdAt
  {
    ReportResponse(
      id, row.modelName, row.orgName, row.useCase,
      OrText(row.overallRisk, "UNKNOWN"),
      OrInt(row.readinessPct, 0),
      RiskMetrics(
        OrReal(row.biasScore, 0.0), OrReal(row.hallucinationScore, 0.0), OrReal(row.toxicityScore, 0.0),
        OrReal(row.robustnessScore, 0.0), OrReal(row.explainabilityScore, 0.0),
        OrReal(row.dataLeakageScore, 0.0), OrReal(row.driftScore, 0.0)),
      row.fullReport, row.createdAt)
  }

  datatype ReportListItem = ReportListItem(
    id: string,
    modelName: Option<string>,
    orgName: Option<string>,
    overallRisk: Option<string>,
    readinessPct: Option<int>,
    createdAt: int)

  /** One entry of the listing: the id and the stored columns, nulls kept as they are. */
  function ListItem(id: string, row: Store.ReportRow): (item: ReportListItem)
    ensures item.id == id && item.createdAt == row.createdAt
    ensures item.modelName == row.modelName && item.orgName == row.orgName
    ensures item.overallRisk == row.overallRisk && item.readinessPct == row.readinessPct
  {
    ReportListItem(id, row.modelName, row.orgName, row.overallRisk, row.readinessPct, row.createdAt)
  }

  // ---------------------------------------------------------------------
  // get_report
  // ---------------------------------------------------------------------

  /** `get_report`: the caller's report as a response, or 404 when it is missing or someone else's. */
  function GetReport(reports: map<string, Store.ReportRow>, id: string, userId: string): (r: Result<ReportResponse>)
    ensures r.Ok? <==> id in reports && reports[id].userId == userId
    ensures r.Ok? ==> r.value == ToResponse(id, reports[id])
    ensures r.Err? ==> r.error == REPORT_NOT_FOUND
  {
    match Store.Owned(reports, Store.ReportOwner, id, userId)
    case None => Err(REPORT_NOT_FOUND)
    case Some(row) => Ok(ToResponse(id, row))
  }

  // ---------------------------------------------------------------------
  // generate_report
  // ---------------------------------------------------------------------

  /**
   * The row `generate_report` stores, from its scores, full report and the
   * request. The score dict has the metric keys in order, so `scores["bias"]`
   * is entry 0, `scores["hallucination"]` entry 1, and so on to
   * `scores["drift"]`, entry 6.
   */
  function ReportRowOf(userId: string, body: ReportRequest, scores: ScoreMap, full: Store.Report, now: int): (row: Store.ReportRow)
    requires Keys(scores) == Scoring.METRIC_KEYS
    ensures row.userId == userId && row.createdAt == now && row.fullReport == Some(full)
    ensures row.overallRisk == Some(LevelName(ReportBuilder.RiskLevel(ReportBuilder.MeanScore(scores))))
    ensures row.readinessPct == Some(ReportBuilder.Readiness(ReportBuilder.MeanScore(scores)))
    ensures row.biasScore == Some(scores[0].score)
    ensures row.hallucinationScore == Some(scores[1].score)
    ensures row.toxicityScore == Some(scores[2].score)
    ensures row.robustnessScore == Some(scores[3].score)
    ensures row.explainabilityScore == Some(scores[4].score)
    ensures row.dataLeakageScore == Some(scores[5].score)
    ensures row.driftScore == Some(scores[6].score)
    ensures row.modelName == Some(body.modelName) && row.modelVersion == body.modelVersion
    ensures row.orgName == body.orgName && row.useCase == body.useCase
    ensures row.deployEnv == Some(body.deployEnv) && row.framework == Some(body.framework)
  {
    var avg := ReportBuilder.MeanScore(scores);
    Store.ReportRow(
      userId, Some(body.modelName), body.modelVersion, body.orgName, body.useCase,
      Some(body.deployEnv), Some(body.framework),
      Some(scores[0].score), Some(scores[1].score), Some(scores[2].score), Some(scores[3].score),
      Some(scores[4].score), Some(scores[5].score), Some(scores[6].score),
      Some(LevelName(ReportBuilder.RiskLevel(avg))), Some(ReportBuilder.Readiness(avg)),
      Some(full), None, now)
  }

  /** The `try` block that re-reads and re-scores a stored upload. */
  method Rescore(u: Store.UploadRow, lib: Scoring.Library, reload: Reload) returns (r: Result<(ScoreMap, nat)>)
    ensures r == Rescored(u, lib, reload)
  {
    var ext := UploadRouter.Extension(u.filename);
    var loaded := reload(u.storagePath, ext == "csv");
    if loaded.ReloadFailed? {
      return Err(HttpError(500, PROCESS_FAILED + loaded.msg));
    }
    var scores := Scoring.ComputeAllScores(lib, loaded.df);
    if scores.Raised? {
      return Err(HttpError(500, PROCESS_FAILED + scores.msg));
    }
    r := Ok((scores.value, loaded.df.height));
  }

  /** The `if body.upload_id: … else: …` block: where the score dict and row count come from. */
  method LoadScores(db: Store.Database, userId: string, body: ReportRequest, lib: Scoring.Library, reload: Reload)
    returns (r: Result<(ScoreMap, nat)>)
    ensures r == ScoreSource(db.uploads, userId, body, lib, reload)
  {
    if !HasUpload(body) {
      return Ok((ManualScores(body), 0));
    }
    var upload := Store.Owned(db.uploads, Store.UploadOwner, body.uploadId.value, userId);
    if upload == None {
      return Err(UPLOAD_NOT_FOUND);
    }
    r := Rescore(upload.value, lib, reload);
  }

  /**
   * What a stored report row holds for these scores: the request's fields,
   * the seven scores, the overall tier and readiness of their mean, and a
   * full report whose summary agrees with both, whose data source carries
   * the row count, whose risks are the scores' risk records in order, and
   * whose analysis is the model's reply when a key is set, the call succeeds
   * and the reply parses, and the rule-based analysis otherwise.
   */
  ghost predicate Assembled(row: Store.ReportRow, userId: string, body: ReportRequest, scores: ScoreMap, rowCount: nat,
                            apiKey: string, reply: ClaudeService.ApiReply, parses: string -> bool,
                            reportUuid: string, generatedAt: string, now: int)
    requires Keys(scores) == Scoring.METRIC_KEYS
  {
    && row.fullReport.Some?
    && var full := row.fullReport.value;
       var avg := ReportBuilder.MeanScore(scores);
       && row == ReportRowOf(userId, body, scores, full, now)
       && full.summary.overallRisk == ReportBuilder.RiskLevel(avg)
       && full.summary.readinessPct == ReportBuilder.Readiness(avg)
       && full.dataSource.rowCount == rowCount
       && full.id == reportUuid && full.generatedAt == generatedAt
       && |full.risks| == 7
       && (forall i :: 0 <= i < 7 ==> full.risks[i] == ReportBuilder.RiskOf(scores[i]))
       && full.aiAnalysis ==
            if apiKey != "" && reply.ApiReplied? && parses(ClaudeService.StripFences(reply.raw))
            then ClaudeService.FromModel(ClaudeService.StripFences(reply.raw))
            else ClaudeService.RuleBased(ClaudeService.RuleBasedAnalysisOf(scores, SystemInfoOf(body)))
  }

  /** The analysis, the full report and the row: lines from `system_info` to the `Report(...)` constructor. */
  method AssembleReport(userId: string, body: ReportRequest, scores: ScoreMap, rowCount: nat,
                        apiKey: string, reply: ClaudeService.ApiReply, parses: string -> bool,
                        reportUuid: string, generatedAt: string, now: int)
    returns (row: Store.ReportRow)
    requires Keys(scores) == Scoring.METRIC_KEYS
    ensures Assembled(row, userId, body, scores, rowCount, apiKey, reply, parses, reportUuid, generatedAt, now)
  {
    assert |scores| == |Keys(scores)| == 7;
    var info := SystemInfoOf(body);
    var ai := ClaudeService.GenerateAiAnalysis(scores, info, apiKey, reply, parses);
    var full := ReportBuilder.BuildReport(scores, info, ai, rowCount, reportUuid, generatedAt);
    row := ReportRowOf(userId, body, scores, full, now);
  }

  /**
   * A freshly generated report never answers "UNKNOWN" or a defaulted
   * readiness: its response carries the tier and readiness of the scores'
   * mean and the scores themselves.
   */
  lemma GeneratedResponseIsKnown(id: string, userId: string, body: ReportRequest, scores: ScoreMap,
                                 full: Store.Report, now: int)
    requires Keys(scores) == Scoring.METRIC_KEYS
    ensures var resp := ToResponse(id, ReportRowOf(userId, body, scores, full, now));
            var avg := ReportBuilder.MeanScore(scores);
            && resp.overallRisk == LevelName(ReportBuilder.RiskLevel(avg))
            && resp.readinessPct == ReportBuilder.Readiness(avg)
            && resp.metrics.bias == scores[0].score
            && resp.metrics.drift == scores[6].score
            && resp.fullReport == Some(full)
  {
    var l := ReportBuilder.RiskLevel(ReportBuilder.MeanScore(scores));
    assert LevelName(l) != "" by {
      match l
      case LOW => assert LevelName(l)[0] == 'L';
      case MEDIUM => assert LevelName(l)[0] == 'M';
      case HIGH => assert LevelName(l)[0] == 'H';
      case CRITICAL => assert LevelName(l)[0] == 'C';
    }
  }

  /**
   * `generate_report`. `reload` re-reads a stored upload; `apiKey`, `reply`
   * and `parses` stand for the language-model call; `newId`, `reportUuid`,
   * `generatedAt` and `now` for the generated ids and clock readings. An
   * error leaves the store as it was; otherwise exactly one row is added,
   * and the response is what `get_report` gives for it afterwards.
   */
  method GenerateReport(db: Store.Database, userId: string, body: ReportRequest, lib: Scoring.Library,
                        reload: Reload, apiKey: string, reply: ClaudeService.ApiReply, parses: string -> bool,
                        newId: string, reportUuid: string, generatedAt: string, now: int)
    returns (r: Result<ReportResponse>)
    requires newId !in db.reports
    modifies db
    ensures db.uploads == old(db.uploads)
    ensures var source := ScoreSource(old(db.uploads), userId, body, lib, reload);
            && (source.Err? ==> r == Err(source.error) && db.reports == old(db.reports))
            && (source.Ok? ==>
                  && newId in db.reports
                  && db.reports == old(db.reports)[newId := db.reports[newId]]
                  && Assembled(db.reports[newId], userId, body, source.value.0, source.value.1,
                               apiKey, reply, parses, reportUuid, generatedAt, now)
                  && r.Ok?
                  && r == GetReport(db.reports, newId, userId))
  {
    var source := LoadScores(db, userId, body, lib, reload);
    if source.Err? {
      return Err(source.error);
    }
    var row := AssembleReport(userId, body, source.value.0, source.value.1, apiKey, reply, parses,
                              reportUuid, generatedAt, now);
    db.AddReport(newId, row);
    r := Ok(ToResponse(newId, row));
  }

  // ---------------------------------------------------------------------
  // list_reports
  // ---------------------------------------------------------------------

  /** The ids of the caller's reports. */
  function OwnedIds(reports: map<string, Store.ReportRow>, userId: string): (ids: set<string>)
    ensures forall id :: id in ids <==> id in reports && reports[id].userId == userId
  {
    set id | id in reports && reports[id].userId == userId
  }

  function IdsOf(items: seq<ReportListItem>): (ids: seq<string>)
    ensures |ids| == |items| && forall i :: 0 <= i < |items| ==> ids[i] == items[i].id
  {
    seq(|items|, i requires 0 <= i < |items| => items[i].id)
  }

  /** Every non-empty set of reports has a newest one. */
  lemma {:induction false} NewestExists(reports: map<string, Store.ReportRow>, ids: set<string>)
    requires ids != {} && ids <= reports.Keys
    ensures exists id :: id in ids && forall o :: o in ids ==> reports[o].createdAt <= reports[id].createdAt
    decreases |ids|
  {
    var x :| x in ids;
    if ids != {x} {
      var rest := ids - {x};
      NewestExists(reports, rest);
      var y :| y in rest && forall o :: o in rest ==> reports[o].createdAt <= reports[y].createdAt;
      if reports[x].createdAt <= reports[y].createdAt {
        assert forall o :: o in ids ==> reports[o].createdAt <= reports[y].createdAt;
      } else {
        assert forall o :: o in ids ==> reports[o].createdAt <= reports[x].createdAt;
      }
    } else {
      assert forall o :: o in ids ==> reports[o].createdAt <= reports[x].createdAt;
    }
  }

  /**
   * `list_reports`: every report of the caller's, each once, newest first,
   * and nobody else's.
   */
  method ListReports(db: Store.Database, userId: string) returns (items: seq<ReportListItem>)
    ensures forall id :: id in IdsOf(items) <==> id in OwnedIds(db.reports, userId)
    ensures forall i, j :: 0 <= i < j < |items| ==> items[i].id != items[j].id
    ensures forall i, j :: 0 <= i < j < |items| ==> items[i].createdAt >= items[j].createdAt
    ensures forall i :: 0 <= i < |items| ==> items[i].id in db.reports && items[i] == ListItem(items[i].id, db.reports[items[i].id])
  {
    var reports := db.reports;
    var ids := NewestFirst(reports, OwnedIds(reports, userId));
    items := seq(|ids|, i requires 0 <= i < |ids| => ListItem(ids[i], reports[ids[i]]));
    assert IdsOf(items) == ids;
  }

  /** Ids of stored reports in non-increasing `created_at` order. */
  predicate NewestFirstOrder(reports: map<string, Store.ReportRow>, ids: seq<string>)
  {
    && (forall i :: 0 <= i < |ids| ==> ids[i] in reports)
    && (forall i, j :: 0 <= i < j < |ids| ==> reports[ids[i]].createdAt >= reports[ids[j]].createdAt)
  }

  predicate Distinct(ids: seq<string>)
  {
    forall i, j :: 0 <= i < j < |ids| ==> ids[i] != ids[j]
  }

  /** Appending the newest of the ids not yet listed keeps the list distinct and newest first. */
  lemma AppendNewest(reports: map<string, Store.ReportRow>, ids: seq<string>, remaining: set<string>, id: string)
    requires NewestFirstOrder(reports, ids) && Distinct(ids)
    requires id in remaining && remaining <= reports.Keys
    requires forall i :: 0 <= i < |ids| ==> ids[i] !in remaining
    requires |ids| > 0 ==> forall o :: o in remaining ==> reports[o].createdAt <= reports[ids[|ids| - 1]].createdAt
    ensures NewestFirstOrder(reports, ids + [id]) && Distinct(ids + [id])
  {
    var ids' := ids + [id];
    forall i, j | 0 <= i < j < |ids'| ensures reports[ids'[i]].createdAt >= reports[ids'[j]].createdAt {
      if j == |ids| {
        assert reports[ids[i]].createdAt >= reports[ids[|ids| - 1]].createdAt;
      }
    }
  }

  /** `.order_by(Report.created_at.desc())`: the given ids, each once, newest first. */
  method NewestFirst(reports: map<string, Store.ReportRow>, owned: set<string>) returns (ids: seq<string>)
    requires owned <= reports.Keys
    ensures forall id :: id in ids <==> id in owned
    ensures Distinct(ids)
    ensures NewestFirstOrder(reports, ids)
  {
    var remaining := owned;
    ids := [];
    while remaining != {}
      invariant remaining <= owned
      invariant forall i :: 0 <= i < |ids| ==> ids[i] in owned && ids[i] !in remaining
      invariant forall id :: id in owned ==> id in remaining || id in ids
      invariant Distinct(ids) && NewestFirstOrder(reports, ids)
      invariant |ids| > 0 ==> forall o :: o in remaining ==> reports[o].createdAt <= reports[ids[|ids| - 1]].createdAt
      decreases |remaining|
    {
      NewestExists(reports, remaining);
      var id :| id in remaining && forall o :: o in remaining ==> reports[o].createdAt <= reports[id].createdAt;
      AppendNewest(reports, ids, remaining, id);
      ids := ids + [id];
      remaining := remaining - {id};
    }
  }

  // ---------------------------------------------------------------------
  // delete_report
  // ---------------------------------------------------------------------

  /** `delete_report`: removes the caller's report and answers with its id, or 404 and nothing changes. */
  method DeleteReport(db: Store.Database, id: string, userId: string) returns (r: Result<string>)
    modifies db
    ensures db.uploads == old(db.uploads)
    ensures Store.Owned(old(db.reports), Store.ReportOwner, id, userId) == None ==>
              r == Err(REPORT_NOT_FOUND) && db.reports == old(db.reports)
    ensures Store.Owned(old(db.reports), Store.ReportOwner, id, userId) != None ==>
              r == Ok(id) && db.reports == old(db.reports) - {id}
  {
    var report := Store.Owned(db.reports, Store.ReportOwner, id, userId);
    if report == None {
      return Err(REPORT_NOT_FOUND);
    }
    db.RemoveReport(id);
    r := Ok(id);
  }

  /** After a delete the report is gone for its owner, and every other report reads as before. */
  lemma DeletedIsNotFound(reports: map<string, Store.ReportRow>, id: string, userId: string, other: string)
    requires Store.Owned(reports, Store.ReportOwner, id, userId) != None
    ensures GetReport(reports - {id}, id, userId) == Err(REPORT_NOT_FOUND)
    ensures other != id ==> GetReport(reports - {id}, other, userId) == GetReport(reports, other, userId)
  {
  }

  /** A report is invisible to every user but its owner. */
  lemma OthersSeeNotFound(reports: map<string, Store.ReportRow>, id: string, userId: string)
    requires id in reports && reports[id].userId != userId
    ensures GetReport(reports, id, userId) == Err(REPORT_NOT_FOUND)
    ensures OwnedIds(reports, userId) == OwnedIds(reports - {id}, userId)
  {
  }
}
