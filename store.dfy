/**
 * The two tables the routers touch, held in memory: uploads and reports,
 * each keyed by its id and carrying the id of the user who owns it. Rows
 * follow the ORM's columns; nullable columns are `Option`s.
 */
module Store {
  import opened Common
  import ReportBuilder
  import ClaudeService

  /** The stored report JSON: the builder's report around the service's analysis. */
  type Report = ReportBuilder.FullReport<ClaudeService.AiAnalysis>

  datatype UploadRow = UploadRow(
    userId: string,
    filename: string,
    storagePath: string,
    rowCount: nat,
    createdAt: int)

  datatype ReportRow = ReportRow(
    userId: string,
    modelName: Option<string>,
    modelVersion: Option<string>,
    orgName: Option<string>,
    useCase: Option<string>,
    deployEnv: Option<string>,
    framework: Option<string>,
    biasScore: Option<real>,
    hallucinationScore: Option<real>,
    toxicityScore: Option<real>,
    robustnessScore: Option<real>,
    explainabilityScore: Option<real>,
    dataLeakageScore: Option<real>,
    driftScore: Option<real>,
    overallRisk: Option<string>,
    readinessPct: Option<int>,
    fullReport: Option<Report>,
    pdfPath: Option<string>,
    createdAt: int)

  function UploadOwner(u: UploadRow): string
  {
    u.userId
  }

  function ReportOwner(r: ReportRow): string
  {
    r.userId
  }

  /**
   * `select(Table).where(Table.id == id, Table.user_id == user)`: a row only
   * when it exists and `owner` says it is the user's.
   */
  function Owned<R>(rows: map<string, R>, owner: R -> string, id: string, userId: string): (r: Option<R>)
    ensures r.Some? <==> id in rows && owner(rows[id]) == userId
    ensures r.Some? ==> r.value == rows[id]
  {
    if id in rows && owner(rows[id]) == userId then Some(rows[id]) else None
  }

  /** A session on the database: `db.add`, `db.delete` and `commit` change these maps. */
  class Database {
    var uploads: map<string, UploadRow>
    var reports: map<string, ReportRow>

    constructor ()
      ensures uploads == map[] && reports == map[]
    {
      uploads := map[];
      reports := map[];
    }

    /** `db.add(upload_record)` and commit, under a fresh id. */
    method AddUpload(id: string, row: UploadRow)
      requires id !in uploads
      modifies this
      ensures uploads == old(uploads)[id := row]
      ensures reports == old(reports)
    {
      uploads := uploads[id := row];
    }

    /** `db.add(report)` and commit, under a fresh id. */
    method AddReport(id: string, row: ReportRow)
      requires id !in reports
      modifies this
      ensures reports == old(reports)[id := row]
      ensures uploads == old(uploads)
    {
      reports := reports[id := row];
    }

    /** `db.delete(report)` and commit. */
    method RemoveReport(id: string)
      requires id in reports
      modifies this
      ensures reports == old(reports) - {id}
      ensures uploads == old(uploads)
    {
      reports := reports - {id};
    }
  }

  /** Removing a present key drops exactly that one record and keeps every other one as it was. */
  lemma {:induction false} RemoveExactlyOne(m: map<string, ReportRow>, id: string)
    requires id in m
    ensures |(m - {id}).Keys| == |m.Keys| - 1
    ensures forall k :: k in m && k != id ==> k in m - {id} && (m - {id})[k] == m[k]
    ensures id !in m - {id}
  {
    assert (m - {id}).Keys == m.Keys - {id};
  }
}
