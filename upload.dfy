/**
 * The upload endpoint: the file-extension check, parsing a CSV or a JSON
 * document into a table (a JSON list gives one row per element, any other
 * value one row), rejection of an empty table, scoring, and the upload
 * record and response. The CSV reader, `json.loads` and the DataFrame
 * constructor are opaque parsers passed in; storing the file is reduced to
 * the path it returns.
 */
module UploadRouter {
  import opened Common
  import Scoring
  import Store

  type Bytes = seq<bv8>

  /** The text after the last '.', or the whole text when it has no '.'. */
  function AfterLastDot(s: string): (r: string)
    ensures |r| <= |s| && r == s[|s| - |r|..]
    ensures '.' !in r
    ensures |r| < |s| ==> s[|s| - |r| - 1] == '.'
  {
    if s == [] then []
    else if s[|s| - 1] == '.' then []
    else
      var init := s[..|s| - 1];
      var r := AfterLastDot(init);
      assert r == init[|init| - |r|..];
      assert init[|init| - |r|..] + [s[|s| - 1]] == s[|s| - |r| - 1..];
      assert |r| < |init| ==> s[|s| - |r| - 2] == init[|init| - |r| - 1] == '.';
      r + [s[|s| - 1]]
  }

  /**
   * `filename.lower().split(".")[-1]`: a dot-free end of the lower-cased
   * name, preceded by a dot unless it is the whole name.
   */
  function Extension(filename: string): (ext: string)
    ensures '.' !in ext
    ensures |ext| <= |filename| && ext == Lower(filename)[|filename| - |ext|..]
    ensures |ext| < |filename| ==> Lower(filename)[|filename| - |ext| - 1] == '.'
  {
    AfterLastDot(Lower(filename))
  }

  /** A name without a '.' is its own extension part. */
  lemma {:induction false} NoDotIsWhole(t: string)
    requires '.' !in t
    ensures AfterLastDot(t) == t
  {
    if t != [] {
      NoDotIsWhole(t[..|t| - 1]);
      assert t[..|t| - 1] + [t[|t| - 1]] == t;
    }
  }

  /** Everything before the last '.' is ignored. */
  lemma {:induction false} AfterTheLastDot(p: string, t: string)
    requires '.' !in t
    ensures AfterLastDot(p + "." + t) == t
  {
    var s := p + "." + t;
    if t == [] {
      assert s[|s| - 1] == '.';
    } else {
      var t' := t[..|t| - 1];
      assert s[..|s| - 1] == p + "." + t';
      AfterTheLastDot(p, t');
      assert t' + [t[|t| - 1]] == t;
    }
  }

  /**
   * The extension of `name.ext` is `ext` lowered, whatever `name` holds, and
   * a name without a dot is an extension by itself.
   */
  lemma ExtensionIsLastPart(p: string, t: string)
    requires '.' !in t
    ensures Extension(p + "." + t) == Lower(t)
    ensures Extension(t) == Lower(t)
  {
    assert Lower(p + "." + t) == Lower(p) + "." + Lower(t);
    assert '.' !in Lower(t) by {
      forall i | 0 <= i < |t| ensures Lower(t)[i] != '.' {
        assert t[i] != '.';
      }
    }
    AfterTheLastDot(Lower(p), Lower(t));
    NoDotIsWhole(Lower(t));
  }

  predicate Supported(ext: string)
  {
    ext == "csv" || ext == "json"
  }

  /** What `json.loads` produces, as far as the upload cares: a list or some other value. */
  datatype Json = JList(items: seq<Json>) | JObject(fields: seq<(string, Json)>) | JScalar(text: string)

  /** `data if isinstance(data, list) else [data]`. */
  function Records(data: Json): (rows: seq<Json>)
    ensures data.JList? ==> rows == data.items
    ensures !data.JList? ==> |rows| == 1 && rows[0] == data
  {
    if data.JList? then data.items else [data]
  }

  datatype Parsed<T> = Parsed(value: T) | ParseError(msg: string)

  /** `pd.read_csv`, `json.loads` and `pd.DataFrame`; an exception is a `ParseError` with its text. */
  datatype Parsers = Parsers(
    readCsv: Bytes -> Parsed<Scoring.Frame>,
    jsonLoads: Bytes -> Parsed<Json>,
    dataFrame: seq<Json> -> Parsed<Scoring.Frame>)

  /**
   * The `try` block that turns the bytes into a table: the CSV reader for
   * "csv", otherwise `json.loads` and then the DataFrame constructor over
   * the records; the first exception is the result.
   */
  function ParseTable(parsers: Parsers, ext: string, content: Bytes): (r: Parsed<Scoring.Frame>)
    ensures ext == "csv" ==> r == parsers.readCsv(content)
    ensures ext != "csv" && parsers.jsonLoads(content).ParseError? ==> r == ParseError(parsers.jsonLoads(content).msg)
    ensures ext != "csv" && parsers.jsonLoads(content).Parsed? ==> r == parsers.dataFrame(Records(parsers.jsonLoads(content).value))
  {
    if ext == "csv" then parsers.readCsv(content)
    else
      match parsers.jsonLoads(content)
      case ParseError(msg) => ParseError(msg)
      case Parsed(data) => parsers.dataFrame(Records(data))
  }

  /** `df.empty`: no rows or no columns. */
  predicate Empty(df: Scoring.Frame)
    ensures Empty(df) <==> df.height == 0 || Scoring.Names(df) == []
  {
    df.height == 0 || |df.columns| == 0
  }

  const UNSUPPORTED: HttpError := HttpError(400, "Only CSV and JSON files are supported")
  const NO_ROWS: HttpError := HttpError(422, "File contains no data rows")

  /** What the server answers when the handler raises an exception nothing catches. */
  const INTERNAL_ERROR: HttpError := HttpError(500, "Internal Server Error")

  /**
   * Everything `upload_file` decides before it stores anything: the
   * extension check, the parse and the emptiness check.
   */
  function AcceptedTable(parsers: Parsers, filename: string, content: Bytes): (r: Result<Scoring.Frame>)
    ensures !Supported(Extension(filename)) ==> r == Err(UNSUPPORTED)
    ensures r.Ok? ==> Supported(Extension(filename)) && r.value.height > 0 && |r.value.columns| > 0
    ensures Supported(Extension(filename)) && ParseTable(parsers, Extension(filename), content).ParseError? ==>
              r == Err(HttpError(422, "Failed to parse file: " + ParseTable(parsers, Extension(filename), content).msg))
    ensures Supported(Extension(filename)) && ParseTable(parsers, Extension(filename), content).Parsed? ==>
              var df := ParseTable(parsers, Extension(filename), content).value;
              r == if Empty(df) then Err(NO_ROWS) else Ok(df)
  {
    var ext := Extension(filename);
    if !Supported(ext) then Err(UNSUPPORTED)
    else
      match ParseTable(parsers, ext, content)
      case ParseError(msg) => Err(HttpError(422, "Failed to parse file: " + msg))
      case Parsed(df) => if Empty(df) then Err(NO_ROWS) else Ok(df)
  }

  /** An unsupported extension is rejected before the content is looked at. */
  lemma RejectedBeforeReading(parsers: Parsers, filename: string, a: Bytes, b: Bytes)
    requires !Supported(Extension(filename))
    ensures AcceptedTable(parsers, filename, a) == AcceptedTable(parsers, filename, b) == Err(UNSUPPORTED)
  {
  }

  /** A JSON document that is not a list is scored as a table built from a single record. */
  lemma JsonObjectIsOneRecord(parsers: Parsers, filename: string, content: Bytes)
    requires Extension(filename) == "json"
    requires parsers.jsonLoads(content).Parsed? && !parsers.jsonLoads(content).value.JList?
    ensures ParseTable(parsers, Extension(filename), content)
            == parsers.dataFrame([parsers.jsonLoads(content).value])
  {
  }

  datatype UploadResponse = UploadResponse(
    uploadId: string,
    filename: string,
    rowCount: nat,
    columns: seq<string>,
    scores: ScoreMap,
    message: string)

  const SUCCESS_PREFIX: string := "Successfully processed "
  const SUCCESS_SUFFIX: string := " rows. Scores computed from real data."

  /** The upload's message: the row count in decimal between a fixed prefix and suffix. */
  function SuccessMessage(rows: nat): (msg: string)
    ensures exists digits :: msg == SUCCESS_PREFIX + digits + SUCCESS_SUFFIX && IsDigits(digits) && DigitsValue(digits) == rows
  {
    SUCCESS_PREFIX + NatToString(rows) + SUCCESS_SUFFIX
  }

  /**
   * `upload_file`. `name` is `file.filename` (None when the client sent
   * none), `storagePath` what `save_upload` returns, `newId` and `now` the
   * record's generated id and creation time. Scoring runs outside the
   * parser's `try`, so an exception it raises becomes a plain 500 and
   * nothing is stored.
   */
  method UploadFile(db: Store.Database, userId: string, name: Option<string>, content: Bytes,
                    parsers: Parsers, lib: Scoring.Library, storagePath: string, newId: string, now: int)
    returns (r: Result<UploadResponse>)
    requires newId !in db.uploads
    modifies db
    ensures db.reports == old(db.reports)
    ensures var filename := if name.Some? then name.value else "";
            var table := AcceptedTable(parsers, filename, content);
            && (table.Err? ==> r == Err(table.error) && db.uploads == old(db.uploads))
            && (table.Ok? && Scoring.AllScoresOf(lib, table.value).Raised? ==>
                  r == Err(INTERNAL_ERROR) && db.uploads == old(db.uploads))
            && (table.Ok? && Scoring.AllScoresOf(lib, table.value).Done? ==>
                  && db.uploads == old(db.uploads)[newId := Store.UploadRow(userId, filename, storagePath, table.value.height, now)]
                  && r == Ok(UploadResponse(newId, filename, table.value.height, Scoring.Names(table.value),
                                            Scoring.AllScoresOf(lib, table.value).value, SuccessMessage(table.value.height))))
  {
    var filename := if name.Some? then name.value else "";
    var ext := Extension(filename);
    if !Supported(ext) {
      return Err(UNSUPPORTED);
    }
    var parsed := ParseTable(parsers, ext, content);
    if parsed.ParseError? {
      return Err(HttpError(422, "Failed to parse file: " + parsed.msg));
    }
    var df := parsed.value;
    if Empty(df) {
      return Err(NO_ROWS);
    }
    var scores := Scoring.ComputeAllScores(lib, df);
    if scores.Raised? {
      return Err(INTERNAL_ERROR);
    }
    db.AddUpload(newId, Store.UploadRow(userId, filename, storagePath, df.height, now));
    r := Ok(UploadResponse(newId, filename, df.height, Scoring.Names(df), scores.value, SuccessMessage(df.height)));
  }
}
