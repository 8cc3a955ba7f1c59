/**
  The orchestration of one generation run (`SyntheticDataPipeline`): load the
  uploaded CSV, have the sampler produce synthetic rows, compare the two
  frames, and write the synthetic CSV and its JSON metadata under one
  timestamp. The CSV reader, the sampler and the clock are inputs; the disk
  is an object holding the upload folder and the output directory.
 */
module Pipeline {
  import opened Wrappers
  import opened Text
  import opened Frames

  // ---------------------------------------------------------------------
  // Errors
  // ---------------------------------------------------------------------

  /** The Python exceptions a run can raise. */
  datatype PyError =
    | ValueError(msg: string)
    | KeyError(key: string)
    | TypeError(msg: string)
    | IndexError(msg: string)
    | FileNotFound(path: string)
    | IsADirectory(path: string)
    | External(msg: string)  // raised inside the CSV reader or the sampler

  /** `str(e)`: a KeyError shows the repr of its key, an OSError its number, its text and the repr of the path. */
  function Str(e: PyError): string
  {
    match e
    case ValueError(m) => m
    case KeyError(k) => PyRepr(k)
    case TypeError(m) => m
    case IndexError(m) => m
    case FileNotFound(p) => "[Errno 2] No such file or directory: " + PyRepr(p)
    case IsADirectory(p) => "[Errno 21] Is a directory: " + PyRepr(p)
    case External(m) => m
  }

  // ---------------------------------------------------------------------
  // Timestamps and artifact names
  // ---------------------------------------------------------------------

  /** A reading of `datetime.now()`, to the second. */
  datatype DateTime = DateTime(year: nat, month: nat, day: nat, hour: nat, minute: nat, second: nat)

  /** Field ranges of a clock reading; `%Y` is four digits for the years 1000 to 9999. */
  predicate ValidDateTime(t: DateTime)
  {
    && 1000 <= t.year <= 9999 && 1 <= t.month <= 12 && 1 <= t.day <= 31
    && t.hour < 24 && t.minute < 60 && t.second < 60
  }

  /** Chronological order of two readings: the first differing field decides. */
  predicate Before(a: DateTime, b: DateTime)
  {
    || a.year < b.year
    || (a.year == b.year && a.month < b.month)
    || (a.year == b.year && a.month == b.month && a.day < b.day)
    || (a.year == b.year && a.month == b.month && a.day == b.day && a.hour < b.hour)
    || (a.year == b.year && a.month == b.month && a.day == b.day && a.hour == b.hour
        && a.minute < b.minute)
    || (a.year == b.year && a.month == b.month && a.day == b.day && a.hour == b.hour
        && a.minute == b.minute && a.second < b.second)
  }

  /** `strftime("%Y%m%d_%H%M%S")`: eight digits, an underscore, six digits. */
  function Timestamp(t: DateTime): (ts: string)
    requires ValidDateTime(t)
    ensures |ts| == 15 && ts[8] == '_'
    ensures forall i :: 0 <= i < 15 && i != 8 ==> IsDigit(ts[i])
  {
    assert Pow10(2) == 100 && Pow10(4) == 10000;
    Pad(t.year, 4) + (Pad(t.month, 2) + (Pad(t.day, 2) + ("_" + (Pad(t.hour, 2) + (Pad(t.minute, 2) + Pad(t.second, 2))))))
  }

  const CsvPrefix: string := "synthetic_data_"

  /** `synthetic_data_<ts>.csv`. */
  function CsvName(t: DateTime): string
    requires ValidDateTime(t)
  {
    CsvPrefix + Timestamp(t) + ".csv"
  }

  /** `metadata_<ts>.json`. */
  function MetadataName(t: DateTime): string
    requires ValidDateTime(t)
  {
    "metadata_" + Timestamp(t) + ".json"
  }

  /** Comparing `x1 + y1` with `x2 + y2` when `x1` and `x2` have the same length. */
  lemma ConcatStep(x1: string, y1: string, x2: string, y2: string)
    requires |x1| == |x2|
    ensures LexLess(x1 + y1, x2 + y2) <==> LexLess(x1, x2) || (x1 == x2 && LexLess(y1, y2))
    ensures x1 + y1 == x2 + y2 <==> x1 == x2 && y1 == y2
  {
    LexLessConcat(x1, y1, x2, y2);
    if x1 + y1 == x2 + y2 {
      assert x1 == (x1 + y1)[..|x1|] && x2 == (x2 + y2)[..|x2|];
      assert y1 == (x1 + y1)[|x1|..] && y2 == (x2 + y2)[|x2|..];
    }
  }

  /**
    Because every field has a fixed width, timestamps compare as strings
    exactly as the readings compare in time, and two readings give the same
    timestamp only when they are the same second.
   */
  lemma TimestampOrder(a: DateTime, b: DateTime)
    requires ValidDateTime(a) && ValidDateTime(b)
    ensures LexLess(Timestamp(a), Timestamp(b)) <==> Before(a, b)
    ensures Timestamp(a) == Timestamp(b) <==> a == b
  {
    assert Pow10(2) == 100 && Pow10(4) == 10000;
    PadOrder(a.year, b.year, 4);
    PadOrder(a.month, b.month, 2);
    PadOrder(a.day, b.day, 2);
    PadOrder(a.hour, b.hour, 2);
    PadOrder(a.minute, b.minute, 2);
    PadOrder(a.second, b.second, 2);
    LexLessIrreflexive("_");
    var s1, s2 := Pad(a.minute, 2) + Pad(a.second, 2), Pad(b.minute, 2) + Pad(b.second, 2);
    ConcatStep(Pad(a.minute, 2), Pad(a.second, 2), Pad(b.minute, 2), Pad(b.second, 2));
    var h1, h2 := Pad(a.hour, 2) + s1, Pad(b.hour, 2) + s2;
    ConcatStep(Pad(a.hour, 2), s1, Pad(b.hour, 2), s2);
    var u1, u2 := "_" + h1, "_" + h2;
    ConcatStep("_", h1, "_", h2);
    var d1, d2 := Pad(a.day, 2) + u1, Pad(b.day, 2) + u2;
    ConcatStep(Pad(a.day, 2), u1, Pad(b.day, 2), u2);
    var m1, m2 := Pad(a.month, 2) + d1, Pad(b.month, 2) + d2;
    ConcatStep(Pad(a.month, 2), d1, Pad(b.month, 2), d2);
    ConcatStep(Pad(a.year, 4), m1, Pad(b.year, 4), m2);
  }

  /**
    The key fact behind picking the newest output by name: one run's CSV name
    sorts before another's exactly when it was written earlier, and two runs
    share a name only when they fall in the same second.
   */
  lemma CsvNameOrder(a: DateTime, b: DateTime)
    requires ValidDateTime(a) && ValidDateTime(b)
    ensures LexLess(CsvName(a), CsvName(b)) <==> Before(a, b)
    ensures CsvName(a) == CsvName(b) <==> a == b
  {
    var ta, tb := Timestamp(a), Timestamp(b);
    var pa, pb := CsvPrefix + ta, CsvPrefix + tb;
    assert (LexLess(pa, pb) <==> Before(a, b)) && (pa == pb <==> a == b) by {
      TimestampOrder(a, b);
      LexLessIrreflexive(CsvPrefix);
      ConcatStep(CsvPrefix, ta, CsvPrefix, tb);
    }
    assert (LexLess(pa + ".csv", pb + ".csv") <==> LexLess(pa, pb)) && (pa + ".csv" == pb + ".csv" <==> pa == pb) by {
      LexLessIrreflexive(".csv");
      ConcatStep(pa, ".csv", pb, ".csv");
    }
  }

  /**
    The two files of one run carry the same timestamp token; only the CSV
    starts with `synthetic_data_`, so it is the only one the handler's
    listing picks up.
   */
  lemma RunArtifactNames(t: DateTime)
    requires ValidDateTime(t)
    ensures CsvName(t)[15..30] == Timestamp(t) == MetadataName(t)[9..24]
    ensures StartsWith(CsvName(t), CsvPrefix) && !StartsWith(MetadataName(t), CsvPrefix)
    ensures CsvName(t) != MetadataName(t)
  {
    var c, m := CsvName(t), MetadataName(t);
    assert c[15..30] == Timestamp(t);
    assert m[9..24] == Timestamp(t);
    assert c[..|CsvPrefix|] == CsvPrefix;
    assert m[0] == 'm' && CsvPrefix[0] == 's';
  }

  // ---------------------------------------------------------------------
  // Metadata documents
  // ---------------------------------------------------------------------

  /** JSON values as `json.dump` writes them; `JFloatStat` stands for a floating-point statistic whose value is not modelled. */
  datatype Json =
    | JString(s: string)
    | JInt(i: int)
    | JBool(b: bool)
    | JList(items: seq<Json>)
    | JObject(fields: map<string, Json>)
    | JFloatStat

  /** The per-column entry of `basic_stats`. */
  datatype ColumnStats =
    | CategoricalStats(uniqueReal: nat, uniqueSynthetic: nat)
    | NumericStats  // `mean_diff` and `std_diff`, floating point, not modelled

  /** The report `validate_synthetic_data` returns. */
  datatype Metrics = Metrics(
    realShape: (nat, nat),
    syntheticShape: (nat, nat),
    columnMatch: bool,
    basicStats: map<string, ColumnStats>)

  function StatsJson(s: ColumnStats): Json
  {
    match s
    case CategoricalStats(r, y) =>
      JObject(map["unique_values_real" := JInt(r), "unique_values_synthetic" := JInt(y)])
    case NumericStats =>
      JObject(map["mean_diff" := JFloatStat, "std_diff" := JFloatStat])
  }

  function ShapeJson(s: (nat, nat)): Json
  {
    JList([JInt(s.0), JInt(s.1)])
  }

  /** The report as it is embedded in the metadata file (tuples become lists). */
  function MetricsJson(m: Metrics): Json
  {
    JObject(map[
      "real_shape" := ShapeJson(m.realShape),
      "synthetic_shape" := ShapeJson(m.syntheticShape),
      "column_match" := JBool(m.columnMatch),
      "basic_stats" := JObject(map c | c in m.basicStats :: StatsJson(m.basicStats[c]))])
  }

  function StringsJson(xs: seq<string>): Json
  {
    JList(seq(|xs|, i requires 0 <= i < |xs| => JString(xs[i])))
  }

  const BuiltinKeys: set<string> :=
    {"generation_timestamp", "original_file", "num_samples", "categorical_columns", "validation_metrics"}

  /**
    The metadata document: five computed entries, then the caller's map
    spread over them, so the caller's value wins on a clash and every
    computed entry the caller does not name is kept.
   */
  function MetadataDoc(ts: string, inputFile: string, synthetic: Frame, categorical: seq<string>,
                       metrics: Metrics, extra: map<string, Json>): (doc: map<string, Json>)
    ensures doc.Keys == BuiltinKeys + extra.Keys
    ensures forall k :: k in extra ==> doc[k] == extra[k]
    ensures "generation_timestamp" !in extra ==> doc["generation_timestamp"] == JString(ts)
    ensures "original_file" !in extra ==> doc["original_file"] == JString(inputFile)
    ensures "num_samples" !in extra ==> doc["num_samples"] == JInt(|synthetic.rows|)
    ensures "categorical_columns" !in extra ==> doc["categorical_columns"] == StringsJson(categorical)
    ensures "validation_metrics" !in extra ==> doc["validation_metrics"] == MetricsJson(metrics)
  {
    map[
      "generation_timestamp" := JString(ts),
      "original_file" := JString(inputFile),
      "num_samples" := JInt(|synthetic.rows|),
      "categorical_columns" := StringsJson(categorical),
      "validation_metrics" := MetricsJson(metrics)] + extra
  }

  // ---------------------------------------------------------------------
  // Validation
  // ---------------------------------------------------------------------

  /**
    `all(realData.columns == synthetic.columns)`: pandas compares the two column
    indexes position by position and raises ValueError when their lengths
    differ.
   */
  function ColumnMatch(realData: Frame, synthetic: Frame): (r: Result<bool, PyError>)
    ensures r.Success? <==> |realData.columns| == |synthetic.columns|
    ensures r.Success? ==> (r.value <==> realData.columns == synthetic.columns)
  {
    if |realData.columns| != |synthetic.columns| then Failure(ValueError("Lengths must match to compare"))
    else
      var all := forall i :: 0 <= i < |realData.columns| ==> realData.columns[i] == synthetic.columns[i];
      assert all ==> realData.columns == synthetic.columns;
      Success(all)
  }

  /** Position of the first real column the synthetic frame lacks, or the column count when there is none. */
  function FirstMissing(columns: seq<string>, present: seq<string>): (i: nat)
    ensures i <= |columns|
    ensures forall j :: 0 <= j < i ==> columns[j] in present
    ensures i < |columns| ==> columns[i] !in present
  {
    if |columns| == 0 || columns[0] !in present then 0
    else 1 + FirstMissing(columns[1..], present)
  }

  /** The `basic_stats` entry of a column present in both frames. */
  function Entry(categorical: seq<string>, realData: Frame, synthetic: Frame, col: string): ColumnStats
    requires col in realData.columns && col in synthetic.columns
  {
    if col in categorical then CategoricalStats(NUnique(Column(realData, col)), NUnique(Column(synthetic, col)))
    else NumericStats
  }

  /**
    What `validate_synthetic_data` returns or raises. It fails when the column
    lists differ in length (ValueError) or when some real column is missing
    from the synthetic frame (KeyError, the first such column in order).
    Otherwise `basic_stats` has exactly one entry per real column: a declared
    categorical column gets its two distinct-value counts, each at most its
    frame's row count; every other column takes the mean/std branch.
   */
  function Validation(categorical: seq<string>, realData: Frame, synthetic: Frame): (r: Result<Metrics, PyError>)
    ensures r.Success? <==>
      |realData.columns| == |synthetic.columns| && forall c :: c in realData.columns ==> c in synthetic.columns
    ensures |realData.columns| != |synthetic.columns| ==> r == Failure(ValueError("Lengths must match to compare"))
    ensures r.Failure? && |realData.columns| == |synthetic.columns| ==>
      r.error.KeyError? && r.error.key in realData.columns && r.error.key !in synthetic.columns
    ensures r.Success? ==>
      && r.value.realShape == Shape(realData) && r.value.syntheticShape == Shape(synthetic)
      && (r.value.columnMatch <==> realData.columns == synthetic.columns)
      && r.value.basicStats.Keys == set c | c in realData.columns
      && forall c :: c in r.value.basicStats ==>
           (r.value.basicStats[c].CategoricalStats? <==> c in categorical)
           && (r.value.basicStats[c].CategoricalStats? ==>
                 r.value.basicStats[c].uniqueReal <= |realData.rows|
                 && r.value.basicStats[c].uniqueSynthetic <= |synthetic.rows|)
  {
    match ColumnMatch(realData, synthetic)
    case Failure(e) => Failure(e)
    case Success(matches) =>
      var i := FirstMissing(realData.columns, synthetic.columns);
      if i < |realData.columns| then Failure(KeyError(realData.columns[i]))
      else
        assert forall c :: c in realData.columns ==> c in synthetic.columns by {
          forall c | c in realData.columns ensures c in synthetic.columns {
            assert realData.columns[IndexOf(realData.columns, c)] in synthetic.columns;
          }
        }
        Success(Metrics(Shape(realData), Shape(synthetic), matches,
          map c | c in realData.columns :: Entry(categorical, realData, synthetic, c)))
  }

  /** Adding a column's own entry keeps every entry of the report equal to `Entry`. */
  lemma StatsStep(categorical: seq<string>, realData: Frame, synthetic: Frame,
                  stats: map<string, ColumnStats>, col: string, entry: ColumnStats)
    requires forall c :: c in stats ==>
      c in realData.columns && c in synthetic.columns && stats[c] == Entry(categorical, realData, synthetic, c)
    requires col in realData.columns && col in synthetic.columns && entry == Entry(categorical, realData, synthetic, col)
    ensures forall c :: c in stats[col := entry] ==>
      c in realData.columns && c in synthetic.columns && stats[col := entry][c] == Entry(categorical, realData, synthetic, c)
  {
  }

  /** The names of the first `i` columns. */
  function ColumnsBefore(columns: seq<string>, i: nat): set<string>
    requires i <= |columns|
  {
    set j | 0 <= j < i :: columns[j]
  }

  /** The columns before position `i + 1` are those before `i` and the one at `i`. */
  lemma PrefixColumnsStep(columns: seq<string>, i: nat)
    requires i < |columns|
    ensures ColumnsBefore(columns, i + 1) == ColumnsBefore(columns, i) + {columns[i]}
  {
  }

  /** The loop of `validate_synthetic_data` stops at the first real column the synthetic frame lacks. */
  lemma ValidationMissing(categorical: seq<string>, realData: Frame, synthetic: Frame, i: nat)
    requires |realData.columns| == |synthetic.columns| && i < |realData.columns|
    requires forall j :: 0 <= j < i ==> realData.columns[j] in synthetic.columns
    requires realData.columns[i] !in synthetic.columns
    ensures Validation(categorical, realData, synthetic) == Failure(KeyError(realData.columns[i]))
  {
    var k := FirstMissing(realData.columns, synthetic.columns);
    assert k == i;
  }

  /** When the loop of `validate_synthetic_data` went through every column, its map is the report's. */
  lemma ValidationComplete(categorical: seq<string>, realData: Frame, synthetic: Frame,
                           stats: map<string, ColumnStats>)
    requires |realData.columns| == |synthetic.columns|
    requires forall j :: 0 <= j < |realData.columns| ==> realData.columns[j] in synthetic.columns
    requires stats.Keys == ColumnsBefore(realData.columns, |realData.columns|)
    requires forall c :: c in stats ==>
      c in realData.columns && c in synthetic.columns && stats[c] == Entry(categorical, realData, synthetic, c)
    ensures Validation(categorical, realData, synthetic)
      == Success(Metrics(Shape(realData), Shape(synthetic), ColumnMatch(realData, synthetic).value, stats))
  {
    assert FirstMissing(realData.columns, synthetic.columns) == |realData.columns|;
    forall c | c in realData.columns ensures c in stats {
      assert realData.columns[IndexOf(realData.columns, c)] == c;
    }
    var expected := map c | c in realData.columns :: Entry(categorical, realData, synthetic, c);
    assert stats == expected;
  }

  // ---------------------------------------------------------------------
  // Saving and the whole run
  // ---------------------------------------------------------------------

  /** A file in the output directory; the lines logged to `pipeline.log` are not modelled. */
  datatype Artifact = CsvFile(frame: Frame) | JsonFile(doc: map<string, Json>) | LogFile

  const LogName: string := "pipeline.log"

  /** `os.path.join(a, b)`: an absolute `b` replaces `a`; otherwise a `/` is put between them unless `a` is empty or ends with one. */
  function PathJoin(a: string, b: string): (p: string)
    ensures |b| <= |p| && p[|p| - |b|..] == b
  {
    if |b| > 0 && b[0] == '/' then b
    else if a == "" || a[|a| - 1] == '/' then a + b
    else a + "/" + b
  }

  /** The path the log handler opens: `os.path.abspath` of `<output_dir>/pipeline.log`, from the working directory `workDir`. */
  function LogPath(workDir: string, outputDir: string): string
  {
    PathJoin(workDir, PathJoin(outputDir, LogName))
  }

  /**
    `__init__` after storing its arguments, as written: `_setup_logging`
    opens `pipeline.log` in the output directory for appending, creating the
    file, and only then does `os.makedirs` create the directory. So when the
    directory is missing, opening the log raises FileNotFoundError and the
    directory is never created. The result is the error, whether the
    directory exists afterwards, and its files.
   */
  function Init(outputExists: bool, output: map<string, Artifact>, logPath: string)
    : (r: (Result<(), PyError>, bool, map<string, Artifact>))
    ensures r.0.Failure? <==> !outputExists
    ensures r.0.Failure? ==> r.0.error == FileNotFound(logPath) && !r.1 && r.2 == output
    ensures r.0.Success? ==> r.1 && r.2.Keys == output.Keys + {LogName}
    ensures forall k :: k in output ==> k in r.2 && r.2[k] == output[k]
  {
    if !outputExists then (Failure(FileNotFound(logPath)), false, output)
    else (Success(()), true, if LogName in output then output else output[LogName := LogFile])
  }

  /** `__init__` with `os.makedirs` moved before `_setup_logging`: the directory is created first, so opening the log cannot fail for want of it. */
  function InitFixed(outputExists: bool, output: map<string, Artifact>): (r: (bool, map<string, Artifact>))
    ensures r.0 && r.1.Keys == output.Keys + {LogName}
    ensures forall k :: k in output ==> r.1[k] == output[k]
  {
    (true, if LogName in output then output else output[LogName := LogFile])
  }

  /** Where the directory exists the two orders agree; where it is missing only the corrected one succeeds. */
  lemma InitFixedAgrees(outputExists: bool, output: map<string, Artifact>, logPath: string)
    ensures outputExists ==> Init(outputExists, output, logPath) == (Success(()), InitFixed(outputExists, output).0, InitFixed(outputExists, output).1)
    ensures !outputExists ==> Init(outputExists, output, logPath).0.Failure? && InitFixed(outputExists, output).0
  {
  }

  /** The `metadata` argument: a dict, or the raw form string the HTTP handler passes along. */
  datatype MetaArg = Mapping(entries: map<string, Json>) | StrArg(s: string)

  /** Python truthiness of the `metadata` argument (`None`, `{}` and `""` are false). */
  predicate Falsy(m: Option<MetaArg>)
  {
    m.None? || m.value == Mapping(map[]) || m.value == StrArg("")
  }

  /** `metadata or {}`: a false-valued argument becomes the empty map, anything else is kept as it is. */
  function StoredMetadata(m: Option<MetaArg>): (stored: MetaArg)
    ensures Falsy(m) ==> stored == Mapping(map[])
    ensures !Falsy(m) ==> stored == m.value
  {
    if Falsy(m) then Mapping(map[]) else m.value
  }

  /** The fields `__init__` stores. */
  datatype PipelineConfig = PipelineConfig(
    inputFile: string,
    categoricalColumns: seq<string>,
    outputDir: string,
    metadata: MetaArg)

  /** What lies outside this model: pandas' CSV reader, the trained sampler, and the process's working directory. */
  datatype Collaborators = Collaborators(
    readCsv: string -> Result<Frame, PyError>,
    sample: (Frame, seq<string>, nat, int) -> Result<Frame, PyError>,
    workDir: string)

  const DefaultNumSamples: int := 1000
  const DefaultEpochs: nat := 100

  /** `pd.read_csv(input_file)` against the upload folder. */
  function Load(path: string, uploads: map<string, string>, ext: Collaborators): Result<Frame, PyError>
  {
    if path in uploads then ext.readCsv(uploads[path]) else Failure(FileNotFound(path))
  }

  /**
    `save_outputs`: the CSV is written first; then the metadata document is
    built and written. When the metadata argument is a string, spreading it
    raises TypeError after the CSV already exists.
   */
  function Save(cfg: PipelineConfig, output: map<string, Artifact>, synthetic: Frame, metrics: Metrics,
                now: DateTime): (r: (Result<(), PyError>, map<string, Artifact>))
    requires ValidDateTime(now)
    ensures CsvName(now) in r.1 && r.1[CsvName(now)] == CsvFile(synthetic)
    ensures r.0.Success? <==> cfg.metadata.Mapping?
    ensures r.0.Failure? ==> r.1.Keys == output.Keys + {CsvName(now)}
    ensures r.0.Success? ==>
      && r.1.Keys == output.Keys + {CsvName(now), MetadataName(now)}
      && r.1[MetadataName(now)] == JsonFile(MetadataDoc(Timestamp(now), cfg.inputFile, synthetic,
                                            cfg.categoricalColumns, metrics, cfg.metadata.entries))
    ensures forall k :: k in output && k != CsvName(now) && k != MetadataName(now) ==> r.1[k] == output[k]
  {
    RunArtifactNames(now);
    var written := output[CsvName(now) := CsvFile(synthetic)];
    match cfg.metadata
    case StrArg(_) => (Failure(TypeError("'str' object is not a mapping")), written)
    case Mapping(extra) =>
      var doc := MetadataDoc(Timestamp(now), cfg.inputFile, synthetic, cfg.categoricalColumns, metrics, extra);
      (Success(()), written[MetadataName(now) := JsonFile(doc)])
  }

  datatype Step = LoadStep | GenerateStep | ValidateStep | SaveStep

  const AllSteps: seq<Step> := [LoadStep, GenerateStep, ValidateStep, SaveStep]

  /** The outcome of `run_pipeline`: what it raised, the output directory after it, and the steps it started. */
  datatype RunOutcome = RunOutcome(result: Result<(), PyError>, output: map<string, Artifact>, ran: seq<Step>)

  /**
    `run_pipeline`: load, generate, validate, save, in that order. The first
    step that raises ends the run with that error and no later step starts;
    before the save step nothing is written. A successful run leaves this
    run's CSV and metadata file in the output directory.
   */
  function Run(cfg: PipelineConfig, uploads: map<string, string>, output: map<string, Artifact>,
               numSamples: int, ext: Collaborators, now: DateTime): (o: RunOutcome)
    requires ValidDateTime(now)
    ensures 1 <= |o.ran| <= 4 && o.ran == AllSteps[..|o.ran|]
    ensures o.result.Success? ==> o.ran == AllSteps
    ensures |o.ran| < 4 ==> o.result.Failure? && o.output == output
    ensures |o.ran| == 4 ==> CsvName(now) in o.output && o.output[CsvName(now)].CsvFile?
    ensures o.result.Success? ==> CsvName(now) in o.output && MetadataName(now) in o.output
    ensures forall k :: k in output && k != CsvName(now) && k != MetadataName(now) ==> k in o.output && o.output[k] == output[k]
    ensures o.output.Keys <= output.Keys + {CsvName(now), MetadataName(now)}
    // each step's exception is re-raised as it is, and no later step starts
    ensures var loaded := Load(cfg.inputFile, uploads, ext);
      loaded.Failure? ==> o == RunOutcome(Failure(loaded.error), output, AllSteps[..1])
    ensures var loaded := Load(cfg.inputFile, uploads, ext);
      loaded.Success? ==>
        var sampled := ext.sample(loaded.value, cfg.categoricalColumns, DefaultEpochs, numSamples);
        sampled.Failure? ==> o == RunOutcome(Failure(sampled.error), output, AllSteps[..2])
    ensures var loaded := Load(cfg.inputFile, uploads, ext);
      loaded.Success? ==>
        var sampled := ext.sample(loaded.value, cfg.categoricalColumns, DefaultEpochs, numSamples);
        sampled.Success? ==>
          var checked := Validation(cfg.categoricalColumns, loaded.value, sampled.value);
          && (checked.Failure? ==> o == RunOutcome(Failure(checked.error), output, AllSteps[..3]))
          && (checked.Success? ==>
                o.ran == AllSteps && (o.result, o.output) == Save(cfg, output, sampled.value, checked.value, now))
  {
    match Load(cfg.inputFile, uploads, ext)
    case Failure(e) => RunOutcome(Failure(e), output, [LoadStep])
    case Success(realData) =>
      match ext.sample(realData, cfg.categoricalColumns, DefaultEpochs, numSamples)
      case Failure(e) => RunOutcome(Failure(e), output, [LoadStep, GenerateStep])
      case Success(synthetic) =>
        match Validation(cfg.categoricalColumns, realData, synthetic)
        case Failure(e) => RunOutcome(Failure(e), output, [LoadStep, GenerateStep, ValidateStep])
        case Success(metrics) =>
          var saved := Save(cfg, output, synthetic, metrics, now);
          RunOutcome(saved.0, saved.1, AllSteps)
  }

  // ---------------------------------------------------------------------
  // The disk and the pipeline object
  // ---------------------------------------------------------------------

  /**
    The two directories the backend touches: the upload folder (path to
    text), and the output directory (whether it exists, and name to file).
   */
  class Disk {
    var uploads: map<string, string>
    var outputExists: bool
    var output: map<string, Artifact>

    constructor (uploads: map<string, string>, outputExists: bool, output: map<string, Artifact>)
      ensures this.uploads == uploads && this.outputExists == outputExists && this.output == output
    {
      this.uploads := uploads;
      this.outputExists := outputExists;
      this.output := output;
    }
  }

  class SyntheticDataPipeline {
    const inputFile: string
    const categoricalColumns: seq<string>
    const outputDir: string
    const metadata: MetaArg

    /** The assignments of `__init__`: stores its arguments; a false-valued `metadata` becomes the empty map. */
    constructor (inputFile: string, categoricalColumns: seq<string>, outputDir: string := "output",
                 metadata: Option<MetaArg> := None)
      ensures this.inputFile == inputFile && this.categoricalColumns == categoricalColumns
      ensures this.outputDir == outputDir
      ensures this.metadata == StoredMetadata(metadata)
    {
      this.inputFile := inputFile;
      this.categoricalColumns := categoricalColumns;
      this.outputDir := outputDir;
      this.metadata := StoredMetadata(metadata);
    }

    function Config(): PipelineConfig
    {
      PipelineConfig(inputFile, categoricalColumns, outputDir, metadata)
    }

    /** `SyntheticDataPipeline(...)` as written: the assignments, the log file, then `os.makedirs`. */
    static method New(disk: Disk, workDir: string, inputFile: string, categoricalColumns: seq<string>,
                      outputDir: string := "output", metadata: Option<MetaArg> := None)
      returns (r: Result<SyntheticDataPipeline, PyError>)
      modifies disk
      ensures (if r.Success? then Success(()) else Failure(r.error), disk.outputExists, disk.output)
        == Init(old(disk.outputExists), old(disk.output), LogPath(workDir, outputDir))
      ensures r.Success? ==>
        fresh(r.value) && r.value.Config() == PipelineConfig(inputFile, categoricalColumns, outputDir, StoredMetadata(metadata))
      ensures disk.uploads == old(disk.uploads)
    {
      var pipeline := new SyntheticDataPipeline(inputFile, categoricalColumns, outputDir, metadata);
      if !disk.outputExists {
        return Failure(FileNotFound(LogPath(workDir, outputDir)));
      }
      if LogName !in disk.output {
        disk.output := disk.output[LogName := LogFile];
      }
      r := Success(pipeline);
    }

    /** The same construction with `os.makedirs` run before the log file is opened. */
    static method NewFixed(disk: Disk, inputFile: string, categoricalColumns: seq<string>,
                           outputDir: string := "output", metadata: Option<MetaArg> := None)
      returns (p: SyntheticDataPipeline)
      modifies disk
      ensures (disk.outputExists, disk.output) == InitFixed(old(disk.outputExists), old(disk.output))
      ensures fresh(p) && p.Config() == PipelineConfig(inputFile, categoricalColumns, outputDir, StoredMetadata(metadata))
      ensures disk.uploads == old(disk.uploads)
    {
      p := new SyntheticDataPipeline(inputFile, categoricalColumns, outputDir, metadata);
      disk.outputExists := true;
      if LogName !in disk.output {
        disk.output := disk.output[LogName := LogFile];
      }
    }

    method LoadData(disk: Disk, ext: Collaborators) returns (r: Result<Frame, PyError>)
      ensures r == Load(inputFile, disk.uploads, ext)
    {
      if inputFile in disk.uploads {
        r := ext.readCsv(disk.uploads[inputFile]);
      } else {
        r := Failure(FileNotFound(inputFile));
      }
    }

    /** Fits the sampler on `data` with the declared categorical columns as discrete columns, then samples. */
    method GenerateSyntheticData(data: Frame, ext: Collaborators, numSamples: int := DefaultNumSamples,
                                 epochs: nat := DefaultEpochs) returns (r: Result<Frame, PyError>)
      ensures r == ext.sample(data, categoricalColumns, epochs, numSamples)
    {
      r := ext.sample(data, categoricalColumns, epochs, numSamples);
    }

    /** `validate_synthetic_data`: the report is filled in column by column. */
    method ValidateSyntheticData(realData: Frame, synthetic: Frame) returns (r: Result<Metrics, PyError>)
      ensures r == Validation(categoricalColumns, realData, synthetic)
    {
      var categorical := categoricalColumns;
      var columnMatch := ColumnMatch(realData, synthetic);
      if columnMatch.Failure? {
        return Failure(columnMatch.error);
      }
      var stats: map<string, ColumnStats> := map[];
      var i := 0;
      while i < |realData.columns|
        invariant 0 <= i <= |realData.columns| == |synthetic.columns|
        invariant forall j :: 0 <= j < i ==> realData.columns[j] in synthetic.columns
        invariant stats.Keys == ColumnsBefore(realData.columns, i)
        invariant forall c :: c in stats ==>
          c in realData.columns && c in synthetic.columns && stats[c] == Entry(categorical, realData, synthetic, c)
      {
        var col := realData.columns[i];
        if col !in synthetic.columns {
          ValidationMissing(categorical, realData, synthetic, i);
          return Failure(KeyError(col));
        }
        var entry;
        if col in categorical {
          entry := CategoricalStats(NUnique(Column(realData, col)), NUnique(Column(synthetic, col)));
        } else {
          entry := NumericStats;
        }
        StatsStep(categorical, realData, synthetic, stats, col, entry);
        PrefixColumnsStep(realData.columns, i);
        stats := stats[col := entry];
        i := i + 1;
      }
      ValidationComplete(categorical, realData, synthetic, stats);
      r := Success(Metrics(Shape(realData), Shape(synthetic), columnMatch.value, stats));
    }

    method SaveOutputs(disk: Disk, synthetic: Frame, metrics: Metrics, now: DateTime)
      returns (r: Result<(), PyError>)
      requires ValidDateTime(now)
      modifies disk
      ensures (r, disk.output) == Save(Config(), old(disk.output), synthetic, metrics, now)
      ensures disk.uploads == old(disk.uploads)
      ensures disk.outputExists == old(disk.outputExists)
    {
      var ts := Timestamp(now);
      var outputFile := CsvPrefix + ts + ".csv";
      disk.output := disk.output[outputFile := CsvFile(synthetic)];
      match metadata
      case StrArg(_) =>
        r := Failure(TypeError("'str' object is not a mapping"));
      case Mapping(extra) =>
        var doc := MetadataDoc(ts, inputFile, synthetic, categoricalColumns, metrics, extra);
        var metadataFile := "metadata_" + ts + ".json";
        disk.output := disk.output[metadataFile := JsonFile(doc)];
        r := Success(());
    }

    /** `run_pipeline`: the four steps in order, re-raising the first error. */
    method RunPipeline(disk: Disk, ext: Collaborators, now: DateTime, numSamples: int := DefaultNumSamples)
      returns (r: Result<(), PyError>, ran: seq<Step>)
      requires ValidDateTime(now)
      modifies disk
      ensures RunOutcome(r, disk.output, ran) == Run(Config(), old(disk.uploads), old(disk.output), numSamples, ext, now)
      ensures disk.uploads == old(disk.uploads)
      ensures disk.outputExists == old(disk.outputExists)
    {
      ran := [LoadStep];
      var realData := LoadData(disk, ext);
      if realData.Failure? {
        return Failure(realData.error), ran;
      }
      ran := ran + [GenerateStep];
      var synthetic := GenerateSyntheticData(realData.value, ext, numSamples);
      if synthetic.Failure? {
        return Failure(synthetic.error), ran;
      }
      ran := ran + [ValidateStep];
      var metrics := ValidateSyntheticData(realData.value, synthetic.value);
      if metrics.Failure? {
        return Failure(metrics.error), ran;
      }
      ran := ran + [SaveStep];
      r := SaveOutputs(disk, synthetic.value, metrics.value, now);
    }
  }
}
