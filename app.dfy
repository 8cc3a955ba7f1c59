/**
  The Flask application: `GET /health` and `POST /generate`. The handler
  saves the uploaded file in the upload folder, reads its options from the
  form, runs the pipeline, and answers with the newest `synthetic_data_*`
  file of the output directory; any exception becomes a 500 answer holding
  the exception's text.
 */
module App {
  import opened Wrappers
  import opened Text
  import opened Pipeline

  /** An uploaded file: the name the client gave it and its text. */
  datatype Upload = Upload(filename: string, content: string)

  /** The parts of a multipart request the handler reads. */
  datatype Request = Request(files: map<string, Upload>, form: map<string, string>)

  datatype Response =
    | JsonResponse(body: map<string, string>, status: nat)
      /** `send_file(output_dir/outputName, as_attachment=True, download_name=downloadName)`, status 200. */
    | FileResponse(outputName: string, downloadName: string)

  const UploadFolder := "temp_uploads"
  const DownloadName := "synthetic_data.csv"

  /** The body of `GET /health`: the one key `status`, saying "healthy". */
  function HealthCheck(): (body: map<string, string>)
    ensures body.Keys == {"status"} && body["status"] == "healthy"
  {
    map["status" := "healthy"]
  }

  function ErrorResponse(message: string, status: nat): (r: Response)
    ensures r.JsonResponse? && r.body.Keys == {"error"} && r.status == status
  {
    JsonResponse(map["error" := message], status)
  }

  /** `os.path.join(UPLOAD_FOLDER, filename)`. */
  function UploadPath(filename: string): string
  {
    UploadFolder + "/" + filename
  }

  function Get(form: map<string, string>, key: string, default: string): string
  {
    if key in form then form[key] else default
  }

  /**
    `config.get('categorical_columns', '').split(',')`: never empty; a missing
    field gives the single empty name, and joining the names with commas
    gives back the field.
   */
  function CategoricalColumns(form: map<string, string>): (columns: seq<string>)
    ensures |columns| >= 1
    ensures forall i :: 0 <= i < |columns| ==> ',' !in columns[i]
    ensures Join(columns, ',') == Get(form, "categorical_columns", "")
    ensures "categorical_columns" !in form ==> columns == [""]
  {
    JoinSplit(Get(form, "categorical_columns", ""), ',');
    Split(Get(form, "categorical_columns", ""), ',')
  }

  /**
    `int(config.get('num_samples', 1000))`: 1000 when the field is absent;
    otherwise `int()` of the text, with no check that it is positive, and a
    ValueError carrying `int()`'s message when it refuses the text.
   */
  function NumSamples(form: map<string, string>): (r: Result<int, PyError>)
    ensures "num_samples" !in form ==> r == Success(DefaultNumSamples)
    ensures "num_samples" in form ==>
      match ParseInt(form["num_samples"])
      case Success(n) => r == Success(n)
      case Failure(e) => r == Failure(ValueError(IntErrorMessage(form["num_samples"], e)))
  {
    if "num_samples" !in form then Success(DefaultNumSamples)
    else
      var s := form["num_samples"];
      match ParseInt(s)
      case Success(n) => Success(n)
      case Failure(e) => Failure(ValueError(IntErrorMessage(s, e)))
  }

  /** `config.get('metadata', {})`: the raw form string when present, the empty dict when absent. */
  function MetadataArg(form: map<string, string>): MetaArg
  {
    if "metadata" in form then StrArg(form["metadata"]) else Mapping(map[])
  }

  /**
    The decimal form of an integer in the `num_samples` field reaches the
    pipeline as that integer when it has at most 4300 digits; a longer one is
    refused with the digit-limit message.
   */
  lemma NumSamplesRoundTrip(form: map<string, string>, n: int)
    requires "num_samples" in form && form["num_samples"] == IntToString(n)
    ensures |Decimal(Abs(n))| <= MaxStrDigits ==> NumSamples(form) == Success(n)
    ensures |Decimal(Abs(n))| > MaxStrDigits ==>
      NumSamples(form) == Failure(ValueError(IntErrorMessage(IntToString(n), ExceedsLimit(|Decimal(Abs(n))|))))
  {
    ParseIntRoundTrip(n);
  }

  /** A field holding a decimal point is refused by `int()`, so a fractional count ends in a ValueError. */
  lemma FractionalSamplesRejected(form: map<string, string>, k: nat)
    requires "num_samples" in form && k < |form["num_samples"]| && form["num_samples"][k] == '.'
    ensures NumSamples(form).Failure?
  {
    if ParseInt(form["num_samples"]).Success? {
      ParseIntCharset(form["num_samples"], k);
    }
  }

  /** A metadata field is only harmless to the pipeline when it is empty: any other string is kept as a string. */
  lemma MetadataFieldStored(form: map<string, string>)
    ensures "metadata" !in form || form["metadata"] == "" ==> StoredMetadata(Some(MetadataArg(form))) == Mapping(map[])
    ensures "metadata" in form && form["metadata"] != "" ==> StoredMetadata(Some(MetadataArg(form))) == StrArg(form["metadata"])
  {
  }

  // ---------------------------------------------------------------------
  // The newest output file
  // ---------------------------------------------------------------------

  /** `m` is the greatest name with the `synthetic_data_` prefix among `names`. */
  ghost predicate IsLatest(m: string, names: set<string>)
  {
    && m in names && StartsWith(m, CsvPrefix)
    && forall f :: f in names && StartsWith(f, CsvPrefix) ==> f == m || LexLess(f, m)
  }

  /** An upper bound of the prefixed names stays one when replaced by a greater or equal string. */
  lemma RaiseBound(names: set<string>, m: string, m2: string)
    requires forall f :: f in names && StartsWith(f, CsvPrefix) ==> f == m || LexLess(f, m)
    requires m == m2 || LexLess(m, m2)
    ensures forall f :: f in names && StartsWith(f, CsvPrefix) ==> f == m2 || LexLess(f, m2)
  {
    forall f | f in names && StartsWith(f, CsvPrefix) ensures f == m2 || LexLess(f, m2) {
      if f != m && m != m2 {
        LexLessTransitive(f, m, m2);
      }
    }
  }

  /**
    `sorted(f for f in files if f.startswith("synthetic_data_"))[-1]`: the
    greatest prefixed name, or `None` where indexing the empty list raises
    IndexError.
   */
  function LatestFile(files: seq<string>): (r: Option<string>)
    ensures r.None? <==> forall i :: 0 <= i < |files| ==> !StartsWith(files[i], CsvPrefix)
    ensures r.Some? ==> IsLatest(r.value, set f | f in files)
  {
    if |files| == 0 then None
    else
      var rest := LatestFile(files[1..]);
      assert (set f | f in files) == {files[0]} + (set f | f in files[1..]) by {
        forall f | f in files ensures f == files[0] || f in files[1..] {
          var i :| 0 <= i < |files| && files[i] == f;
          if i > 0 {
            assert files[1..][i - 1] == f;
          }
        }
      }
      assert forall i :: 1 <= i < |files| ==> files[i] == files[1..][i - 1];
      if !StartsWith(files[0], CsvPrefix) then rest
      else if rest.None? then Some(files[0])
      else
        LexLessTotal(files[0], rest.value);
        if LexLess(files[0], rest.value) then rest
        else
          RaiseBound((set f | f in files[1..]), rest.value, files[0]);
          Some(files[0])
  }

  /** There is at most one greatest name. */
  lemma LatestUnique(m1: string, m2: string, names: set<string>)
    requires IsLatest(m1, names) && IsLatest(m2, names)
    ensures m1 == m2
  {
    LexLessTotal(m1, m2);
  }

  /** A set of names with some prefixed name has a greatest prefixed name. */
  lemma LatestExists(names: set<string>)
    requires exists f :: f in names && StartsWith(f, CsvPrefix)
    ensures exists m :: IsLatest(m, names)
    decreases names
  {
    var f :| f in names && StartsWith(f, CsvPrefix);
    var rest := names - {f};
    if exists g :: g in rest && StartsWith(g, CsvPrefix) {
      LatestExists(rest);
      var m :| IsLatest(m, rest);
      LexLessTotal(f, m);
      if LexLess(f, m) {
        assert IsLatest(m, names);
      } else {
        RaiseBound(rest, m, f);
        assert IsLatest(f, names);
      }
    } else {
      assert IsLatest(f, names);
    }
  }

  /** The newest file of a directory, independent of the order the directory is listed in. */
  ghost function LatestIn(names: set<string>): (r: Option<string>)
    ensures r.None? <==> forall f :: f in names ==> !StartsWith(f, CsvPrefix)
    ensures r.Some? ==> IsLatest(r.value, names)
  {
    if exists f :: f in names && StartsWith(f, CsvPrefix) then
      LatestExists(names);
      Some(var m :| IsLatest(m, names); m)
    else None
  }

  /** Any listing of a directory yields the same newest file. */
  lemma LatestFileOfListing(files: seq<string>, names: set<string>)
    requires (set f | f in files) == names
    ensures LatestFile(files) == LatestIn(names)
  {
    var a, b := LatestFile(files), LatestIn(names);
    if b.Some? {
      var i :| 0 <= i < |files| && files[i] == b.value;
      assert StartsWith(files[i], CsvPrefix);
      LatestUnique(a.value, b.value, names);
    } else {
      assert forall i :: 0 <= i < |files| ==> files[i] in names;
    }
  }

  /**
    In a directory whose prefixed names are all CSV names of runs no later
    than `now`, the newest file is the CSV of the run at `now`, provided it is
    there.
   */
  lemma LatestIsRunAt(names: set<string>, now: DateTime)
    requires ValidDateTime(now) && CsvName(now) in names
    requires forall f :: f in names && StartsWith(f, CsvPrefix) ==>
      exists t :: ValidDateTime(t) && f == CsvName(t) && (t == now || Before(t, now))
    ensures LatestIn(names) == Some(CsvName(now))
  {
    RunArtifactNames(now);
    forall f | f in names && StartsWith(f, CsvPrefix) ensures f == CsvName(now) || LexLess(f, CsvName(now)) {
      var t :| ValidDateTime(t) && f == CsvName(t) && (t == now || Before(t, now));
      CsvNameOrder(t, now);
    }
    assert IsLatest(CsvName(now), names);
    LatestUnique(LatestIn(names).value, CsvName(now), names);
  }

  /** `os.listdir(output_dir)`, in some order. */
  method ListDir(disk: Disk) returns (names: seq<string>)
    ensures (set f | f in names) == disk.output.Keys
  {
    names := [];
    var left := disk.output.Keys;
    while left != {}
      invariant left <= disk.output.Keys
      invariant (set f | f in names) == disk.output.Keys - left
      decreases left
    {
      var f :| f in left;
      assert (set g | g in names + [f]) == (set g | g in names) + {f};
      names := names + [f];
      left := left - {f};
    }
  }

  // ---------------------------------------------------------------------
  // POST /generate
  // ---------------------------------------------------------------------

  /** The answer, and the upload folder and output directory after the request. */
  datatype Served = Served(response: Response, uploads: map<string, string>, output: map<string, Artifact>)

  /** The pipeline the handler builds for an upload saved at `path`. */
  function HandlerConfig(form: map<string, string>, path: string): PipelineConfig
  {
    PipelineConfig(path, CategoricalColumns(form), "output", StoredMetadata(Some(MetadataArg(form))))
  }

  /**
    The end of the `try` block: list the output directory, take the greatest
    prefixed name, remove the upload at `path` and send that file. With no
    prefixed name, `sorted(files)[-1]` raises IndexError and the upload stays.
   */
  ghost function ServeLatest(saved: map<string, string>, path: string, output: map<string, Artifact>): (s: Served)
    ensures s.output == output
    ensures s.response.FileResponse? <==> exists f :: f in output && StartsWith(f, CsvPrefix)
    ensures s.response.FileResponse? ==>
      s.response.downloadName == DownloadName && IsLatest(s.response.outputName, output.Keys) && s.uploads == saved - {path}
    ensures s.response.JsonResponse? ==>
      s.response == ErrorResponse("list index out of range", 500) && s.uploads == saved
  {
    match LatestIn(output.Keys)
    case None => Served(ErrorResponse(Str(IndexError("list index out of range")), 500), saved, output)
    case Some(f) => Served(FileResponse(f, DownloadName), saved - {path}, output)
  }

  /**
    The `try` block of `generate_synthetic_data` once the upload is saved at
    `path`: read the options, build and run the pipeline, pick the newest
    output file and remove the upload. `outputExists` says whether the
    output directory exists. Every exception is answered with 500 and its
    text, and leaves the upload in place; the download is always the newest
    prefixed file of the output directory.
   */
  ghost function Process(form: map<string, string>, path: string, saved: map<string, string>, ext: Collaborators,
                         now: DateTime, outputExists: bool, output: map<string, Artifact>): (s: Served)
    requires ValidDateTime(now)
    ensures s.uploads == if s.response.FileResponse? then saved - {path} else saved
    ensures s.response.JsonResponse? ==> s.response.status == 500 && s.response.body.Keys == {"error"}
    ensures s.response.FileResponse? ==>
      s.response.downloadName == DownloadName && IsLatest(s.response.outputName, s.output.Keys)
    ensures NumSamples(form).Failure? || !outputExists ==> s.output == output
  {
    match NumSamples(form)
    case Failure(e) => Served(ErrorResponse(Str(e), 500), saved, output)
    case Success(n) =>
      var init := Init(outputExists, output, LogPath(ext.workDir, "output"));
      if init.0.Failure? then Served(ErrorResponse(Str(init.0.error), 500), saved, output)
      else
        var run := Run(HandlerConfig(form, path), saved, init.2, n, ext, now);
        if run.result.Failure? then Served(ErrorResponse(Str(run.result.error), 500), saved, run.output)
        else
          ServeLatest(saved, path, run.output)
  }

  /**
    `generate_synthetic_data`. `secureFilename` stands for werkzeug's
    `secure_filename`. A secured name that is empty makes the upload path the
    folder itself, which cannot be saved to. No request creates the output
    directory: the pipeline fails before its `os.makedirs` when it is missing.
   */
  ghost function Generate(req: Request, secureFilename: string -> string, ext: Collaborators, now: DateTime,
                          outputExists: bool, uploads: map<string, string>, output: map<string, Artifact>): (s: Served)
    requires ValidDateTime(now)
    ensures "file" !in req.files ==> s == Served(ErrorResponse("No file provided", 400), uploads, output)
    ensures "file" in req.files && req.files["file"].filename == "" ==>
      s == Served(ErrorResponse("No file selected", 400), uploads, output)
    ensures s.response.JsonResponse? && s.response.status == 400 ==> s.uploads == uploads
    ensures s.response.FileResponse? ==> s.uploads.Keys == uploads.Keys - {UploadPath(secureFilename(req.files["file"].filename))}
  {
    if "file" !in req.files then Served(ErrorResponse("No file provided", 400), uploads, output)
    else if req.files["file"].filename == "" then Served(ErrorResponse("No file selected", 400), uploads, output)
    else
      var name := secureFilename(req.files["file"].filename);
      var path := UploadPath(name);
      if name == "" then Served(ErrorResponse(Str(IsADirectory(path)), 500), uploads, output)
      else Process(req.form, path, uploads[path := req.files["file"].content], ext, now, outputExists, output)
  }

  /** The handler against the disk: the try block's first exception is answered by the `except` clause. */
  method GenerateSyntheticData(disk: Disk, req: Request, secureFilename: string -> string, ext: Collaborators,
                               now: DateTime) returns (response: Response)
    requires ValidDateTime(now)
    modifies disk
    ensures Served(response, disk.uploads, disk.output)
      == Generate(req, secureFilename, ext, now, old(disk.outputExists), old(disk.uploads), old(disk.output))
    ensures disk.outputExists == old(disk.outputExists)
  {
    if "file" !in req.files {
      return ErrorResponse("No file provided", 400);
    }
    var file := req.files["file"];
    if file.filename == "" {
      return ErrorResponse("No file selected", 400);
    }
    var raised: PyError;
    var filename := secureFilename(file.filename);
    var filepath := UploadPath(filename);
    if filename == "" {
      raised := IsADirectory(filepath);
    } else {
      disk.uploads := disk.uploads[filepath := file.content];
      var categoricalColumns := CategoricalColumns(req.form);
      var numSamples := NumSamples(req.form);
      if numSamples.Failure? {
        raised := numSamples.error;
      } else {
        var metadata := MetadataArg(req.form);
        var created := SyntheticDataPipeline.New(disk, ext.workDir, filepath, categoricalColumns, metadata := Some(metadata));
        if created.Failure? {
          raised := created.error;
        } else {
          var result, _ := created.value.RunPipeline(disk, ext, now, numSamples.value);
          if result.Failure? {
            raised := result.error;
          } else {
            var files := ListDir(disk);
            var latest := LatestFile(files);
            LatestFileOfListing(files, disk.output.Keys);
            if latest.None? {
              raised := IndexError("list index out of range");
            } else {
              disk.uploads := disk.uploads - {filepath};
              return FileResponse(latest.value, DownloadName);
            }
          }
        }
      }
    }
    response := ErrorResponse(Str(raised), 500);
  }

  // ---------------------------------------------------------------------
  // What the handler promises
  // ---------------------------------------------------------------------

  /** A request without a usable file part is refused with 400 and touches neither directory. */
  lemma NoFileRejected(req: Request, secureFilename: string -> string, ext: Collaborators, now: DateTime,
                       outputExists: bool, uploads: map<string, string>, output: map<string, Artifact>)
    requires ValidDateTime(now)
    requires "file" !in req.files || req.files["file"].filename == ""
    ensures var s := Generate(req, secureFilename, ext, now, outputExists, uploads, output);
      && s.uploads == uploads && s.output == output
      && s.response == ErrorResponse(if "file" !in req.files then "No file provided" else "No file selected", 400)
  {
  }

  /**
    Every answer is either the download of a prefixed file that is the
    newest in the output directory, under the name `synthetic_data.csv`, or
    a JSON object with the single key `error` and status 400 or 500; 400 only
    for the two checks on the file part.
   */
  lemma ResponseShape(req: Request, secureFilename: string -> string, ext: Collaborators, now: DateTime,
                      outputExists: bool, uploads: map<string, string>, output: map<string, Artifact>)
    requires ValidDateTime(now)
    ensures var s := Generate(req, secureFilename, ext, now, outputExists, uploads, output);
      match s.response
      case FileResponse(f, d) => d == DownloadName && IsLatest(f, s.output.Keys)
      case JsonResponse(body, status) =>
        && body.Keys == {"error"}
        && (status == 400 || status == 500)
        && (status == 400 <==> "file" !in req.files || req.files["file"].filename == "")
  {
  }

  /**
    Once the file is saved, it is removed again exactly when the answer is
    the download: after any exception the upload stays in the folder.
   */
  lemma UploadRemovedOnlyOnSuccess(req: Request, secureFilename: string -> string, ext: Collaborators, now: DateTime,
                                   outputExists: bool, uploads: map<string, string>, output: map<string, Artifact>)
    requires ValidDateTime(now)
    requires "file" in req.files && req.files["file"].filename != ""
    requires secureFilename(req.files["file"].filename) != ""
    ensures var s := Generate(req, secureFilename, ext, now, outputExists, uploads, output);
      var path := UploadPath(secureFilename(req.files["file"].filename));
      && (path in s.uploads <==> s.response.JsonResponse?)
      && (path in s.uploads ==> s.uploads[path] == req.files["file"].content)
      && forall p :: p in uploads && p != path ==> p in s.uploads && s.uploads[p] == uploads[p]
  {
  }

  /** A `num_samples` field that `int()` refuses ends the request with 500 before the pipeline writes anything. */
  lemma BadNumSamplesWritesNothing(req: Request, secureFilename: string -> string, ext: Collaborators, now: DateTime,
                                   outputExists: bool, uploads: map<string, string>, output: map<string, Artifact>)
    requires ValidDateTime(now)
    requires "file" in req.files && req.files["file"].filename != ""
    requires secureFilename(req.files["file"].filename) != ""
    requires "num_samples" in req.form && ParseInt(req.form["num_samples"]).Failure?
    ensures var s := Generate(req, secureFilename, ext, now, outputExists, uploads, output);
      && s.output == output
      && s.response == ErrorResponse(IntErrorMessage(req.form["num_samples"], ParseInt(req.form["num_samples"]).error), 500)
  {
  }

  /**
    While the output directory is missing, every request that gets past the
    file checks and `int()` is answered with 500 and the FileNotFoundError of
    the log file, keeps its upload, and leaves the directory missing, so the
    next request fails the same way.
   */
  lemma MissingOutputFailsEveryRequest(req: Request, secureFilename: string -> string, ext: Collaborators,
                                       now: DateTime, uploads: map<string, string>, output: map<string, Artifact>)
    requires ValidDateTime(now)
    requires "file" in req.files && req.files["file"].filename != ""
    requires secureFilename(req.files["file"].filename) != ""
    requires NumSamples(req.form).Success?
    ensures var s := Generate(req, secureFilename, ext, now, false, uploads, output);
      && s.response == ErrorResponse(Str(FileNotFound(LogPath(ext.workDir, "output"))), 500)
      && s.output == output
      && UploadPath(secureFilename(req.files["file"].filename)) in s.uploads
  {
  }

  /** The output directory after a successful run: once the log file is opened, what `run_pipeline` leaves. */
  function LoggedOutput(ext: Collaborators, output: map<string, Artifact>): map<string, Artifact>
  {
    Init(true, output, LogPath(ext.workDir, "output")).2
  }

  /** After a successful run, the handler serves the newest prefixed file of the output directory the run left. */
  lemma ProcessAfterRun(form: map<string, string>, path: string, saved: map<string, string>,
                        ext: Collaborators, now: DateTime, output: map<string, Artifact>)
    requires ValidDateTime(now)
    requires NumSamples(form).Success?
    requires Run(HandlerConfig(form, path), saved, LoggedOutput(ext, output), NumSamples(form).value, ext, now).result.Success?
    ensures var run := Run(HandlerConfig(form, path), saved, LoggedOutput(ext, output), NumSamples(form).value, ext, now);
      LatestIn(run.output.Keys).Some? ==>
        Process(form, path, saved, ext, now, true, output).response == FileResponse(LatestIn(run.output.Keys).value, DownloadName)
  {
  }

  /** An exception from any step of the run is answered with 500 and its own text; the upload stays and the run's writes stay. */
  lemma PipelineErrorAnswered(form: map<string, string>, path: string, saved: map<string, string>,
                              ext: Collaborators, now: DateTime, output: map<string, Artifact>)
    requires ValidDateTime(now)
    requires NumSamples(form).Success?
    requires Run(HandlerConfig(form, path), saved, LoggedOutput(ext, output), NumSamples(form).value, ext, now).result.Failure?
    ensures var run := Run(HandlerConfig(form, path), saved, LoggedOutput(ext, output), NumSamples(form).value, ext, now);
      Process(form, path, saved, ext, now, true, output) == Served(ErrorResponse(Str(run.result.error), 500), saved, run.output)
  {
  }

  /** A prefixed name in the output directory after a run is this run's CSV or was there before. */
  lemma RunKeepsPrefixedNames(form: map<string, string>, path: string, saved: map<string, string>,
                              ext: Collaborators, now: DateTime, output: map<string, Artifact>, f: string)
    requires ValidDateTime(now)
    requires NumSamples(form).Success?
    requires f in Run(HandlerConfig(form, path), saved, LoggedOutput(ext, output), NumSamples(form).value, ext, now).output
    requires StartsWith(f, CsvPrefix)
    ensures f == CsvName(now) || f in output
  {
    RunArtifactNames(now);
    assert !StartsWith(LogName, CsvPrefix);
  }

  /** When every prefixed file already there is an earlier run's CSV, this run's CSV is the newest prefixed name after the run. */
  lemma RunCsvIsLatest(form: map<string, string>, path: string, saved: map<string, string>,
                       ext: Collaborators, now: DateTime, output: map<string, Artifact>)
    requires ValidDateTime(now)
    requires NumSamples(form).Success?
    requires Run(HandlerConfig(form, path), saved, LoggedOutput(ext, output), NumSamples(form).value, ext, now).result.Success?
    requires forall f :: f in output && StartsWith(f, CsvPrefix) ==>
      exists t :: ValidDateTime(t) && f == CsvName(t) && Before(t, now)
    ensures LatestIn(Run(HandlerConfig(form, path), saved, LoggedOutput(ext, output), NumSamples(form).value, ext, now).output.Keys)
      == Some(CsvName(now))
  {
    var names := Run(HandlerConfig(form, path), saved, LoggedOutput(ext, output), NumSamples(form).value, ext, now).output.Keys;
    RunArtifactNames(now);
    assert CsvName(now) in names;
    forall f | f in names && StartsWith(f, CsvPrefix) ensures f == CsvName(now) || f in output.Keys {
      RunKeepsPrefixedNames(form, path, saved, ext, now, output, f);
    }
    EarlierRunsThenThis(names, output.Keys, now);
    LatestIsRunAt(names, now);
  }

  /** Prefixed names that are this run's CSV or earlier runs' CSVs are all CSVs of runs no later than this one. */
  lemma EarlierRunsThenThis(names: set<string>, before: set<string>, now: DateTime)
    requires ValidDateTime(now)
    requires forall f :: f in names && StartsWith(f, CsvPrefix) ==> f == CsvName(now) || f in before
    requires forall f :: f in before && StartsWith(f, CsvPrefix) ==>
      exists t :: ValidDateTime(t) && f == CsvName(t) && Before(t, now)
    ensures forall f :: f in names && StartsWith(f, CsvPrefix) ==>
      exists t :: ValidDateTime(t) && f == CsvName(t) && (t == now || Before(t, now))
  {
    forall f | f in names && StartsWith(f, CsvPrefix)
      ensures exists t :: ValidDateTime(t) && f == CsvName(t) && (t == now || Before(t, now))
    {
      if f != CsvName(now) {
        var t :| ValidDateTime(t) && f == CsvName(t) && Before(t, now);
      }
    }
  }

  /**
    When the pipeline completes, the listing holds this run's CSV, so the
    IndexError branch is never taken; and when every other prefixed file is
    the CSV of an earlier run, the download is this run's CSV.
   */
  lemma SuccessfulRunIsServed(form: map<string, string>, path: string, saved: map<string, string>,
                              ext: Collaborators, now: DateTime, output: map<string, Artifact>)
    requires ValidDateTime(now)
    requires NumSamples(form).Success?
    requires Run(HandlerConfig(form, path), saved, LoggedOutput(ext, output), NumSamples(form).value, ext, now).result.Success?
    ensures Process(form, path, saved, ext, now, true, output).response.FileResponse?
    ensures
      (forall f :: f in output && StartsWith(f, CsvPrefix) ==>
        exists t :: ValidDateTime(t) && f == CsvName(t) && Before(t, now))
      ==> Process(form, path, saved, ext, now, true, output).response == FileResponse(CsvName(now), DownloadName)
  {
    var run := Run(HandlerConfig(form, path), saved, LoggedOutput(ext, output), NumSamples(form).value, ext, now);
    RunArtifactNames(now);
    assert CsvName(now) in run.output.Keys;
    assert LatestIn(run.output.Keys).Some?;
    ProcessAfterRun(form, path, saved, ext, now, output);
    if forall f :: f in output && StartsWith(f, CsvPrefix) ==>
         exists t :: ValidDateTime(t) && f == CsvName(t) && Before(t, now) {
      RunCsvIsLatest(form, path, saved, ext, now, output);
    }
  }
}
