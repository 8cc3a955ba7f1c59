# Synthetic Data Generator — a Dafny model of its core

The Synthetic Data Generator is a web application. A user uploads a CSV file
in a React form, ticks the columns that are categorical and asks for a number
of rows. A Flask backend then fits a CTGAN model to the file, samples the
synthetic rows and writes them to a timestamped CSV in an `output` directory,
along with a metadata JSON file. It sends the newest CSV back as a download.
Before the form is used, the frontend probes a primary backend and, if that
is down, a production backend. The backend runs under gunicorn, which sizes
its workers and threads from the environment.

This project models the deterministic rules around the generator:

- `pipeline.dfy` (module `Pipeline`): the `SyntheticDataPipeline` class.
  It covers the fixed-width run timestamp and the artifact names built from
  it, the metadata document, the validation report filled in column by
  column, and the four-step run that stops at the first exception. It also
  covers construction, which opens the log file in the output directory
  before it creates that directory. The upload folder and the output
  directory (whether it exists, and its files) are held by a `Disk` object.
- `app.dfy` (module `App`): the `POST /generate` handler, with its two 400
  checks, the form parsing, the choice of the newest `synthetic_data_*`
  file, the 500 answer for every exception and the removal of the upload on
  success only.
- `upload_form.dfy` (module `UploadForm`): the form component. It covers the
  header names of the picked file, the toggled column selection kept in step
  with its comma-joined text, the ordered validation, and the submission and
  its outcome.
- `server_status.dfy` (module `ServerStatus`): the classification of one
  health probe, and the primary-then-production fallback.
- `api_context.dfy` (module `ApiContext`): the provider's four state cells
  and the `checkServer` transition.
- `gunicorn_conf.dfy` (module `GunicornConf`): the worker count, the threads
  per worker by memory tier, and the bind address.
- `end_to_end.dfy` (module `EndToEnd`): facts that span both tiers. The
  ticked columns and the typed sample count reach the pipeline unchanged.
  The backend's health answer is what the probe calls online. A fractional
  sample count passes the form's check but is refused by the backend.
- `text.dfy`, `frames.dfy` and `wrappers.dfy` hold what these modules
  share. That is string splitting and joining, JavaScript `trim` and the
  white space Python's `int()` skips, Python's `int()` and `repr()` of a string, code-point order of strings, data
  frames with missing cells, and `Option`/`Result`.

CTGAN, pandas' CSV reader, the clock, werkzeug's `secure_filename`, the HTTP
transport and the health probe are parameters. Each run takes the time
`now`, a `Collaborators` value (`readCsv`, `sample`, the working directory `workDir`), a `secureFilename`
function, or a `probe` function from URL and timeout to an HTTP outcome.

A `metadata` form field reaches the pipeline as a string. A non-empty string
survives `metadata or {}` and makes the spread `{**self.metadata}` raise
TypeError after the CSV has been written, so the request ends in a 500. The
model keeps this behaviour as written (`Pipeline.Save`,
`App.MetadataFieldStored`). The frontend never sends the field
(`EndToEnd.PostedMetadataIsEmpty`).

## Model

| member | source | states |
|---|---|---|
| Text.JoinSplit | backend/app.py:34 | joining the pieces of a split with the separator gives back the original string |
| Text.SplitJoin | frontend/src/UploadForm.jsx:42 | splitting a join of separator-free pieces gives back the pieces |
| Text.StripIsEmpty | frontend/src/UploadForm.jsx:53 | the trimmed text is empty exactly when every character is white space |
| Text.StripTrimmed | frontend/src/UploadForm.jsx:28 | `trim()` leaves no white space at either end and adds no character |
| Text.PyRepr | backend/app.py:61 | `repr` of a string starts and ends with its quote, which is `"` exactly when the string holds `'` and no `"` |
| Text.PyReprRoundTrip | backend/app.py:61 | the text between `repr`'s quotes reads back, escape by escape, to the original string |
| Text.UnescapeEscapeAll | backend/app.py:61 | undoing the escapes of any string gives it back, for either quote character |
| Text.EscapedQuote | backend/app.py:61 | between `repr`'s quotes the quote character only appears after a backslash |
| Text.ParseIntRoundTrip | backend/app.py:35 | `int()` of the decimal form of any integer of at most 4300 digits (negative and zero included) gives that integer back; a longer one is refused as over the digit limit, with its digit count |
| Text.ParseInt | backend/app.py:35 | `int()` of a string: an accepted value has at most 4300 decimal digits, and a literal refused as too long has more than 4300 |
| Text.ParseIntCharset | backend/app.py:35 | a string `int()` accepts holds only the white space `int()` skips (ASCII `\t \n \v \f \r`, space, and non-ASCII `isspace` characters), digits, `_` and signs |
| Text.SeparatorIsNotIntSpace | backend/app.py:35 | `int("\x1c5")` is an invalid literal: U+001C..U+001F are not white space to `int()` |
| Text.LexLessTotal | backend/app.py:49 | string order is total and asymmetric, so `sorted(...)[-1]` is a well-defined greatest element |
| Text.PadOrder | backend/synthetic_data_pipeline.py:98 | zero-padded fixed-width numbers compare as strings exactly as they compare as numbers, and are equal exactly when the numbers are |
| Frames.NUnique | backend/synthetic_data_pipeline.py:83-84 | `nunique()` never exceeds the row count and is zero exactly when every cell is missing |
| Pipeline.Timestamp | backend/synthetic_data_pipeline.py:98 | `%Y%m%d_%H%M%S` is 15 characters: 8 digits, `_`, 6 digits |
| Pipeline.TimestampOrder | backend/synthetic_data_pipeline.py:98 | timestamps compare as strings exactly as the clock readings compare field by field (wall-clock order); equal strings mean equal readings |
| Pipeline.CsvNameOrder | backend/synthetic_data_pipeline.py:98-99 | `synthetic_data_<t1>.csv` < `synthetic_data_<t2>.csv` exactly when the reading t1 is earlier than t2 in wall-clock order |
| Pipeline.RunArtifactNames | backend/synthetic_data_pipeline.py:98-111 | the CSV and metadata names of one run carry the same timestamp; only the CSV name has the `synthetic_data_` prefix |
| Pipeline.MetadataDoc | backend/synthetic_data_pipeline.py:102-109 | keys are the five built-in keys plus the caller's; the caller's value wins on a clash; each built-in the caller does not name keeps its computed value, `num_samples` being the synthetic frame's row count |
| Pipeline.ColumnMatch | backend/synthetic_data_pipeline.py:76 | ValueError when the column lists differ in length; otherwise true exactly when they agree position by position |
| Pipeline.Validation | backend/synthetic_data_pipeline.py:67-91 | fails exactly when the lengths differ (ValueError) or a real column is missing from the synthetic frame (KeyError naming it); otherwise one entry per real column, categorical exactly for declared columns, with counts bounded by each frame's rows |
| Pipeline.ValidationMissing | backend/synthetic_data_pipeline.py:80-85 | the loop raises KeyError at the first real column the synthetic frame lacks |
| Pipeline.ValidationComplete | backend/synthetic_data_pipeline.py:80-90 | the map the loop fills over all columns is the report's `basic_stats` |
| Pipeline.StatsStep | backend/synthetic_data_pipeline.py:80-90 | adding a column's own entry keeps every entry of the loop's map equal to the report's |
| Pipeline.StoredMetadata | backend/synthetic_data_pipeline.py:23 | `metadata or {}`: `None`, `{}` and `""` become the empty map, anything else is kept |
| Pipeline.PathJoin | backend/synthetic_data_pipeline.py:33-35 | `os.path.join` always ends with its second argument |
| Pipeline.Init | backend/synthetic_data_pipeline.py:24-35 | construction fails exactly when the output directory is missing, with FileNotFoundError for the log path, and then leaves the directory missing and its files unchanged; otherwise `pipeline.log` is added and every other file is kept |
| Pipeline.InitFixed | backend/synthetic_data_pipeline.py:24-35 | with `os.makedirs` first, construction always leaves the directory existing with `pipeline.log` added and every other file kept |
| Pipeline.InitFixedAgrees | backend/synthetic_data_pipeline.py:24-35 | both orders agree when the directory exists; when it is missing only the corrected order succeeds |
| Pipeline.SyntheticDataPipeline.New | backend/synthetic_data_pipeline.py:13-38 | `SyntheticDataPipeline(...)`: the error, the directory's existence and its files afterwards are exactly `Init`'s; a new pipeline holds the arguments; the upload folder is untouched |
| Pipeline.SyntheticDataPipeline.NewFixed | backend/synthetic_data_pipeline.py:13-38 | the construction with `os.makedirs` first: the directory afterwards is exactly `InitFixed`'s |
| Pipeline.Save | backend/synthetic_data_pipeline.py:93-116 | the CSV is always written under this run's name; the metadata file is written exactly when the metadata is a mapping, else TypeError with the CSV already on disk; other files are kept |
| Pipeline.Run | backend/synthetic_data_pipeline.py:118-127 | the steps run in the order load, generate, validate, save; a step that raises ends the run with that step's own error, no later step starts and nothing is written; when every step before it succeeds the save step runs and the outcome is `Save`'s; other files keep their contents |
| Pipeline.SyntheticDataPipeline.constructor | backend/synthetic_data_pipeline.py:13-23 | stores its arguments, output directory `output` by default, a false-valued metadata stored as the empty map |
| Pipeline.SyntheticDataPipeline.LoadData | backend/synthetic_data_pipeline.py:40-48 | reads the input file from the upload folder, FileNotFoundError when it is absent |
| Pipeline.SyntheticDataPipeline.GenerateSyntheticData | backend/synthetic_data_pipeline.py:50-65 | the sampler gets the declared categorical columns, 100 epochs and 1000 samples by default |
| Pipeline.SyntheticDataPipeline.ValidateSyntheticData | backend/synthetic_data_pipeline.py:67-91 | the column loop returns exactly `Validation` |
| Pipeline.SyntheticDataPipeline.SaveOutputs | backend/synthetic_data_pipeline.py:93-116 | the output directory after the call is exactly what `Save` gives; the upload folder and the directory's existence are untouched |
| Pipeline.SyntheticDataPipeline.RunPipeline | backend/synthetic_data_pipeline.py:118-127 | the error, the output directory and the steps started are exactly `Run`'s, so each step's exception is re-raised as it is and stops the run; the directory's existence is untouched |
| App.HealthCheck | backend/app.py:13-15 | the health body has the single key `status`, with the value "healthy" |
| App.CategoricalColumns | backend/app.py:34 | the raw comma split: never empty, `[""]` when the field is absent, pieces without commas, joining gives back the field |
| App.NumSamples | backend/app.py:35 | 1000 when the field is absent; otherwise `int()` of it, with no positivity check; when `int()` refuses it, a ValueError with `int()`'s own message (the repr of the text cut to 200 characters, or the digit count over 4300) |
| App.NumSamplesRoundTrip | backend/app.py:35 | the decimal form of any integer of at most 4300 digits, zero and negatives included, is accepted as that integer; a longer one gets the digit-limit ValueError |
| App.FractionalSamplesRejected | backend/app.py:35 | a field containing `.` raises ValueError |
| App.MetadataFieldStored | backend/app.py:36-43 | an absent or empty metadata field becomes the empty map; any other text reaches the pipeline as a string |
| App.LatestFile | backend/app.py:48-49 | none exactly when no listed name has the `synthetic_data_` prefix; otherwise the greatest prefixed name |
| App.LatestIn | backend/app.py:48-49 | the greatest prefixed name of a directory, none exactly when there is no prefixed name |
| App.LatestExists | backend/app.py:49 | a directory with a prefixed name has a greatest one |
| App.LatestUnique | backend/app.py:49 | the greatest prefixed name is unique |
| App.LatestFileOfListing | backend/app.py:47-49 | the file picked does not depend on the order `os.listdir` returns |
| App.LatestIsRunAt | backend/app.py:48-49 | when every prefixed name is the CSV of a run no later than `now`, the pick is the CSV of the run at `now` |
| App.ListDir | backend/app.py:48 | the listing holds exactly the names in the output directory |
| App.ServeLatest | backend/app.py:46-58 | the download happens exactly when the output directory has a prefixed name; it is the greatest one, sent as `synthetic_data.csv`, and removes the upload; otherwise IndexError "list index out of range" with the upload kept |
| App.Process | backend/app.py:26-61 | after the upload is saved, every exception is answered with 500 and `{'error': ...}` and leaves the upload; the download is the newest prefixed file and removes the upload; a bad `num_samples` or a missing output directory writes nothing |
| App.Generate | backend/app.py:17-61 | no file part gives 400 "No file provided", an empty filename 400 "No file selected", both with nothing changed; a 400 never touches the uploads; a download removes exactly the saved upload |
| App.GenerateSyntheticData | backend/app.py:17-61 | the handler's answer and both directories afterwards are exactly `Generate`'s; no request creates or removes the output directory |
| App.NoFileRejected | backend/app.py:19-24 | no file part gives 400 "No file provided", an empty filename 400 "No file selected", and neither directory changes |
| App.ResponseShape | backend/app.py:17-61 | every answer is the newest prefixed file downloaded as `synthetic_data.csv`, or `{'error': ...}` with 400 for the two file checks and 500 otherwise |
| App.UploadRemovedOnlyOnSuccess | backend/app.py:28-61 | the saved upload is gone exactly when the answer is the download; other uploads are untouched |
| App.BadNumSamplesWritesNothing | backend/app.py:33-61 | a `num_samples` that `int()` refuses gives 500 with `int()`'s message for that text and the output directory is unchanged |
| App.PipelineErrorAnswered | backend/app.py:44-61 | an exception from any pipeline step is answered with 500 and `{'error': str(e)}` of that very exception; the upload stays |
| App.MissingOutputFailsEveryRequest | backend/app.py:39-61 | while the output directory is missing, every request past the file checks and `int()` gets 500 with the log file's FileNotFoundError, keeps its upload, and writes nothing |
| App.ProcessAfterRun | backend/app.py:44-58 | after a successful run the answer is the download of the newest prefixed file the run left |
| App.RunKeepsPrefixedNames | backend/app.py:39-48 | a prefixed name in the output directory after a run is this run's CSV or was there before |
| App.RunCsvIsLatest | backend/app.py:44-49 | when every prefixed file already there is an earlier run's CSV, this run's CSV is the greatest prefixed name after the run |
| App.EarlierRunsThenThis | backend/app.py:48-49 | names that are this run's CSV or earlier runs' CSVs are all CSVs of runs no later than this one |
| App.SuccessfulRunIsServed | backend/app.py:44-58 | after a successful run the answer is always the download, and when the other prefixed files are earlier runs' CSVs it is this run's CSV |
| ServerStatus.ErrorMessage | frontend/src/utils/serverStatus.js:31-39 | the catch message by priority: timeout, then server error with its status, then no response, then cannot connect |
| ServerStatus.CheckSingleServerHealth | frontend/src/utils/serverStatus.js:9-48 | online exactly when the body's `status` is "healthy"; offline exactly when there is an error; another body gives "Server is not responding properly"; a failure gives the catch message and `err.message`; the result carries the URL checked |
| ServerStatus.CheckServerHealth | frontend/src/utils/serverStatus.js:54-83 | production is probed only when it is set and the primary is offline; online exactly when one server is online; marked fallback exactly when only production is online, with the primary's error; otherwise the primary's result |
| ServerStatus.OnlineUrl | frontend/src/utils/serverStatus.js:54-83 | an online result's URL is the production URL when it is a fallback, else the primary URL |
| ServerStatus.PrimaryPreferred | frontend/src/utils/serverStatus.js:60-66 | a healthy primary is returned as it is and production is not probed |
| ApiContext.AfterCheck | frontend/src/ApiContext.js:15-37 | after a check loading is over and the status is never "checking"; online sets the URL and fallback flag from the result; offline or a rejection keeps them |
| ApiContext.AfterCheckConsistent | frontend/src/ApiContext.js:19-32 | a check keeps the active URL equal to the production URL when the fallback is in use and to the primary URL otherwise |
| ApiContext.AfterChecks | frontend/src/ApiContext.js:14-44 | before any check the state is the initial one; after one or more checks loading is over, the status is known, and it is online exactly when the last check found a server online |
| ApiContext.AfterChecksConsistent | frontend/src/ApiContext.js:14-44 | after any number of checks the active URL agrees with the fallback flag, and after one check loading is over |
| ApiContext.ApiProvider.constructor | frontend/src/ApiContext.js:6-12 | initial state: the primary URL, loading, "checking", no fallback |
| ApiContext.ApiProvider.CheckServer | frontend/src/ApiContext.js:15-37 | the state after `checkServer` is `AfterCheck`'s, and the URL/fallback agreement is kept |
| UploadForm.FirstLine | frontend/src/UploadForm.jsx:27 | the text before the first line feed |
| UploadForm.Headers | frontend/src/UploadForm.jsx:27-28 | one name per comma of the first line plus one, each free of commas and line feeds and trimmed |
| UploadForm.Remove | frontend/src/UploadForm.jsx:40 | filtering leaves exactly the other names |
| UploadForm.RemoveAppend | frontend/src/UploadForm.jsx:40 | filtering distributes over concatenation and keeps other single names, so every occurrence goes and the others keep their order |
| UploadForm.RemoveAbsent | frontend/src/UploadForm.jsx:40 | filtering out a name the list lacks changes nothing |
| UploadForm.RemoveAt | frontend/src/UploadForm.jsx:39-40 | in a list without repetitions, filtering cuts out exactly the name's position |
| UploadForm.Toggle | frontend/src/UploadForm.jsx:37-41 | a toggle flips the column's membership and no other name's |
| UploadForm.ToggleSpec | frontend/src/UploadForm.jsx:37-45 | a toggle flips only the column's membership, appends a new column at the end, cuts a selected one out of its place, and keeps the selection free of repetitions |
| UploadForm.ToggleTwice | frontend/src/UploadForm.jsx:39-41 | toggling an absent column twice restores the selection |
| UploadForm.EditsKeepSynced | frontend/src/UploadForm.jsx:19-45 | every file pick, toggle and samples edit keeps the column text equal to the selection joined with commas, without repetitions |
| UploadForm.FormError | frontend/src/UploadForm.jsx:47-64 | the checks in order, file, non-blank column text, `numSamples < 1`; the first failure's message; none exactly when all pass |
| UploadForm.SubmitSendsValidForm | frontend/src/UploadForm.jsx:66-87 | a request is posted exactly when the server check is done and the form is valid; it carries the trimmed column text and the samples text; otherwise a message is shown |
| UploadForm.Submit | frontend/src/UploadForm.jsx:66-87 | as written: while the server check is pending nothing is posted, the message is "Waiting for server connection..." and `loading` stays set; a posted form passed validation; an invalid form shows the first failure and clears `loading`; the link, progress and validation error are cleared and the inputs are untouched |
| UploadForm.SubmitFixed | frontend/src/UploadForm.jsx:66-82 | corrected: the same request and message as `Submit`, the inputs untouched, and the button enabled whenever nothing is posted |
| UploadForm.WaitingLocksForm | frontend/src/UploadForm.jsx:74-77 | submitting during the server check posts nothing and leaves the submit button disabled through any later edit |
| UploadForm.EditsKeepLoading | frontend/src/UploadForm.jsx:19-45 | no edit of the form changes `loading` |
| UploadForm.SubmitFixedUnlocks | frontend/src/UploadForm.jsx:74-82 | with `loading` cleared on the waiting path, the same requests are posted with the same messages, and a submission that posts nothing leaves the button enabled |
| UploadForm.Finish | frontend/src/UploadForm.jsx:89-136 | afterwards loading is off and the progress is 0; only a file answer changes the link; every error answer shows a non-empty message; the selection is untouched |
| UploadForm.UploadFormState.constructor | frontend/src/UploadForm.jsx:6-15 | the `useState` initial values, column text in step with the empty selection (`Valid`) |
| UploadForm.UploadFormState.HandleFileChange | frontend/src/UploadForm.jsx:19-35 | a picked file's header names are offered and the selection and column text are reset; cancelling only clears the file; the column text stays in step with the selection (`Valid`) |
| UploadForm.UploadFormState.HandleColumnSelect | frontend/src/UploadForm.jsx:37-45 | the selection is toggled and the column text is its comma join; the column text stays in step with the selection (`Valid`) |
| UploadForm.UploadFormState.SetNumSamples | frontend/src/UploadForm.jsx:217 | only the samples field changes; the column text stays in step with the selection (`Valid`) |
| UploadForm.UploadFormState.ValidateForm | frontend/src/UploadForm.jsx:47-64 | returns true exactly when `FormError` finds nothing; otherwise sets that message and nothing else; the column text stays in step with the selection (`Valid`) |
| UploadForm.UploadFormState.HandleSubmit | frontend/src/UploadForm.jsx:66-87 | the state and the posted fields are exactly `Submit`'s, as written; the column text stays in step with the selection (`Valid`) |
| UploadForm.UploadFormState.HandleSubmitFixed | frontend/src/UploadForm.jsx:66-82 | the state and the posted fields are exactly `SubmitFixed`'s; the column text stays in step with the selection (`Valid`) |
| UploadForm.UploadFormState.FinishSubmit | frontend/src/UploadForm.jsx:89-136 | the state after the request settles is exactly `Finish`'s; the column text stays in step with the selection (`Valid`) |
| GunicornConf.CapWorkers | backend/gunicorn_conf.py:19-20 | `min(int(max(2, x)), 8)`: OverflowError exactly for +inf; 2 for NaN, −inf and x ≤ 2; x truncated for 2 ≤ x < 8; 8 for x ≥ 8 |
| GunicornConf.Workers | backend/gunicorn_conf.py:12-20 | a non-empty `WEB_CONCURRENCY` is used exactly when `int()` accepts it and it is positive, uncapped; `int()`'s ValueError is passed on, and a value of 0 or less is an AssertionError; otherwise the derived count is between 2 and 8 |
| GunicornConf.DefaultWorkers | backend/gunicorn_conf.py:5-20 | with neither variable set the workers are min(2 × CPUs, 8) |
| GunicornConf.Threads | backend/gunicorn_conf.py:22-29 | 2 below 8 GiB, 4 below 16 GiB, else 8 |
| GunicornConf.ThreadsMonotone | backend/gunicorn_conf.py:24-29 | more memory never gives fewer threads |
| GunicornConf.Bind | backend/gunicorn_conf.py:31-35 | a non-empty `BIND` is used as it is; otherwise `HOST:PORT` |
| GunicornConf.DefaultBind | backend/gunicorn_conf.py:7-9 | with none of `BIND`, `HOST`, `PORT` set the address is `0.0.0.0:7860` |
| GunicornConf.Configure | backend/gunicorn_conf.py:12-45 | importing fails exactly when the worker computation fails, with its error; otherwise workers, threads, bind and the 300 s timeout as computed |
| EndToEnd.HealthAnswerIsOnline | backend/app.py:13-15 | the body `{'status': 'healthy'}` is classified online, with no error |
| EndToEnd.JoinedNamesSplitBack | backend/app.py:34 | trimming and comma-splitting the join of trimmed, comma-free names gives the names back |
| EndToEnd.FixedSendsTrimmedText | frontend/src/UploadForm.jsx:84-87 | the corrected submission posts the trimmed column text, and that text is not blank |
| EndToEnd.SelectionArrives | frontend/src/UploadForm.jsx:84-87 | the columns ticked from a header line reach the pipeline as exactly the ticked list |
| EndToEnd.SamplesArrive | frontend/src/UploadForm.jsx:87 | a samples text holding the decimal form of n reaches the pipeline as n when n has at most 4300 digits; a longer one is posted and refused by the backend's `int()` |
| EndToEnd.PostedMetadataIsEmpty | frontend/src/UploadForm.jsx:84-87 | the frontend sends no metadata field, so the pipeline gets the empty map |
| EndToEnd.FractionalSamplesPassOnlyTheFrontend | frontend/src/UploadForm.jsx:58 | "2.5" passes `numSamples < 1` and is posted, and the backend's `int()` refuses it |

## Left out

- CTGAN fitting and sampling and the unused `train_test_split` import are the `sample` parameter. `backend/synthetic_data_generator.py` only wraps CTGAN and is not part of this model.
- pandas' `read_csv` is the `readCsv` parameter. `to_csv`, `json.dump`, `os.makedirs`, `file.save` and `os.remove` are updates of the two directory maps. The file content is a string.
- Pipeline.Validation: the `mean_diff`/`std_diff` values are floating point, so only the branch a column takes is modelled. The model's numeric branch never fails, but pandas raises TypeError when an undeclared text column reaches `.mean()`.
- Pipeline.SyntheticDataPipeline.ValidateSyntheticData: the same restriction as `Pipeline.Validation`.
- Logging: opening the `pipeline.log` file handler is modelled (`Pipeline.Init`), since it creates that file and fails when the output directory is missing. What each `logger` call writes into the file, and `console` output, are not modelled. `pipeline.log` does not have the `synthetic_data_` prefix.
- Pipeline.LogPath: `os.path.abspath` is `os.path.join` onto the `workDir` parameter; its removal of `.` and `..` segments is not modelled. The error text is the path as joined.
- The clock is the `now` parameter, a local wall-clock reading. Pipeline.Timestamp: years are limited to 1000..9999, where `%Y` writes four digits. Day numbers are not checked against month lengths.
- Pipeline.TimestampOrder: the order proved is wall-clock order. Across a daylight-saving change or a clock step a later run can read an earlier time, and then its file sorts first; that is not modelled.
- App.GenerateSyntheticData: werkzeug's `secure_filename` is the `secureFilename` parameter. Flask routing, the 16 MB `MAX_CONTENT_LENGTH` limit and `send_file`'s streaming are not modelled.
- Text.ParseInt: only ASCII digits are accepted. Python's `int()` also accepts other Unicode decimal digits.
- Text.ParseInt: the digit limit is the default 4300 of `sys.int_info.default_max_str_digits`; `sys.set_int_max_str_digits` and the `PYTHONINTMAXSTRDIGITS` variable are not modelled. The limit is checked after the syntax, as Python 3.12 and later do; Python 3.11 reports the limit even when a bad character follows the digits.
- Text.PyRepr: characters above U+00FF are kept as they are. Python escapes the non-printable ones among them (`\uXXXX`, `\UXXXXXXXX`); Unicode's printability table is not modelled.
- ServerStatus.CheckSingleServerHealth: axios is the `probe` parameter. The TypeError message for a null or undefined body is V8's wording. A `status` member that is not a string counts as absent.
- UploadForm: JavaScript's ToNumber of the samples text is not modelled. The field carries the text and the number the browser derives from it.
- UploadForm.UploadFormState.HandleFileChange: `FileReader` is asynchronous, but the model applies the header update at once. It does not model a submission made before the reader finishes.
- UploadForm.Finish: `FileReader` and `JSON.parse` of an error blob are given as the outcome's parsed body. The `uploadProgress` percentage reported during the upload (`Math.round` of a float) is not modelled, and neither is `createObjectURL`.
- ApiContext: the 30-second `setInterval` polling and its cleanup are modelled as a sequence of settled checks (`AfterChecks`). A check that overlaps another is not modelled. An unset `REACT_APP_API_URL` (JavaScript `undefined`) is not modelled; URLs are strings.
- GunicornConf.Workers: Python's `float()` is the `parseFloat` parameter. GunicornConf.Scale multiplies real numbers, with no float rounding and no overflow to infinity. `multiprocessing.cpu_count()` and `psutil` are parameters.
- GunicornConf.Configure: `LOG_LEVEL` is read but not used by the configuration, and the `print`s are not modelled.
- `backend/start_server.py`, `frontend/tailwind.config.js`, `frontend/src/index.js` and `frontend/src/components/GlassmorphismButton.jsx` are process launch, bootstrapping and styling. They are not part of this model. `backend/test_app.py` and `backend/test_endpoints.py` are not part of this model either.
- Concurrent requests share the output directory. The model is sequential, so the branch where the listing has no prefixed file (IndexError) is unreachable after a successful run (`App.SuccessfulRunIsServed`).

## Findings

| source | as written | input that shows it | evidently intended | confidence | as-written member | corrected member |
|---|---|---|---|---|---|---|
| frontend/src/UploadForm.jsx:74-77 | `handleSubmit` sets `loading` to true and returns on the "Waiting for server connection..." path without clearing it. The submit button is `disabled={loading}`, so it stays disabled for good. | Submit the form while the provider's `isLoading` is still true (the first health check has not settled). | Clear `loading` before returning, as the validation-failure branch at lines 79-82 does. | high; not executed | UploadForm.WaitingLocksForm | UploadForm.SubmitFixedUnlocks |
| backend/synthetic_data_pipeline.py:24-25 | `__init__` calls `_setup_logging` before `os.makedirs`. Its `logging.FileHandler` (lines 33-35) opens `output/pipeline.log` at once, which raises FileNotFoundError when `output` does not exist. `makedirs` is never reached, and nothing else creates the directory. | Start the backend in a directory without `output/` and post any valid form: every request gets 500 "[Errno 2] No such file or directory: '<cwd>/output/pipeline.log'". | Create the output directory first, then open the log file. | medium; not executed | App.MissingOutputFailsEveryRequest | Pipeline.InitFixed |
