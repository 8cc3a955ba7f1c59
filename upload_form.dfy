/**
  The upload form of the frontend: the picked CSV file, the categorical
  columns chosen from its header line, the number of samples, and the
  submission to the backend with its outcome.
 */
module UploadForm {
  import opened Wrappers
  import opened Text

  /** The file the user picked: its name and its text as `FileReader.readAsText` gives it. */
  datatype PickedFile = PickedFile(name: string, content: string)

  /** A JavaScript number as the `<` comparison sees it. */
  datatype JsNumber = Finite(value: real) | NaN | PosInfinity | NegInfinity

  /**
    The number-of-samples input: the text that is posted, and the number
    JavaScript converts it to when it is compared with 1.
   */
  datatype SamplesField = SamplesField(text: string, number: JsNumber)

  /** `useState(1000)`: posted as "1000". */
  const InitialSamples := SamplesField("1000", Finite(1000.0))

  /** `numSamples < 1`; NaN compares false. */
  predicate BelowOne(n: JsNumber)
  {
    match n
    case Finite(v) => v < 1.0
    case NaN => false
    case PosInfinity => false
    case NegInfinity => true
  }

  // ---------------------------------------------------------------------
  // Header line and column selection
  // ---------------------------------------------------------------------

  /** `csvContent.split('\n')[0]`: the text before the first line feed. */
  function FirstLine(content: string): (line: string)
    ensures '\n' !in line
    ensures StartsWith(content, line)
    ensures |line| < |content| ==> content[|line|] == '\n'
  {
    SplitFirst(content, '\n');
    Split(content, '\n')[0]
  }

  /**
    `firstLine.split(',').map(header => header.trim())`: one name per comma
    plus one, each free of commas and line feeds and trimmed at both ends.
   */
  function Headers(content: string): (headers: seq<string>)
    ensures |headers| == Count(FirstLine(content), ',') + 1
    ensures forall i :: 0 <= i < |headers| ==>
      ',' !in headers[i] && '\n' !in headers[i] && Trimmed(headers[i], IsJsSpace)
  {
    var parts := Split(FirstLine(content), ',');
    forall i | 0 <= i < |parts| ensures ',' !in Strip(parts[i], IsJsSpace) && '\n' !in Strip(parts[i], IsJsSpace) {
      StripTrimmed(parts[i], IsJsSpace);
      JoinSplit(FirstLine(content), ',');
      JoinContains(parts, ',', i);
    }
    forall i | 0 <= i < |parts| ensures Trimmed(Strip(parts[i], IsJsSpace), IsJsSpace) {
      StripTrimmed(parts[i], IsJsSpace);
    }
    seq(|parts|, i requires 0 <= i < |parts| => Strip(parts[i], IsJsSpace))
  }

  /** Every character of a joined piece occurs in the joined text. */
  lemma {:induction false} JoinContains(parts: seq<string>, sep: char, i: nat)
    requires i < |parts|
    ensures forall c :: c in parts[i] ==> c in Join(parts, sep)
  {
    if |parts| > 1 {
      assert Join(parts, sep) == parts[0] + [sep] + Join(parts[1..], sep);
      if i > 0 {
        JoinContains(parts[1..], sep, i - 1);
        assert parts[1..][i - 1] == parts[i];
      }
    }
  }

  /** No name occurs twice. */
  predicate NoDup(xs: seq<string>)
  {
    forall i, j :: 0 <= i < j < |xs| ==> xs[i] != xs[j]
  }

  /** `prev.filter(col => col !== column)`. */
  function Remove(xs: seq<string>, x: string): (r: seq<string>)
    ensures |r| <= |xs|
    ensures forall y :: y in r <==> y in xs && y != x
  {
    if |xs| == 0 then []
    else
      assert forall y :: y in xs <==> y == xs[0] || y in xs[1..];
      (if xs[0] == x then [] else [xs[0]]) + Remove(xs[1..], x)
  }

  /** Filtering a name out of a list that lacks it leaves the list as it is. */
  lemma {:induction false} RemoveAbsent(xs: seq<string>, x: string)
    requires x !in xs
    ensures Remove(xs, x) == xs
  {
    if |xs| > 0 {
      RemoveAbsent(xs[1..], x);
      assert xs == [xs[0]] + xs[1..];
    }
  }

  /** In a list without repetitions, filtering out the name at position `k` cuts out exactly that position. */
  lemma {:induction false} RemoveAt(xs: seq<string>, k: nat)
    requires NoDup(xs) && k < |xs|
    ensures Remove(xs, xs[k]) == xs[..k] + xs[k + 1..]
  {
    if k == 0 {
      RemoveAbsent(xs[1..], xs[0]);
    } else {
      assert NoDup(xs[1..]);
      assert xs[1..][k - 1] == xs[k];
      RemoveAt(xs[1..], k - 1);
      assert xs[..k] == [xs[0]] + xs[1..][..k - 1];
      assert xs[k + 1..] == xs[1..][k..];
    }
  }

  /**
    `handleColumnSelect`'s update of the selection: a selected column is
    filtered out, any other is appended at the end.
   */
  function Toggle(selection: seq<string>, column: string): (r: seq<string>)
    ensures column in r <==> column !in selection
    ensures forall y :: y != column ==> (y in r <==> y in selection)
  {
    if column in selection then Remove(selection, column) else selection + [column]
  }

  /**
    Toggling keeps the selection free of repetitions; it flips the column's
    membership and no other; a new column goes to the end and a selected one
    is cut out of its place, the others keeping their order.
   */
  lemma ToggleSpec(selection: seq<string>, column: string)
    requires NoDup(selection)
    ensures var r := Toggle(selection, column);
      && NoDup(r)
      && (column in r <==> column !in selection)
      && (forall y :: y != column ==> (y in r <==> y in selection))
      && (column !in selection ==> r == selection + [column])
      && (column in selection ==>
            exists k :: 0 <= k < |selection| && selection[k] == column && r == selection[..k] + selection[k + 1..])
  {
    if column in selection {
      var k :| 0 <= k < |selection| && selection[k] == column;
      RemoveAt(selection, k);
      CutKeepsNoDup(selection, k);
    } else {
      AppendKeepsNoDup(selection, column);
    }
  }

  lemma CutKeepsNoDup(xs: seq<string>, k: nat)
    requires NoDup(xs) && k < |xs|
    ensures NoDup(xs[..k] + xs[k + 1..])
  {
    var r := xs[..k] + xs[k + 1..];
    forall i, j | 0 <= i < j < |r| ensures r[i] != r[j] {
      var i' := if i < k then i else i + 1;
      var j' := if j < k then j else j + 1;
      assert r[i] == xs[i'] && r[j] == xs[j'];
    }
  }

  lemma AppendKeepsNoDup(xs: seq<string>, x: string)
    requires NoDup(xs) && x !in xs
    ensures NoDup(xs + [x])
  {
    var r := xs + [x];
    forall i, j | 0 <= i < j < |r| ensures r[i] != r[j] {
      if j < |xs| {
        assert r[i] == xs[i] && r[j] == xs[j];
      } else {
        assert r[i] == xs[i] && r[j] == x;
      }
    }
  }

  /** Ticking a column and unticking it again restores the selection. */
  lemma ToggleTwice(selection: seq<string>, column: string)
    requires column !in selection
    ensures Toggle(Toggle(selection, column), column) == selection
  {
    RemoveAbsent(selection, column);
    RemoveAppend(selection, [column], column);
    assert Remove([column], column) == [] + Remove([], column);
  }

  /**
    Filtering distributes over concatenation, and a single name other than
    `x` is kept: so every occurrence of `x` goes and the other names keep
    their order.
   */
  lemma {:induction false} RemoveAppend(xs: seq<string>, ys: seq<string>, x: string)
    ensures Remove(xs + ys, x) == Remove(xs, x) + Remove(ys, x)
    ensures forall y :: y != x ==> Remove([y], x) == [y]
  {
    if |xs| == 0 {
      assert xs + ys == ys;
    } else {
      var head := if xs[0] == x then [] else [xs[0]];
      RemoveAppend(xs[1..], ys, x);
      assert (xs + ys)[0] == xs[0] && (xs + ys)[1..] == xs[1..] + ys;
      calc {
        Remove(xs + ys, x);
        head + Remove(xs[1..] + ys, x);
        head + (Remove(xs[1..], x) + Remove(ys, x));
        (head + Remove(xs[1..], x)) + Remove(ys, x);
      }
    }
    RemoveSingle(x);
  }

  lemma RemoveSingle(x: string)
    ensures forall y :: y != x ==> Remove([y], x) == [y]
  {
    forall y | y != x ensures Remove([y], x) == [y] {
      assert Remove([y], x) == [y] + Remove([], x);
    }
  }

  // ---------------------------------------------------------------------
  // The component's state and its transitions
  // ---------------------------------------------------------------------

  datatype FormState = FormState(
    file: Option<PickedFile>,
    categoricalColumns: string,
    numSamples: SamplesField,
    downloadLink: string,
    loading: bool,
    error: string,
    uploadProgress: int,
    validationError: string,
    availableColumns: seq<string>,
    selectedColumns: seq<string>)

  /** The `useState` initial values. */
  const InitialForm := FormState(None, "", InitialSamples, "", false, "", 0, "", [], [])

  /** The column text is the selection joined with commas, and the selection repeats no name. */
  predicate Synced(s: FormState)
  {
    s.categoricalColumns == Join(s.selectedColumns, ',') && NoDup(s.selectedColumns)
  }

  /** The submit button is enabled (`disabled={loading}`). */
  predicate CanSubmit(s: FormState)
  {
    !s.loading
  }

  /**
    `handleFileChange` once the reader has loaded the file: its header names
    become the offered columns and the selection is cleared. Cancelling the
    dialog only clears the file.
   */
  function FileChanged(s: FormState, picked: Option<PickedFile>): FormState
  {
    match picked
    case None => s.(file := None)
    case Some(f) => s.(file := picked, availableColumns := Headers(f.content), selectedColumns := [], categoricalColumns := "")
  }

  /** `handleColumnSelect(column)`. */
  function ColumnSelected(s: FormState, column: string): FormState
  {
    var selection := Toggle(s.selectedColumns, column);
    s.(selectedColumns := selection, categoricalColumns := Join(selection, ','))
  }

  /** The samples input's `onChange`. */
  function SamplesTyped(s: FormState, field: SamplesField): FormState
  {
    s.(numSamples := field)
  }

  /**
    `validateForm`: the message of the first failing check, in order: a
    file, a non-blank column text, at least one sample.
   */
  function FormError(s: FormState): (msg: Option<string>)
    ensures msg.None? <==>
      s.file.Some? && Strip(s.categoricalColumns, IsJsSpace) != "" && !BelowOne(s.numSamples.number)
    ensures s.file.None? ==> msg == Some("Please select a CSV file")
    ensures s.file.Some? && Strip(s.categoricalColumns, IsJsSpace) == "" ==>
      msg == Some("Please specify at least one categorical column")
    ensures s.file.Some? && Strip(s.categoricalColumns, IsJsSpace) != "" && BelowOne(s.numSamples.number) ==>
      msg == Some("Number of samples must be greater than 0")
  {
    if s.file.None? then Some("Please select a CSV file")
    else if Strip(s.categoricalColumns, IsJsSpace) == "" then Some("Please specify at least one categorical column")
    else if BelowOne(s.numSamples.number) then Some("Number of samples must be greater than 0")
    else None
  }

  /** The multipart fields posted to `/generate`. */
  datatype Payload = Payload(file: PickedFile, categoricalColumns: string, numSamples: string)

  /** The state after `handleSubmit`'s opening resets: loading, and error, validation error, link and progress cleared. */
  function SubmitStarted(s: FormState): FormState
  {
    s.(loading := true, error := "", validationError := "", downloadLink := "", uploadProgress := 0)
  }

  /**
    `handleSubmit` up to the request, as written: while the provider is
    still checking the server it reports "Waiting for server connection..."
    and returns with `loading` still set; an invalid form reports the first
    failure and clears `loading`; a valid form is posted, with the column
    text trimmed.
   */
  function Submit(s: FormState, apiIsLoading: bool): (r: (FormState, Option<Payload>))
    ensures apiIsLoading ==> r.1.None? && r.0.loading && r.0.error == "Waiting for server connection..."
    ensures r.1.Some? ==> FormError(s).None? && r.0.loading
    ensures !apiIsLoading && FormError(s).Some? ==> r.1.None? && !r.0.loading && r.0.error == FormError(s).value
    ensures r.0.downloadLink == "" && r.0.uploadProgress == 0 && r.0.validationError == ""
    ensures r.0.(loading := s.loading, error := s.error, downloadLink := s.downloadLink,
                 uploadProgress := s.uploadProgress, validationError := s.validationError) == s
  {
    var t := SubmitStarted(s);
    if apiIsLoading then (t.(error := "Waiting for server connection..."), None)
    else
      match FormError(t)
      case Some(msg) => (t.(error := msg, loading := false), None)
      case None => (t, Some(Payload(t.file.value, Strip(t.categoricalColumns, IsJsSpace), t.numSamples.text)))
  }

  /** `handleSubmit` with the waiting branch clearing `loading` before it returns, as the validation branch does. */
  function SubmitFixed(s: FormState, apiIsLoading: bool): (r: (FormState, Option<Payload>))
    ensures r.1 == Submit(s, apiIsLoading).1 && r.0.error == Submit(s, apiIsLoading).0.error
    ensures r.1.None? ==> CanSubmit(r.0)
    ensures r.0.(loading := s.loading, error := s.error, downloadLink := s.downloadLink,
                 uploadProgress := s.uploadProgress, validationError := s.validationError) == s
  {
    if apiIsLoading then (SubmitStarted(s).(error := "Waiting for server connection...", loading := false), None)
    else Submit(s, apiIsLoading)
  }

  /**
    A posted form always passed validation and carries the column text
    trimmed and the samples text unchanged; a form that is not posted shows
    a message.
   */
  lemma SubmitSendsValidForm(s: FormState, apiIsLoading: bool)
    ensures var (t, sent) := Submit(s, apiIsLoading);
      && (sent.Some? <==> !apiIsLoading && FormError(s).None?)
      && (sent.Some? ==>
            && sent.value == Payload(s.file.value, Strip(s.categoricalColumns, IsJsSpace), s.numSamples.text)
            && Strip(sent.value.categoricalColumns, IsJsSpace) != ""
            && t.loading && t.error == "")
      && (sent.None? ==> t.error != "")
  {
    StripIdempotent(s.categoricalColumns, IsJsSpace);
  }

  /** The user's edits while no request is in flight. */
  datatype Edit = PickFile(picked: Option<PickedFile>) | SelectColumn(column: string) | TypeSamples(field: SamplesField)

  function ApplyEdit(s: FormState, e: Edit): FormState
  {
    match e
    case PickFile(p) => FileChanged(s, p)
    case SelectColumn(c) => ColumnSelected(s, c)
    case TypeSamples(f) => SamplesTyped(s, f)
  }

  function ApplyEdits(s: FormState, edits: seq<Edit>): FormState
    decreases |edits|
  {
    if |edits| == 0 then s else ApplyEdits(ApplyEdit(s, edits[0]), edits[1..])
  }

  /** Every edit keeps the column text in step with a selection without repetitions. */
  lemma {:induction false} EditsKeepSynced(s: FormState, edits: seq<Edit>)
    requires Synced(s)
    ensures Synced(ApplyEdits(s, edits))
    decreases |edits|
  {
    if |edits| > 0 {
      var t := ApplyEdit(s, edits[0]);
      if edits[0].SelectColumn? {
        ToggleSpec(s.selectedColumns, edits[0].column);
      }
      EditsKeepSynced(t, edits[1..]);
    }
  }

  /**
    As written, submitting while the server check is pending disables the
    submit button, and no edit of the form enables it again.
   */
  lemma {:induction false} WaitingLocksForm(s: FormState, edits: seq<Edit>)
    ensures var (t, sent) := Submit(s, true);
      sent.None? && !CanSubmit(t) && !CanSubmit(ApplyEdits(t, edits))
  {
    var t := Submit(s, true).0;
    EditsKeepLoading(t, edits);
  }

  lemma {:induction false} EditsKeepLoading(s: FormState, edits: seq<Edit>)
    ensures ApplyEdits(s, edits).loading == s.loading
    decreases |edits|
  {
    if |edits| > 0 {
      EditsKeepLoading(ApplyEdit(s, edits[0]), edits[1..]);
    }
  }

  /**
    With the fix, every submission that posts nothing leaves the button
    enabled, and it posts exactly when the written version does.
   */
  lemma SubmitFixedUnlocks(s: FormState, apiIsLoading: bool)
    ensures var (t, sent) := SubmitFixed(s, apiIsLoading);
      && sent == Submit(s, apiIsLoading).1
      && (sent.None? ==> CanSubmit(t))
      && t.error == Submit(s, apiIsLoading).0.error
  {
  }

  /**
    How the request ended. `ErrorBody` is `JSON.parse` of a body: `Unparsable`
    when it throws, else the body's `error` member when it is a string.
   */
  datatype ErrorBody = Unparsable | Parsed(error: Option<string>)

  datatype PostOutcome =
      /** A 2xx answer whose content type includes `application/json`. */
    | JsonReply(body: ErrorBody)
      /** Any other 2xx answer: `link` is the object URL made for its blob. */
    | FileReply(link: string)
      /** A rejection whose `response.data` is a Blob. */
    | BlobError(body: ErrorBody)
      /** Any other rejection: `error.response?.data?.error`. */
    | OtherError(error: Option<string>)

  /** `e || fallback` for an optional string. */
  function OrElse(e: Option<string>, fallback: string): string
  {
    if e.Some? && e.value != "" then e.value else fallback
  }

  const GenerationFailed := "Error generating synthetic data"

  /**
    The rest of `handleSubmit` and its reader callbacks: the file becomes the
    download link, an error answer becomes the message, and `finally` clears
    `loading` and the progress. A JSON 2xx answer that does not parse throws
    inside the reader callback and sets no message.
   */
  function Finish(s: FormState, outcome: PostOutcome): (t: FormState)
    ensures !t.loading && t.uploadProgress == 0
    ensures t.downloadLink != s.downloadLink ==> outcome.FileReply?
    ensures !outcome.FileReply? && outcome != JsonReply(Unparsable) ==> t.error != ""
    ensures t.selectedColumns == s.selectedColumns && t.categoricalColumns == s.categoricalColumns && t.file == s.file
  {
    var r := match outcome
      case JsonReply(Unparsable) => s
      case JsonReply(Parsed(e)) => s.(error := OrElse(e, "Unknown error occurred"))
      case FileReply(link) => s.(downloadLink := link)
      case BlobError(Unparsable) => s.(error := GenerationFailed)
      case BlobError(Parsed(e)) => s.(error := OrElse(e, GenerationFailed))
      case OtherError(e) => s.(error := OrElse(e, GenerationFailed));
    r.(loading := false, uploadProgress := 0)
  }

  /** The component: its state hooks as fields, its handlers as methods. */
  class UploadFormState {
    var file: Option<PickedFile>
    var categoricalColumns: string
    var numSamples: SamplesField
    var downloadLink: string
    var loading: bool
    var error: string
    var uploadProgress: int
    var validationError: string
    var availableColumns: seq<string>
    var selectedColumns: seq<string>

    function State(): FormState
      reads this
    {
      FormState(file, categoricalColumns, numSamples, downloadLink, loading, error, uploadProgress,
                validationError, availableColumns, selectedColumns)
    }

    /** The column text is in step with the selection, which repeats no name. */
    ghost predicate Valid()
      reads this
    {
      Synced(State())
    }

    constructor ()
      ensures State() == InitialForm && Valid()
    {
      file, categoricalColumns, numSamples, downloadLink := None, "", InitialSamples, "";
      loading, error, uploadProgress, validationError := false, "", 0, "";
      availableColumns, selectedColumns := [], [];
    }

    method HandleFileChange(picked: Option<PickedFile>)
      requires Valid()
      modifies this
      ensures State() == FileChanged(old(State()), picked)
      ensures Valid()
    {
      file := picked;
      if picked.Some? {
        availableColumns := Headers(picked.value.content);
        selectedColumns := [];
        categoricalColumns := "";
      }
    }

    method HandleColumnSelect(column: string)
      requires Valid()
      modifies this
      ensures State() == ColumnSelected(old(State()), column)
      ensures Valid()
    {
      ToggleSpec(selectedColumns, column);
      var newSelection := if column in selectedColumns then Remove(selectedColumns, column) else selectedColumns + [column];
      categoricalColumns := Join(newSelection, ',');
      selectedColumns := newSelection;
    }

    method SetNumSamples(field: SamplesField)
      requires Valid()
      modifies this
      ensures State() == SamplesTyped(old(State()), field)
      ensures Valid()
    {
      numSamples := field;
    }

    /** `validateForm`: sets the message of the first failing check. */
    method ValidateForm() returns (ok: bool)
      requires Valid()
      modifies this
      ensures ok <==> FormError(old(State())).None?
      ensures State() == if ok then old(State()) else old(State()).(error := FormError(old(State())).value)
      ensures Valid()
    {
      if file.None? {
        error := "Please select a CSV file";
        return false;
      }
      if Strip(categoricalColumns, IsJsSpace) == "" {
        error := "Please specify at least one categorical column";
        return false;
      }
      if BelowOne(numSamples.number) {
        error := "Number of samples must be greater than 0";
        return false;
      }
      return true;
    }

    /** `handleSubmit` up to the request, as written; `apiIsLoading` is the provider's `isLoading`. */
    method HandleSubmit(apiIsLoading: bool) returns (sent: Option<Payload>)
      requires Valid()
      modifies this
      ensures (State(), sent) == Submit(old(State()), apiIsLoading)
      ensures Valid()
    {
      loading := true;
      error := "";
      validationError := "";
      downloadLink := "";
      uploadProgress := 0;
      if apiIsLoading {
        error := "Waiting for server connection...";
        return None;
      }
      var ok := ValidateForm();
      if !ok {
        loading := false;
        return None;
      }
      sent := Some(Payload(file.value, Strip(categoricalColumns, IsJsSpace), numSamples.text));
    }

    /** `handleSubmit` with the waiting branch clearing `loading`. */
    method HandleSubmitFixed(apiIsLoading: bool) returns (sent: Option<Payload>)
      requires Valid()
      modifies this
      ensures (State(), sent) == SubmitFixed(old(State()), apiIsLoading)
      ensures Valid()
    {
      if apiIsLoading {
        loading := false;
        error := "Waiting for server connection...";
        validationError := "";
        downloadLink := "";
        uploadProgress := 0;
        return None;
      }
      sent := HandleSubmit(apiIsLoading);
    }

    /** The request's outcome, the reader callbacks and the `finally` block. */
    method FinishSubmit(outcome: PostOutcome)
      requires Valid()
      modifies this
      ensures State() == Finish(old(State()), outcome)
      ensures Valid()
    {
      match outcome {
        case JsonReply(body) =>
          if body.Parsed? {
            error := OrElse(body.error, "Unknown error occurred");
          }
        case FileReply(link) =>
          downloadLink := link;
        case BlobError(body) =>
          error := if body.Parsed? then OrElse(body.error, GenerationFailed) else GenerationFailed;
        case OtherError(e) =>
          error := OrElse(e, GenerationFailed);
      }
      loading := false;
      uploadProgress := 0;
    }
  }
}
