/**
  Facts that span the two tiers: what the frontend posts is what the
  backend's handler reads, and the backend's health answer is what the
  frontend's probe calls online.
 */
module EndToEnd {
  import opened Wrappers
  import opened Text
  import opened Pipeline
  import App
  import ServerStatus
  import opened UploadForm

  /** The form fields of a posted payload as the handler's `request.form` sees them. */
  function FormFields(p: Payload): map<string, string>
  {
    map["categorical_columns" := p.categoricalColumns, "num_samples" := p.numSamples]
  }

  /** The whole multipart request of a posted payload. */
  function RequestOf(p: Payload): App.Request
  {
    App.Request(map["file" := App.Upload(p.file.name, p.file.content)], FormFields(p))
  }

  /** The answer of `GET /health` is read as online by the frontend's probe. */
  lemma HealthAnswerIsOnline(url: string, probe: (string, nat) -> ServerStatus.HttpOutcome)
    requires probe(url + "/health", ServerStatus.DefaultTimeoutMs)
      == ServerStatus.Responded(ServerStatus.Object(Some(App.HealthCheck()["status"])))
    ensures ServerStatus.CheckSingleServerHealth(url, probe).status == ServerStatus.Online
    ensures ServerStatus.CheckServerHealth(url, None, probe).result.error.None?
  {
  }

  /** Joining names that are trimmed with a separator that is not white space gives a trimmed text. */
  lemma {:induction false} JoinTrimmed(parts: seq<string>, sep: char, space: char -> bool)
    requires !space(sep)
    requires forall i :: 0 <= i < |parts| ==> Trimmed(parts[i], space)
    ensures Trimmed(Join(parts, sep), space)
  {
    if |parts| > 1 {
      JoinTrimmed(parts[1..], sep, space);
      var rest := Join(parts[1..], sep);
      var j := Join(parts, sep);
      assert j == parts[0] + [sep] + rest;
      assert j[0] == if |parts[0]| > 0 then parts[0][0] else sep;
      assert j[|j| - 1] == if |rest| > 0 then rest[|rest| - 1] else sep;
    }
  }

  /** Trimming and splitting a comma-joined list of trimmed, comma-free names gives the list back. */
  lemma JoinedNamesSplitBack(sel: seq<string>)
    requires forall i :: 0 <= i < |sel| ==> ',' !in sel[i] && Trimmed(sel[i], IsJsSpace)
    requires Strip(Join(sel, ','), IsJsSpace) != ""
    ensures Split(Strip(Join(sel, ','), IsJsSpace), ',') == sel
  {
    JoinTrimmed(sel, ',', IsJsSpace);
    StripUnchanged(Join(sel, ','), IsJsSpace);
    assert |sel| >= 1 by {
      assert Join(sel, ',') != "";
    }
    SplitJoin(sel, ',');
  }

  /**
    The columns the user ticked arrive at the pipeline as exactly that list:
    the frontend joins them with commas and trims the text, the backend
    splits it at the commas again. This holds for any ticked names taken
    from a header line, since those hold no comma and are already trimmed.
   */
  lemma SelectionArrives(s: FormState, apiIsLoading: bool, content: string)
    requires Synced(s)
    requires forall c :: c in s.selectedColumns ==> c in Headers(content)
    ensures var sent := SubmitFixed(s, apiIsLoading).1;
      sent.Some? ==> App.CategoricalColumns(FormFields(sent.value)) == s.selectedColumns
  {
    var sent := SubmitFixed(s, apiIsLoading).1;
    if sent.Some? {
      var sel := s.selectedColumns;
      assert forall i :: 0 <= i < |sel| ==> ',' !in sel[i] && Trimmed(sel[i], IsJsSpace) by {
        var headers := Headers(content);
        forall i | 0 <= i < |sel| ensures ',' !in sel[i] && Trimmed(sel[i], IsJsSpace) {
          assert sel[i] in headers;
        }
      }
      FixedSendsTrimmedText(s, apiIsLoading);
      JoinedNamesSplitBack(sel);
    }
  }

  /** What the corrected submission posts: the trimmed column text, which is not blank. */
  lemma FixedSendsTrimmedText(s: FormState, apiIsLoading: bool)
    ensures var sent := SubmitFixed(s, apiIsLoading).1;
      sent.Some? ==>
        sent.value.categoricalColumns == Strip(s.categoricalColumns, IsJsSpace)
        && Strip(s.categoricalColumns, IsJsSpace) != ""
  {
    SubmitSendsValidForm(s, apiIsLoading);
  }

  /**
    A samples field holding the decimal form of `n` reaches the pipeline as
    `n` when it has at most 4300 digits; a longer one passes the form's check
    and is refused by the backend's `int()`.
   */
  lemma SamplesArrive(s: FormState, apiIsLoading: bool, n: int)
    requires s.numSamples.text == IntToString(n)
    ensures var sent := SubmitFixed(s, apiIsLoading).1;
      sent.Some? ==>
        App.NumSamples(FormFields(sent.value))
          == if |Decimal(Abs(n))| <= MaxStrDigits then Success(n)
             else Failure(ValueError(IntErrorMessage(IntToString(n), ExceedsLimit(|Decimal(Abs(n))|))))
  {
    var sent := SubmitFixed(s, apiIsLoading).1;
    if sent.Some? {
      SubmitFixedUnlocks(s, apiIsLoading);
      App.NumSamplesRoundTrip(FormFields(sent.value), n);
    }
  }

  /** The frontend never posts a `metadata` field, so the pipeline always writes its metadata file. */
  lemma PostedMetadataIsEmpty(p: Payload, path: string)
    ensures App.HandlerConfig(FormFields(p), path).metadata == Mapping(map[])
  {
  }

  /**
    The frontend's check `numSamples < 1` lets "2.5" through, and the
    backend's `int()` refuses it: the request ends in a 500 answer.
   */
  lemma FractionalSamplesPassOnlyTheFrontend(s: FormState)
    requires s.file.Some? && Strip(s.categoricalColumns, IsJsSpace) != ""
    requires s.numSamples == SamplesField("2.5", Finite(2.5))
    ensures var sent := SubmitFixed(s, false).1;
      sent.Some? && App.NumSamples(FormFields(sent.value)).Failure?
  {
    var sent := SubmitFixed(s, false).1;
    SubmitSendsValidForm(s, false);
    assert FormError(s).None?;
    assert sent == Some(Payload(s.file.value, Strip(s.categoricalColumns, IsJsSpace), "2.5"));
    var form := FormFields(sent.value);
    assert form["num_samples"] == "2.5";
    App.FractionalSamplesRejected(form, 1);
  }
}
