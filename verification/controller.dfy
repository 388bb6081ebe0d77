/**
  The upload controller of the CV matcher page: the five pieces of component
  state as one immutable record, and one pure transition per handler — file
  selection, drop, the start of a submission, a tick of the simulated
  progress bar, and the settlement of the request.
 */
module UploadController {
  import opened Basics
  import opened Json
  import opened Text
  import opened Errors
  import opened Normaliser

  /** The file the user picked: only its size and media type are inspected. */
  datatype CandidateFile = CandidateFile(name: string, size: nat, mediaType: string)

  const PdfType := "application/pdf"
  const JsonType := "application/json"

  /** 10 MiB: the largest accepted size, inclusive. */
  const MaxBytes: nat := 10 * 1024 * 1024

  /** The file passes the page's checks. A PDF of exactly 10 MiB is accepted
      and one byte more is refused. */
  predicate Acceptable(f: CandidateFile)
    ensures f.size == MaxBytes ==> (Acceptable(f) <==> f.mediaType == PdfType)
    ensures f.size == MaxBytes + 1 ==> !Acceptable(f)
  {
    f.mediaType == PdfType && f.size <= MaxBytes
  }

  /** What the error banner shows; `NoNotice` is the empty string. */
  datatype Notice =
    | NoNotice
    | NotPdf                     // the picked file is not a PDF
    | TooLarge                   // a PDF over 10 MiB
    | NoFileChosen               // submit pressed with no file
    | NoMatchesFound             // the service answered with an empty list
    | RequestFailed(failure: Failure)

  /** The banner text: empty exactly when there is no notice, and for a
      failed request the caught failure's message. */
  function NoticeText(n: Notice): (r: string)
    ensures r == "" <==> n == NoNotice
    ensures n.RequestFailed? ==> r == CaughtMessage(n.failure)
  {
    match n
    case NoNotice => ""
    case NotPdf => "Please choose a PDF file"
    case TooLarge => "File too large. Please choose a file under 10MB"
    case NoFileChosen => "Please choose a CV file"
    case NoMatchesFound => "No matching position found. Try another CV or add more skills."
    case RequestFailed(f) => CaughtMessage(f)
  }

  datatype UiState = UiState(
    file: Option<CandidateFile>,
    loading: bool,
    results: Option<seq<JobMatch>>,
    notice: Notice,
    progress: int)

  const Initial := UiState(None, false, None, NoNotice, 0)

  // ---------------------------------------------------------------------
  // File selection
  // ---------------------------------------------------------------------

  /** `handleFileChange`: only the first file of the event is looked at. The
      type is checked before the size, and a rejected file clears the
      selection but keeps any earlier results. */
  function SelectFile(s: UiState, files: seq<CandidateFile>): (t: UiState)
    ensures |files| == 0 ==> t == s
    ensures |files| > 0 ==> (t.file == Some(files[0]) <==> Acceptable(files[0]))
    ensures |files| > 0 && !Acceptable(files[0]) ==> t.file == None && t.notice != NoNotice
    ensures |files| > 0 && files[0].mediaType != PdfType ==> t.notice == NotPdf
    ensures |files| > 0 && files[0].mediaType == PdfType && files[0].size > MaxBytes ==> t.notice == TooLarge
    ensures |files| > 0 && Acceptable(files[0]) ==> t.notice == NoNotice && t.results == None
    ensures |files| > 0 && !Acceptable(files[0]) ==> t.results == s.results
    ensures t.loading == s.loading && t.progress == s.progress
  {
    if |files| == 0 then
      s
    else
      var f := files[0];
      if f.mediaType == PdfType then
        if f.size > MaxBytes then
          s.(notice := TooLarge, file := None)
        else
          s.(file := Some(f), notice := NoNotice, results := None)
      else
        s.(notice := NotPdf, file := None)
  }

  /** `handleDrop`: forwards the first dropped file, if any, as a selection. */
  function DropFiles(s: UiState, files: seq<CandidateFile>): (t: UiState)
    ensures |files| == 0 ==> t == s
  {
    if |files| > 0 then SelectFile(s, [files[0]]) else s
  }

  /** Dropping files has exactly the effect of selecting them. */
  lemma DropIsSelection(s: UiState, files: seq<CandidateFile>)
    ensures DropFiles(s, files) == SelectFile(s, files)
  {
  }

  /** Choosing the same file twice is the same as choosing it once, whether or not it is accepted. */
  lemma SelectIdempotent(s: UiState, f: CandidateFile)
    ensures SelectFile(SelectFile(s, [f]), [f]) == SelectFile(s, [f])
  {
  }

  // ---------------------------------------------------------------------
  // Submission
  // ---------------------------------------------------------------------

  /** The start of `handleUpload`: either refused for lack of a file, or the
      request for the selected file with the state reset for a new attempt. */
  datatype Submission =
    | Refused(state: UiState)
    | Requested(state: UiState, cv: CandidateFile)

  function BeginUpload(s: UiState): (r: Submission)
    ensures r.Refused? <==> s.file.None?
    ensures r.Refused? ==> r.state.notice == NoFileChosen && r.state.(notice := s.notice) == s
    ensures r.Requested? ==> r.cv == s.file.value && r.state.file == s.file
    ensures r.Requested? ==> r.state.loading && r.state.notice == NoNotice
    ensures r.Requested? ==> r.state.results.None? && r.state.progress == 0
  {
    if s.file.None? then
      Refused(s.(notice := NoFileChosen))
    else
      Requested(s.(loading := true, notice := NoNotice, results := None, progress := 0), s.file.value)
  }

  // ---------------------------------------------------------------------
  // Simulated progress
  // ---------------------------------------------------------------------

  /** The progress bar's upper bound while waiting for the response. */
  const ProgressCap := 90
  const ProgressStep := 10

  /** One firing of the progress timer. */
  function Tick(p: int): (r: int)
    ensures r == p <==> p == ProgressCap
    ensures 0 <= p <= ProgressCap && p % ProgressStep == 0 ==>
      p <= r <= ProgressCap && r % ProgressStep == 0
    ensures p >= ProgressCap ==> r == ProgressCap
    ensures p < ProgressCap ==> r == p + ProgressStep
  {
    if p >= ProgressCap then ProgressCap else p + ProgressStep
  }

  /** The progress value after `n` timer firings, starting from 0. */
  function Ticks(n: nat): int {
    if n == 0 then 0 else Tick(Ticks(n - 1))
  }

  /** From 0 the bar climbs by 10 per firing and stays at 90 from the
      ninth firing on. */
  lemma {:induction false} TicksClosedForm(n: nat)
    ensures Ticks(n) == if n >= 9 then ProgressCap else ProgressStep * n
  {
    if n > 0 {
      TicksClosedForm(n - 1);
    }
  }

  /** Progress never goes backwards and never leaves [0, 90]. */
  lemma TicksMonotone(m: nat, n: nat)
    requires m <= n
    ensures 0 <= Ticks(m) <= Ticks(n) <= ProgressCap
    ensures Ticks(n) % ProgressStep == 0
  {
    TicksClosedForm(m);
    TicksClosedForm(n);
  }

  // ---------------------------------------------------------------------
  // Settlement
  // ---------------------------------------------------------------------

  /** What fetch delivered: the status, the content-type header (absent when
      the server sent none), the body text and, when it decodes, the body as
      JSON. */
  datatype HttpResponse = HttpResponse(
    status: nat,
    contentType: Option<string>,
    body: string,
    decoded: Option<JsValue>)

  /** `response.ok`: a status in the 200-299 range, that is, of the 2xx class. */
  predicate StatusOk(status: nat)
    ensures StatusOk(status) <==> status / 100 == 2
  {
    200 <= status <= 299
  }

  /** The content-type header is present and contains `application/json`
      anywhere, so parameters such as `; charset=utf-8` are allowed; a
      missing or empty header is refused. */
  predicate DeclaresJson(r: HttpResponse)
    ensures r.contentType.Some? && JsonType <= r.contentType.value ==> DeclaresJson(r)
    ensures r.contentType.None? || r.contentType == Some("") ==> !DeclaresJson(r)
  {
    r.contentType.Some? && Includes(r.contentType.value, JsonType)
  }

  /** The checks on the response before its body is interpreted: the status
      comes first, then the content type, then JSON decoding. */
  function Triage(resp: HttpResponse): (r: Result<JsValue, Failure>)
    ensures !StatusOk(resp.status) ==> r == Err(ServerFailure(resp.status, resp.body))
    ensures StatusOk(resp.status) && !DeclaresJson(resp) ==> r == Err(NotJson)
    ensures r.Ok? <==> StatusOk(resp.status) && DeclaresJson(resp) && resp.decoded.Some?
    ensures r.Ok? ==> r.value == resp.decoded.value
    ensures StatusOk(resp.status) && DeclaresJson(resp) && resp.decoded.None? ==> r == Err(Undecodable)
  {
    if !StatusOk(resp.status) then
      Err(ServerFailure(resp.status, resp.body))
    else if resp.contentType.None? || !Includes(resp.contentType.value, JsonType) then
      Err(NotJson)
    else if resp.decoded.None? then
      Err(Undecodable)
    else
      Ok(resp.decoded.value)
  }

  /** How the request ended: fetch rejected, or it resolved with a response. */
  datatype FetchOutcome = Rejected | Resolved(response: HttpResponse)

  /** The rest of `handleUpload` once the request settles. A resolved fetch
      sets the bar to 100 before any check; a rejected fetch skips that
      assignment. Either way the busy flag is cleared and the selected file
      is kept for another attempt. */
  function Settle(s: UiState, outcome: FetchOutcome): (t: UiState)
    ensures !t.loading && t.file == s.file
    ensures outcome.Resolved? ==> t.progress == 100
    ensures outcome.Rejected? ==> t.progress == s.progress && t.notice == RequestFailed(NetworkError)
    ensures outcome.Rejected? ==> t.results == s.results
    ensures t.results != s.results ==> t.results.Some? && |t.results.value| > 0 && t.notice == s.notice
    ensures t.notice != s.notice ==> t.results == s.results
    ensures outcome.Resolved? && Triage(outcome.response).Err? ==>
              t.notice == RequestFailed(Triage(outcome.response).error) && t.results == s.results
    ensures outcome.Resolved? && Triage(outcome.response).Ok? ==>
              match Normalise(Triage(outcome.response).value)
              case Failed(f) => t.notice == RequestFailed(f) && t.results == s.results
              case NoMatches => t.notice == NoMatchesFound && t.results == s.results
              case Matches(rs) => t.results == Some(rs) && t.notice == s.notice
  {
    match outcome
    case Rejected =>
      s.(loading := false, notice := RequestFailed(NetworkError))
    case Resolved(resp) =>
      var s1 := s.(progress := 100, loading := false);
      match Triage(resp)
      case Err(f) => s1.(notice := RequestFailed(f))
      case Ok(data) =>
        match Normalise(data)
        case Failed(f) => s1.(notice := RequestFailed(f))
        case NoMatches => s1.(notice := NoMatchesFound)
        case Matches(records) => s1.(results := Some(records))
  }

  /** A full submission of a selected file: afterwards either the results are
      shown and the banner is empty, or there are no results and the banner
      says why; which one is decided by the response alone. */
  lemma SubmissionOutcome(s: UiState, resp: HttpResponse)
    requires s.file.Some?
    ensures var t := Settle(BeginUpload(s).state, Resolved(resp));
      && t.file == s.file && !t.loading && t.progress == 100
      && (t.results.Some? <==> t.notice == NoNotice)
      && (t.results.Some? <==> Triage(resp).Ok? && Normalise(Triage(resp).value).Matches?)
      && (t.results.Some? ==> t.results.value == Normalise(Triage(resp).value).records)
      && (t.results.Some? ==> Ok(t.results.value) == NormaliseAll(ExtractList(Triage(resp).value).value))
      && (t.notice == NoMatchesFound <==> Triage(resp).Ok? && Normalise(Triage(resp).value).NoMatches?)
  {
  }

  /** A non-ok status is reported as a server error whatever the content type
      and body, and the banner names the status code. */
  lemma ServerErrorFirst(s: UiState, resp: HttpResponse)
    requires s.file.Some? && !StatusOk(resp.status)
    ensures var t := Settle(BeginUpload(s).state, Resolved(resp));
      && t.notice == RequestFailed(ServerFailure(resp.status, resp.body))
      && t.results.None?
      && Includes(NoticeText(t.notice), DecimalString(resp.status))
  {
    ServerErrorMessageContents(resp.status, resp.body);
  }
}
