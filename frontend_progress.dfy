/** The processing-status panel: the sentence shown for a result's
    `processingStatus`, the progress percentage derived from it, and the
    step marks under it. The panel computes a percentage only once, for
    "pending", and discards it, so no bar is displayed; the percentage
    function is modelled for what it computes. The status arrives as a
    string; any string outside the six known values falls to the `default`
    arm of each switch. */
module ProcessingStatusView {
  import opened Wrappers

  /** The six values of `MedicalResult.processingStatus`. */
  datatype ProcessingState = Pending | Transcribing | Extracting | Diagnosing | Completed | Error

  function StateValue(p: ProcessingState): string {
    match p
    case Pending => "pending"
    case Transcribing => "transcribing"
    case Extracting => "extracting"
    case Diagnosing => "diagnosing"
    case Completed => "completed"
    case Error => "error"
  }

  /** The state a known status string names. */
  function StateOf(s: string): (r: Option<ProcessingState>)
    ensures r.Some? ==> StateValue(r.value) == s
    ensures r.None? ==> forall p :: StateValue(p) != s
  {
    if s == "pending" then Some(Pending)
    else if s == "transcribing" then Some(Transcribing)
    else if s == "extracting" then Some(Extracting)
    else if s == "diagnosing" then Some(Diagnosing)
    else if s == "completed" then Some(Completed)
    else if s == "error" then Some(Error)
    else None
  }

  const UnknownStatusText := "Unknown status"

  /** `getStatusText`: one sentence per known state, "Unknown status" for
      anything else. */
  function StatusText(s: string): (r: string)
    ensures r != ""
    ensures r == UnknownStatusText <==> StateOf(s).None?
  {
    if s == "pending" then "Request submitted, waiting to start..."
    else if s == "transcribing" then "Transcribing audio file..."
    else if s == "extracting" then "Extracting medical information..."
    else if s == "diagnosing" then "Generating diagnosis and treatment plan..."
    else if s == "completed" then "Processing completed successfully!"
    else if s == "error" then "An error occurred during processing"
    else UnknownStatusText
  }

  /** `getProgressPercentage`: 0, 25, 50, 75 and 100 along the pipeline; an
      error or an unknown status gives 0. */
  function ProgressPercentage(s: string): (r: int)
    ensures 0 <= r <= 100
    ensures r == 100 <==> s == StateValue(Completed)
    ensures r == 0 <==> s !in {StateValue(Transcribing), StateValue(Extracting), StateValue(Diagnosing), StateValue(Completed)}
    ensures r % 25 == 0
  {
    if s == "pending" then 0
    else if s == "transcribing" then 25
    else if s == "extracting" then 50
    else if s == "diagnosing" then 75
    else if s == "completed" then 100
    else if s == "error" then 0
    else 0
  }

  /** The order a successful request moves through. */
  const Pipeline: seq<ProcessingState> := [Pending, Transcribing, Extracting, Diagnosing, Completed]

  /** Progress grows strictly along the pipeline, by a quarter at each step. */
  lemma ProgressAlongPipeline(i: nat, j: nat)
    requires i < j < |Pipeline|
    ensures ProgressPercentage(StateValue(Pipeline[i])) < ProgressPercentage(StateValue(Pipeline[j]))
    ensures ProgressPercentage(StateValue(Pipeline[i])) == 25 * i
  {
  }

  /** Each known state has its own sentence. */
  lemma StatusTextsDistinct(p: ProcessingState, q: ProcessingState)
    requires p != q
    ensures StatusText(StateValue(p)) != StatusText(StateValue(q))
  {
  }

  /** The classes of the "Request submitted" mark: green once processing
      has ended, either way, and gray while it runs. */
  const Green := "text-green-600"
  const Gray := "text-gray-400"

  function SubmittedMarkClass(s: string): (r: string)
    ensures r == Green <==> s == StateValue(Completed) || s == StateValue(Error)
    ensures r == Green || r == Gray
  {
    if s == "completed" || s == "error" then Green else Gray
  }

  /** The mark is gray for every status whose percentage lies strictly
      between 0 and 100: it is green only where the percentage is 0 or 100. */
  lemma SubmittedMarkGrayWhileRunning(s: string)
    ensures 0 < ProgressPercentage(s) < 100 ==> SubmittedMarkClass(s) == Gray
    ensures SubmittedMarkClass(s) == Green ==> ProgressPercentage(s) in {0, 100}
  {
  }

  /** The marks under "Request submitted", in display order. Each field is
      given by its truthiness in the result. */
  datatype Mark = Transcribed | Extracted | Diagnosed

  function LaterMarks(s: string, transcription: bool, extraction: bool, diagnosis: bool): (r: seq<Mark>)
    ensures Transcribed in r <==> transcription
    ensures Extracted in r <==> extraction && s != StateValue(Pending)
    ensures Diagnosed in r <==> diagnosis && s == StateValue(Completed)
    ensures forall i, j :: 0 <= i < j < |r| ==> MarkRank(r[i]) < MarkRank(r[j])
  {
    (if transcription then [Transcribed] else [])
    + (if extraction && s != "pending" then [Extracted] else [])
    + (if diagnosis && s == "completed" then [Diagnosed] else [])
  }

  function MarkRank(m: Mark): nat {
    match m
    case Transcribed => 0
    case Extracted => 1
    case Diagnosed => 2
  }

  /** "Diagnosis generated" appears only once processing has completed,
      when the percentage is full and the "Request submitted" mark is
      green; while the request is still pending at most the transcription
      mark shows. */
  lemma DiagnosedMarkOnlyWhenComplete(s: string, transcription: bool, extraction: bool, diagnosis: bool)
    ensures Diagnosed in LaterMarks(s, transcription, extraction, diagnosis) ==>
      ProgressPercentage(s) == 100 && SubmittedMarkClass(s) == Green
    ensures s == StateValue(Pending) ==> LaterMarks(s, transcription, extraction, diagnosis) == (if transcription then [Transcribed] else [])
  {
  }
}
