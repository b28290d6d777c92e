/** The upload flow's page state and its handlers, as a reducer: each
    `setState` of a handler is one transition.  A handler that awaits the
    API is split into the part before the call and the part after it, and
    the outcome of the call is an input.  This is the page without
    notifications; the page with them reuses these transitions. */
module StepMachine {
  import opened Base
  import WeightLedger

  datatype Step = StartStep | UploadStep | ResultStep | WeightStep

  type Summary = WeightLedger.WeightSummary<string>

  /** `AppState`. */
  datatype AppState = AppState(
    step: Step,
    currentImage: Option<string>,
    currentClassification: Option<Classification>,
    weightSummary: Option<Summary>,
    isLoading: bool,
    error: Option<string>)

  const ClassifyFailedMessage := "Failed to classify image. Please try again."
  const WeightFailedMessage := "Failed to update weight. Please try again."

  /** `initialState`. */
  const Initial := AppState(StartStep, None, None, None, false, None)

  /** `handleStart`: on to the upload step, nothing else touched. */
  function Start(s: AppState): (r: AppState)
    ensures r.step == UploadStep && r.(step := s.step) == s
  {
    s.(step := UploadStep)
  }

  /** `handleImageCapture` before the call: the image is kept, loading on,
      error cleared. */
  function CaptureBegin(s: AppState, image: string): (r: AppState)
    ensures r.currentImage == Some(image) && r.isLoading && r.error.None?
    ensures r.step == s.step && r.currentClassification == s.currentClassification && r.weightSummary == s.weightSummary
  {
    s.(currentImage := Some(image), isLoading := true, error := None)
  }

  /** `handleImageCapture` after the call: the classification and the
      result step on success; the step kept and the error set on failure;
      loading off either way. */
  function CaptureEnd<E>(s: AppState, outcome: Result<Classification, E>): (r: AppState)
    ensures !r.isLoading && r.currentImage == s.currentImage && r.weightSummary == s.weightSummary
    ensures outcome.Ok? ==> r.step == ResultStep && r.currentClassification == Some(outcome.value) && r.error == s.error
    ensures outcome.Failure? ==> r.step == s.step && r.currentClassification == s.currentClassification && r.error == Some(ClassifyFailedMessage)
  {
    match outcome
    case Ok(c) => s.(currentClassification := Some(c), step := ResultStep, isLoading := false)
    case Failure(_) => s.(error := Some(ClassifyFailedMessage), isLoading := false)
  }

  /** `handleContinueToWeight`: on to the weight step, nothing else
      touched. */
  function ContinueToWeight(s: AppState): (r: AppState)
    ensures r.step == WeightStep && r.(step := s.step) == s
  {
    s.(step := WeightStep)
  }

  /** `handleRetry`: back to the upload step with the image, the
      classification and the error cleared. */
  function Retry(s: AppState): (r: AppState)
    ensures r.step == UploadStep && r.currentImage.None? && r.currentClassification.None? && r.error.None?
    ensures r.weightSummary == s.weightSummary && r.isLoading == s.isLoading
  {
    s.(currentImage := None, currentClassification := None, step := UploadStep, error := None)
  }

  /** `state.currentClassification?.category` is truthy. */
  predicate HasCategory(s: AppState)
  {
    s.currentClassification.Some? && s.currentClassification.value.category.Some?
    && s.currentClassification.value.category.value != ""
  }

  /** `handleWeightSubmit` before the call: loading on. */
  function WeightBegin(s: AppState): (r: AppState)
    ensures r.isLoading && r.(isLoading := s.isLoading) == s
  {
    s.(isLoading := true)
  }

  /** `handleWeightSubmit` after the call: on success the new summary, the
      image and classification cleared and back to the upload step, with
      the error left as it was; on failure the error set and the step
      kept; loading off either way. */
  function WeightEnd<E>(s: AppState, outcome: Result<Summary, E>): (r: AppState)
    ensures !r.isLoading
    ensures outcome.Ok? ==>
      && r.weightSummary == Some(outcome.value) && r.currentImage.None? && r.currentClassification.None?
      && r.step == UploadStep && r.error == s.error
    ensures outcome.Failure? ==>
      && r.step == s.step && r.error == Some(WeightFailedMessage)
      && r.currentImage == s.currentImage && r.currentClassification == s.currentClassification
      && r.weightSummary == s.weightSummary
  {
    match outcome
    case Ok(summary) =>
      s.(weightSummary := Some(summary), currentImage := None, currentClassification := None, step := UploadStep, isLoading := false)
    case Failure(_) => s.(error := Some(WeightFailedMessage), isLoading := false)
  }

  /** `handleStopSession`: back to the start step, everything else kept. */
  function StopSession(s: AppState): (r: AppState)
    ensures r.step == StartStep && r.(step := s.step) == s
  {
    s.(step := StartStep)
  }

  /** `handleWeightSummaryUpdate`, and the summary fetched when the page
      loads: the summary replaced, nothing else touched. */
  function SummaryUpdate(s: AppState, summary: Summary): (r: AppState)
    ensures r.weightSummary == Some(summary) && r.(weightSummary := s.weightSummary) == s
  {
    s.(weightSummary := Some(summary))
  }

  /** One transition of the page. */
  datatype Event<E> =
    | StartEvent
    | CaptureBeginEvent(image: string)
    | CaptureEndEvent(classified: Result<Classification, E>)
    | ContinueEvent
    | RetryEvent
    | WeightBeginEvent
    | WeightEndEvent(updated: Result<Summary, E>)
    | StopEvent
    | SummaryEvent(summary: Summary)
    | SummaryFailedEvent(reason: E)

  /** The reducer.  A weight submit without a category never gets past its
      guard, so its transitions are taken only when there is one, and a
      failed summary fetch changes nothing.  No transition leads into the
      result step without a classification. */
  function Next<E>(s: AppState, e: Event<E>): (r: AppState)
    ensures ResultHasClassification(s) ==> ResultHasClassification(r)
    ensures e.WeightBeginEvent? && !HasCategory(s) ==> r == s
    ensures e.SummaryFailedEvent? ==> r == s
  {
    match e
    case StartEvent => Start(s)
    case CaptureBeginEvent(image) => CaptureBegin(s, image)
    case CaptureEndEvent(outcome) => CaptureEnd(s, outcome)
    case ContinueEvent => ContinueToWeight(s)
    case RetryEvent => Retry(s)
    case WeightBeginEvent => if HasCategory(s) then WeightBegin(s) else s
    case WeightEndEvent(outcome) => WeightEnd(s, outcome)
    case StopEvent => StopSession(s)
    case SummaryEvent(summary) => SummaryUpdate(s, summary)
    case SummaryFailedEvent(_) => s
  }

  /** The page after a sequence of transitions: no transitions leave it as
      it is, and the result step keeps its classification throughout. */
  function Run<E>(s: AppState, es: seq<Event<E>>): (r: AppState)
    ensures |es| == 0 ==> r == s
    ensures ResultHasClassification(s) ==> ResultHasClassification(r)
    decreases |es|
  {
    if |es| == 0 then s else Run(Next(s, es[0]), es[1..])
  }

  /** Running two sequences of transitions one after the other is running
      them joined. */
  lemma {:induction false} RunConcat<E>(s: AppState, a: seq<Event<E>>, b: seq<Event<E>>)
    ensures Run(s, a + b) == Run(Run(s, a), b)
    decreases |a|
  {
    if |a| > 0 {
      assert (a + b)[0] == a[0];
      assert (a + b)[1..] == a[1..] + b;
      RunConcat(Next(s, a[0]), a[1..], b);
    } else {
      assert a + b == b;
    }
  }

  /** The result step always has a classification to show. */
  predicate ResultHasClassification(s: AppState)
  {
    s.step == ResultStep ==> s.currentClassification.Some?
  }

  /** A whole image capture, the handler's two transitions in a row: a
      successful capture shows the result with the image kept and no error;
      a failed one keeps the step, reports the error and stops loading. */
  function Capture<E>(s: AppState, image: string, outcome: Result<Classification, E>): (r: AppState)
    ensures r.currentImage == Some(image) && !r.isLoading && r.weightSummary == s.weightSummary
    ensures outcome.Ok? ==> r.step == ResultStep && r.currentClassification == Some(outcome.value) && r.error.None?
    ensures outcome.Failure? ==>
      r.step == s.step && r.currentClassification == s.currentClassification && r.error == Some(ClassifyFailedMessage)
  {
    CaptureEnd(CaptureBegin(s, image), outcome)
  }

  /** A whole weight submit: nothing at all without a category, otherwise
      the handler's two transitions in a row, which change exactly the
      fields the outcome names. */
  function WeightSubmit<E>(s: AppState, outcome: Result<Summary, E>): (r: AppState)
    ensures !HasCategory(s) ==> r == s
    ensures HasCategory(s) && outcome.Ok? ==>
      r == s.(weightSummary := Some(outcome.value), currentImage := None,
              currentClassification := None, step := UploadStep, isLoading := false)
    ensures HasCategory(s) && outcome.Failure? ==>
      r == s.(error := Some(WeightFailedMessage), isLoading := false)
  {
    if HasCategory(s) then WeightEnd(WeightBegin(s), outcome) else s
  }

  /** A full round from the start screen: start, a successful capture,
      continue, and a successful weight submit end on the upload step with
      the new summary and nothing left over from the item. */
  lemma FullRound<E>(image: string, c: Classification, summary: Summary)
    requires c.category.Some? && c.category.value != ""
    ensures var s := WeightSubmit<E>(ContinueToWeight(Capture<E>(Start(Initial), image, Ok(c))), Ok(summary));
      s == AppState(UploadStep, None, None, Some(summary), false, None)
  {
  }

  /** Stopping keeps the image, the classification and the summary, so a
      new start comes back to them. */
  lemma StopThenStartResumes(s: AppState)
    ensures Start(StopSession(s)) == Start(s)
  {
  }

  /** A summary, fetched or pushed, replaces only the summary; a failed
      fetch changes nothing. */
  lemma SummaryChangesOnlySummary<E>(s: AppState, summary: Summary, reason: E)
    ensures var e: Event<E> := SummaryEvent(summary); Next(s, e).weightSummary == Some(summary)
    ensures var e: Event<E> := SummaryEvent(summary); Next(s, e).(weightSummary := s.weightSummary) == s
    ensures Next(s, SummaryFailedEvent(reason)) == s
  {
  }

  /** The page before anything happens. */
  lemma InitialIsEmpty()
    ensures Initial.step == StartStep && !Initial.isLoading
    ensures Initial.currentImage.None? && Initial.currentClassification.None?
    ensures Initial.weightSummary.None? && Initial.error.None?
    ensures ResultHasClassification(Initial)
  {
  }
}
