/** The upload page: the same transitions as the plain page, plus the
    notifications it raises on the way.  A failed request is an `ApiError`
    when the server or the network produced one and `None` for anything
    else thrown; whether the browser is online is a parameter. */
module UploadFlow {
  import opened Base
  import opened Toast
  import opened StepMachine

  /** A notification on screen. */
  datatype Notice = SuccessNotice(text: string) | ErrorNotice(kind: ErrorType, text: string)

  type UploadEvent = Event<Option<ApiError>>

  const ClassifiedText := "Image successfully classified!"
  const SummaryFailedText := "Failed to load current waste summary data."

  /** `Weight of ${weight} kg added successfully!`, with the weight already
      rendered as text. */
  function WeightAddedText(weightText: string): string
  {
    "Weight of " + weightText + " kg added successfully!"
  }

  /** `notifyError({ type: handleApiError(error) })` for a failed request. */
  function FailureNotice(reason: Option<ApiError>, online: bool): (r: Notice)
    ensures r.ErrorNotice? && r.kind == HandleApiError(reason, online) && r.text == FixedText(r.kind)
  {
    ErrorNotice(HandleApiError(reason, online), NotifyErrorText(HandleApiError(reason, online), None))
  }

  /** The notification a transition raises, if any: the two successes, the
      two failures and the failed summary fetch on page load. */
  function NoticeFor(e: UploadEvent, online: bool, weightText: string): (r: Option<Notice>)
    ensures r.Some? <==> e.CaptureEndEvent? || e.WeightEndEvent? || e.SummaryFailedEvent?
    ensures r.Some? && r.value.SuccessNotice? <==>
      (e.CaptureEndEvent? && e.classified.Ok?) || (e.WeightEndEvent? && e.updated.Ok?)
  {
    match e
    case CaptureEndEvent(Ok(_)) => Some(SuccessNotice(ClassifiedText))
    case CaptureEndEvent(Failure(reason)) => Some(FailureNotice(reason, online))
    case WeightEndEvent(Ok(_)) => Some(SuccessNotice(WeightAddedText(weightText)))
    case WeightEndEvent(Failure(reason)) => Some(FailureNotice(reason, online))
    case SummaryFailedEvent(reason) =>
      var kind := HandleApiError(reason, online);
      Some(ErrorNotice(kind, NotifyErrorText(kind, Some(SummaryFailedText))))
    case _ => None
  }

  /** The page after a sequence of transitions, with the notifications it
      raised in order.  The weight shown in a weight notification is taken
      from `weightText`.  The notifications change nothing: the upload page
      goes through exactly the states of the plain page. */
  function Session(s: AppState, es: seq<UploadEvent>, online: bool, weightText: string): (r: (AppState, seq<Notice>))
    ensures r.0 == StepMachine.Run(s, es)
    ensures |r.1| <= |es|
    decreases |es|
  {
    if |es| == 0 then (s, [])
    else
      var rest := Session(StepMachine.Next(s, es[0]), es[1..], online, weightText);
      match NoticeFor(es[0], online, weightText)
      case None => rest
      case Some(n) => (rest.0, [n] + rest.1)
  }

  /** One step of a session: the first transition's notification, if any,
      ahead of the rest's. */
  lemma SessionStep(s: AppState, es: seq<UploadEvent>, online: bool, weightText: string)
    requires |es| > 0
    ensures var n := NoticeFor(es[0], online, weightText);
      var tail := Session(StepMachine.Next(s, es[0]), es[1..], online, weightText).1;
      Session(s, es, online, weightText).1 == if n.Some? then [n.value] + tail else tail
  {
  }

  /** Each notification comes from its own transition: the session raises,
      in order, the notification of every capture or weight result and every
      failed summary fetch, and no other. */
  lemma {:induction false} OneNoticePerResult(s: AppState, es: seq<UploadEvent>, online: bool, weightText: string)
    ensures |Session(s, es, online, weightText).1| == |ResultEvents(es)|
    ensures forall i :: 0 <= i < |ResultEvents(es)| ==>
      NoticeFor(ResultEvents(es)[i], online, weightText) == Some(Session(s, es, online, weightText).1[i])
    decreases |es|
  {
    if |es| > 0 {
      var s1 := StepMachine.Next(s, es[0]);
      OneNoticePerResult(s1, es[1..], online, weightText);
      SessionStep(s, es, online, weightText);
      var notices, tail := Session(s, es, online, weightText).1, Session(s1, es[1..], online, weightText).1;
      var results, rest := ResultEvents(es), ResultEvents(es[1..]);
      var n := NoticeFor(es[0], online, weightText);
      if n.Some? {
        assert notices == [n.value] + tail;
        assert results == [es[0]] + rest;
        forall i | 0 <= i < |results| ensures NoticeFor(results[i], online, weightText) == Some(notices[i]) {
          if i > 0 {
            assert results[i] == rest[i - 1] && notices[i] == tail[i - 1];
          }
        }
      } else {
        assert notices == tail && results == rest;
      }
    }
  }

  /** The transitions that raise a notification. */
  function ResultEvents(es: seq<UploadEvent>): seq<UploadEvent>
    decreases |es|
  {
    if |es| == 0 then []
    else if es[0].CaptureEndEvent? || es[0].WeightEndEvent? || es[0].SummaryFailedEvent? then [es[0]] + ResultEvents(es[1..])
    else ResultEvents(es[1..])
  }

  /** No notification is ever of the weight type: the classifier of failed
      requests never produces it. */
  lemma {:induction false} NoWeightNotice(s: AppState, es: seq<UploadEvent>, online: bool, weightText: string)
    ensures forall i :: 0 <= i < |Session(s, es, online, weightText).1| ==>
      !(Session(s, es, online, weightText).1[i].ErrorNotice? && Session(s, es, online, weightText).1[i].kind == WeightError)
    decreases |es|
  {
    if |es| > 0 {
      NoWeightNotice(StepMachine.Next(s, es[0]), es[1..], online, weightText);
    }
  }

  /** The weight request wrapper rethrows a bare error with its own message,
      so while online a failed weight update is reported as unexpected, not
      with the weight text. */
  lemma RethrownWeightFailure(s: AppState, weightText: string)
    ensures var e: UploadEvent := WeightEndEvent(Failure(Some(ApiError("Failed to update weight", None))));
      NoticeFor(e, true, weightText) == Some(ErrorNotice(UnknownError, "An unexpected error occurred. Please try again."))
  {
    RethrownIsUnknown("Failed to update weight");
  }

  /** What the classify wrapper returns instead of throwing when its request
      fails. */
  const WrapperFailure := Classification(None, 0.0, None, Some("Failed to classify waste image"))

  /** Because the classify wrapper never throws, a failed request still
      reaches the result step with the success notification, and the weight
      submit that follows is a no-op for want of a category. */
  lemma FailedClassifyLooksClassified(s: AppState, image: string, online: bool, weightText: string, outcome: Result<Summary, Option<ApiError>>)
    ensures var r := Session(s, [CaptureBeginEvent(image), CaptureEndEvent(Ok(WrapperFailure))], online, weightText);
      && r.0.step == ResultStep && !HasCategory(r.0)
      && r.1 == [SuccessNotice(ClassifiedText)]
      && WeightSubmit(ContinueToWeight(r.0), outcome) == ContinueToWeight(r.0)
  {
    var es: seq<UploadEvent> := [CaptureBeginEvent(image), CaptureEndEvent(Ok(WrapperFailure))];
    var s1 := CaptureBegin(s, image);
    var s2 := CaptureEnd<Option<ApiError>>(s1, Ok(WrapperFailure));
    assert es[1..][1..] == [];
    assert Session(s2, es[1..][1..], online, weightText) == (s2, []);
    assert es[1..][0] == CaptureEndEvent(Ok(WrapperFailure));
    assert StepMachine.Next(s1, es[1..][0]) == s2;
    assert NoticeFor(es[1..][0], online, weightText) == Some(SuccessNotice(ClassifiedText));
    var none: seq<Notice> := [];
    assert [SuccessNotice(ClassifiedText)] + none == [SuccessNotice(ClassifiedText)];
    assert Session(s1, es[1..], online, weightText) == (s2, [SuccessNotice(ClassifiedText)]);
    assert Session(s, es, online, weightText) == (s2, [SuccessNotice(ClassifiedText)]);
  }
}
