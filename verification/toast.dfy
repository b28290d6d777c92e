/** The upload flow's error notifications: sorting a failed request into
    an error type, and the text the toast shows for it. */
module Toast {
  import opened Base

  /** `ErrorType`. */
  datatype ErrorType = ClassificationError | WeightError | NetworkError | ImageError | SessionError | UnknownError
  {
    function Name(): string
    {
      match this
      case ClassificationError => "classification"
      case WeightError => "weight"
      case NetworkError => "network"
      case ImageError => "image"
      case SessionError => "session"
      case UnknownError => "unknown"
    }
  }

  /** What a failed request carries: its message and, when the server
      answered, the response status. */
  datatype ApiError = ApiError(message: string, status: Option<int>)

  /** `handleApiError`, with `navigator.onLine` as a parameter. */
  function HandleApiError(error: Option<ApiError>, online: bool): (r: ErrorType)
    ensures r != WeightError
    ensures error.None? ==> r == UnknownError
    ensures error.Some? && (!online || error.value.message == "Network Error") ==> r == NetworkError
  {
    match error
    case None => UnknownError
    case Some(e) =>
      if !online || e.message == "Network Error" then NetworkError
      else match e.status
        case None => UnknownError
        case Some(status) =>
          if status == 415 || status == 413 then ImageError
          else if status == 422 || status == 400 then ClassificationError
          else if status == 403 then SessionError
          else UnknownError
  }

  /** Apart from the network case, the type is decided by the status alone:
      413 and 415 are image errors, 400 and 422 classification errors, 403
      a session error, and every other status, or none, is unknown. */
  lemma StatusDecides(message: string, status: Option<int>)
    requires message != "Network Error"
    ensures var r := HandleApiError(Some(ApiError(message, status)), true);
      && (r == ImageError <==> status == Some(413) || status == Some(415))
      && (r == ClassificationError <==> status == Some(400) || status == Some(422))
      && (r == SessionError <==> status == Some(403))
      && (r == UnknownError <==> status.None? || status.value !in {400, 403, 413, 415, 422})
  {
  }

  /** Offline, or with the message `Network Error`, the status is never
      looked at. */
  lemma NetworkTakesPrecedence(e: ApiError, status: Option<int>, online: bool)
    requires !online || e.message == "Network Error"
    ensures HandleApiError(Some(e), online) == HandleApiError(Some(e.(status := status)), online)
  {
  }

  /** An error the API wrapper rethrows carries its own message and no
      response, so while online it is always unknown. */
  lemma RethrownIsUnknown(message: string)
    requires message != "Network Error"
    ensures HandleApiError(Some(ApiError(message, None)), true) == UnknownError
  {
  }

  /** The fixed text for each error type. */
  function FixedText(t: ErrorType): string
  {
    match t
    case ClassificationError => "Failed to classify the image. Please try again with a clearer photo."
    case WeightError => "Failed to update the waste weight. Please try again."
    case NetworkError => "Network error. Please check your connection and try again."
    case ImageError => "Error processing the image. Please try a different image."
    case SessionError => "Failed to start or reset the session. Please refresh the page."
    case UnknownError => "An unexpected error occurred. Please try again."
  }

  /** The text `notifyError` shows: the given message unless it is missing
      or empty, otherwise the type's fixed text. */
  function NotifyErrorText(t: ErrorType, message: Option<string>): (r: string)
    ensures message.Some? && message.value != "" ==> r == message.value
    ensures message.None? || message.value == "" ==> r == FixedText(t)
  {
    match message
    case Some(m) => if m != "" then m else FixedText(t)
    case None => FixedText(t)
  }
}
