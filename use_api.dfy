/**
 * The `useApi` hook: a loading flag and an error slot around one outbound
 * request. The request itself is not modelled; its outcome is a parameter.
 */
module UseApi {
  import opened Wrappers

  /** The error the request threw; `serverMessage` is `err.response?.data?.message` (`None` when absent). */
  datatype RequestError = RequestError(serverMessage: Option<string>)

  /** What `axios.post(url, data)` did: resolved with `response.data`, or threw. */
  datatype CallOutcome<T> = Resolved(data: T) | Threw(err: RequestError)

  const FallbackMessage: string := "An error occurred. Please try again."

  /**
   * `err.response?.data?.message || FallbackMessage`: the server's message
   * when it is present and non-empty (truthy), otherwise the fallback.
   * Either way the text shown is never empty.
   */
  function ErrorMessage(err: RequestError): (m: string)
    ensures m != ""
    ensures m == FallbackMessage || err.serverMessage == Some(m)
    ensures m == FallbackMessage <==>
      (err.serverMessage.None? || err.serverMessage.value in {"", FallbackMessage})
  {
    match err.serverMessage
    case Some(text) => if text != "" then text else FallbackMessage
    case None => FallbackMessage
  }

  /** The two `useState` values of the hook. */
  class RequestGateway {
    var isLoading: bool
    var error: Option<string>

    /** `useState(false)` and `useState(null)`. */
    constructor ()
      ensures !isLoading && error == None
    {
      isLoading, error := false, None;
    }

    /** `sendRequest` up to its `await`: loading, and no error. */
    method Begin()
      modifies this
      ensures isLoading && error == None
    {
      isLoading := true;
      error := None;
    }

    /**
     * `sendRequest` after its `await`. Loading ends either way. A resolved
     * call hands back its data unchanged and leaves `error` alone; a thrown
     * one records `ErrorMessage` and is passed on to the caller (the
     * rethrow).
     */
    method Complete<T>(outcome: CallOutcome<T>) returns (r: Result<T, RequestError>)
      modifies this
      ensures !isLoading
      ensures outcome.Resolved? ==> r == Ok(outcome.data) && error == old(error)
      ensures outcome.Threw? ==> r == Err(outcome.err) && error == Some(ErrorMessage(outcome.err))
    {
      match outcome
      case Resolved(data) =>
        isLoading := false;
        r := Ok(data);
      case Threw(err) =>
        isLoading := false;
        error := Some(ErrorMessage(err));
        r := Err(err);
    }

    /**
     * One whole `sendRequest` with no other request interleaved: success
     * returns the data with `error` still null; failure leaves a non-empty
     * `error` and propagates the same error.
     */
    method SendRequest<T>(outcome: CallOutcome<T>) returns (r: Result<T, RequestError>)
      modifies this
      ensures !isLoading
      ensures outcome.Resolved? ==> r == Ok(outcome.data) && error == None
      ensures outcome.Threw? ==>
        && r == Err(outcome.err)
        && error.Some? && error.value != ""
        && error == Some(ErrorMessage(outcome.err))
    {
      Begin();
      r := Complete(outcome);
    }
  }
}
