/**
 * `executeApiCall`: the single place where a transport outcome (an HTTP
 * response, or an exception thrown while obtaining one) becomes a `Result`.
 */
module NetworkExtensions {
  import opened Wrappers
  import opened TodoExceptions
  import opened Results

  /** A Retrofit response: status code, parsed body, raw error body text. */
  datatype Response<T> = Response(code: int, body: Option<T>, errorBody: Option<string>) {
    /** Retrofit's `isSuccessful`: a 2xx status. */
    predicate IsSuccessful() {
      200 <= code < 300
    }
  }

  /**
   * What invoking the API produced: a response, or an exception with an
   * optional message. `Threw` also stands for an exception raised while the
   * error body of a non-2xx response is being read, which the same catch
   * turns into an UnknownError.
   */
  datatype ApiCallOutcome<T> = Responded(response: Response<T>) | Threw(message: Option<string>)

  const UnknownErrorFallback := "Unknown error"

  /**
   * Exactly one result per outcome: success only for a 2xx response with a
   * body; EmptyBodyError for a 2xx without one; NetworkError with the exact
   * status and error body for every other status; UnknownError for a throw.
   */
  function ExecuteApiCall<T>(call: ApiCallOutcome<T>): (r: Result<T>)
    ensures r.Success? <==> call.Responded? && call.response.IsSuccessful() && call.response.body.Some?
    ensures r.Success? ==> r.value == call.response.body.value
    ensures r.Failure? ==> r.exception.TodoError?
    ensures call.Responded? && call.response.IsSuccessful() && call.response.body.None? ==>
              r.Failure? && r.exception.error == EmptyBodyError
    ensures call.Responded? && !call.response.IsSuccessful() ==>
              r.Failure? && r.exception.error == NetworkError(call.response.code, call.response.errorBody)
    ensures call.Threw? ==>
              r.Failure? && r.exception.error == UnknownError(call.message.GetOr(UnknownErrorFallback))
  {
    match call
    case Threw(message) => Failure(TodoError(UnknownError(message.GetOr(UnknownErrorFallback))))
    case Responded(response) =>
      if response.IsSuccessful() then
        match response.body
        case Some(b) => Success(b)
        case None => Failure(TodoError(EmptyBodyError))
      else
        Failure(TodoError(NetworkError(response.code, response.errorBody)))
  }

  /**
   * No per-status classification: whatever the outcome, a failure is one of
   * EmptyBody, Network or Unknown, never Unauthorized, NotFound, Server, ...
   */
  lemma OnlyThreeFailureKinds<T>(call: ApiCallOutcome<T>)
    ensures var r := ExecuteApiCall(call);
      r.Failure? ==> KindOf(r.exception.error) in {EmptyBody, Network, Unknown}
  {
  }

  /**
   * For an unsuccessful status, the message the stores display is a network
   * error message naming that exact status (401, 404 and 5xx alike).
   */
  lemma UnsuccessfulStatusNamedInMessage<T>(call: ApiCallOutcome<T>)
    requires call.Responded? && !call.response.IsSuccessful()
    ensures var r := ExecuteApiCall(call);
      && r.Failure?
      && ClassifyMessage(Message(r.exception.error)) == Some(Network)
      && NetworkErrorCodeOf(Message(r.exception.error)) == Some(call.response.code)
  {
    var e := NetworkError(call.response.code, call.response.errorBody);
    ClassifyMessageRecoversKind(e);
    NetworkErrorMessageNamesCode(call.response.code, call.response.errorBody);
  }

  /** Every failure the normaliser produces carries a non-null message. */
  lemma FailuresCarryMessages<T>(call: ApiCallOutcome<T>)
    ensures var r := ExecuteApiCall(call);
      r.Failure? ==> MessageOf(r.exception).Some?
  {
  }
}
