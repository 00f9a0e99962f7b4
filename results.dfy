/**
 * Kotlin's `Result<T>` as the repository and the screen stores see it: a
 * success value or a failure carrying a throwable whose `message` may be null.
 */
module Results {
  import opened Wrappers
  import opened TodoExceptions

  /** What a failed `Result` holds: one of the app's own exceptions, or any other throwable. */
  datatype Throwable =
    | TodoError(error: TodoException)
    | OtherError(message: Option<string>)

  /** `Throwable.message`: never null for a `TodoException`. */
  function MessageOf(t: Throwable): (m: Option<string>)
    ensures t.TodoError? ==> m == Some(Message(t.error))
    ensures t.OtherError? ==> m == t.message
  {
    match t
    case TodoError(e) => Some(Message(e))
    case OtherError(message) => message
  }

  /** `exception.message ?: fallback`, the text every store shows for a failure. */
  function MessageOr(t: Throwable, fallback: string): (s: string)
    ensures MessageOf(t).Some? ==> s == MessageOf(t).value
    ensures MessageOf(t).None? ==> s == fallback
  {
    MessageOf(t).GetOr(fallback)
  }

  datatype Result<+T> = Success(value: T) | Failure(exception: Throwable) {

    /** `Result.map`: transforms a success payload and passes a failure on unchanged. */
    function Map<U>(f: T -> U): (r: Result<U>)
      ensures r.Success? <==> Success?
      ensures Success? ==> r.value == f(value)
      ensures Failure? ==> r.exception == exception
    {
      match this
      case Success(v) => Success(f(v))
      case Failure(e) => Failure(e)
    }
  }

  /** For the app's own exceptions the fallback text is never shown. */
  lemma TodoErrorNeverFallsBack(e: TodoException, fallback: string)
    ensures MessageOr(TodoError(e), fallback) == Message(e)
  {
  }
}
