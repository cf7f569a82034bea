/**
  The error values of the tracker client (errors.go) and the kinds of Go
  `error` value the client hands back to its callers.
 */
module Errors {

  import opened Wrappers
  import opened Text

  /**
    errors.go's `TrackerError`: a string used directly as an error value.
    Two such errors are equal exactly when their strings are equal, which is
    what lets callers compare an error with a sentinel below.
   */
  datatype TrackerError = TrackerError(text: string) {

    /** The message of the error; converting it back gives the same error. */
    function Error(): (msg: string)
      ensures TrackerError(msg) == this
    {
      text
    }
  }

  /** Returned when the tracker has no work to hand out right now. */
  const ErrNoTasksAvailable := TrackerError("no tasks available")

  /** The prefix of the message for an unexpected status code. */
  const ErrInvalidTrackerResponse := TrackerError("invalid tracker response")

  /** Returned when the tracker does not know the configured project. */
  const ErrNoSuchProject := TrackerError("this project doesn't exist")

  /** The three sentinels carry their fixed messages and are pairwise distinct. */
  lemma SentinelsDistinct()
    ensures ErrNoTasksAvailable.Error() == "no tasks available"
    ensures ErrInvalidTrackerResponse.Error() == "invalid tracker response"
    ensures ErrNoSuchProject.Error() == "this project doesn't exist"
    ensures ErrNoTasksAvailable != ErrInvalidTrackerResponse
    ensures ErrNoTasksAvailable != ErrNoSuchProject
    ensures ErrInvalidTrackerResponse != ErrNoSuchProject
  {
  }

  /**
    A Go `error` as the client produces it:
    - `Sentinel`: a `TrackerError` value returned as is;
    - `EmptyOption`, `ZeroLimit`, `InvalidResponse`: the three messages the
      client builds with `fmt.Errorf`, kept by their arguments;
    - `Combined`: a go-multierror value, as the ordered list of its causes;
    - `Foreign`: an error from the transport or the JSON decoder, passed on
      unchanged (only its message is kept).
   */
  datatype Error =
    | Sentinel(sentinel: TrackerError)
    | EmptyOption(option: string)
    | ZeroLimit
    | InvalidResponse(status: int)
    | Combined(causes: seq<Error>)
    | Foreign(cause: string)
  {
    /** The message `Error()` returns; the combined form's layout belongs to go-multierror. */
    function Message(): (msg: string)
      requires !Combined?
      ensures Sentinel? ==> msg == sentinel.Error()
      ensures InvalidResponse? ==> msg == InvalidPrefix + FormatInt(status)
      ensures InvalidResponse? ==> |msg| > |InvalidPrefix| && msg[..|InvalidPrefix|] == InvalidPrefix
      ensures EmptyOption? ==> msg == "option must not be empty: " + option
      ensures ZeroLimit? ==> msg == "limit must be greater than 0"
      ensures Foreign? ==> msg == cause
    {
      match this
      case Sentinel(e) => e.Error()
      case EmptyOption(option) => "option must not be empty: " + option
      case ZeroLimit => "limit must be greater than 0"
      case InvalidResponse(status) => ErrInvalidTrackerResponse.Error() + ": " + FormatInt(status)
      case Foreign(cause) => cause
    }
  }

  /** The start of every invalid-response message: the sentinel's text and a colon. */
  const InvalidPrefix := ErrInvalidTrackerResponse.Error() + ": "

  /** The invalid-response message carries its status code: different codes give different messages. */
  lemma InvalidResponseMessageInjective(a: int, b: int)
    requires InvalidResponse(a).Message() == InvalidResponse(b).Message()
    ensures a == b
  {
    assert InvalidResponse(a).Message()[|InvalidPrefix|..] == FormatInt(a);
    assert InvalidResponse(b).Message()[|InvalidPrefix|..] == FormatInt(b);
    FormatIntInjective(a, b);
  }

  /**
    go-multierror's `Append(err, e)` for an `e` that is not itself combined
    (the only kind the client appends): a nil error becomes a one-cause list,
    a list gets `e` at its end, any other error becomes the first cause.
   */
  function AppendError(err: Option<Error>, e: Error): (r: Error)
    ensures r.Combined? && |r.causes| >= 1 && r.causes[|r.causes| - 1] == e
    ensures err.None? ==> r == Combined([e])
    ensures err.Some? && err.value.Combined? ==> r.causes[..|r.causes| - 1] == err.value.causes
    ensures err.Some? && !err.value.Combined? ==> r == Combined([err.value, e])
  {
    match err
    case None => Combined([e])
    case Some(Combined(causes)) => Combined(causes + [e])
    case Some(other) => Combined([other, e])
  }

}
