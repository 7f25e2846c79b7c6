/** The result combinators (FunctionalExtensions.cs) over the library's `Result`, whose
    failures carry an error text. */
module ResultExtensions {
  import opened Errors

  /** `Result<T>`; the library's non-generic `Result` is `Result<()>`. */
  datatype Result<+T> = Ok(value: T) | Fail(error: string)

  /** `Merge`: the second result's failure wins; otherwise the first result's failure
      is kept; otherwise the second result's value. */
  function Merge<T>(first: Result<()>, result: Result<T>): (r: Result<T>)
    ensures result.Fail? ==> r == result
    ensures result.Ok? ==> r == Convert(first, result.value)
  {
    if result.Fail? then result
    else if first.Fail? then Fail(first.error)
    else Ok(result.value)
  }

  /** `Convert`: a failure keeps its error under the new type; a success is replaced by
      `value`. */
  function Convert<T, R>(result: Result<T>, value: R): (r: Result<R>)
    ensures r.Ok? <==> result.Ok?
    ensures r.Fail? ==> r.error == result.error
  {
    if result.Fail? then Fail(result.error) else Ok(value)
  }

  /** `Functional.Try(Action)`. Whether the action throws is an input; the text of a
      caught exception's chain of messages is given by `describe`. */
  function TryAction(run: Try<()>, describe: Exception -> string): (r: Result<()>)
    ensures r.Ok? <==> run.Success?
    ensures run.Failure? ==> r == Fail(describe(run.error))
  {
    match run
    case Success(_) => Ok(())
    case Failure(e) => Fail(describe(e))
  }

  /** `Functional.Try(Func<T>)`. */
  function TryFunc<T>(run: Try<T>, describe: Exception -> string): (r: Result<T>)
    ensures r.Ok? <==> run.Success?
    ensures run.Success? ==> r.value == run.value
    ensures run.Failure? ==> r == Fail(describe(run.error))
  {
    match run
    case Success(v) => Ok(v)
    case Failure(e) => Fail(describe(e))
  }

  // ---------------------------------------------------------------------------
  // Properties

  /** `Merge` succeeds exactly when both results do, with the second one's value; its
      error is the second result's when that failed, otherwise the first's. */
  lemma MergeSucceedsIffBoth<T>(first: Result<()>, result: Result<T>)
    ensures Merge(first, result).Ok? <==> first.Ok? && result.Ok?
    ensures Merge(first, result).Ok? ==> Merge(first, result).value == result.value
    ensures result.Fail? ==> Merge(first, result) == result
    ensures result.Ok? && first.Fail? ==> Merge(first, result).error == first.error
  {
  }

  /** A succeeded first result is neutral, and merging the same first result twice is
      merging it once. */
  lemma MergeNeutralAndIdempotent<T>(first: Result<()>, result: Result<T>)
    ensures Merge(Ok(()), result) == result
    ensures Merge(first, Merge(first, result)) == Merge(first, result)
  {
  }

  /** `Convert` keeps success and error, and only the last conversion's value counts. */
  lemma ConvertKeepsOutcome<T, R, S>(result: Result<T>, value: R, other: S)
    ensures Convert(result, value).Ok? <==> result.Ok?
    ensures Convert(result, value).Ok? ==> Convert(result, value).value == value
    ensures result.Fail? ==> Convert(result, value).error == result.error
    ensures Convert(Convert(result, value), other) == Convert(result, other)
  {
  }

  /** Converting commutes with merging. */
  lemma ConvertAfterMerge<T, R>(first: Result<()>, result: Result<T>, value: R)
    ensures Convert(Merge(first, result), value) == Merge(first, Convert(result, value))
  {
  }

  /** `Try` succeeds exactly when the code does not throw, with its value, and otherwise
      fails with the exception's text; the action overload is the function overload with
      its value dropped. */
  lemma TryReportsOutcome<T>(run: Try<T>, describe: Exception -> string)
    ensures TryFunc(run, describe).Ok? <==> run.Success?
    ensures run.Success? ==> TryFunc(run, describe).value == run.value
    ensures run.Failure? ==> TryFunc(run, describe).error == describe(run.error)
    ensures TryAction(if run.Success? then Success(()) else Failure(run.error), describe) ==
      Convert(TryFunc(run, describe), ())
  {
  }
}
