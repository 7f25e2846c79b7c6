/** Values shared by every part of the model: the .NET exceptions the client raises,
    catches or records, an optional value (the library's Maybe), and the outcome of
    running code that may throw (the library's Try). */
module Errors {

  datatype Option<+T> = None | Some(value: T)

  /** The exact runtime type of an exception. Only the distinctions the client makes,
      or that its callers can observe, are kept. */
  datatype ExceptionKind =
    | General            // System.Exception, as built by `new Exception(text)`
    | TaskCanceled       // System.Threading.Tasks.TaskCanceledException
    | OperationCanceled  // System.OperationCanceledException
    | InvalidOperation   // System.InvalidOperationException
    | InvalidCast        // System.InvalidCastException
    | NullReference      // System.NullReferenceException
    | ArgumentNull       // System.ArgumentNullException
    | ArgumentOutOfRange // System.ArgumentOutOfRangeException
    | IndexOutOfRange    // System.IndexOutOfRangeException
    | ObjectDisposed     // System.ObjectDisposedException
    | Aggregate          // System.AggregateException

  /** An exception object: its exact type, its message and its inner exceptions. */
  datatype Exception = Exception(kind: ExceptionKind, message: string, inner: seq<Exception>)

  /** The outcome of running code that may throw. A failure propagates through `:-`
      the way an exception propagates out of a block. */
  datatype Try<+T> = Success(value: T) | Failure(error: Exception)
  {
    predicate IsFailure() { Failure? }

    function PropagateFailure<U>(): Try<U>
      requires Failure?
    {
      Failure(error)
    }

    function Extract(): T
      requires Success?
    {
      value
    }
  }

  /** `new Exception(message)`. */
  function NewException(message: string): (e: Exception)
    ensures e.kind == General && e.message == message && e.inner == []
  {
    Exception(General, message, [])
  }

  /** `new AggregateException(first, second)`: both exceptions are kept, in order. */
  function AggregateOf(first: Exception, second: Exception): (e: Exception)
    ensures e.kind == Aggregate && e.inner == [first, second]
  {
    Exception(Aggregate, "One or more errors occurred.", [first, second])
  }

  /** The outcome of a void call whose only possible fault is `fault`. */
  function Outcome(fault: Option<Exception>): (t: Try<()>)
    ensures t.Success? <==> fault.None?
    ensures fault.Some? ==> t == Failure(fault.value)
  {
    match fault
    case None => Success(())
    case Some(e) => Failure(e)
  }
}
