/** The exception accumulator returned by shutdown (StopReceivingResult.cs). */
module StopResults {
  import opened Errors

  /** The struct wraps an immutable list of exceptions; `None` is the list of a struct
      that was never initialised (`default(StopReceivingResult)`, also what
      `new StopReceivingResult()` gives). */
  datatype StopReceivingResult = StopReceivingResult(recorded: Option<seq<Exception>>)

  const Uninitialised: StopReceivingResult := StopReceivingResult(None)

  /** The list as `Append` reads its left operand: `_exceptions ?? empty`. */
  function Recorded(r: StopReceivingResult): (s: seq<Exception>)
    ensures r.recorded.Some? ==> s == r.recorded.value
    ensures r.recorded.None? ==> s == []
  {
    match r.recorded
    case None => []
    case Some(list) => list
  }

  /** The constructor from an attempt (and `FromAsync`, which matches the same way): a
      successful attempt records nothing, a failed one records exactly its exception. */
  function FromAttempt(attempt: Try<()>): (r: StopReceivingResult)
    ensures r.recorded.Some?
    ensures attempt.Success? ==> r.recorded.value == []
    ensures attempt.Failure? ==> r.recorded.value == [attempt.error]
  {
    match attempt
    case Success(_) => StopReceivingResult(Some([]))
    case Failure(e) => StopReceivingResult(Some([e]))
  }

  /** `Append` exactly as written: an uninitialised left operand counts as empty, but
      the right operand's list is handed to `ImmutableList.AddRange`, which throws
      `ArgumentNullException` when it is null. */
  function AppendAsWritten(left: StopReceivingResult, right: StopReceivingResult): (r: Try<StopReceivingResult>)
    ensures right.recorded.None? ==> r.Failure? && r.error.kind == ArgumentNull
    ensures right.recorded.Some? ==> r == Success(StopReceivingResult(Some(Recorded(left) + right.recorded.value)))
  {
    match right.recorded
    case None => Failure(Exception(ArgumentNull, "Value cannot be null.\r\nParameter name: items", []))
    case Some(list) => Success(StopReceivingResult(Some(Recorded(left) + list)))
  }

  /** `Append` as evidently intended: either operand, when uninitialised, counts as
      empty. Recording is lossless: the left list followed by the right list,
      cancellations included. */
  function Append(left: StopReceivingResult, right: StopReceivingResult): (r: StopReceivingResult)
    ensures r.recorded == Some(Recorded(left) + Recorded(right))
    ensures right.recorded.Some? ==> AppendAsWritten(left, right) == Success(r)
  {
    StopReceivingResult(Some(Recorded(left) + Recorded(right)))
  }

  /** The exception type the two views filter out, compared exactly (a subclass or an
      `OperationCanceledException` is not filtered). */
  predicate IsTaskCanceled(e: Exception)
  {
    e.kind == TaskCanceled
  }

  /** `Where(e => e.GetType() != typeof(TaskCanceledException))`. */
  function WithoutCancellations(s: seq<Exception>): (f: seq<Exception>)
    ensures |f| <= |s|
  {
    if s == [] then []
    else if IsTaskCanceled(s[0]) then WithoutCancellations(s[1..])
    else [s[0]] + WithoutCancellations(s[1..])
  }

  /** `Failed`: the list is present and non-empty and some entry is not a
      `TaskCanceledException`. */
  predicate Failed(r: StopReceivingResult)
    ensures Failed(r) ==> r.recorded.Some? && r.recorded.value != []
    ensures r.recorded.Some? && r.recorded.value != [] && !IsTaskCanceled(r.recorded.value[0]) ==> Failed(r)
  {
    r.recorded.Some? && |r.recorded.value| > 0 &&
    exists i :: 0 <= i < |r.recorded.value| && !IsTaskCanceled(r.recorded.value[i])
  }

  /** `Exceptions`: the inner exceptions of the AggregateException it builds. On an
      uninitialised result `Where` is given a null list and throws. */
  function Exceptions(r: StopReceivingResult): (t: Try<seq<Exception>>)
    ensures r.recorded.None? ==> t.Failure? && t.error.kind == ArgumentNull
    ensures r.recorded.Some? ==> t.Success? && |t.value| <= |r.recorded.value|
  {
    match r.recorded
    case None => Failure(Exception(ArgumentNull, "Value cannot be null.\r\nParameter name: source", []))
    case Some(list) => Success(WithoutCancellations(list))
  }

  // ---------------------------------------------------------------------------
  // Properties of the filter

  /** The filter keeps exactly the entries that are not cancellations. */
  lemma {:induction false} WithoutCancellationsMembers(s: seq<Exception>, e: Exception)
    ensures e in WithoutCancellations(s) <==> e in s && !IsTaskCanceled(e)
  {
    if s != [] {
      WithoutCancellationsMembers(s[1..], e);
      assert s == [s[0]] + s[1..];
    }
  }

  /** The filter distributes over concatenation, so it keeps the order of the entries
      it keeps. */
  lemma {:induction false} WithoutCancellationsAppend(a: seq<Exception>, b: seq<Exception>)
    ensures WithoutCancellations(a + b) == WithoutCancellations(a) + WithoutCancellations(b)
  {
    if a == [] {
      assert a + b == b;
    } else {
      assert (a + b)[0] == a[0];
      assert (a + b)[1..] == a[1..] + b;
      WithoutCancellationsAppend(a[1..], b);
    }
  }

  /** A list without cancellations passes the filter unchanged; a list of cancellations
      only is filtered away entirely. */
  lemma {:induction false} WithoutCancellationsExtremes(s: seq<Exception>)
    ensures (forall i :: 0 <= i < |s| ==> !IsTaskCanceled(s[i])) ==> WithoutCancellations(s) == s
    ensures (forall i :: 0 <= i < |s| ==> IsTaskCanceled(s[i])) ==> WithoutCancellations(s) == []
  {
    if s != [] {
      WithoutCancellationsExtremes(s[1..]);
      assert forall i :: 0 <= i < |s[1..]| ==> s[1..][i] == s[i + 1];
    }
  }

  /** The filter leaves nothing exactly when every entry is a cancellation. */
  lemma {:induction false} WithoutCancellationsEmpty(s: seq<Exception>)
    ensures WithoutCancellations(s) == [] <==> forall i :: 0 <= i < |s| ==> IsTaskCanceled(s[i])
  {
    if s != [] {
      WithoutCancellationsEmpty(s[1..]);
      assert forall i :: 0 <= i < |s[1..]| ==> s[1..][i] == s[i + 1];
      if forall i :: 1 <= i < |s| ==> IsTaskCanceled(s[i]) {
        assert forall i :: 0 <= i < |s[1..]| ==> IsTaskCanceled(s[1..][i]);
      }
    }
  }

  // ---------------------------------------------------------------------------
  // Properties of the accumulator

  /** `Failed` holds exactly when `Exceptions` reports something; an uninitialised
      result is never `Failed`. */
  lemma FailedIffExceptionsReported(r: StopReceivingResult)
    ensures r.recorded.None? ==> !Failed(r)
    ensures r.recorded.Some? ==> (Failed(r) <==> Exceptions(r).value != [])
  {
    if r.recorded.Some? {
      WithoutCancellationsEmpty(r.recorded.value);
    }
  }

  /** `Append` is associative, and the result of a successful attempt (as well as an
      uninitialised result) is its identity on both sides. */
  lemma AppendMonoid(a: StopReceivingResult, b: StopReceivingResult, c: StopReceivingResult)
    ensures Append(Append(a, b), c) == Append(a, Append(b, c))
    ensures Append(FromAttempt(Success(())), a) == Append(a, FromAttempt(Success(()))) == Append(a, Uninitialised)
    ensures a.recorded.Some? ==> Append(FromAttempt(Success(())), a) == a
  {
    assert Recorded(a) + Recorded(b) + Recorded(c) == Recorded(a) + (Recorded(b) + Recorded(c));
    assert [] + Recorded(a) == Recorded(a) + [] == Recorded(a);
  }

  /** What the two views report about an appended result is what they report about its
      parts: `Exceptions` concatenates, `Failed` is a disjunction. */
  lemma AppendViews(a: StopReceivingResult, b: StopReceivingResult)
    ensures Exceptions(Append(a, b)).value ==
      WithoutCancellations(Recorded(a)) + WithoutCancellations(Recorded(b))
    ensures Failed(Append(a, b)) <==> Failed(Append(a, Uninitialised)) || Failed(Append(Uninitialised, b))
  {
    WithoutCancellationsAppend(Recorded(a), Recorded(b));
    FailedIffExceptionsReported(Append(a, b));
    FailedIffExceptionsReported(Append(a, Uninitialised));
    FailedIffExceptionsReported(Append(Uninitialised, b));
    assert Recorded(a) + [] == Recorded(a);
    assert [] + Recorded(b) == Recorded(b);
  }

  /** A single attempt fails the result exactly when it threw something other than a
      `TaskCanceledException`. */
  lemma AttemptFailed(attempt: Try<()>)
    ensures Failed(FromAttempt(attempt)) <==> attempt.Failure? && !IsTaskCanceled(attempt.error)
    ensures Exceptions(FromAttempt(attempt)).value ==
      (if attempt.Failure? && !IsTaskCanceled(attempt.error) then [attempt.error] else [])
  {
    if attempt.Failure? {
      assert FromAttempt(attempt).recorded.value[0] == attempt.error;
    }
  }

  /** Found defect: with an uninitialised right operand the written `Append` throws
      instead of treating it as empty, as it does for the left operand. */
  lemma AppendAsWrittenRejectsUninitialisedRight(left: StopReceivingResult)
    ensures AppendAsWritten(left, Uninitialised).Failure?
    ensures AppendAsWritten(left, Uninitialised).error.kind == ArgumentNull
    ensures AppendAsWritten(Uninitialised, left.(recorded := Some(Recorded(left)))).Success?
  {
  }
}
