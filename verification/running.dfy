/** Shutdown of a client that is receiving (RunningBrokerClient.cs): cancel, wait for the
    workers, dispose the token source, complete every subscriber, drain the registry,
    and collect the exceptions thrown on the way in a `StopReceivingResult`. */
module Running {
  import opened Errors
  import opened Observers
  import opened StopResults
  import opened Registry

  /** What a disposed token source throws when it is cancelled or its token is read. */
  const ObjectDisposedError: Exception :=
    Exception(ObjectDisposed, "The CancellationTokenSource has been disposed.", [])

  /** What waiting on a token whose cancellation was requested throws. */
  const WaitCanceledError: Exception := Exception(OperationCanceled, "The operation was canceled.", [])

  /** What `StopReceiving` throws when it was given nothing to stop. */
  const NotStartedError: Exception := Exception(InvalidOperation, "BrokerClient has not started receiving", [])

  /** The `CancellationTokenSource` of one receive loop. */
  class TokenSource {
    var cancellationRequested: bool
    var disposed: bool

    constructor ()
      ensures !cancellationRequested && !disposed
    {
      cancellationRequested := false;
      disposed := false;
    }

    /** `Cancel()`: requests cancellation; a disposed source throws instead. */
    method Cancel(trace: Trace) returns (r: Try<()>)
      modifies this, trace
      ensures disposed == old(disposed)
      ensures old(disposed) ==>
        r == Failure(ObjectDisposedError) && cancellationRequested == old(cancellationRequested) &&
        trace.events == old(trace.events)
      ensures !old(disposed) ==>
        r == Success(()) && cancellationRequested && trace.events == old(trace.events) + [CancellationRequested]
    {
      if disposed {
        return Failure(ObjectDisposedError);
      }
      cancellationRequested := true;
      trace.Record(CancellationRequested);
      return Success(());
    }

    /** `Dispose()`, which may be repeated. */
    method Dispose(trace: Trace) returns (r: Try<()>)
      modifies this, trace
      ensures disposed && cancellationRequested == old(cancellationRequested)
      ensures r == Success(()) && trace.events == old(trace.events) + [TokenDisposed]
    {
      disposed := true;
      trace.Record(TokenDisposed);
      return Success(());
    }
  }

  /** The outstanding worker tasks. Whether waiting for them returns or throws is an
      input. Reading the token of a disposed source throws before any wait, and a wait
      given a token whose cancellation was requested throws `OperationCanceledException`
      before it waits for anything. */
  class Workers {
    const waitFault: Option<Exception>

    constructor (waitFault: Option<Exception>)
      ensures this.waitFault == waitFault
    {
      this.waitFault := waitFault;
    }

    /** `Task.WaitAll(workers.ToArray(), tokenSource.Token)`. */
    method WaitAll(source: TokenSource, trace: Trace) returns (r: Try<()>)
      modifies trace
      ensures r == WaitOutcome(source.disposed, source.cancellationRequested, waitFault)
      ensures source.disposed || source.cancellationRequested ==> trace.events == old(trace.events)
      ensures !source.disposed && !source.cancellationRequested ==>
        trace.events == old(trace.events) + [WorkersAwaited]
    {
      if source.disposed {
        return Failure(ObjectDisposedError);
      }
      if source.cancellationRequested {
        return Failure(WaitCanceledError);
      }
      trace.Record(WorkersAwaited);
      return Outcome(waitFault);
    }
  }

  /** The outcome of the cancel step, given whether the source was already disposed. */
  function CancelOutcome(disposed: bool): (t: Try<()>)
    ensures t.Failure? <==> disposed
  {
    if disposed then Failure(ObjectDisposedError) else Success(())
  }

  /** The outcome of the wait step, given whether the source is disposed and whether
      its cancellation was requested. */
  function WaitOutcome(disposed: bool, cancelled: bool, waitFault: Option<Exception>): (t: Try<()>)
    ensures t.Success? <==> !disposed && !cancelled && waitFault.None?
    ensures disposed ==> t == Failure(ObjectDisposedError)
    ensures !disposed && cancelled ==> t == Failure(WaitCanceledError)
    ensures !disposed && !cancelled ==> t == Outcome(waitFault)
  {
    if disposed then Failure(ObjectDisposedError)
    else if cancelled then Failure(WaitCanceledError)
    else Outcome(waitFault)
  }

  /** The `OnCompleted` callbacks made on `observers`, in order. */
  function CompletionEvents(observers: seq<Observer>): (evs: seq<Event>)
    ensures |evs| == |observers|
    ensures forall k :: 0 <= k < |observers| ==> evs[k] == Notified(observers[k], CompletedCall)
  {
    if observers == [] then []
    else CompletionEvents(observers[..|observers| - 1]) + [Notified(observers[|observers| - 1], CompletedCall)]
  }

  /** The `Aggregate` over the subscribers, seeded with an uninitialised result, each
      step appending the result of one `OnCompleted`. */
  function CompletionFold(observers: seq<Observer>): (r: StopReceivingResult)
    ensures observers == [] ==> r == Uninitialised
    ensures observers != [] ==> r.recorded.Some?
  {
    if observers == [] then Uninitialised
    else Append(CompletionFold(observers[..|observers| - 1]),
                FromAttempt(Outcome(observers[|observers| - 1].completedFault)))
  }

  /** The exceptions thrown by the `OnCompleted` of `observers`, in order: one for each
      subscriber that throws, none for one that returns. */
  function CompletionFaults(observers: seq<Observer>): seq<Exception>
  {
    if observers == [] then []
    else CompletionFaults(observers[..|observers| - 1]) + FaultList(observers[|observers| - 1].completedFault)
  }

  /** An optional exception as a list of at most one. */
  function FaultList(fault: Option<Exception>): (s: seq<Exception>)
    ensures fault.None? ==> s == []
    ensures fault.Some? ==> s == [fault.value]
  {
    match fault
    case None => []
    case Some(e) => [e]
  }

  /** The exception of a failed attempt as a list of at most one. */
  function FailureList(attempt: Try<()>): (s: seq<Exception>)
    ensures s == Recorded(FromAttempt(attempt))
    ensures attempt.Success? ==> s == []
    ensures attempt.Failure? ==> s == [attempt.error]
  {
    if attempt.Success? then [] else [attempt.error]
  }

  /** The result of the step chain, with the corrected `Append`. */
  function ShutdownResult(cancel: Try<()>, wait: Try<()>, dispose: Try<()>, snapshot: seq<Observer>,
                          drain: Try<()>): (r: StopReceivingResult)
    ensures r.recorded.Some?
    ensures cancel.Failure? ==> cancel.error in Recorded(r)
    ensures wait.Failure? ==> wait.error in Recorded(r)
    ensures dispose.Failure? ==> dispose.error in Recorded(r)
    ensures drain.Failure? ==> drain.error in Recorded(r)
  {
    Append(Append(Append(Append(FromAttempt(cancel), FromAttempt(wait)), FromAttempt(dispose)),
                  CompletionFold(snapshot)),
           FromAttempt(drain))
  }

  /** One `Append` of the chain as written, after an earlier one threw or returned. */
  function ThenAsWritten(left: Try<StopReceivingResult>, right: StopReceivingResult): (r: Try<StopReceivingResult>)
    ensures left.Failure? ==> r == left
    ensures left.Success? && right.recorded.Some? ==> r == Success(Append(left.value, right))
  {
    match left
    case Failure(e) => Failure(e)
    case Success(l) => AppendAsWritten(l, right)
  }

  /** The result of the step chain as written. */
  function ShutdownResultAsWritten(cancel: Try<()>, wait: Try<()>, dispose: Try<()>, snapshot: seq<Observer>,
                                   drain: Try<()>): (r: Try<StopReceivingResult>)
    ensures r.Failure? <==> snapshot == []
    ensures r.Failure? ==> r.error.kind == ArgumentNull
  {
    ThenAsWritten(
      ThenAsWritten(
        ThenAsWritten(ThenAsWritten(Success(FromAttempt(cancel)), FromAttempt(wait)), FromAttempt(dispose)),
        CompletionFold(snapshot)),
      FromAttempt(drain))
  }

  /** The effects of the cancel, wait and dispose steps, given whether the token
      source was already disposed. The wait never gets to wait: it is given either a
      disposed source or one whose cancellation the cancel step has just requested. */
  function StepEvents(disposed: bool): seq<Event>
  {
    if disposed then [TokenDisposed] else [CancellationRequested, TokenDisposed]
  }

  /** The effects of a shutdown. The registry is drained only when the fold over the
      subscribers yields a result the written `Append` accepts, that is, when there is
      at least one subscriber. */
  function ShutdownEvents(disposed: bool, snapshot: seq<Observer>): seq<Event>
  {
    StepEvents(disposed) + CompletionEvents(snapshot) + DrainEvents(snapshot)
  }

  /** The drain step's effect, given the snapshot the fold enumerated. */
  function DrainEvents(snapshot: seq<Observer>): (evs: seq<Event>)
    ensures snapshot == [] ==> evs == []
    ensures snapshot != [] ==> evs == [RegistryDrained]
  {
    if snapshot == [] then [] else [RegistryDrained]
  }

  /** A client that has begun receiving. The three parts are optional because the
      constructor accepts absent ones. */
  class RunningBrokerClient {
    const observers: Option<ObserverBag>
    const workers: Option<Workers>
    const tokenSource: Option<TokenSource>

    constructor (observers: Option<ObserverBag>, workers: Option<Workers>, tokenSource: Option<TokenSource>)
      ensures this.observers == observers && this.workers == workers && this.tokenSource == tokenSource
    {
      this.observers := observers;
      this.workers := workers;
      this.tokenSource := tokenSource;
    }

    /** The objects shutdown changes besides the trace. */
    function Parts(): set<object>
    {
      (if observers.Some? then {observers.value} else {}) +
      (if tokenSource.Some? then {tokenSource.value} else {})
    }

    predicate Started()
    {
      observers.Some? && workers.Some? && tokenSource.Some?
    }

    /** `StopReceiving()`. `snapshot` is the order in which the bag was enumerated for
        the `OnCompleted` fold. */
    method StopReceiving(trace: Trace) returns (r: Try<StopReceivingResult>, ghost snapshot: seq<Observer>)
      modifies Parts(), trace
      ensures !Started() ==> r == Failure(NotStartedError) && trace.events == old(trace.events)
      ensures !Started() ==> unchanged(Parts())
      ensures Started() ==>
        multiset(snapshot) == old(observers.value.items) &&
        observers.value.items == multiset{} &&
        tokenSource.value.disposed &&
        trace.events == old(trace.events) + ShutdownEvents(old(tokenSource.value.disposed), snapshot) &&
        r == ShutdownResultAsWritten(CancelOutcome(old(tokenSource.value.disposed)),
                                     WaitOutcome(old(tokenSource.value.disposed), true, workers.value.waitFault),
                                     Success(()), snapshot, Success(()))
      ensures Started() && old(observers.value.items) != multiset{} ==>
        r == Success(ShutdownResult(CancelOutcome(old(tokenSource.value.disposed)),
                                    WaitOutcome(old(tokenSource.value.disposed), true, workers.value.waitFault),
                                    Success(()), snapshot, Success(())))
    {
      if observers.None? || workers.None? || tokenSource.None? {
        return Failure(NotStartedError), [];
      }
      r, snapshot := Shutdown(observers.value, workers.value, tokenSource.value, trace);
      if snapshot != [] {
        AsWrittenAgreesWithSubscribers(CancelOutcome(old(tokenSource.value.disposed)),
                                       WaitOutcome(old(tokenSource.value.disposed), true, workers.value.waitFault),
                                       Success(()), snapshot, Success(()));
      }
    }
  }

  /** The step chain of `StopReceiving` once its parts are known to be present. Each
      `Append` is evaluated before the argument of the next, so when the fold's `Append`
      throws, the drain step never runs. The wait is given a token whose cancellation
      the cancel step has just requested, unless the source was already disposed, in
      which case reading the token throws first. */
  method Shutdown(bag: ObserverBag, pending: Workers, source: TokenSource, trace: Trace)
    returns (r: Try<StopReceivingResult>, ghost snapshot: seq<Observer>)
    modifies bag, source, trace
    ensures multiset(snapshot) == old(bag.items) && bag.items == multiset{} && source.disposed
    ensures trace.events == old(trace.events) + ShutdownEvents(old(source.disposed), snapshot)
    ensures r == ShutdownResultAsWritten(CancelOutcome(old(source.disposed)),
                                         WaitOutcome(old(source.disposed), true, pending.waitFault),
                                         Success(()), snapshot, Success(()))
  {
    ghost var disposed := source.disposed;
    ghost var start := trace.events;
    var cancel := source.Cancel(trace);
    var wait := pending.WaitAll(source, trace);
    var dispose := source.Dispose(trace);
    assert trace.events == start + StepEvents(disposed);

    var list := bag.ToList();
    snapshot := list;
    var folded := CompleteAll(list, trace);
    AppendAssoc(start, StepEvents(disposed), CompletionEvents(list));
    var steps := ThenAsWritten(ThenAsWritten(ThenAsWritten(Success(FromAttempt(cancel)), FromAttempt(wait)),
                                             FromAttempt(dispose)), folded);
    if steps.Failure? {
      // Only an empty bag gives the uninitialised fold the written `Append` rejects.
      CompletionFoldRecordsFaults(list);
      assert trace.events == start + StepEvents(disposed) + CompletionEvents(list) + [];
      return steps, snapshot;
    }
    CompletionFoldRecordsFaults(list);
    DrainRegistry(bag);
    trace.Record(RegistryDrained);
    AppendAssoc(start, StepEvents(disposed) + CompletionEvents(list), [RegistryDrained]);
    r := ThenAsWritten(steps, FromAttempt(Success(())));
  }

  /** The `OnCompleted` fold: every subscriber of the snapshot is completed in turn,
      and the result of each call is appended, so one subscriber's exception does not
      stop the others. */
  method CompleteAll(snapshot: seq<Observer>, trace: Trace) returns (folded: StopReceivingResult)
    modifies trace
    ensures folded == CompletionFold(snapshot)
    ensures trace.events == old(trace.events) + CompletionEvents(snapshot)
  {
    folded := Uninitialised;
    ghost var start := trace.events;
    var i := 0;
    while i < |snapshot|
      invariant 0 <= i <= |snapshot|
      invariant folded == CompletionFold(snapshot[..i])
      invariant trace.events == start + CompletionEvents(snapshot[..i])
    {
      assert snapshot[..i + 1][..i] == snapshot[..i];
      AppendAssoc(start, CompletionEvents(snapshot[..i]), [Notified(snapshot[i], CompletedCall)]);
      var attempt := snapshot[i].OnCompleted(trace);
      folded := Append(folded, FromAttempt(attempt));
      i := i + 1;
    }
    assert snapshot[..|snapshot|] == snapshot;
  }

  /** `while (observers.TryTake(out removing)) { }`: takes elements until the bag is
      empty. */
  method DrainRegistry(bag: ObserverBag)
    modifies bag
    ensures bag.items == multiset{}
  {
    var more := true;
    while more
      invariant !more ==> bag.items == multiset{}
      decreases |bag.items| + (if more then 1 else 0)
    {
      var taken := bag.TryTake();
      more := taken.Some?;
    }
  }

  // ---------------------------------------------------------------------------
  // Properties of the completion fold

  /** The fold records exactly the thrown exceptions, in order; it stays uninitialised
      only over no subscribers. */
  lemma {:induction false} CompletionFoldRecordsFaults(observers: seq<Observer>)
    ensures CompletionFold(observers).recorded.None? <==> observers == []
    ensures Recorded(CompletionFold(observers)) == CompletionFaults(observers)
  {
    if observers != [] {
      CompletionFoldRecordsFaults(observers[..|observers| - 1]);
    }
  }

  /** Every subscriber's `OnCompleted` is called as many times as it occurs in the
      snapshot, whatever the others do: exactly once for a bag without duplicates. */
  lemma {:induction false} CompletionCallsEachOnce(snapshot: seq<Observer>, o: Observer)
    ensures CountCalls(CompletionEvents(snapshot), o, CompletedCall) == multiset(snapshot)[o]
  {
    if snapshot != [] {
      var n := |snapshot| - 1;
      CompletionCallsEachOnce(snapshot[..n], o);
      var last := [Notified(snapshot[n], CompletedCall)];
      assert last[..0] == [];
      CountCallsAppend(CompletionEvents(snapshot[..n]), last, o, CompletedCall);
      assert snapshot == snapshot[..n] + [snapshot[n]];
    }
  }

  /** Each subscriber whose `OnCompleted` throws contributes its exception; the number
      of exceptions is the number of throwing subscribers. */
  lemma {:induction false} CompletionFaultsPerObserver(observers: seq<Observer>, k: nat)
    requires k < |observers| && observers[k].completedFault.Some?
    ensures observers[k].completedFault.value in CompletionFaults(observers)
  {
    var n := |observers| - 1;
    if k < n {
      assert observers[..n][k] == observers[k];
      CompletionFaultsPerObserver(observers[..n], k);
    }
  }

  /** No subscriber throwing means no exception recorded by the fold. */
  lemma {:induction false} CompletionFaultsNone(observers: seq<Observer>)
    requires forall k :: 0 <= k < |observers| ==> observers[k].completedFault.None?
    ensures CompletionFaults(observers) == []
  {
    if observers != [] {
      CompletionFaultsNone(observers[..|observers| - 1]);
    }
  }

  // ---------------------------------------------------------------------------
  // Properties of a shutdown

  /** The effects come in the fixed order cancel, dispose, completions, drain: the wait
      in between throws before it waits. */
  lemma ShutdownOrder(snapshot: seq<Observer>)
    ensures ShutdownEvents(false, snapshot)[..2] == [CancellationRequested, TokenDisposed]
    ensures ShutdownEvents(false, snapshot)[2..|snapshot| + 2] == CompletionEvents(snapshot)
    ensures snapshot != [] ==> ShutdownEvents(false, snapshot)[|snapshot| + 2..] == [RegistryDrained]
    ensures snapshot == [] ==> |ShutdownEvents(false, snapshot)| == 2
  {
    SlicesOfConcat(StepEvents(false), CompletionEvents(snapshot), DrainEvents(snapshot));
  }

  /** A shutdown completes each subscriber as often as it occurs in the snapshot, and
      makes no other callback: exactly once each for a bag without duplicates. */
  lemma ShutdownCompletesEachOnce(disposed: bool, snapshot: seq<Observer>, o: Observer)
    ensures CountCalls(ShutdownEvents(disposed, snapshot), o, CompletedCall) == multiset(snapshot)[o]
  {
    var head := StepEvents(disposed);
    var middle := CompletionEvents(snapshot);
    var tail := DrainEvents(snapshot);
    CountCallsAppend(head + middle, tail, o, CompletedCall);
    CountCallsAppend(head, middle, o, CompletedCall);
    CountCallsNone(head, o, CompletedCall);
    CountCallsNone(tail, o, CompletedCall);
    CompletionCallsEachOnce(snapshot, o);
  }

  lemma SlicesOfConcat(a: seq<Event>, b: seq<Event>, c: seq<Event>)
    ensures (a + b + c)[..|a|] == a
    ensures (a + b + c)[|a|..|a| + |b|] == b
    ensures (a + b + c)[|a| + |b|..] == c
  {
  }

  /** Recording is lossless: the result holds the exception of every failed step, in
      step order, and one exception per throwing subscriber. */
  lemma ShutdownRecordsEverything(cancel: Try<()>, wait: Try<()>, dispose: Try<()>, snapshot: seq<Observer>,
                                  drain: Try<()>)
    ensures Recorded(ShutdownResult(cancel, wait, dispose, snapshot, drain)) ==
      FailureList(cancel) + FailureList(wait) + FailureList(dispose) + CompletionFaults(snapshot) + FailureList(drain)
  {
    CompletionFoldRecordsFaults(snapshot);
  }

  /** What a first shutdown reports is exactly the non-cancellation exceptions of the
      wait step and of the `OnCompleted` calls, in that order. */
  lemma ShutdownExceptions(waitFault: Option<Exception>, snapshot: seq<Observer>)
    ensures Exceptions(ShutdownResult(Success(()), Outcome(waitFault), Success(()), snapshot, Success(()))).value ==
      WithoutCancellations(FaultList(waitFault) + CompletionFaults(snapshot))
  {
    var result := ShutdownResult(Success(()), Outcome(waitFault), Success(()), snapshot, Success(()));
    ShutdownRecordsEverything(Success(()), Outcome(waitFault), Success(()), snapshot, Success(()));
    DropEmpties(FaultList(waitFault), CompletionFaults(snapshot));
    assert result.recorded.value == FaultList(waitFault) + CompletionFaults(snapshot);
  }

  lemma DropEmpties(a: seq<Exception>, b: seq<Exception>)
    ensures [] + a + [] + b + [] == a + b
  {
  }

  /** A first shutdown is `Failed` whenever some `OnCompleted` throws an exception that is
      not a `TaskCanceledException`, and each such exception is reported. */
  lemma ShutdownFailsIfCompletionThrows(waitFault: Option<Exception>, snapshot: seq<Observer>, k: nat)
    requires k < |snapshot| && snapshot[k].completedFault.Some?
    requires !IsTaskCanceled(snapshot[k].completedFault.value)
    ensures Failed(ShutdownResult(Success(()), Outcome(waitFault), Success(()), snapshot, Success(())))
    ensures snapshot[k].completedFault.value in
      Exceptions(ShutdownResult(Success(()), Outcome(waitFault), Success(()), snapshot, Success(()))).value
  {
    var result := ShutdownResult(Success(()), Outcome(waitFault), Success(()), snapshot, Success(()));
    var e := snapshot[k].completedFault.value;
    ShutdownExceptions(waitFault, snapshot);
    CompletionFaultsPerObserver(snapshot, k);
    WithoutCancellationsMembers(Recorded(FromAttempt(Outcome(waitFault))) + CompletionFaults(snapshot), e);
    FailedIffExceptionsReported(result);
  }

  /** Found defect: the wait is given the token the cancel step has just cancelled, so it
      throws `OperationCanceledException`, which `Failed` does not filter out. Every first
      shutdown with a subscriber is therefore `Failed` and reports that exception, even
      when no worker and no subscriber throws; without subscribers it throws. */
  lemma FirstShutdownAlwaysFails(waitFault: Option<Exception>, snapshot: seq<Observer>)
    ensures snapshot == [] ==>
      ShutdownResultAsWritten(CancelOutcome(false), WaitOutcome(false, true, waitFault), Success(()), snapshot,
                              Success(())).Failure?
    ensures snapshot != [] ==>
      ShutdownResultAsWritten(CancelOutcome(false), WaitOutcome(false, true, waitFault), Success(()), snapshot,
                              Success(())).Success? &&
      Failed(ShutdownResultAsWritten(CancelOutcome(false), WaitOutcome(false, true, waitFault), Success(()),
                                     snapshot, Success(())).value) &&
      WaitCanceledError in Exceptions(ShutdownResultAsWritten(CancelOutcome(false), WaitOutcome(false, true, waitFault),
                                                              Success(()), snapshot, Success(())).value).value
  {
    var wait := WaitOutcome(false, true, waitFault);
    if snapshot == [] {
      NoSubscriberShutdownThrows(CancelOutcome(false), wait, Success(()), Success(()));
    } else {
      AsWrittenAgreesWithSubscribers(CancelOutcome(false), wait, Success(()), snapshot, Success(()));
      var result := ShutdownResult(CancelOutcome(false), wait, Success(()), snapshot, Success(()));
      ShutdownRecordsEverything(CancelOutcome(false), wait, Success(()), snapshot, Success(()));
      var all := [] + [WaitCanceledError] + [] + CompletionFaults(snapshot) + [];
      assert Recorded(result) == all;
      assert all[0] == WaitCanceledError;
      WithoutCancellationsMembers(all, WaitCanceledError);
      FailedIffExceptionsReported(result);
    }
  }

  /** As intended, a first shutdown waits on a token not yet cancelled, so one in which
      nothing throws is not `Failed` and reports nothing. */
  lemma CleanShutdownSucceeds(snapshot: seq<Observer>)
    requires forall k :: 0 <= k < |snapshot| ==> snapshot[k].completedFault.None?
    ensures !Failed(ShutdownResult(CancelOutcome(false), WaitOutcome(false, false, None), Success(()), snapshot,
                                   Success(())))
    ensures Exceptions(ShutdownResult(CancelOutcome(false), WaitOutcome(false, false, None), Success(()), snapshot,
                                      Success(()))).value == []
  {
    assert CancelOutcome(false) == Success(()) && WaitOutcome(false, false, None) == Success(());
    ShutdownExceptions(None, snapshot);
    CompletionFaultsNone(snapshot);
    FailedIffExceptionsReported(ShutdownResult(Success(()), Success(()), Success(()), snapshot, Success(())));
  }

  /** A repeated shutdown, on a disposed token source: the first one drained the
      registry, so unless someone subscribed since, the snapshot is empty and it throws
      `ArgumentNullException`; otherwise it returns a `Failed` result in which both the
      cancel and the wait step report `ObjectDisposedException`. */
  lemma RepeatedShutdownFails(waitFault: Option<Exception>, snapshot: seq<Observer>)
    ensures snapshot == [] ==>
      ShutdownResultAsWritten(CancelOutcome(true), WaitOutcome(true, true, waitFault), Success(()), snapshot,
                              Success(())).Failure? &&
      ShutdownResultAsWritten(CancelOutcome(true), WaitOutcome(true, true, waitFault), Success(()), snapshot,
                              Success(())).error.kind == ArgumentNull
    ensures snapshot != [] ==>
      ShutdownResultAsWritten(CancelOutcome(true), WaitOutcome(true, true, waitFault), Success(()), snapshot,
                              Success(())).Success? &&
      Recorded(ShutdownResultAsWritten(CancelOutcome(true), WaitOutcome(true, true, waitFault), Success(()), snapshot,
                                       Success(())).value)[..2] == [ObjectDisposedError, ObjectDisposedError] &&
      Failed(ShutdownResultAsWritten(CancelOutcome(true), WaitOutcome(true, true, waitFault), Success(()), snapshot,
                                     Success(())).value)
  {
    if snapshot == [] {
      NoSubscriberShutdownThrows(CancelOutcome(true), WaitOutcome(true, true, waitFault), Success(()), Success(()));
    } else {
      AsWrittenAgreesWithSubscribers(CancelOutcome(true), WaitOutcome(true, true, waitFault), Success(()), snapshot,
                                     Success(()));
      var result := ShutdownResult(CancelOutcome(true), WaitOutcome(true, true, waitFault), Success(()), snapshot,
                                   Success(()));
      assert Recorded(result)[0] == ObjectDisposedError;
    }
  }

  /** Two `StopReceiving` calls in a row with nobody subscribing in between: the first
      drains the registry and disposes the token source, so the second enumerates no
      subscriber and throws `ArgumentNullException`. */
  method StopReceivingTwice(client: RunningBrokerClient, trace: Trace)
    returns (first: Try<StopReceivingResult>, second: Try<StopReceivingResult>)
    requires client.Started()
    modifies client.Parts(), trace
    ensures second.Failure? && second.error.kind == ArgumentNull
  {
    ghost var snapshot;
    first, snapshot := client.StopReceiving(trace);
    second, snapshot := client.StopReceiving(trace);
    assert multiset(snapshot) == multiset{};
    assert snapshot == [];
    RepeatedShutdownFails(client.workers.value.waitFault, snapshot);
  }

  /** The chain as written agrees with the corrected one whenever there is at least one
      subscriber. */
  lemma AsWrittenAgreesWithSubscribers(cancel: Try<()>, wait: Try<()>, dispose: Try<()>,
                                       snapshot: seq<Observer>, drain: Try<()>)
    requires snapshot != []
    ensures ShutdownResultAsWritten(cancel, wait, dispose, snapshot, drain) ==
      Success(ShutdownResult(cancel, wait, dispose, snapshot, drain))
  {
    CompletionFoldRecordsFaults(snapshot);
  }

  /** Found defect: with no subscribers the fold returns its uninitialised seed, and the
      written `Append` throws `ArgumentNullException` on it, so such a shutdown throws
      instead of returning its result. */
  lemma NoSubscriberShutdownThrows(cancel: Try<()>, wait: Try<()>, dispose: Try<()>, drain: Try<()>)
    ensures ShutdownResultAsWritten(cancel, wait, dispose, [], drain).Failure?
    ensures ShutdownResultAsWritten(cancel, wait, dispose, [], drain).error.kind == ArgumentNull
  {
  }
}
