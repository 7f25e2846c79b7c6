/** The client itself (BrokerClient.cs): mode selection at construction, the
    subscriber registry operations, and the receive loop that routes each poll's
    message or failure to processing or to error reporting. */
module Client {
  import opened Errors
  import opened Messages
  import opened Observers
  import opened Dispatch
  import opened Registry
  import opened Running

  /** Which receive and process functions the constructor configured. */
  datatype Configuration = Configuration(
    getMessageAsync: bool,
    getMessage: bool,
    processAsync: bool,
    processSync: bool)

  /** `IsAsync`. */
  predicate IsAsync(hasOpenAsync: bool, hasExecuteAsync: bool)
    ensures IsAsync(hasOpenAsync, hasExecuteAsync) <==> hasOpenAsync && hasExecuteAsync
  {
    hasOpenAsync && hasExecuteAsync
  }

  /** The constructor's choices: the asynchronous receive (and end-dialog) functions are
      built by matching on both optional delegates; the synchronous ones exactly when
      the client is not asynchronous. */
  function Configure(hasOpenAsync: bool, hasExecuteAsync: bool): (c: Configuration)
    ensures c.getMessageAsync != c.getMessage
    ensures c.getMessageAsync <==> hasOpenAsync && hasExecuteAsync
    ensures c.processAsync == c.getMessageAsync && c.processSync == c.getMessage
  {
    var getAsync := if hasOpenAsync then (if hasExecuteAsync then true else false) else false;
    var endAsync := if hasOpenAsync then (if hasExecuteAsync then true else false) else false;
    var sync := !IsAsync(hasOpenAsync, hasExecuteAsync);
    Configuration(getAsync, sync, endAsync, sync)
  }

  /** How one worker task, started on the receive loop's cancellation token, meets a
      cancellation request. A task whose token is cancelled before it begins is itself
      cancelled: its body never runs, and neither does its continuation. */
  datatype WorkerStart =
    | CancelledBeforeStart  // requested before the task began: its body does not run
    | CancelledAfterStart   // the body runs, and sees the request at its first check
    | NotCancelled          // the body runs without meeting a request

  /** One iteration of the receive loop: what the receive function returned, whether
      ending the conversation throws, and how the two workers it may start meet
      cancellation. `processing` is the worker `QueueForProcessing` starts for a
      received message; when it sees the request, so do the fan-out tasks it starts.
      `reporting` is the worker `ProcessException` starts for a failure. */
  datatype Poll = Poll(received: Try<BrokerMessage>, endFault: Option<Exception>,
                       processing: WorkerStart, reporting: WorkerStart)

  /** The effects of `ProcessException`'s worker: none if it never runs, a log entry if
      it sees the cancellation request, otherwise the error delivered to every
      subscriber. */
  function ExceptionEvents(e: Exception, message: Option<BrokerMessage>, start: WorkerStart,
                           observers: seq<Observer>): seq<Event>
  {
    match start
    case CancelledBeforeStart => []
    case CancelledAfterStart => [ErrorLogged(e)]
    case NotCancelled => FanOutEvents(observers, SendErrorOf(e, message))
  }

  /** How the worker reporting a processing failure starts: a processing worker that
      saw the cancellation request starts it on a token that is already cancelled. */
  function ReportStart(processing: WorkerStart, reporting: WorkerStart): (s: WorkerStart)
    ensures processing.NotCancelled? ==> s == reporting
    ensures !processing.NotCancelled? ==> s.CancelledBeforeStart?
  {
    if processing.NotCancelled? then reporting else CancelledBeforeStart
  }

  /** The effects of one poll: a failed receive is reported without a message; a
      received message is processed, and a processing failure is reported with it. */
  function PollEvents(poll: Poll, observers: seq<Observer>): seq<Event>
  {
    match poll.received
    case Failure(e) => ExceptionEvents(e, None, poll.reporting, observers)
    case Success(m) =>
      if poll.processing.CancelledBeforeStart? then []
      else
        var cancelled := poll.processing.CancelledAfterStart?;
        var outcome := ProcessOutcome(m, poll.endFault, observers, cancelled);
        ProcessEvents(m, poll.endFault, observers, cancelled) +
        if outcome.Failure? then ExceptionEvents(outcome.error, Some(m), ReportStart(poll.processing, poll.reporting), observers)
        else []
  }

  /** `ProcessException`: the worker it starts. */
  method ProcessException(e: Exception, message: Option<BrokerMessage>, start: WorkerStart,
                          observers: seq<Observer>, trace: Trace)
    modifies trace
    ensures trace.events == old(trace.events) + ExceptionEvents(e, message, start, observers)
  {
    match start
    case CancelledBeforeStart =>
    case CancelledAfterStart => trace.Record(ErrorLogged(e));
    case NotCancelled => FanOut(observers, SendErrorOf(e, message), trace);
  }

  /** `QueueForProcessing`: the worker processes the message and reports a failure
      together with the message. */
  method QueueForProcessing(m: BrokerMessage, endFault: Option<Exception>, processing: WorkerStart,
                            reporting: WorkerStart, observers: seq<Observer>, trace: Trace)
    modifies trace
    ensures trace.events == old(trace.events) +
      PollEvents(Poll(Success(m), endFault, processing, reporting), observers)
  {
    if processing.CancelledBeforeStart? {
      return;
    }
    ghost var start := trace.events;
    var cancelled := processing.CancelledAfterStart?;
    var r := ProcessMessage(m, endFault, observers, cancelled, trace);
    if r.Failure? {
      ProcessException(r.error, Some(m), ReportStart(processing, reporting), observers, trace);
      AppendAssoc(start, ProcessEvents(m, endFault, observers, cancelled),
                  ExceptionEvents(r.error, Some(m), ReportStart(processing, reporting), observers));
    } else {
      assert trace.events == start + ProcessEvents(m, endFault, observers, cancelled) + [];
    }
  }

  /** The receiver's handling of one poll: a received message is queued for processing,
      a failure is reported. */
  method Route(poll: Poll, observers: seq<Observer>, trace: Trace)
    modifies trace
    ensures trace.events == old(trace.events) + PollEvents(poll, observers)
  {
    match poll.received {
      case Success(m) =>
        assert poll == Poll(Success(m), poll.endFault, poll.processing, poll.reporting);
        QueueForProcessing(m, poll.endFault, poll.processing, poll.reporting, observers, trace);
      case Failure(e) =>
        ProcessException(e, None, poll.reporting, observers, trace);
    }
  }

  /** `BrokerClient`. */
  class BrokerClient {
    const observers: ObserverBag
    const config: Configuration
    var tokenSource: Option<TokenSource>

    constructor (hasOpenAsync: bool, hasExecuteAsync: bool)
      ensures fresh(observers) && observers.items == multiset{}
      ensures config == Configure(hasOpenAsync, hasExecuteAsync)
      ensures tokenSource.None?
    {
      observers := new ObserverBag();
      config := Configure(hasOpenAsync, hasExecuteAsync);
      tokenSource := None;
    }

    /** `Subscribe`: adds the subscriber unless it is already registered, and returns a
        subscription bound to it either way. */
    method Subscribe(o: Observer) returns (s: Subscription)
      modifies observers
      ensures o in old(observers.items) ==> observers.items == old(observers.items)
      ensures o !in old(observers.items) ==> observers.items == old(observers.items) + multiset{o}
      ensures NoDuplicates(old(observers.items)) ==> NoDuplicates(observers.items)
      ensures fresh(s) && s.registry == observers && s.observer == o && !s.disposed
    {
      var present := observers.Contains(o);
      if !present {
        observers.Add(o);
      }
      s := new Subscription(observers, o);
    }

    /** `Subscribers`: a list holding exactly the registered subscribers. Being a value,
        changing it cannot change the registry. */
    method Subscribers() returns (list: seq<Observer>)
      ensures multiset(list) == observers.items
    {
      list := observers.ToList();
    }

    /** `ReceiveMessages`: creates the token source, starts the receiver and hands back
        the running client, which shares the registry and the token source. */
    method ReceiveMessages(waitFault: Option<Exception>) returns (running: RunningBrokerClient)
      modifies this
      ensures tokenSource.Some? && fresh(tokenSource.value)
      ensures !tokenSource.value.cancellationRequested && !tokenSource.value.disposed
      ensures fresh(running) && running.Started()
      ensures running.observers == Some(observers) && running.tokenSource == tokenSource
      ensures running.workers.value.waitFault == waitFault
    {
      var source := new TokenSource();
      tokenSource := Some(source);
      var workers := new Workers(waitFault);
      running := new RunningBrokerClient(Some(observers), Some(workers), Some(source));
    }

    /** One poll of the receiver: the registry is enumerated afresh and the poll is
        routed to the subscribers of that enumeration. */
    method PollOnce(poll: Poll, trace: Trace) returns (ghost list: seq<Observer>, ghost step: seq<Event>)
      modifies trace
      ensures multiset(list) == observers.items
      ensures step == PollEvents(poll, list)
      ensures trace.events == old(trace.events) + step
    {
      var enumerated := observers.ToList();
      Route(poll, enumerated, trace);
      list, step := enumerated, PollEvents(poll, enumerated);
    }

    /** The receiver task's loop, for the polls made before cancellation stopped it:
        each success is queued for processing and each failure is reported. The
        workers it spawns run to completion in order, each poll's worker with the
        enumeration of the registry it saw. */
    method ReceiveLoop(polls: seq<Poll>, trace: Trace)
      returns (ghost snapshots: seq<seq<Observer>>, ghost effects: seq<seq<Event>>)
      modifies trace
      ensures |snapshots| == |polls| && |effects| == |polls|
      ensures forall k :: 0 <= k < |polls| ==> multiset(snapshots[k]) == observers.items
      ensures forall k :: 0 <= k < |polls| ==> effects[k] == PollEvents(polls[k], snapshots[k])
      ensures trace.events == old(trace.events) + Concat(effects)
    {
      snapshots, effects := [], [];
      ghost var start := trace.events;
      var i := 0;
      while i < |polls|
        invariant 0 <= i <= |polls| && |snapshots| == i && |effects| == i
        invariant forall k :: 0 <= k < i ==> multiset(snapshots[k]) == observers.items
        invariant forall k :: 0 <= k < i ==> effects[k] == PollEvents(polls[k], snapshots[k])
        invariant trace.events == start + Concat(effects)
      {
        var list, step := PollOnce(polls[i], trace);
        ConcatStep(effects, step);
        AppendAssoc(start, Concat(effects), step);
        RoutedStep(polls, snapshots, effects, list, step);
        snapshots := snapshots + [list];
        effects := effects + [step];
        i := i + 1;
      }
    }
  }

  /** Extending the record of the loop by one routed poll keeps it a record of routed
      polls. */
  lemma RoutedStep(polls: seq<Poll>, snapshots: seq<seq<Observer>>, effects: seq<seq<Event>>,
                   list: seq<Observer>, step: seq<Event>)
    requires |snapshots| == |effects| < |polls|
    requires forall k :: 0 <= k < |effects| ==> effects[k] == PollEvents(polls[k], snapshots[k])
    requires step == PollEvents(polls[|effects|], list)
    ensures forall k :: 0 <= k <= |effects| ==>
      (effects + [step])[k] == PollEvents(polls[k], (snapshots + [list])[k])
  {
    forall k | 0 <= k <= |effects|
      ensures (effects + [step])[k] == PollEvents(polls[k], (snapshots + [list])[k])
    {
      if k < |effects| {
        assert (effects + [step])[k] == effects[k] && (snapshots + [list])[k] == snapshots[k];
      }
    }
  }

  // ---------------------------------------------------------------------------
  // Properties of the routing

  /** A failed receive reaches every subscriber as one `OnError` without a message; if
      the reporting worker sees the cancellation request it is only logged, and if the
      request came before that worker began, nothing happens at all. */
  lemma ReceiveFailureReportedWithoutMessage(e: Exception, endFault: Option<Exception>, processing: WorkerStart,
                                             observers: seq<Observer>, o: Observer)
    ensures CountCalls(PollEvents(Poll(Failure(e), endFault, processing, NotCancelled), observers), o,
                       ErrorCall(e, None)) == multiset(observers)[o]
    ensures PollEvents(Poll(Failure(e), endFault, processing, CancelledAfterStart), observers) == [ErrorLogged(e)]
    ensures PollEvents(Poll(Failure(e), endFault, processing, CancelledBeforeStart), observers) == []
  {
    FanOutCallsEachOnce(observers, SendErrorOf(e, None), o);
  }

  /** A processing failure reaches every subscriber as one `OnError` carrying the message
      being processed. */
  lemma ProcessingFailureReportedWithMessage(m: BrokerMessage, fault: Exception,
                                             observers: seq<Observer>, o: Observer)
    requires !IsEmpty(m)
    ensures PollEvents(Poll(Success(m), Some(fault), NotCancelled, NotCancelled), observers) ==
      [ConversationEnded(m.conversation)] + FanOutEvents(observers, SendErrorOf(fault, Some(m)))
    ensures CountCalls(PollEvents(Poll(Success(m), Some(fault), NotCancelled, NotCancelled), observers), o,
                       ErrorCall(fault, Some(m))) == multiset(observers)[o]
  {
    var poll := Poll(Success(m), Some(fault), NotCancelled, NotCancelled);
    var first := [ConversationEnded(m.conversation)];
    var rest := FanOutEvents(observers, SendErrorOf(fault, Some(m)));
    EndFailureNotifiesNobody(m, fault, observers, false);
    assert ReportStart(poll.processing, poll.reporting) == NotCancelled;
    assert ExceptionEvents(fault, Some(m), NotCancelled, observers) == rest;
    assert PollEvents(poll, observers) == first + rest;
    CountCallsNone(first, o, ErrorCall(fault, Some(m)));
    CountCallsAppend(first, rest, o, ErrorCall(fault, Some(m)));
    FanOutCallsEachOnce(observers, SendErrorOf(fault, Some(m)), o);
  }

  /** When the processing worker sees the cancellation request, the poll only ends the
      conversation: its fan-out is cancelled, and the failure that causes is not
      reported, because the reporting worker starts on a cancelled token. A processing
      worker cancelled before it began does nothing at all. */
  lemma CancelledProcessingIsNotReported(m: BrokerMessage, endFault: Option<Exception>, reporting: WorkerStart,
                                         observers: seq<Observer>)
    requires !IsEmpty(m)
    ensures PollEvents(Poll(Success(m), endFault, CancelledAfterStart, reporting), observers) ==
      [ConversationEnded(m.conversation)]
    ensures PollEvents(Poll(Success(m), endFault, CancelledBeforeStart, reporting), observers) == []
  {
    assert ProcessEvents(m, endFault, observers, true) == [ConversationEnded(m.conversation)];
  }

  /** When neither worker of a poll runs without meeting the cancellation request, the
      poll notifies no subscriber: every effect is ending a conversation or a log entry. */
  lemma CancelledPollNotifiesNobody(poll: Poll, observers: seq<Observer>, i: nat)
    requires !poll.processing.NotCancelled? && !poll.reporting.NotCancelled?
    requires i < |PollEvents(poll, observers)|
    ensures !PollEvents(poll, observers)[i].Notified?
  {
    if poll.received.Success? {
      var m := poll.received.value;
      if !IsEmpty(m) {
        CancelledProcessingIsNotReported(m, poll.endFault, poll.reporting, observers);
      }
    }
  }

  /** Receiving `Empty` does nothing at all, whatever else happens. */
  lemma EmptyPollDoesNothing(poll: Poll, observers: seq<Observer>)
    requires poll.received == Success(Empty)
    ensures PollEvents(poll, observers) == []
  {
    assert IsEmpty(Empty);
  }
}
