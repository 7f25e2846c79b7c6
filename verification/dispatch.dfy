/** Message dispatch (AppPrelude.cs): the classifier that ends a message's conversation
    and picks error delivery, nothing, or data delivery; the wrappers that keep a
    subscriber's faults away from everyone else; and the fan-out to all subscribers,
    run here as a sequential for-each. */
module Dispatch {
  import opened Errors
  import opened Messages
  import opened Observers

  /** The reserved message types (Constants.cs). */
  const ErrorMessageType: string := "http://schemas.microsoft.com/SQL/ServiceBroker/Error"
  const EndDialogMessageType: string := "http://schemas.microsoft.com/SQL/ServiceBroker/EndDialog"

  /** What awaiting a fan-out whose tasks were cancelled throws. */
  const TaskCanceledError: Exception := Exception(TaskCanceled, "A task was canceled.", [])

  /** The action applied to each subscriber by a fan-out. */
  datatype Delivery =
    | SendNextOf(message: BrokerMessage)
    | SendErrorOf(error: Exception, context: Option<BrokerMessage>)

  /** The effects of `SendError`: the subscriber's `OnError`, and when that throws, one
      Error-level log entry holding both exceptions; nothing propagates. */
  function SendErrorEvents(o: Observer, e: Exception, message: Option<BrokerMessage>): seq<Event>
  {
    [Notified(o, ErrorCall(e, message))] +
    match o.errorFault
    case None => []
    case Some(fault) => [ErrorLogged(AggregateOf(e, fault))]
  }

  /** The effects of `SendNext`: the subscriber's `OnNext`, and when that throws, the
      thrown exception goes to the same subscriber's `OnError`, with no message. */
  function SendNextEvents(o: Observer, message: BrokerMessage): seq<Event>
  {
    [Notified(o, NextCall(message))] +
    match o.nextFault
    case None => []
    case Some(fault) => SendErrorEvents(o, fault, None)
  }

  function DeliveryEvents(o: Observer, d: Delivery): seq<Event>
  {
    match d
    case SendNextOf(m) => SendNextEvents(o, m)
    case SendErrorOf(e, m) => SendErrorEvents(o, e, m)
  }

  /** The callback a delivery is about. */
  function PrimaryCall(d: Delivery): Call
  {
    match d
    case SendNextOf(m) => NextCall(m)
    case SendErrorOf(e, m) => ErrorCall(e, m)
  }

  /** The effects of delivering `d` to each subscriber of `observers`, in order. */
  function FanOutEvents(observers: seq<Observer>, d: Delivery): seq<Event>
  {
    if observers == [] then []
    else FanOutEvents(observers[..|observers| - 1], d) + DeliveryEvents(observers[|observers| - 1], d)
  }

  /** Extending the fan-out by one subscriber appends that subscriber's delivery. */
  lemma FanOutStep(observers: seq<Observer>, i: nat, d: Delivery)
    requires i < |observers|
    ensures FanOutEvents(observers[..i + 1], d) == FanOutEvents(observers[..i], d) + DeliveryEvents(observers[i], d)
  {
    assert observers[..i + 1][..i] == observers[..i];
  }

  /** `SendError`. */
  method SendError(o: Observer, e: Exception, message: Option<BrokerMessage>, trace: Trace)
    modifies trace
    ensures trace.events == old(trace.events) + SendErrorEvents(o, e, message)
  {
    var r := o.OnError(e, message, trace);
    if r.Failure? {
      trace.Record(ErrorLogged(AggregateOf(e, r.error)));
    }
  }

  /** `SendNext`. */
  method SendNext(o: Observer, message: BrokerMessage, trace: Trace)
    modifies trace
    ensures trace.events == old(trace.events) + SendNextEvents(o, message)
  {
    var r := o.OnNext(message, trace);
    if r.Failure? {
      SendError(o, r.error, None, trace);
    }
  }

  method Deliver(o: Observer, d: Delivery, trace: Trace)
    modifies trace
    ensures trace.events == old(trace.events) + DeliveryEvents(o, d)
  {
    match d
    case SendNextOf(m) => SendNext(o, m, trace);
    case SendErrorOf(e, m) => SendError(o, e, m, trace);
  }

  /** The for-each of `Iter`: the action applied to each subscriber in turn. */
  method FanOut(observers: seq<Observer>, d: Delivery, trace: Trace)
    modifies trace
    ensures trace.events == old(trace.events) + FanOutEvents(observers, d)
  {
    ghost var start := trace.events;
    var i := 0;
    while i < |observers|
      invariant 0 <= i <= |observers|
      invariant trace.events == start + FanOutEvents(observers[..i], d)
    {
      FanOutStep(observers, i, d);
      AppendAssoc(start, FanOutEvents(observers[..i], d), DeliveryEvents(observers[i], d));
      Deliver(observers[i], d, trace);
      i := i + 1;
    }
    assert observers[..|observers|] == observers;
  }

  /** `Iter`: one task per subscriber, each started on the token. Once cancellation has
      been requested no task runs and awaiting them throws, unless there are no tasks
      at all: `WhenAll` of an empty list completes. Otherwise the action is applied once
      to each subscriber; the delivery wrappers never throw, so that fan-out succeeds. */
  method Iter(observers: seq<Observer>, d: Delivery, cancelled: bool, trace: Trace) returns (r: Try<()>)
    modifies trace
    ensures cancelled && observers != [] ==> r == Failure(TaskCanceledError) && trace.events == old(trace.events)
    ensures !(cancelled && observers != []) ==>
      r == Success(()) && trace.events == old(trace.events) + FanOutEvents(observers, d)
  {
    if cancelled && observers != [] {
      return Failure(TaskCanceledError);
    }
    FanOut(observers, d, trace);
    return Success(());
  }

  /** What the `switch` on the message type chooses. */
  datatype Handling = ReportError(error: Exception) | Ignore | DeliverData(message: BrokerMessage)

  function Classify(m: BrokerMessage): (h: Handling)
    ensures h.ReportError? <==> m.messageType == ErrorMessageType
    ensures h.ReportError? ==> h.error == NewException(m.message)
    ensures h.Ignore? <==> m.messageType == EndDialogMessageType
    ensures h.DeliverData? ==> h.message == m
  {
    if m.messageType == ErrorMessageType then ReportError(NewException(m.message))
    else if m.messageType == EndDialogMessageType then Ignore
    else DeliverData(m)
  }

  /** The effects of processing one received message: nothing for `Empty`; otherwise the
      conversation is ended first and, if that succeeded, the classified delivery. */
  function ProcessEvents(m: BrokerMessage, endFault: Option<Exception>, observers: seq<Observer>,
                         cancelled: bool): seq<Event>
  {
    if IsEmpty(m) then []
    else [ConversationEnded(m.conversation)] + DeliveryAfterEnd(m, endFault, observers, cancelled)
  }

  /** The fan-out that follows ending the conversation: none if that failed, if
      cancellation was requested, or for an end-dialog message. */
  function DeliveryAfterEnd(m: BrokerMessage, endFault: Option<Exception>, observers: seq<Observer>,
                            cancelled: bool): seq<Event>
  {
    if endFault.Some? || cancelled then []
    else match Classify(m)
      case ReportError(e) => FanOutEvents(observers, SendErrorOf(e, None))
      case Ignore => []
      case DeliverData(msg) => FanOutEvents(observers, SendNextOf(msg))
  }

  /** The result of processing one received message: a fan-out of at least one task
      after cancellation is the only other way to fail than ending the conversation. */
  function ProcessOutcome(m: BrokerMessage, endFault: Option<Exception>, observers: seq<Observer>,
                          cancelled: bool): Try<()>
  {
    if IsEmpty(m) then Success(())
    else if endFault.Some? then Failure(endFault.value)
    else if Classify(m).Ignore? || !cancelled || observers == [] then Success(())
    else Failure(TaskCanceledError)
  }

  /** The function `ProcessMessageAsyncFactory` builds, applied to one message. Ending
      the conversation is the external `endDialog`, whose fault (if any) is an input. */
  method ProcessMessage(m: BrokerMessage, endFault: Option<Exception>, observers: seq<Observer>,
                        cancelled: bool, trace: Trace) returns (r: Try<()>)
    modifies trace
    ensures trace.events == old(trace.events) + ProcessEvents(m, endFault, observers, cancelled)
    ensures r == ProcessOutcome(m, endFault, observers, cancelled)
  {
    ghost var start := trace.events;
    if IsEmpty(m) {
      return Success(());
    }
    trace.Record(ConversationEnded(m.conversation));
    ghost var tail := DeliveryAfterEnd(m, endFault, observers, cancelled);
    AppendAssoc(start, [ConversationEnded(m.conversation)], tail);
    if endFault.Some? {
      assert tail == [];
      return Failure(endFault.value);
    }
    var result: Try<()> := Success(());
    match Classify(m) {
      case ReportError(e) => result := Iter(observers, SendErrorOf(e, None), cancelled, trace);
      case Ignore => result := Success(());
      case DeliverData(msg) => result := Iter(observers, SendNextOf(msg), cancelled, trace);
    }
    return result;
  }

  // ---------------------------------------------------------------------------
  // Properties of one delivery and of the fan-out

  /** One delivery makes its primary callback exactly once, on its own subscriber. */
  lemma DeliveryCallsOnce(x: Observer, o: Observer, d: Delivery)
    ensures CountCalls(DeliveryEvents(x, d), o, PrimaryCall(d)) == if x == o then 1 else 0
  {
    var evs := DeliveryEvents(x, d);
    var first := [evs[0]];
    assert evs == first + evs[1..];
    CountCallsAppend(first, evs[1..], o, PrimaryCall(d));
    assert CountCalls(first, o, PrimaryCall(d)) == if x == o then 1 else 0 by {
      assert first[..0] == [];
    }
    forall i | 0 <= i < |evs[1..]|
      ensures evs[1..][i] != Notified(o, PrimaryCall(d))
    {
    }
    CountCallsNone(evs[1..], o, PrimaryCall(d));
  }

  /** A fan-out makes the primary callback on each subscriber exactly as many times as
      the subscriber occurs in the list: once each for a list without repeats. */
  lemma {:induction false} FanOutCallsEachOnce(observers: seq<Observer>, d: Delivery, o: Observer)
    ensures CountCalls(FanOutEvents(observers, d), o, PrimaryCall(d)) == multiset(observers)[o]
  {
    if observers != [] {
      var n := |observers| - 1;
      var prefix, last := observers[..n], observers[n];
      FanOutCallsEachOnce(prefix, d, o);
      CountCallsAppend(FanOutEvents(prefix, d), DeliveryEvents(last, d), o, PrimaryCall(d));
      DeliveryCallsOnce(last, o, d);
      assert FanOutEvents(observers, d) == FanOutEvents(prefix, d) + DeliveryEvents(last, d);
      assert observers == prefix + [last];
      assert multiset(observers) == multiset(prefix) + multiset{last};
    }
  }

  /** Every effect of a fan-out comes from the delivery to some listed subscriber. */
  lemma {:induction false} FanOutEventsFromListed(observers: seq<Observer>, d: Delivery, i: nat)
    requires i < |FanOutEvents(observers, d)|
    ensures exists k :: 0 <= k < |observers| && FanOutEvents(observers, d)[i] in DeliveryEvents(observers[k], d)
  {
    var n := |observers| - 1;
    var prefix := FanOutEvents(observers[..n], d);
    if i < |prefix| {
      FanOutEventsFromListed(observers[..n], d, i);
      var k :| 0 <= k < n && prefix[i] in DeliveryEvents(observers[..n][k], d);
      assert observers[..n][k] == observers[k];
    } else {
      assert FanOutEvents(observers, d)[i] == DeliveryEvents(observers[n], d)[i - |prefix|];
    }
  }

  /** Every delivery to a listed subscriber appears in the fan-out. */
  lemma {:induction false} FanOutContainsEachDelivery(observers: seq<Observer>, d: Delivery, k: nat, e: Event)
    requires k < |observers| && e in DeliveryEvents(observers[k], d)
    ensures e in FanOutEvents(observers, d)
  {
    FanOutStep(observers, k, d);
    InSuffix(FanOutEvents(observers[..k], d), DeliveryEvents(observers[k], d), e);
    FanOutPrefixGrows(observers, d, k + 1, e);
    assert observers[..|observers|] == observers;
  }

  /** What the fan-out over a prefix of the subscribers does, the whole fan-out does. */
  lemma {:induction false} FanOutPrefixGrows(observers: seq<Observer>, d: Delivery, i: nat, e: Event)
    requires i <= |observers| && e in FanOutEvents(observers[..i], d)
    ensures e in FanOutEvents(observers[..|observers|], d)
    decreases |observers| - i
  {
    if i < |observers| {
      FanOutStep(observers, i, d);
      InPrefix(FanOutEvents(observers[..i], d), DeliveryEvents(observers[i], d), e);
      FanOutPrefixGrows(observers, d, i + 1, e);
    }
  }

  lemma InPrefix(a: seq<Event>, b: seq<Event>, e: Event)
    requires e in a
    ensures e in a + b
  {
    var j :| 0 <= j < |a| && a[j] == e;
    assert (a + b)[j] == e;
  }

  lemma InSuffix(a: seq<Event>, b: seq<Event>, e: Event)
    requires e in b
    ensures e in a + b
  {
    var j :| 0 <= j < |b| && b[j] == e;
    assert (a + b)[|a| + j] == e;
  }

  /** Everything one delivery does concerns its own subscriber: it ends no
      conversation, and an error delivery calls no `OnNext`. */
  lemma DeliveryIsContained(o: Observer, d: Delivery, e: Event)
    requires e in DeliveryEvents(o, d)
    ensures e.Notified? ==> e.observer == o
    ensures !e.ConversationEnded?
    ensures d.SendErrorOf? ==> !(e.Notified? && e.call.NextCall?)
  {
  }

  /** Fault containment: a fan-out notifies only listed subscribers, ends no
      conversation, and never calls `OnNext` when it delivers an error. */
  lemma FanOutIsContained(observers: seq<Observer>, d: Delivery, i: nat)
    requires i < |FanOutEvents(observers, d)|
    ensures FanOutEvents(observers, d)[i].Notified? ==> FanOutEvents(observers, d)[i].observer in observers
    ensures !FanOutEvents(observers, d)[i].ConversationEnded?
    ensures d.SendErrorOf? ==> !(FanOutEvents(observers, d)[i].Notified? && FanOutEvents(observers, d)[i].call.NextCall?)
  {
    var e := FanOutEvents(observers, d)[i];
    FanOutEventsFromListed(observers, d, i);
    var k :| 0 <= k < |observers| && e in DeliveryEvents(observers[k], d);
    DeliveryIsContained(observers[k], d, e);
  }

  /** A subscriber whose `OnNext` throws gets that exception through its own `OnError`,
      with no message; a subscriber whose `OnError` throws has both exceptions logged. */
  lemma FanOutReroutesFaults(observers: seq<Observer>, d: Delivery, k: nat)
    requires k < |observers|
    ensures d.SendNextOf? && observers[k].nextFault.Some? ==>
      Notified(observers[k], ErrorCall(observers[k].nextFault.value, None)) in FanOutEvents(observers, d)
    ensures d.SendErrorOf? && observers[k].errorFault.Some? ==>
      ErrorLogged(AggregateOf(d.error, observers[k].errorFault.value)) in FanOutEvents(observers, d)
  {
    var o := observers[k];
    if d.SendNextOf? && o.nextFault.Some? {
      assert DeliveryEvents(o, d)[1] == Notified(o, ErrorCall(o.nextFault.value, None));
      FanOutContainsEachDelivery(observers, d, k, Notified(o, ErrorCall(o.nextFault.value, None)));
    }
    if d.SendErrorOf? && o.errorFault.Some? {
      assert DeliveryEvents(o, d)[1] == ErrorLogged(AggregateOf(d.error, o.errorFault.value));
      FanOutContainsEachDelivery(observers, d, k, ErrorLogged(AggregateOf(d.error, o.errorFault.value)));
    }
  }

  // ---------------------------------------------------------------------------
  // Properties of processing one message

  /** An `Empty` message ends no conversation, notifies nobody and succeeds. */
  lemma EmptyMessageDoesNothing(endFault: Option<Exception>, observers: seq<Observer>, cancelled: bool)
    ensures ProcessEvents(Empty, endFault, observers, cancelled) == []
    ensures ProcessOutcome(Empty, endFault, observers, cancelled) == Success(())
  {
  }

  /** Any other message first ends its own conversation, and that is the only
      conversation ended. */
  lemma ConversationEndedFirst(m: BrokerMessage, endFault: Option<Exception>, observers: seq<Observer>,
                               cancelled: bool)
    requires !IsEmpty(m)
    ensures ProcessEvents(m, endFault, observers, cancelled)[0] == ConversationEnded(m.conversation)
    ensures forall i :: 0 < i < |ProcessEvents(m, endFault, observers, cancelled)| ==>
      !ProcessEvents(m, endFault, observers, cancelled)[i].ConversationEnded?
  {
    var evs := ProcessEvents(m, endFault, observers, cancelled);
    forall i | 0 < i < |evs|
      ensures !evs[i].ConversationEnded?
    {
      var rest := DeliveryAfterEnd(m, endFault, observers, cancelled);
      assert evs[i] == rest[i - 1];
      match Classify(m)
      case ReportError(e) => FanOutIsContained(observers, SendErrorOf(e, None), i - 1);
      case Ignore =>
      case DeliverData(msg) => FanOutIsContained(observers, SendNextOf(msg), i - 1);
    }
  }

  /** When ending the conversation fails, the only effect is the attempt to end it. */
  lemma EndFailureNotifiesNobody(m: BrokerMessage, fault: Exception, observers: seq<Observer>, cancelled: bool)
    requires !IsEmpty(m)
    ensures ProcessEvents(m, Some(fault), observers, cancelled) == [ConversationEnded(m.conversation)]
    ensures ProcessOutcome(m, Some(fault), observers, cancelled) == Failure(fault)
  {
  }

  /** A message of the error type gives every subscriber one `OnError` whose text is the
      body, and no `OnNext` to anyone. */
  lemma ErrorTypeReportsBody(m: BrokerMessage, observers: seq<Observer>, o: Observer, i: nat)
    requires m.messageType == ErrorMessageType
    requires i < |ProcessEvents(m, None, observers, false)|
    ensures !IsEmpty(m)
    ensures CountCalls(ProcessEvents(m, None, observers, false), o, ErrorCall(NewException(m.message), None))
      == multiset(observers)[o]
    ensures !(ProcessEvents(m, None, observers, false)[i].Notified? &&
              ProcessEvents(m, None, observers, false)[i].call.NextCall?)
    ensures ProcessOutcome(m, None, observers, false) == Success(())
  {
    var d := SendErrorOf(NewException(m.message), None);
    var call := ErrorCall(NewException(m.message), None);
    var first := [ConversationEnded(m.conversation)];
    assert first[..0] == [];
    CountCallsAppend(first, FanOutEvents(observers, d), o, call);
    FanOutCallsEachOnce(observers, d, o);
    if i > 0 {
      FanOutIsContained(observers, d, i - 1);
    }
  }

  /** A message of the end-dialog type notifies nobody. */
  lemma EndDialogTypeNotifiesNobody(m: BrokerMessage, endFault: Option<Exception>, observers: seq<Observer>,
                                    cancelled: bool)
    requires m.messageType == EndDialogMessageType
    ensures ProcessEvents(m, endFault, observers, cancelled) == [ConversationEnded(m.conversation)]
    ensures endFault.None? ==> ProcessOutcome(m, endFault, observers, cancelled) == Success(())
  {
  }

  /** Any other type gives every subscriber `OnNext` with exactly that message, once. */
  lemma DataTypeDeliversMessage(m: BrokerMessage, observers: seq<Observer>, o: Observer)
    requires !IsEmpty(m)
    requires m.messageType != ErrorMessageType && m.messageType != EndDialogMessageType
    ensures CountCalls(ProcessEvents(m, None, observers, false), o, NextCall(m)) == multiset(observers)[o]
    ensures ProcessOutcome(m, None, observers, false) == Success(())
  {
    var first := [ConversationEnded(m.conversation)];
    assert first[..0] == [];
    CountCallsAppend(first, FanOutEvents(observers, SendNextOf(m)), o, NextCall(m));
    FanOutCallsEachOnce(observers, SendNextOf(m), o);
  }

  /** Once cancellation has been requested, processing still ends the conversation but
      notifies nobody. It fails with the cancellation exactly when the message needed a
      delivery and there was at least one subscriber to start a task for. */
  lemma CancelledProcessingNotifiesNobody(m: BrokerMessage, observers: seq<Observer>)
    requires !IsEmpty(m)
    ensures ProcessEvents(m, None, observers, true) == [ConversationEnded(m.conversation)]
    ensures m.messageType != EndDialogMessageType && observers != [] ==>
      ProcessOutcome(m, None, observers, true) == Failure(TaskCanceledError)
    ensures m.messageType == EndDialogMessageType || observers == [] ==>
      ProcessOutcome(m, None, observers, true) == Success(())
  {
  }
}
