/** Subscribers (IBrokerObserver.cs) and the record of everything the client does to
    the outside world. Every callback, every conversation end, every error written to
    the log and every shutdown step is appended, in order, to one `Trace`; claims about
    ordering and about who was notified are claims about that sequence. */
module Observers {
  import opened Errors
  import opened Messages

  /** A callback made on a subscriber, with its arguments. */
  datatype Call =
    | NextCall(message: BrokerMessage)
    | ErrorCall(error: Exception, context: Option<BrokerMessage>)
    | CompletedCall

  /** A subscriber. Its identity is the object reference; how each of its three
      callbacks behaves (return normally, or throw the given exception) is an input
      fixed when the subscriber is made. */
  class Observer {
    const nextFault: Option<Exception>
    const errorFault: Option<Exception>
    const completedFault: Option<Exception>

    constructor (nextFault: Option<Exception>, errorFault: Option<Exception>, completedFault: Option<Exception>)
      ensures this.nextFault == nextFault && this.errorFault == errorFault
      ensures this.completedFault == completedFault
    {
      this.nextFault := nextFault;
      this.errorFault := errorFault;
      this.completedFault := completedFault;
    }

    /** `OnNext(message)`. */
    method OnNext(message: BrokerMessage, trace: Trace) returns (r: Try<()>)
      modifies trace
      ensures trace.events == old(trace.events) + [Notified(this, NextCall(message))]
      ensures r == Outcome(nextFault)
    {
      trace.Record(Notified(this, NextCall(message)));
      r := Outcome(nextFault);
    }

    /** `OnError(error, message)`. */
    method OnError(error: Exception, message: Option<BrokerMessage>, trace: Trace) returns (r: Try<()>)
      modifies trace
      ensures trace.events == old(trace.events) + [Notified(this, ErrorCall(error, message))]
      ensures r == Outcome(errorFault)
    {
      trace.Record(Notified(this, ErrorCall(error, message)));
      r := Outcome(errorFault);
    }

    /** `OnCompleted()`. */
    method OnCompleted(trace: Trace) returns (r: Try<()>)
      modifies trace
      ensures trace.events == old(trace.events) + [Notified(this, CompletedCall)]
      ensures r == Outcome(completedFault)
    {
      trace.Record(Notified(this, CompletedCall));
      r := Outcome(completedFault);
    }
  }

  /** One externally visible effect. */
  datatype Event =
    | Notified(observer: Observer, call: Call)
    | ConversationEnded(conversation: Guid)  // END CONVERSATION issued for this id
    | ErrorLogged(error: Exception)          // an entry written to the log at Error level
    | CancellationRequested                  // shutdown: the token source was cancelled
    | WorkersAwaited                         // shutdown: waited for the outstanding tasks
    | TokenDisposed                          // shutdown: the token source was disposed
    | RegistryDrained                        // shutdown: the registry was emptied

  /** The effects so far, oldest first. */
  class Trace {
    var events: seq<Event>

    constructor ()
      ensures events == []
    {
      events := [];
    }

    method Record(e: Event)
      modifies this
      ensures events == old(events) + [e]
    {
      events := events + [e];
    }
  }

  /** Effects appended in two steps are the effects appended in one. */
  lemma AppendAssoc(a: seq<Event>, b: seq<Event>, c: seq<Event>)
    ensures a + b + c == a + (b + c)
  {
  }

  /** The effects of several steps, one after the other. */
  function Concat(parts: seq<seq<Event>>): seq<Event>
  {
    if parts == [] then [] else Concat(parts[..|parts| - 1]) + parts[|parts| - 1]
  }

  /** Concatenating one more step appends its effects. */
  lemma ConcatStep(parts: seq<seq<Event>>, last: seq<Event>)
    ensures Concat(parts + [last]) == Concat(parts) + last
  {
    assert (parts + [last])[..|parts|] == parts;
  }

  /** How many times `o` received exactly the callback `c` in `events`. */
  function CountCalls(events: seq<Event>, o: Observer, c: Call): nat
  {
    if events == [] then 0
    else CountCalls(events[..|events| - 1], o, c) + (if events[|events| - 1] == Notified(o, c) then 1 else 0)
  }

  /** Counting distributes over concatenation. */
  lemma {:induction false} CountCallsAppend(a: seq<Event>, b: seq<Event>, o: Observer, c: Call)
    ensures CountCalls(a + b, o, c) == CountCalls(a, o, c) + CountCalls(b, o, c)
  {
    if b == [] {
      assert a + b == a;
    } else {
      assert (a + b)[..|a + b| - 1] == a + b[..|b| - 1];
      CountCallsAppend(a, b[..|b| - 1], o, c);
    }
  }

  /** A sequence without any notification to `o` counts zero calls for it. */
  lemma {:induction false} CountCallsNone(events: seq<Event>, o: Observer, c: Call)
    requires forall i :: 0 <= i < |events| ==> events[i] != Notified(o, c)
    ensures CountCalls(events, o, c) == 0
  {
    if events != [] {
      CountCallsNone(events[..|events| - 1], o, c);
    }
  }
}
