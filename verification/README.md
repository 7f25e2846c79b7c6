# Service Broker client core, modelled in Dafny

This project models the core of `Psns.Common.Clients.Broker`, a .NET client for SQL Server
Service Broker queues. A `BrokerClient` keeps a registry of subscribers (`IBrokerObserver`)
and runs a receive loop. The loop polls a queue and queues each received `BrokerMessage`
for processing. Processing ends the message's conversation, then classifies the message by
its type:

- the Service Broker error type goes to every subscriber as `OnError`;
- the end-dialog type is only acknowledged;
- any other type goes to every subscriber as `OnNext`.

`ReceiveMessages` returns a `RunningBrokerClient`. Its `StopReceiving` does the shutdown in
a fixed order: cancel the token, wait for the workers, dispose the token, call
`OnCompleted` on every subscriber, then empty the registry. The exceptions raised by these
steps are collected into a `StopReceivingResult`. The wait is given the token the cancel step
has just cancelled, so it throws `OperationCanceledException`, and a first stop is reported
as failed even when nothing else goes wrong. With no subscribers, collecting the
`OnCompleted` results throws `ArgumentNullException`, so `StopReceiving` throws and the
registry is not drained. Both are listed under Findings. Beneath the client are:

- the SQL command set-up and result parsing of `DB.cs` and `Command.cs`;
- the `Result` combinators of `FunctionalExtensions.cs`.

Modules, one per source file:

| module | file | what it holds |
|---|---|---|
| `Errors` | (shared) | exceptions as values, `Try`, `Option` |
| `Messages` | `BrokerMessage.cs` | the message value, its equality and its hash |
| `StopResults` | `StopReceivingResult.cs` | the exception accumulator and its views |
| `Observers` | `IBrokerObserver.cs` | subscribers as objects, and the `Trace` of effects |
| `Dispatch` | `AppPrelude.cs` | `SendNext`/`SendError`, the fan-out `Iter`, message processing |
| `Registry` | `BrokerClient.cs` | the `ConcurrentBag` of subscribers and `Subscription` |
| `Running` | `RunningBrokerClient.cs` | the token source, the workers, `StopReceiving` |
| `Client` | `BrokerClient.cs` | construction, `Subscribe`, `Subscribers`, the receive loop |
| `Db` | `DB.cs` | `SetupReceive`, `RunReceiveCommandFactory`, `SetupEndDialog` |
| `Commands` | `Command.cs` | `ReceiveAsync`, `SendAsync`, `EndDialogAsync` |
| `ResultExtensions` | `FunctionalExtensions.cs` | `Merge`, `Convert`, `Try` |

Effects are modelled as events. Every externally visible effect is appended, in order, to
one `Trace` object:

- a callback on a subscriber;
- ending a conversation;
- an error written to the log;
- each shutdown step.

Each subscriber is an object whose callbacks either return or throw a given exception.
Whether the database calls throw is an input. So is how each worker task meets a
cancellation request: before it starts, so its body never runs; at its first check; or not
at all.

Where the code does something its own documentation or its callers would not expect, the
model follows the code:

- `StopReceiving` documents `InvalidOperationException` (RunningBrokerClient.cs:50), but
  called a second time it does not throw it: the client still holds its parts. The first call drained the registry, so unless someone
  subscribed since, the second call throws `ArgumentNullException`. If someone did
  subscribe, it returns a failed result in which cancelling and waiting on the disposed
  token source both recorded `ObjectDisposedException` (`Running.RepeatedShutdownFails`).
- When `OnNext` throws, the exception is passed on to the same subscriber's `OnError`
  without the message (AppPrelude.cs:115-116).
- `Equals` and `GetHashCode` ignore the message's contract.
- `DB.cs` reads five output parameters, with the contract first, while `Command.cs` reads
  four. The message therefore has five fields, and the four-field reading leaves the
  contract empty.

## Model

| member | source | states |
|---|---|---|
| Messages.NewBrokerMessage | Psns.Common.Clients.Broker/DB.cs:61-66 | the five-argument constructor the receive calls: a null message type or body becomes the empty string and every other field, the contract included, is stored unchanged, as the tests at Broker.UnitTests/BrokerMessageTests.cs:13-32 expect |
| Messages.NewBrokerMessage4 | Psns.Common.Clients.Broker/BrokerMessage.cs:16-22 | the constructor in the file: the message has an empty contract, a null type or body reads as "", and the two GUIDs are kept; it is the five-argument constructor with an empty contract |
| Messages.WithMessage | Psns.Common.Clients.Broker/BrokerMessage.cs:24-25 | the copy has the new body, with null read as the empty string, and keeps every other field |
| Messages.WithType | Psns.Common.Clients.Broker/BrokerMessage.cs:27-28 | the copy has the new type, with null read as the empty string, and keeps every other field |
| Messages.OpEquals | Psns.Common.Clients.Broker/BrokerMessage.cs:34 | `==` holds exactly when the right operand is a message that agrees with the left one on everything but the contract |
| Messages.OpNotEquals | Psns.Common.Clients.Broker/BrokerMessage.cs:36-37 | `!=` is exactly the negation of `==` |
| Messages.Equals | Psns.Common.Clients.Broker/BrokerMessage.cs:39-52 | true only for a message, which then agrees with this one on everything but the contract; every message equals itself. EqualsIsEqualityWithoutContract, EqualsRejectsNonMessages and EqualsIsEquivalence prove the rest |
| Messages.GetHashCode | Psns.Common.Clients.Broker/BrokerMessage.cs:54-58 | the exclusive or of the four compared fields' hashes, so two equal GUIDs, or a body equal to the type, cancel out; EqualMessagesHashEqually proves that equal messages hash equally |
| Messages.EqualsIsEqualityWithoutContract | Psns.Common.Clients.Broker/BrokerMessage.cs:39-52 | two messages are `Equals` exactly when body, type, group and conversation all agree |
| Messages.EqualsRejectsNonMessages | Psns.Common.Clients.Broker/BrokerMessage.cs:41-51 | `Equals` is false for null and for objects that are not messages |
| Messages.EqualsIsEquivalence | Psns.Common.Clients.Broker/BrokerMessage.cs:39-52 | `Equals` is reflexive, symmetric and transitive |
| Messages.EmptyIsBuiltFromEmptyFields | Psns.Common.Clients.Broker/BrokerMessage.cs:9 | `Empty` equals any message built from empty strings and empty GUIDs, whatever its contract; a message with a non-empty type is not `Empty` |
| Messages.NullNormalisedToEmpty | Psns.Common.Clients.Broker/BrokerMessage.cs:18-19 | a message built from null type and body is the one built from empty strings, and with empty GUIDs it counts as `Empty` |
| Messages.EqualMessagesHashEqually | Psns.Common.Clients.Broker/BrokerMessage.cs:54-58 | messages that are `Equals` have the same hash code, for any string and GUID hash functions |
| Messages.CopiesRoundTrip | Psns.Common.Clients.Broker/BrokerMessage.cs:24-28 | putting back the old body or type restores the message, copies of different fields commute, and of two copies of the same field the last one wins |
| StopResults.Recorded | Psns.Common.Clients.Broker/StopReceivingResult.cs:41 | an uninitialised result counts as an empty list |
| StopResults.FromAttempt | Psns.Common.Clients.Broker/StopReceivingResult.cs:28-33 | a successful attempt records nothing; a failed attempt records exactly its exception |
| StopResults.AppendAsWritten | Psns.Common.Clients.Broker/StopReceivingResult.cs:40-41 | an uninitialised right operand throws `ArgumentNullException`; otherwise the right list is appended to the left one |
| StopResults.Append | Psns.Common.Clients.Broker/StopReceivingResult.cs:40-41 | the result records the left list followed by the right list; it agrees with the code whenever the code does not throw |
| StopResults.Failed | Psns.Common.Clients.Broker/StopReceivingResult.cs:19-20 | a failed result holds a non-empty list, and a list whose first entry is not a `TaskCanceledException` has failed; FailedIffExceptionsReported proves it fails exactly when `Exceptions` reports something |
| StopResults.WithoutCancellations | Psns.Common.Clients.Broker/StopReceivingResult.cs:25-26 | the filtered list is never longer than the recorded one; the WithoutCancellations lemmas prove it keeps exactly the entries that are not `TaskCanceledException`, in order |
| StopResults.Exceptions | Psns.Common.Clients.Broker/StopReceivingResult.cs:25-26 | reading an uninitialised result throws `ArgumentNullException`; otherwise at most the recorded exceptions are reported |
| StopResults.WithoutCancellationsMembers | Psns.Common.Clients.Broker/StopReceivingResult.cs:25-26 | an exception is reported exactly when it was recorded and is not a `TaskCanceledException` |
| StopResults.WithoutCancellationsAppend | Psns.Common.Clients.Broker/StopReceivingResult.cs:25-26 | filtering out cancellations distributes over concatenation and keeps order |
| StopResults.WithoutCancellationsExtremes | Psns.Common.Clients.Broker/StopReceivingResult.cs:25-26 | a list with no cancellations is reported whole; a list of only cancellations is reported empty |
| StopResults.WithoutCancellationsEmpty | Psns.Common.Clients.Broker/StopReceivingResult.cs:25-26 | nothing is reported exactly when every recorded exception is a cancellation |
| StopResults.FailedIffExceptionsReported | Psns.Common.Clients.Broker/StopReceivingResult.cs:19-26 | `Failed` holds exactly when `Exceptions` is non-empty; an uninitialised result has not failed |
| StopResults.AppendMonoid | Psns.Common.Clients.Broker/StopReceivingResult.cs:40-41 | appending is associative, and a successful attempt is its identity |
| StopResults.AppendViews | Psns.Common.Clients.Broker/StopReceivingResult.cs:19-41 | the exceptions of an appended result are those of each side in order; it failed exactly when either side did |
| StopResults.AttemptFailed | Psns.Common.Clients.Broker/StopReceivingResult.cs:19-33 | an attempt's result failed exactly when the attempt threw something other than a cancellation |
| StopResults.AppendAsWrittenRejectsUninitialisedRight | Psns.Common.Clients.Broker/StopReceivingResult.cs:40-41 | appending an uninitialised result throws `ArgumentNullException`; an uninitialised left operand is accepted |
| Observers.Observer.OnNext | Psns.Common.Clients.Broker/IBrokerObserver.cs:27 | the call is recorded once with its message, and it throws exactly the subscriber's `OnNext` fault |
| Observers.Observer.OnError | Psns.Common.Clients.Broker/IBrokerObserver.cs:21 | the call is recorded once with its exception and message, and it throws exactly the subscriber's `OnError` fault |
| Observers.Observer.OnCompleted | Psns.Common.Clients.Broker/IBrokerObserver.cs:14 | the call is recorded once, and it throws exactly the subscriber's `OnCompleted` fault |
| Dispatch.SendNext | Psns.Common.Clients.Broker/AppPrelude.cs:115-116 | `OnNext` is called; if it throws, the same subscriber gets `OnError` with that exception |
| Dispatch.SendError | Psns.Common.Clients.Broker/AppPrelude.cs:125-127 | `OnError` is called; if it throws, both exceptions are logged as one aggregate and nothing propagates |
| Dispatch.FanOut | Psns.Common.Clients.Broker/AppPrelude.cs:150-170 | every subscriber in the enumeration receives the delivery, in enumeration order |
| Dispatch.Iter | Psns.Common.Clients.Broker/AppPrelude.cs:150-170 | once cancellation is requested, a non-empty list of subscribers is not called and the result is `TaskCanceledException`; otherwise, including an empty list after cancellation, every subscriber receives the delivery and the result is success |
| Dispatch.Classify | Psns.Common.Clients.Broker/AppPrelude.cs:88-101 | the error type is reported with the body as its exception message; the end-dialog type is ignored; every other message is delivered unchanged |
| Dispatch.ProcessMessage | Psns.Common.Clients.Broker/AppPrelude.cs:78-106 | the effects and the outcome are exactly those of the processing specification, whose properties are the lemmas below |
| Dispatch.DeliveryCallsOnce | Psns.Common.Clients.Broker/AppPrelude.cs:115-127 | one delivery makes its primary call on its own subscriber exactly once and on no other |
| Dispatch.FanOutCallsEachOnce | Psns.Common.Clients.Broker/AppPrelude.cs:150-170 | each subscriber gets the primary call once per occurrence in the enumeration |
| Dispatch.FanOutEventsFromListed | Psns.Common.Clients.Broker/AppPrelude.cs:150-170 | every effect of the fan-out comes from delivering to some listed subscriber |
| Dispatch.FanOutContainsEachDelivery | Psns.Common.Clients.Broker/AppPrelude.cs:150-170 | every effect of delivering to a listed subscriber is among the fan-out's effects |
| Dispatch.DeliveryIsContained | Psns.Common.Clients.Broker/AppPrelude.cs:115-127 | a delivery only calls its own subscriber, never ends a conversation, and an error delivery never calls `OnNext` |
| Dispatch.FanOutIsContained | Psns.Common.Clients.Broker/AppPrelude.cs:115-170 | the fan-out calls only listed subscribers, never ends a conversation, and an error fan-out never calls `OnNext` |
| Dispatch.FanOutReroutesFaults | Psns.Common.Clients.Broker/AppPrelude.cs:115-127 | a throwing `OnNext` is followed by that subscriber's `OnError` with the same exception; a throwing `OnError` is logged as an aggregate of both exceptions |
| Dispatch.EmptyMessageDoesNothing | Psns.Common.Clients.Broker/AppPrelude.cs:80-106 | processing `Empty` has no effects and succeeds |
| Dispatch.ConversationEndedFirst | Psns.Common.Clients.Broker/AppPrelude.cs:84-104 | any other message first ends its own conversation, and no other conversation is ended afterwards |
| Dispatch.EndFailureNotifiesNobody | Psns.Common.Clients.Broker/AppPrelude.cs:84 | if ending the conversation throws, no subscriber is called and processing fails with that exception |
| Dispatch.ErrorTypeReportsBody | Psns.Common.Clients.Broker/AppPrelude.cs:90-93 | an error-type message gives each subscriber one `OnError` built from its body, never an `OnNext`, and succeeds |
| Dispatch.EndDialogTypeNotifiesNobody | Psns.Common.Clients.Broker/AppPrelude.cs:94-96 | an end-dialog message only ends its conversation, and succeeds when that does |
| Dispatch.DataTypeDeliversMessage | Psns.Common.Clients.Broker/AppPrelude.cs:97-100 | any other message type reaches each subscriber as one `OnNext` with the message, and succeeds |
| Dispatch.CancelledProcessingNotifiesNobody | Psns.Common.Clients.Broker/AppPrelude.cs:150-166 | after cancellation only the conversation is ended; an error or data message then fails with `TaskCanceledException` when there are subscribers, and succeeds when there are none |
| Registry.ObserverBag.Contains | Psns.Common.Clients.Broker/BrokerClient.cs:281 | true exactly when the subscriber is in the bag |
| Registry.ObserverBag.Add | Psns.Common.Clients.Broker/BrokerClient.cs:283 | the bag gains one occurrence of the subscriber |
| Registry.ObserverBag.TryTake | Psns.Common.Clients.Broker/BrokerClient.cs:455 | an empty bag yields nothing; otherwise some element, not chosen by the caller, is removed and returned |
| Registry.ObserverBag.ToList | Psns.Common.Clients.Broker/BrokerClient.cs:411-412 | the list holds exactly the bag's elements, with multiplicity |
| Registry.Subscription.constructor | Psns.Common.Clients.Broker/BrokerClient.cs:435-440 | the subscription refers to the shared registry and its subscriber, and is not yet disposed |
| Registry.Subscription.Dispose | Psns.Common.Clients.Broker/BrokerClient.cs:448-469 | the first dispose while the subscriber is registered removes one arbitrary subscriber; otherwise the registry is unchanged; it is disposed afterwards |
| Registry.Subscription.DisposeOwn | Psns.Common.Clients.Broker/BrokerClient.cs:448-469 | the first dispose removes this subscription's subscriber, and later ones change nothing |
| Registry.TakesOneShrinksByOne | Psns.Common.Clients.Broker/BrokerClient.cs:452-456 | a take removes exactly one element and adds none |
| Registry.DisposeMayRemoveAnother | Psns.Common.Clients.Broker/BrokerClient.cs:452-456 | with two subscribers, disposing one subscription may remove the other subscriber |
| Registry.TakesOnePreservesNoDuplicates | Psns.Common.Clients.Broker/BrokerClient.cs:452-456 | taking any one element out of a duplicate-free registry leaves it duplicate-free |
| Registry.DisposeOwnRemovesSubscriber | Psns.Common.Clients.Broker/BrokerClient.cs:452-456 | removing the own subscriber from a duplicate-free registry removes it completely, shrinks the registry by one and keeps it duplicate-free |
| Running.TokenSource.Cancel | Psns.Common.Clients.Broker/RunningBrokerClient.cs:63 | cancelling a live source records the request and succeeds; cancelling a disposed one throws `ObjectDisposedException` and changes nothing |
| Running.TokenSource.Dispose | Psns.Common.Clients.Broker/RunningBrokerClient.cs:65 | the source is disposed, and disposing never throws |
| Running.Workers.WaitAll | Psns.Common.Clients.Broker/RunningBrokerClient.cs:64 | reading the token of a disposed source throws `ObjectDisposedException`; waiting on a token whose cancellation was requested throws `OperationCanceledException` without waiting; otherwise the wait is recorded and throws exactly the workers' fault, if any |
| Running.CancelOutcome | Psns.Common.Clients.Broker/RunningBrokerClient.cs:63 | cancelling fails exactly when the source is already disposed |
| Running.WaitOutcome | Psns.Common.Clients.Broker/RunningBrokerClient.cs:64 | waiting succeeds exactly when the source is live, its cancellation not requested, and no worker faulted; each failure is the exception of the first check that fails |
| Running.CompletionEvents | Psns.Common.Clients.Broker/RunningBrokerClient.cs:67-70 | `OnCompleted` is called on each subscriber of the enumeration, in that order |
| Running.CompletionFold | Psns.Common.Clients.Broker/RunningBrokerClient.cs:66-70 | no subscribers leave the seed uninitialised, and any subscriber gives an initialised result; CompletionFoldRecordsFaults proves it records exactly the thrown `OnCompleted` faults, in order |
| Running.CompletionFoldRecordsFaults | Psns.Common.Clients.Broker/RunningBrokerClient.cs:67-70 | the fold stays uninitialised exactly when there are no subscribers; otherwise it records every `OnCompleted` fault in order |
| Running.CompletionCallsEachOnce | Psns.Common.Clients.Broker/RunningBrokerClient.cs:67-70 | each subscriber gets `OnCompleted` once per occurrence in the enumeration |
| Running.CompletionFaultsPerObserver | Psns.Common.Clients.Broker/RunningBrokerClient.cs:67-70 | every subscriber's `OnCompleted` fault is recorded |
| Running.CompletionFaultsNone | Psns.Common.Clients.Broker/RunningBrokerClient.cs:67-70 | subscribers that do not throw contribute no faults |
| Running.CompleteAll | Psns.Common.Clients.Broker/RunningBrokerClient.cs:66-70 | the loop calls each subscriber's `OnCompleted` in order and returns the fold's result |
| Running.DrainRegistry | Psns.Common.Clients.Broker/RunningBrokerClient.cs:71-77 | taking until the bag is empty leaves the registry empty |
| Running.Shutdown | Psns.Common.Clients.Broker/RunningBrokerClient.cs:59-77 | the registry ends empty and the token disposed; the effects are those of the shutdown specification, with no drain when there are no subscribers, and the result is the chain as written, `ArgumentNullException` included |
| Running.RunningBrokerClient.constructor | Psns.Common.Clients.Broker/RunningBrokerClient.cs:34-44 | the client keeps the parts it is given, any of which may be absent |
| Running.RunningBrokerClient.StopReceiving | Psns.Common.Clients.Broker/RunningBrokerClient.cs:52-78 | a client missing a part throws `InvalidOperationException` and changes nothing; otherwise the shutdown runs on the shared registry and token, and with at least one subscriber its result is the corrected one |
| Running.ShutdownOrder | Psns.Common.Clients.Broker/RunningBrokerClient.cs:63-77 | the steps happen in the order cancel, dispose, each `OnCompleted`, drain, the wait in between throwing before it waits; with no subscribers nothing follows the dispose |
| Running.ShutdownCompletesEachOnce | Psns.Common.Clients.Broker/RunningBrokerClient.cs:66-70 | every registered subscriber gets exactly one `OnCompleted`, whatever state the token is in |
| Running.ShutdownRecordsEverything | Psns.Common.Clients.Broker/RunningBrokerClient.cs:63-77 | the result records the faults of cancel, wait, dispose, each `OnCompleted` and the drain, in that order |
| Running.ShutdownResult | Psns.Common.Clients.Broker/RunningBrokerClient.cs:63-77 | the corrected chain: the result is always initialised and records the exception of any failed cancel, wait, dispose or drain step; ShutdownRecordsEverything gives the whole list in step order |
| Running.ShutdownExceptions | Psns.Common.Clients.Broker/RunningBrokerClient.cs:63-77 | in the corrected chain, whose wait reports only the workers' fault, a first shutdown reports that fault and the `OnCompleted` faults, with cancellations removed |
| Running.ShutdownFailsIfCompletionThrows | Psns.Common.Clients.Broker/RunningBrokerClient.cs:66-70 | in the corrected chain, if some subscriber's `OnCompleted` throws a non-cancellation exception, the result has failed and reports it |
| Running.FirstShutdownAlwaysFails | Psns.Common.Clients.Broker/RunningBrokerClient.cs:63-77 | as written, a first shutdown with subscribers has failed and reports `OperationCanceledException` from the wait, whatever the workers and subscribers do; without subscribers it throws |
| Running.CleanShutdownSucceeds | Psns.Common.Clients.Broker/RunningBrokerClient.cs:63-77 | as intended, with the wait on a token not yet cancelled and no faults anywhere, the result has not failed and reports nothing |
| Running.RepeatedShutdownFails | Psns.Common.Clients.Broker/RunningBrokerClient.cs:54-77 | a shutdown on a disposed token source throws `ArgumentNullException` over an empty registry; otherwise its result records `ObjectDisposedException` from cancel and wait, and has failed |
| Running.StopReceivingTwice | Psns.Common.Clients.Broker/RunningBrokerClient.cs:52-78 | a second `StopReceiving` with nobody subscribing after the first throws `ArgumentNullException` |
| Running.AsWrittenAgreesWithSubscribers | Psns.Common.Clients.Broker/RunningBrokerClient.cs:66-70 | with at least one subscriber, the code's result is the corrected result |
| Running.ShutdownResultAsWritten | Psns.Common.Clients.Broker/RunningBrokerClient.cs:63-77 | the chain as written throws exactly when there is no subscriber, and then with `ArgumentNullException`; AsWrittenAgreesWithSubscribers proves it otherwise returns ShutdownResult |
| Running.NoSubscriberShutdownThrows | Psns.Common.Clients.Broker/RunningBrokerClient.cs:66-70 | with no subscribers, the code throws `ArgumentNullException` instead of returning a result |
| Client.IsAsync | Psns.Common.Clients.Broker/BrokerClient.cs:94 | true exactly when both the asynchronous open and the asynchronous execute delegates are present; Configure proves that this picks exactly one receive mode |
| Client.Configure | Psns.Common.Clients.Broker/BrokerClient.cs:217-264 | exactly one of the asynchronous and synchronous receive functions is configured, the asynchronous one exactly when both asynchronous delegates are given, and processing follows the same choice |
| Client.ProcessException | Psns.Common.Clients.Broker/BrokerClient.cs:383-393 | a worker cancelled before it starts does nothing; one that sees the request only logs the error; otherwise every subscriber receives it as `OnError` with the given message |
| Client.Route | Psns.Common.Clients.Broker/BrokerClient.cs:309-316 | a received message is queued for processing and a failure is reported, with exactly the poll's effects |
| Client.QueueForProcessing | Psns.Common.Clients.Broker/BrokerClient.cs:361-381 | a worker cancelled before it starts does nothing; otherwise the message is processed, and a processing failure is reported together with the message |
| Client.BrokerClient.constructor | Psns.Common.Clients.Broker/BrokerClient.cs:202-265 | the client starts with an empty registry, no token source, and the configuration `Configure` chooses |
| Client.BrokerClient.Subscribe | Psns.Common.Clients.Broker/BrokerClient.cs:279-289 | a new subscriber is added once and a registered one is not added again; the returned subscription is bound to the subscriber either way |
| Client.BrokerClient.Subscribers | Psns.Common.Clients.Broker/BrokerClient.cs:411-412 | the list holds exactly the registered subscribers, with multiplicity |
| Client.BrokerClient.ReceiveMessages | Psns.Common.Clients.Broker/BrokerClient.cs:297-331 | a fresh live token source is created, and the running client shares it and the registry |
| Client.BrokerClient.ReceiveLoop | Psns.Common.Clients.Broker/BrokerClient.cs:307-318 | each poll's effects follow the previous poll's, each computed over a full enumeration of the registry |
| Client.BrokerClient.PollOnce | Psns.Common.Clients.Broker/BrokerClient.cs:307-317 | one pass of the loop body: the subscribers are enumerated once, as the registry's multiset, and the trace grows by exactly the effects of routing the poll to that enumeration |
| Client.ReceiveFailureReportedWithoutMessage | Psns.Common.Clients.Broker/BrokerClient.cs:309-316 | a failed receive reaches each subscriber as one `OnError` without a message; it is only logged if the reporting worker sees cancellation, and has no effect if that worker was cancelled before it started |
| Client.ProcessingFailureReportedWithMessage | Psns.Common.Clients.Broker/BrokerClient.cs:367-371 | if ending the conversation throws, each subscriber gets exactly one `OnError` carrying the message |
| Client.CancelledProcessingIsNotReported | Psns.Common.Clients.Broker/BrokerClient.cs:361-393 | a processing worker that sees cancellation only ends the conversation, and its `TaskCanceledException` is not reported; one cancelled before it starts does nothing |
| Client.CancelledPollNotifiesNobody | Psns.Common.Clients.Broker/BrokerClient.cs:361-393 | when both workers meet cancellation, a poll calls no subscriber |
| Client.EmptyPollDoesNothing | Psns.Common.Clients.Broker/BrokerClient.cs:311 | receiving `Empty` has no effect at all |
| Db.Declared | Psns.Common.Clients.Broker/DB.cs:81-85 | a declared parameter has the given name, type and size, and is an input without a value |
| Db.BoundGuid | Psns.Common.Clients.Broker/DB.cs:111 | a parameter made from a GUID is a `uniqueidentifier` input holding that GUID |
| Db.AsSqlParameter | Psns.Common.Clients.Broker/DB.cs:121-122 | a SQL parameter is returned as is; anything else becomes a nameless parameter holding `DBNull` |
| Db.DbCommand.AddParameter | Psns.Common.Clients.Broker/DB.cs:90 | the parameter is appended, and nothing else changes |
| Db.DbCommand.ExecuteNonQuery | Psns.Common.Clients.Broker/DB.cs:56 | the command runs once; output parameters take the returned row's values, and a failing query throws its exception |
| Db.AddEach | Psns.Common.Clients.Broker/DB.cs:87-91 | every declared parameter is appended in order with the requested direction, and nothing else changes |
| Db.SetupReceive | Psns.Common.Clients.Broker/DB.cs:77-102 | the five output parameters are appended and the text is the receive statement for the queue |
| Db.ReceiveParametersAreOutputs | Psns.Common.Clients.Broker/DB.cs:79-91 | the receive declares contract, type, body, group and conversation, in that order, all as outputs |
| Db.ReceiveText | Psns.Common.Clients.Broker/DB.cs:93-99 | the text starts with the fixed `WAITFOR (RECEIVE TOP(1)` prefix that assigns the five outputs and ends with `]), TIMEOUT 5000;`, with the queue name in between |
| Db.ReceiveTextNamesQueue | Psns.Common.Clients.Broker/DB.cs:93-99 | the queue name can be read back from the statement, so different queues give different statements |
| Db.ValueAt | Psns.Common.Clients.Broker/DB.cs:59-66 | reading past the parameter list throws `IndexOutOfRangeException` |
| Db.ValueText | Psns.Common.Clients.Broker/DB.cs:62-64 | text is returned as is, `DBNull` reads as the empty string, and a value never set throws `NullReferenceException` |
| Db.GuidCast | Psns.Common.Clients.Broker/DB.cs:65-66 | the cast succeeds exactly on a GUID; null throws `NullReferenceException` and anything else `InvalidCastException` |
| Db.TextAt | Psns.Common.Clients.Broker/DB.cs:62-64 | reading succeeds exactly when the parameter exists and has been set |
| Db.GuidAt | Psns.Common.Clients.Broker/DB.cs:65-66 | reading succeeds exactly when the parameter exists and holds a GUID |
| Db.RunReceive | Psns.Common.Clients.Broker/DB.cs:50-70 | the query runs once; its failure propagates, otherwise the message is read from the filled parameters |
| Db.ReadReceived | Psns.Common.Clients.Broker/DB.cs:55-69 | reading with no parameters throws `IndexOutOfRangeException`, and any message other than `Empty` needs all five parameters; FirstParameterDecides, NoRowReadsEmpty and ReceiveRoundTrip prove the rest |
| Db.BuildMessage | Psns.Common.Clients.Broker/DB.cs:61-66 | a built message needs all five parameters; BuiltFieldsComeFromParameters proves it succeeds exactly when all five are readable, each field taken from its own parameter |
| Db.ReceiveRoundTrip | Psns.Common.Clients.Broker/DB.cs:55-69 | for every message, the set-up parameters filled from that message's row read back as the same message |
| Db.NoRowReadsEmpty | Psns.Common.Clients.Broker/DB.cs:55-59 | when the wait times out, the result is `Empty` |
| Db.FirstParameterDecides | Psns.Common.Clients.Broker/DB.cs:59-67 | a `DBNull` or foreign first parameter gives `Empty`; anything else builds a message from all five |
| Db.BuiltFieldsComeFromParameters | Psns.Common.Clients.Broker/DB.cs:61-66 | building succeeds exactly when five parameters exist, the text ones are set and the last two hold GUIDs, and each field comes from its parameter |
| Db.SetupEndDialog | Psns.Common.Clients.Broker/DB.cs:109-116 | one parameter bound to the conversation is appended, and the text ends that conversation |
| Db.EndDialogBindsConversation | Psns.Common.Clients.Broker/DB.cs:111 | after set-up, `@conversation` is bound to the given conversation |
| Commands.ReceiveAsync | Psns.Common.Clients.Broker/Command.cs:24-75 | a command that cannot be created propagates its error; otherwise four outputs and the queue's statement are set up, the query runs once, the command is disposed, and the message is read back |
| Commands.ReceiveText4NamesQueue | Psns.Common.Clients.Broker/Command.cs:51-56 | the queue name can be read back from the statement, so different queues give different statements |
| Commands.StringCast | Psns.Common.Clients.Broker/Command.cs:65-66 | a string or null casts; a GUID or `DBNull` throws `InvalidCastException` |
| Commands.ReceiveRoundTrip4 | Psns.Common.Clients.Broker/Command.cs:58-72 | for every message, the filled parameters read back as the same message without its contract |
| Commands.NoRowReadsEmpty4 | Psns.Common.Clients.Broker/Command.cs:62-71 | when the wait times out, the result is `Empty` |
| Commands.ReadReceived4 | Psns.Common.Clients.Broker/Command.cs:62-71 | `DBNull` in the first parameter reads as `Empty`; any other message read has an empty contract, and its conversation group and conversation are the GUIDs of the third and fourth parameters |
| Commands.ReadReceived4Cases | Psns.Common.Clients.Broker/Command.cs:62-71 | `DBNull` in the first parameter gives `Empty`; otherwise the four fields come from the four parameters or the cast throws |
| Commands.SendAsync | Psns.Common.Clients.Broker/Command.cs:77-102 | the two declared inputs and the send statement for the message type are set up, the query runs once and the command is disposed |
| Commands.SendBoundAsync | Psns.Common.Clients.Broker/Command.cs:77-102 | as `SendAsync`, with the body and conversation bound to the parameters |
| Commands.Utf16LengthBounds | Psns.Common.Clients.Broker/Command.cs:83 | the body's `Length`, in UTF-16 code units, is between its number of characters and twice that, and equals it exactly when every character is in the Basic Multilingual Plane |
| Commands.SendAsWrittenBindsNothing | Psns.Common.Clients.Broker/Command.cs:81-97 | neither parameter gets a value, so two messages with the same type and body `Length` produce the same command |
| Commands.SendText | Psns.Common.Clients.Broker/Command.cs:97 | the fixed `SEND ON CONVERSATION @conversation MESSAGE TYPE [` prefix, then the message type, then `] (@message)`; the type can be read back from between them |
| Commands.SendBoundCarriesMessage | Psns.Common.Clients.Broker/Command.cs:81-97 | the bound command carries the body and conversation, the body parameter is sized to the body's UTF-16 `Length`, and equal commands mean equal body, conversation and type |
| Commands.EndDialogAsync | Psns.Common.Clients.Broker/Command.cs:104-128 | one declared input and the end statement are set up, the query runs once and the command is disposed |
| Commands.EndDialogBoundAsync | Psns.Common.Clients.Broker/Command.cs:104-128 | as `EndDialogAsync`, with the conversation bound to the parameter |
| Commands.EndDialogAsWrittenBindsNothing | Psns.Common.Clients.Broker/Command.cs:108-121 | as written `@conversation` is never given a value; bound, it holds the conversation |
| ResultExtensions.Merge | Psns.Common.Clients.Broker/FunctionalExtensions.cs:9-16 | a failed second result is returned as it is; otherwise the outcome is the first result converted to the second one's value, so the first one's failure is kept |
| ResultExtensions.Convert | Psns.Common.Clients.Broker/FunctionalExtensions.cs:18-23 | succeeds exactly when the given result does, and a failure keeps its error |
| ResultExtensions.TryAction | Psns.Common.Clients.Broker/FunctionalExtensions.cs:28-40 | `Ok` exactly when the action does not throw; a thrown exception becomes `Fail` with the text of its chain of messages |
| ResultExtensions.TryFunc | Psns.Common.Clients.Broker/FunctionalExtensions.cs:42-52 | `Ok` with the function's value exactly when it does not throw; otherwise `Fail` with the text of the exception's chain of messages |
| ResultExtensions.MergeSucceedsIffBoth | Psns.Common.Clients.Broker/FunctionalExtensions.cs:9-16 | `Merge` succeeds exactly when both results do, with the second's value; a failure of the second wins over one of the first |
| ResultExtensions.MergeNeutralAndIdempotent | Psns.Common.Clients.Broker/FunctionalExtensions.cs:9-16 | a successful first result is neutral, and merging the same result twice is merging it once |
| ResultExtensions.ConvertKeepsOutcome | Psns.Common.Clients.Broker/FunctionalExtensions.cs:18-23 | `Convert` keeps success and error, replaces the value, and only the last conversion counts |
| ResultExtensions.ConvertAfterMerge | Psns.Common.Clients.Broker/FunctionalExtensions.cs:9-23 | converting commutes with merging |
| ResultExtensions.TryReportsOutcome | Psns.Common.Clients.Broker/FunctionalExtensions.cs:28-52 | `Try` succeeds exactly when the code does not throw, and otherwise fails with the exception's text; the action form is the function form without its value |

## Left out

- Threads, tasks and schedulers are left out. Workers run inline and in order, and how
  each worker meets cancellation (before it starts, at its first check, or not at all) is
  an input. Also left out: the `_workers` queue,
  `TaskContinuation`, the receiver task's final `ThrowIfCancellationRequested`, and any
  interleaving of concurrent workers.
- Client.BrokerClient.ReceiveLoop: models the polls made before cancellation as a given
  sequence. It does not model the loop's condition on the token, which is set by another
  thread.
- Connections, transactions and the command factory are left out (`OpenConnection.cs`,
  `Transaction.cs`, `GetMessageAsyncFactory`, `GetMessageFactory`, the end-dialog
  factories, `BeginConversation` and `Send` of `IBrokerClient.cs`). What a query does to
  the database is an input: it either fails or fills the output parameters from a row.
- `ImpBrokerClient.cs` and `CurriedDelegates.cs` are not part of this model.
- Logging is reduced to an `ErrorLogged` event wherever the code writes at Error level.
  Debug entries, message texts and `GetExceptionChainMessagesWithSql` are left out.
  `ResultExtensions.TryAction` and `TryFunc` take the text as a `describe` parameter.
- Messages.GetHashCode: takes the string and GUID hash functions as parameters. The
  exact .NET hash arithmetic is not modelled, only the combination with exclusive-or.
- Null-argument checks (`AssertValue`) and the resulting `ArgumentNullException` are left
  out. A subscriber or a queue name cannot be null in the model.
- Exceptions carry a kind and a message. The exact .NET message texts are not reproduced.
- Db.GuidText: gives the 36-character shape of a GUID's text, but not the byte order
  .NET uses to print it.
- Db.BoundGuid: the size the provider would infer for a bound GUID is fixed at 0.

## Findings

| source | as written | input that shows it | evidently intended | confidence | as-written member | corrected member |
|---|---|---|---|---|---|---|
| Psns.Common.Clients.Broker/BrokerClient.cs:452-456 | `Dispose` checks that its own subscriber is registered, then calls `TryTake`, which removes whichever element the bag yields | a registry holding subscribers A and B; disposing A's subscription may remove B and leave A subscribed | remove this subscription's own subscriber | high, not executed | Registry.Subscription.Dispose, Registry.DisposeMayRemoveAnother | Registry.Subscription.DisposeOwn, Registry.DisposeOwnRemovesSubscriber |
| Psns.Common.Clients.Broker/StopReceivingResult.cs:40-41 | `Append` treats a null left list as empty but passes a null right list to `AddRange`, which throws `ArgumentNullException` | `StopReceiving` on a started client with no subscribers: the `OnCompleted` fold (RunningBrokerClient.cs:66-70) returns its uninitialised seed, and appending it throws | treat an uninitialised right operand as empty, so that `StopReceiving` returns a result and drains the registry | medium, not executed | Running.ShutdownResultAsWritten, Running.NoSubscriberShutdownThrows, Running.RunningBrokerClient.StopReceiving | Running.ShutdownResult, Running.AsWrittenAgreesWithSubscribers |
| Psns.Common.Clients.Broker/RunningBrokerClient.cs:63-64 | the wait is given `tokenSource.Token` right after `tokenSource.Cancel()`, and .NET's `Task.WaitAll(Task[], CancellationToken)` throws `OperationCanceledException` on a cancelled token; `Failed` filters out only `TaskCanceledException` | a first `StopReceiving` with one subscriber whose `OnCompleted` returns and workers that all finished: the result is `Failed`; the unit tests at Broker.UnitTests/BrokerClientTests.cs:230-235 and 248-251 expect the wait to return normally | wait for the workers without the cancelled token, so that a clean stop is not failed | medium, not executed | Running.Workers.WaitAll, Running.FirstShutdownAlwaysFails | Running.ShutdownResult, Running.CleanShutdownSucceeds |
| Psns.Common.Clients.Broker/Command.cs:104-128 | `EndDialogAsync` declares `@conversation` but never gives it the `conversation` argument | any conversation id: the statement runs with an unset parameter | bind the id, as `SetupEndDialog` does at DB.cs:111 | high, not executed | Commands.EndDialogAsync, Commands.EndDialogAsWrittenBindsNothing | Commands.EndDialogBoundAsync, Db.EndDialogBindsConversation |
| Psns.Common.Clients.Broker/Command.cs:77-102 | `SendAsync` declares `@message` and `@conversation` but never sets their values | two messages with the same type and body length but different bodies produce the same command | bind the body and the conversation | high, not executed | Commands.SendAsync, Commands.SendAsWrittenBindsNothing | Commands.SendBoundAsync, Commands.SendBoundCarriesMessage |
