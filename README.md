# PrivateExt / CombineNetwork in Dafny

A model of the core of PrivateExt. The repository turns the callback APIs of Apple's Network
framework into Combine streams and ships the small Combine building blocks those adapters are
made of. The model covers:

- **CombineConnection**. A connection made by `create(by:)`:
  - the `sendData` closure and its defaults;
  - `sendBatch` and its chunk loop;
  - the state and path handlers, which forward to `@PassthroughBacked` streams;
  - the self-re-arming receive loop behind `receiveMessage`.

  The platform connection is a log of the `send`, `batch` and `receive` requests made of it.
  A separate list holds the receive requests still outstanding, each tagged with the receive
  chain that issued it. The platform's callbacks are methods it calls.
- **CombineBonjourBrowser**. Its private delegate dispatches each change of a browse result
  set to `didFind`, `didRemove` or `didChanged`, then replaces the published `services`
  snapshot. States go to `updateState`, which the browser exposes through
  `removeDuplicates()`. The platform's change-flag option set maps onto the four-case `Flags`
  enum.
- **PassthroughBacked**. A property wrapper over one `PassthroughSubject`. Every copy of it
  shares that subject, `projectedValue` included.
- **BindingValueSubject / BindingValue**. A subject is three stored closures. Every
  constructor the library uses reads `get` and the publisher from one `CurrentValueSubject`,
  called the cell here. So a subject is modelled by its cell and by which `set` it holds. A
  child copies the three closures, so it shares the parent's state.
- **CombineBinder**. A subscriber that hands each input to a scheduler. When the scheduler
  runs the work item, the binding closure is called with the target if the target still
  exists. The target is held weakly, as an explicit `alive` flag that only deallocation
  clears. The scheduler is a FIFO queue of work items, run one by one with `Step`.
- **filter(... equalTo:)** and **map(to:)**. Pure transforms of the sequence of outputs a
  stream emits. A weakly captured target is an `Option`, which is `None` once the target is
  gone.

The Combine runtime the adapters rely on is modelled in module `Combine`.
- Subjects are shared cells that record every value pushed through them.
- Each subscriber has the stretch of that record during which it was attached.
- What a subscriber has been handed is that stretch.
- `PassthroughSubject` replays nothing. `CurrentValueSubject` hands a new subscriber the value
  it holds.

Four behaviours of the code a reader may not expect; the model follows the code in each:

- **`sendBatch` slices with a length as the upper bound.** Each pass slices
  `data[prefix..<end]`, where `end = min(max, count - sandSize)` is a chunk length, not an
  offset. The model reproduces this:
  - `Chunking.Run` is the loop as written. It stops at the first inverted range, where Swift
    traps.
  - `Chunking.Steps` is the counter arithmetic alone: `ceil(n/m)` passes whose lengths sum
    to `n`, each at most `m`.
  - `OnlyFirstChunkSent` shows that for `0 < max < count` only `data[0..<max]` ever reaches
    the transport. The run finishes only when `count == 2*max`. For example, 10 bytes with a
    maximum of 4 send `data[0..<4]` and the empty `data[4..<4]`, then trap on `data[8..<2]`.
  - A maximum of 0 makes the loop spin forever on empty slices. A negative maximum traps at
    once.
- **A payload that fits is not sent.** When the content is absent or short enough,
  `sendBatch` calls `sendData` with `content: nil`, not with the payload.
- **Every subscription starts its own receive chain.** Each subscription to `receiveMessage`
  runs `receiveMessageHandle` again, and nothing checks whether a chain is already running.
  Two subscribers therefore mean two outstanding receive requests. Both chains emit into the
  one proxy subject, so each subscriber sees the completions of both. Each chain still
  re-arms if and only if its completion has no error.
- **`updateState` replays nothing.** It is a `@PassthroughBacked` stream seen through
  `removeDuplicates()`, so a late subscriber is not handed the last state.

## Model

| member | source | states |
|---|---|---|
| Wrappers.Option.GetOr | Sources/CombineNetwork/Connection/CombineConnection.swift:40 | `??`: the wrapped value when there is one, the default otherwise |
| Combine.PassthroughSubject.constructor | Sources/PrivateExt/Combine/PassthroughBacked.swift:15-17 | a new subject has sent nothing and has no subscribers |
| Combine.PassthroughSubject.Subscribe | Sources/PrivateExt/Combine/PassthroughBacked.swift:19-21 | a new subscriber starts with nothing (no replay); what the others received is unchanged |
| Combine.PassthroughSubject.Send | Sources/PrivateExt/Combine/PassthroughBacked.swift:27-29 | every attached subscriber receives the value, no detached one does, and the value is appended to what was sent |
| Combine.PassthroughSubject.Cancel | Sources/PrivateExt/Combine/PassthroughBacked.swift:19-21 | a cancelled subscriber is detached and keeps what it already received; nobody else is affected |
| Combine.CurrentValueSubject.constructor | Sources/PrivateExt/Combine/BindingValueSubject.swift:69-72 | a new subject holds the given value and has no subscribers |
| Combine.CurrentValueSubject.Received | Sources/PrivateExt/Combine/BindingValueSubject.swift:111-113 | a subscriber has received at least one value, and an attached subscriber's last one is the value held now |
| Combine.CurrentValueSubject.Subscribe | Sources/PrivateExt/Combine/BindingValueSubject.swift:111-113 | a new subscriber is handed exactly the current value; the others are unaffected |
| Combine.CurrentValueSubject.Send | Sources/PrivateExt/Combine/BindingValueSubject.swift:87-89 | the held value becomes the sent one and every attached subscriber receives it; detached ones receive nothing |
| Combine.CurrentValueSubject.Cancel | Sources/PrivateExt/Combine/BindingValueSubject.swift:111-113 | a cancelled subscriber is detached and keeps what it already received |
| Combine.Demand.Plus | Sources/PrivateExt/Combine/CombineBinder.swift:62-65 | demands add up, and the sum is `.unlimited` exactly when either part is |
| Combine.Subscription.constructor | Sources/PrivateExt/Combine/CombineBinder.swift:62-65 | an upstream subscription starts with no demand and not cancelled |
| Combine.Subscription.Request | Sources/PrivateExt/Combine/CombineBinder.swift:64 | a request adds to the demand and does not cancel |
| Combine.Subscription.Cancel | Sources/PrivateExt/Combine/CombineBinder.swift:72 | cancelling marks the subscription cancelled and leaves its demand as it was |
| Passthrough.Stream.Subscribe | Sources/PrivateExt/Combine/PassthroughBacked.swift:19-21 | subscribing to `wrappedValue` attaches a new subscriber that is handed no earlier value |
| Passthrough.PassthroughBacked.WrappedValue | Sources/PrivateExt/Combine/PassthroughBacked.swift:19-21 | `wrappedValue` is a stream over the wrapper's own subject |
| Passthrough.PassthroughBacked.ProjectedValue | Sources/PrivateExt/Combine/PassthroughBacked.swift:23-25 | `projectedValue` is backed by the same subject and exposes the same stream |
| Passthrough.PassthroughBacked.Send | Sources/PrivateExt/Combine/PassthroughBacked.swift:27-29 | the value reaches every subscriber attached now and no detached one |
| Passthrough.NewPassthroughBacked | Sources/PrivateExt/Combine/PassthroughBacked.swift:15-17 | `init()` makes a fresh subject nobody has subscribed to |
| Passthrough.SendVoid | Sources/PrivateExt/Combine/PassthroughBacked.swift:32-36 | `send()` delivers exactly one unit event to every attached subscriber |
| Passthrough.ProjectedSendReachesSubscribers | Sources/PrivateExt/Combine/PassthroughBacked.swift:13-29 | a send through `projectedValue` reaches a subscriber of `wrappedValue`, and a subscriber attached afterwards gets nothing (no replay) |
| FilterOperator.Keep | Sources/PrivateExt/Combine/FilterOperator.swift:13-17 | `filter` keeps only accepted outputs and keeps every accepted output |
| FilterOperator.KeepIsSubsequence | Sources/PrivateExt/Combine/FilterOperator.swift:13-17 | what `filter` passes is an order-preserving subsequence of its input |
| FilterOperator.KeepIdempotent | Sources/PrivateExt/Combine/FilterOperator.swift:13-17 | filtering twice with one predicate is filtering once |
| FilterOperator.KeepConcat | Sources/PrivateExt/Combine/FilterOperator.swift:13-17 | `filter` works output by output: a stream split in two is filtered piece by piece |
| FilterOperator.KeepEqualCounts | Sources/PrivateExt/Combine/FilterOperator.swift:12-17 | keeping the outputs equal to `v` yields `v` exactly as many times as it occurs |
| FilterOperator.FilterEqualTo | Sources/PrivateExt/Combine/FilterOperator.swift:12-17 | while the target lives exactly its occurrences pass, once it is gone nothing does |
| FilterOperator.KeepCounts | Sources/PrivateExt/Combine/FilterOperator.swift:13-17 | `filter` keeps each accepted output exactly as many times as it occurs, and a rejected one never |
| FilterOperator.FilterKeyEqualTo | Sources/PrivateExt/Combine/FilterOperator.swift:19-26 | while the target lives exactly the outputs whose key equals it pass, each as many times as it occurs, in order; once it is gone nothing does |
| FilterOperator.FilterKeyEqual | Sources/PrivateExt/Combine/FilterOperator.swift:28-34 | exactly the outputs whose key equals the value pass, each as many times as it occurs; this is the weak variant with a target that never dies |
| FilterOperator.FilterIdempotent | Sources/PrivateExt/Combine/FilterOperator.swift:12-26 | applying either weak filter a second time changes nothing |
| MapOperator.CompactMap | Sources/PrivateExt/Combine/MapOperator.swift:14 | `compactMap { $0 }` passes only present values, never more than it got |
| MapOperator.CompactMapConcat | Sources/PrivateExt/Combine/MapOperator.swift:14 | `compactMap` works element by element |
| MapOperator.CompactMapConstant | Sources/PrivateExt/Combine/MapOperator.swift:12-16 | a run of one present value passes whole; a run of absent values passes nothing |
| MapOperator.MapTo | Sources/PrivateExt/Combine/MapOperator.swift:18-20 | `map(to: value)` emits one `value` per input |
| MapOperator.MapToVoid | Sources/PrivateExt/Combine/MapOperator.swift:22-24 | `mapToVoid()` emits one unit per input |
| MapOperator.MapToObject | Sources/PrivateExt/Combine/MapOperator.swift:12-16 | while the object lives every input becomes the object; once it is gone nothing is emitted |
| MapOperator.ContentsIrrelevant | Sources/PrivateExt/Combine/MapOperator.swift:12-24 | the three maps depend only on how many inputs there were, not on what they were |
| MapOperator.MapToObjectAcrossDeallocation | Sources/PrivateExt/Combine/MapOperator.swift:12-16 | across the object's deallocation, the inputs before it map to the object and later ones are dropped |
| Chunking.Min | Sources/CombineNetwork/Connection/CombineConnection.swift:52 | `min` is one of its arguments and at most both |
| Chunking.Steps | Sources/CombineNetwork/Connection/CombineConnection.swift:48-55 | the counter's passes from `sent`: none exactly when everything is counted, and never more passes than bytes left |
| Chunking.StepsShape | Sources/CombineNetwork/Connection/CombineConnection.swift:48-55 | pass `i` starts at `i*max`, its `end` lies in `1..max`, every pass but the last has `end == max`, and the last reaches `count` |
| Chunking.StepsSum | Sources/CombineNetwork/Connection/CombineConnection.swift:50-54 | `sandSize` grows by exactly the remaining bytes: the loop leaves exactly at `count` |
| Chunking.StepsCount | Sources/CombineNetwork/Connection/CombineConnection.swift:50-55 | the loop makes `ceil(count/max)` passes |
| Chunking.FirstStep | Sources/CombineNetwork/Connection/CombineConnection.swift:51-53 | the first pass over an oversized payload asks for `data[0..<max]` |
| Chunking.InvertedUnlessDouble | Sources/CombineNetwork/Connection/CombineConnection.swift:51-53 | no slice range is inverted if and only if `count == 2*max`; otherwise the second or the third is inverted |
| Chunking.Run | Sources/CombineNetwork/Connection/CombineConnection.swift:47-55 | every slice the loop sends lies within the payload |
| Chunking.RunStep | Sources/CombineNetwork/Connection/CombineConnection.swift:50-55 | one pass traps on an inverted range, spins on `end == 0`, or sends `[sandSize, end)` and goes on |
| Chunking.RunFollowsSteps | Sources/CombineNetwork/Connection/CombineConnection.swift:48-55 | for a positive maximum the loop sends the counter's slices up to the first inverted one, where it traps |
| Chunking.RunOversized | Sources/CombineNetwork/Connection/CombineConnection.swift:47-55 | the whole run over an oversized payload: `[0,max)` then trap, or `[0,max)`, `[max,max)` and finish, or the same two and trap |
| Chunking.OnlyFirstChunkSent | Sources/CombineNetwork/Connection/CombineConnection.swift:47-55 | of an oversized payload only the first `max` bytes reach the transport, and the loop finishes if and only if `count == 2*max` |
| Chunking.NonPositiveMaximum | Sources/CombineNetwork/Connection/CombineConnection.swift:50-55 | a zero maximum spins on the empty slice; a negative one traps at once |
| CombineConnection.SendRequestFor | Sources/CombineNetwork/Connection/CombineConnection.swift:163-172 | content is passed untouched; `isComplete` defaults to true and the context to `.defaultMessage`; the completion is `.idempotent` exactly when absent, else `.contentProcessed` over its handler |
| CombineConnection.DefaultsAreExplicit | Sources/CombineNetwork/Connection/CombineConnection.swift:165-169 | leaving `isComplete` or the context out is the same as passing its default |
| CombineConnection.EffectiveMaximum | Sources/CombineNetwork/Connection/CombineConnection.swift:40 | the argument when given, else the connection's maximum read at call time |
| CombineConnection.SmallPayloadSendsNil | Sources/CombineNetwork/Connection/CombineConnection.swift:39-45 | `sendBatch` with a payload that fits the effective maximum makes exactly one request, a send with `nil` content and the caller's arguments, and opens no batch |
| CombineConnection.ConnectionProxy.constructor | Sources/CombineNetwork/Connection/CombineConnection.swift:257-286 | the five streams are backed by fresh subjects, and none of them has sent anything |
| CombineConnection.Connection.constructor | Sources/CombineNetwork/Connection/CombineConnection.swift:104-114 | after `create(by:)` nothing has been asked of the platform, no receive chain runs, and no stream has been sent to |
| CombineConnection.Connection.MaximumDatagramSizeChanged | Sources/CombineNetwork/Connection/CombineConnection.swift:136-138 | the maximum read later is the new one; nothing else changes |
| CombineConnection.Connection.StateUpdateHandler | Sources/CombineNetwork/Connection/CombineConnection.swift:108-110 | a reported state is sent on `stateUpdate` and reaches every attached subscriber |
| CombineConnection.Connection.PathUpdateHandler | Sources/CombineNetwork/Connection/CombineConnection.swift:112-114 | a reported path is sent on `pathUpdate` and reaches every attached subscriber |
| CombineConnection.Connection.ArmReceive | Sources/CombineNetwork/Connection/CombineConnection.swift:118-120 | arming issues one receive of 1 to 8192 bytes, outstanding for that chain |
| CombineConnection.Connection.SubscribeReceiveMessage | Sources/CombineNetwork/Connection/CombineConnection.swift:129-133 | a subscription attaches a subscriber with nothing received and arms a new chain with one request; other chains keep their requests |
| CombineConnection.Connection.CancelReceiveMessage | Sources/CombineNetwork/Connection/CombineConnection.swift:116-133 | cancelling detaches the subscriber only: every subscriber keeps what it received, and no request is withdrawn or issued |
| CombineConnection.Connection.ReceiveCompletion | Sources/CombineNetwork/Connection/CombineConnection.swift:121-126 | the tuple is emitted; the chain issues a new request if and only if there is no error; chains stay distinct and no ended chain restarts |
| CombineConnection.Connection.SendData | Sources/CombineNetwork/Connection/CombineConnection.swift:63-65 | exactly one send, with the closure's defaults applied |
| CombineConnection.Connection.SendBatch | Sources/CombineNetwork/Connection/CombineConnection.swift:39-57 | absent or fitting content gives one send with `nil` content; longer content gives one batch holding the loop's sends, each with the caller's context, isComplete and completion |
| CombineConnection.ChunkLoop | Sources/CombineNetwork/Connection/CombineConnection.swift:47-56 | the loop's sends are one per slice of `Chunking.Run`, in order, and it ends as that run does |
| CombineConnection.Completed | Sources/CombineNetwork/Connection/CombineConnection.swift:121-126 | completing a request keeps one request per chain at most; the chain is outstanding again exactly when re-armed |
| CombineConnection.Armed | Sources/CombineNetwork/Connection/CombineConnection.swift:129-133 | arming a newly numbered chain keeps one request per chain and leaves the others' requests alone |
| CombineConnection.TwoSubscriptionsTwoChains | Sources/CombineNetwork/Connection/CombineConnection.swift:116-133 | two subscriptions leave two requests outstanding, and each subscriber sees the completions of both chains |
| CombineConnection.ErrorEndsChain | Sources/CombineNetwork/Connection/CombineConnection.swift:118-127 | after a completion the chain has issued a second request if there was no error, and none after an error |
| CombineConnection.UnfedStreamsStayEmpty | Sources/CombineNetwork/Connection/CombineConnection.swift:104-114 | no handler feeds `betterPathUpdate` or `viabilityUpdate`: both stay empty through state and path reports, a subscription and a completion |
| BonjourBrowser.Flags.RawValue | Sources/CombineNetwork/BonjourBrowser/CombineBonjourBrowser.swift:26-31 | raw values are 0 to 3 |
| BonjourBrowser.FlagsFromRawValue | Sources/CombineNetwork/BonjourBrowser/CombineBonjourBrowser.swift:26-31 | `Flags(rawValue:)` succeeds exactly for 0 to 3, with the case of that raw value |
| BonjourBrowser.RawValueRoundTrip | Sources/CombineNetwork/BonjourBrowser/CombineBonjourBrowser.swift:26-31 | reading a case's raw value back gives the case |
| BonjourBrowser.BonjourFlagsRawValue | Sources/CombineNetwork/BonjourBrowser/CombineBonjourBrowser.swift:150-158 | 1, 2 or 3 exactly for the single options `interfaceAdded`, `interfaceRemoved`, `metadataChanged`; 0 for every other option set |
| BonjourBrowser.FlagsFrom | Sources/CombineNetwork/BonjourBrowser/CombineBonjourBrowser.swift:161-164 | the force-unwrapped `Flags(rawValue:)` never fails and yields the case of that raw value |
| BonjourBrowser.FlagsMapping | Sources/CombineNetwork/BonjourBrowser/CombineBonjourBrowser.swift:150-164 | each single option maps to its case; empty sets, combinations and unknown options map to `.identical` |
| BonjourBrowser.Found | Sources/CombineNetwork/BonjourBrowser/CombineBonjourBrowser.swift:105-106 | at most one `didFind` event per change |
| BonjourBrowser.Lost | Sources/CombineNetwork/BonjourBrowser/CombineBonjourBrowser.swift:107-108 | at most one `didRemove` event per change |
| BonjourBrowser.Updated | Sources/CombineNetwork/BonjourBrowser/CombineBonjourBrowser.swift:109-114 | at most one `didChanged` event per change |
| BonjourBrowser.Silent | Sources/CombineNetwork/BonjourBrowser/CombineBonjourBrowser.swift:115-116 | the `.identical` and unknown changes, which no channel hears of; zero exactly when the set has none |
| BonjourBrowser.DispatchConcat | Sources/CombineNetwork/BonjourBrowser/CombineBonjourBrowser.swift:103-118 | dispatching a change set works change by change, on every channel |
| BonjourBrowser.EveryChangeOnce | Sources/CombineNetwork/BonjourBrowser/CombineBonjourBrowser.swift:103-118 | each change produces exactly one event on one channel, or none for `.identical` and unknown changes |
| BonjourBrowser.FoundIffAdded | Sources/CombineNetwork/BonjourBrowser/CombineBonjourBrowser.swift:104-108 | a result is found if and only if it was added, and removed if and only if it was removed |
| BonjourBrowser.UpdatedIffChanged | Sources/CombineNetwork/BonjourBrowser/CombineBonjourBrowser.swift:109-114 | every `.changed` change is announced with its mapped flags, and every announcement comes from such a change |
| BonjourBrowser.RemoveDuplicates | Sources/CombineNetwork/BonjourBrowser/CombineBonjourBrowser.swift:49 | `removeDuplicates()` never lengthens and keeps the first and last element |
| BonjourBrowser.RemoveDuplicatesSnoc | Sources/CombineNetwork/BonjourBrowser/CombineBonjourBrowser.swift:49 | a new state is passed on exactly when it differs from the previous one |
| BonjourBrowser.RemoveDuplicatesShape | Sources/CombineNetwork/BonjourBrowser/CombineBonjourBrowser.swift:49 | the output has no adjacent repeats, contains every input value, and is a subsequence of the input |
| BonjourBrowser.RemoveDuplicatesIdempotent | Sources/CombineNetwork/BonjourBrowser/CombineBonjourBrowser.swift:49 | a sequence without repeats passes unchanged, so the operator is idempotent |
| BonjourBrowser.BrowserDelegate.constructor | Sources/CombineNetwork/BonjourBrowser/CombineBonjourBrowser.swift:123-135 | a new delegate's channels have sent nothing and `services` is empty |
| BonjourBrowser.BrowserDelegate.Services | Sources/CombineNetwork/BonjourBrowser/CombineBonjourBrowser.swift:48 | the `service` closure reads the last snapshot published, the one every `$services` subscriber was handed last |
| BonjourBrowser.BrowserDelegate.StatesSeen | Sources/CombineNetwork/BonjourBrowser/CombineBonjourBrowser.swift:49 | a browser subscriber's `updateState` view: no longer than what was sent while attached, no state repeating the one before, every sent state present, and ending on the latest state |
| BonjourBrowser.BrowserDelegate.ReceiveState | Sources/CombineNetwork/BonjourBrowser/CombineBonjourBrowser.swift:97-99 | the state is sent on `updateState`; a browser subscriber sees it unless it repeats the state just before |
| BonjourBrowser.BrowserDelegate.Dispatch | Sources/CombineNetwork/BonjourBrowser/CombineBonjourBrowser.swift:104-117 | one change goes to the channel of its kind, `.changed` with mapped flags; subscriptions are untouched |
| BonjourBrowser.BrowserDelegate.ReceiveResults | Sources/CombineNetwork/BonjourBrowser/CombineBonjourBrowser.swift:101-121 | every change is dispatched in order, then `services` becomes the new result set whatever the changes said |
| BindingValues.BindingValueSubject.FromValue | Sources/PrivateExt/Combine/BindingValueSubject.swift:69-72 | a new cell holding `value`, which `set` sends into |
| BindingValues.BindingValueSubject.Value | Sources/PrivateExt/Combine/BindingValueSubject.swift:65-67 | `value` is what `get` reads, a value the cell has held and the one every attached subscriber was handed last |
| BindingValues.BindingValueSubject.FromCell | Sources/PrivateExt/Combine/BindingValueSubject.swift:85-95 | `get` reads the given cell and `set` sends into that same cell |
| BindingValues.NewCellFedBy | Sources/PrivateExt/Combine/CurrentValueSubject+Extension.swift:12-15 | the new cell holds `value` followed by what the upstream emits while being subscribed, so its value is the last of those |
| BindingValues.BindingValueSubject.WithPublisher | Sources/PrivateExt/Combine/BindingValueSubject.swift:74-83 | a new cell built by `CurrentValueSubject(with:value:)`, whose value is `value` unless the upstream emitted on subscription; `set` is the caller's closure |
| BindingValues.BindingValueSubject.Child | Sources/PrivateExt/Combine/BindingValueSubject.swift:117-119 | the child holds the parent's own `set`, `get` and publisher |
| BindingValues.BindingValueSubject.Send | Sources/PrivateExt/Combine/BindingValueSubject.swift:105-107 | `set` is called once: a cell-sending `set` makes `value` the input and broadcasts it; the caller's `set` receives it and `value` is untouched |
| BindingValues.BindingValueSubject.SendCompletion | Sources/PrivateExt/Combine/BindingValueSubject.swift:109 | a completion is ignored: `value` is unchanged |
| BindingValues.BindingValueSubject.SendSubscription | Sources/PrivateExt/Combine/BindingValueSubject.swift:115 | a subscription is ignored: `value` is unchanged |
| BindingValues.BindingValueSubject.Subscribe | Sources/PrivateExt/Combine/BindingValueSubject.swift:111-113 | a new subscriber attaches to the cell and is handed the current value; the value, the other subscribers' attachments and what they received are unchanged |
| BindingValues.BindingValueSubject.Relay | Sources/PrivateExt/Combine/CurrentValueSubject+Extension.swift:12-15 | an upstream emission becomes the cell's value and is appended to what it held |
| BindingValues.BindingValue.Accept | Sources/PrivateExt/Combine/BindingValueSubject.swift:14-16 | `accept` is the subject's `send`: a cell-sending `set` makes the input the value and every attached subscriber receives it; the caller's `set` is called with it |
| BindingValues.BindingValue.Value | Sources/PrivateExt/Combine/BindingValueSubject.swift:18-22 | the subject's `value`: what every subscriber of the view was handed last |
| BindingValues.BindingValue.Subscribe | Sources/PrivateExt/Combine/BindingValueSubject.swift:46-48 | subscribing hands the current value first; the value, the other subscribers' attachments and what they received are unchanged |
| BindingValues.NewBindingValue | Sources/PrivateExt/Combine/BindingValueSubject.swift:24-26 | `BindingValue(v)` starts with `value == v` over a fresh cell it sends into |
| BindingValues.BindingValueOf | Sources/PrivateExt/Combine/BindingValueSubject.swift:28-30 | a view over the given cell, with that cell's value |
| BindingValues.BindingValueWith | Sources/PrivateExt/Combine/BindingValueSubject.swift:32-35 | starts with `value == v` unless the upstream emitted on subscription, then with its last emission; `set` is the caller's closure |
| BindingValues.CopyBindingValue | Sources/PrivateExt/Combine/BindingValueSubject.swift:37-40 | the copy shares the other's cell and `set`, and so its value |
| BindingValues.Binding | Sources/PrivateExt/Combine/BindingValueSubject.swift:55-59 | `binding` is a view over the subject itself |
| BindingValues.CopySharesState | Sources/PrivateExt/Combine/BindingValueSubject.swift:37-40 | a value accepted through a copy is the original's value, and the other way round |
| BindingValues.TwoSubscribersReceiveAccept | Sources/PrivateExt/Combine/BindingValueSubject.swift:14-16 | two subscribers attached in turn each receive the initial value and then the accepted one |
| BindingValues.WithPublisherValueFollowsUpstream | Sources/PrivateExt/Combine/BindingValueSubject.swift:74-83 | with `init(with:value:set:)` over an upstream silent at subscription, sending calls `set` once and leaves `value` alone; only the upstream moves `value` |
| BindingValues.ReplayingUpstreamOverridesValue | Sources/PrivateExt/Combine/CurrentValueSubject+Extension.swift:12-15 | over an upstream that replays its current value on subscription, the `value` argument is overwritten before the initializer returns |
| Binder.Target.Deallocate | Sources/PrivateExt/Combine/CombineBinder.swift:48-53 | once the target is gone its weak references read `nil`; what was applied stays |
| Binder.Scheduler.Schedule | Sources/PrivateExt/Combine/CombineBinder.swift:49 | a work item is queued after those already pending |
| Binder.Scheduler.Step | Sources/PrivateExt/Combine/CombineBinder.swift:49-53 | the oldest work item runs: the binding is applied if and only if the target still exists, otherwise the input is dropped |
| Binder.SubscriptionContainer.constructor | Sources/PrivateExt/Combine/CombineBinder.swift:83-87 | a binder starts with no stored subscription |
| Binder.NewCombineBinder | Sources/PrivateExt/Combine/CombineBinder.swift:45-55 | the binder captures the target and the scheduler and has no subscription yet |
| Binder.CombineBinder.Bind | Sources/PrivateExt/Combine/CombineBinder.swift:48-54 | `_bind` schedules exactly one delivery of the input and touches nothing of the target |
| Binder.CombineBinder.Receive | Sources/PrivateExt/Combine/CombineBinder.swift:57-60 | an input schedules exactly one delivery and the demand returned is `.unlimited` |
| Binder.CombineBinder.ReceiveSubscription | Sources/PrivateExt/Combine/CombineBinder.swift:62-65 | the subscription is stored and asked for `.unlimited` |
| Binder.CombineBinder.Cancel | Sources/PrivateExt/Combine/CombineBinder.swift:71-73 | a stored subscription is cancelled; with none stored nothing changes |
| Binder.CombineBinder.ReceiveCompletion | Sources/PrivateExt/Combine/CombineBinder.swift:81 | a completion changes neither the stored subscription nor the pending deliveries |
| Binder.AnyCancellable.Cancel | Sources/PrivateExt/Combine/CombineBinder.swift:15 | cancelling the result of `bind(to:)` cancels the binder |
| Binder.BindTo | Sources/PrivateExt/Combine/CombineBinder.swift:13-16 | the binder is subscribed (it stores the subscription and asks for `.unlimited`), and the result cancels that binder |
| Binder.DeliveredInOrder | Sources/PrivateExt/Combine/CombineBinder.swift:48-60 | inputs reach a live target only when the scheduler runs, one per input, in order |
| Binder.DeallocatedBeforeDelivery | Sources/PrivateExt/Combine/CombineBinder.swift:48-53 | an input received while the target lives but delivered after it is gone is dropped with no effect |
| Binder.BindThenCancel | Sources/PrivateExt/Combine/CombineBinder.swift:13-16 | `bind(to:)` asks upstream for `.unlimited`, and cancelling its result cancels that subscription |

## Left out

- I/O, the network and threading. The platform connection and browser are logs of requests,
  and their callbacks are methods the platform calls. Dispatch queues are a FIFO scheduler
  stepped explicitly.
- `start`, `cancel`, `forceCancel`, `cancelCurrentEndpoint`, `restart`, `endpoint`,
  `parameters`, `currentPath`, `batch`, `create(with:)` and `scan` forward to the platform and
  are not modelled. `sendBatch`'s batch block is one `Batch` entry in the request log.
- `Data` is a byte sequence indexed from 0. A `Data` slice whose `startIndex` is not 0 is not
  modelled.
- `NWPath`, `NWError`, browse results and content contexts are opaque values.
- `betterPathUpdate` and `viabilityUpdate` exist in the proxy, but nothing in the code sends
  on them, so no handler is modelled.
- Chunking.Run: a pass whose `end` is 0 repeats forever in the code. The run records that
  empty send once and reports `Spins`.
- CombineConnection.Connection.ReceiveCompletion: does not restate, per subscriber, that each
  attached subscriber receives the tuple. That follows from `PassthroughBacked.Send` and is
  exhibited by `TwoSubscriptionsTwoChains`.
- The `[unowned nwConnection]` capture in the receive handler is not modelled. The platform
  connection outlives its callbacks.
- BindingValues.BindingValueSubject.Relay: the upstream publisher's completion is not modelled.
  `init(with:value:)` subscribes the cell through `AnySubscriber`, so a completion would finish
  the cell. Only its values are modelled: those emitted while the cell subscribes are the
  `replayed` argument of `NewCellFedBy`, and later ones arrive through `Relay`.
- FilterOperator.FilterEqualTo, FilterOperator.FilterKeyEqualTo, FilterOperator.FilterKeyEqual and
  BonjourBrowser.RemoveDuplicates: Swift's `==` (an `Equatable` conformance, possibly written by
  the user) is modelled as identity. Outputs that a custom `==` calls equal are one value here,
  so each result stands for its equality class, not for the exact instances passed on.
- The public `init(set:get:publisher:)` with three arbitrary closures is not modelled. Every
  constructor the library itself uses ties `get` and the publisher to one cell.
- The `bindingValue` property of `CurrentValueSubject` is the same as `BindingValue(_:)` over
  that subject, so BindingValues.BindingValueOf covers it.
- `@Published` announces the new snapshot before storing it (`willSet`). This timing is not
  modelled: `services` changes and is broadcast in one step.
- `CombineIdentifier`, and Combine's demand protocol beyond adding demands and `.unlimited`.
- The `handleEvents(to:)` and `handleEvents(toOutput:toError:)` operators, and the
  `bind(to:)` overloads that take a `Subject`, are outside the modelled core. They are thin
  wrappers over Combine operators.
- Network+Extension.swift and Package.swift are not part of this model.
