/** `CombineConnection`: a network connection whose callbacks are turned into streams. The
    platform connection (`NWConnection`) is modelled by what the adapter asks of it, a log of
    `send`, `batch` and `receive` requests, plus the receive requests still outstanding; its
    callbacks (state, path, receive completion) are methods the platform calls. The five
    streams live in `ConnectionProxy`, each a `@PassthroughBacked` subject. */
module CombineConnection {
  import opened Wrappers
  import opened Combine
  import opened Chunking
  import opened Passthrough

  /** `NWConnection.ContentContext`, opaque apart from `.defaultMessage`. */
  datatype ContentContext = DefaultMessage | Context(id: nat)

  /** `NWError`, opaque. */
  datatype NWError = NWError(code: int)

  /** `NWPath`, opaque. */
  datatype Path = Path(id: nat)

  /** `NWConnection.State`. */
  datatype State = Setup | Waiting(waitError: NWError) | Preparing | Ready | Failed(failure: NWError) | Cancelled

  /** `CombineConnection.SendCompletion`: the caller's `errorHandle`, named by a number. */
  datatype SendCompletion = SendCompletion(errorHandle: nat)

  /** `NWConnection.SendCompletion`. */
  datatype NWSendCompletion = Idempotent | ContentProcessed(errorHandle: nat)

  /** The arguments of one `NWConnection.send`. */
  datatype SendRequest = SendRequest(
    content: Option<Bytes>,
    contentContext: ContentContext,
    isComplete: bool,
    completion: NWSendCompletion)

  /** A request made to the platform connection. `Batch` holds the sends issued inside one
      `NWConnection.batch` block. */
  datatype TransportCall =
    | Send(request: SendRequest)
    | Batch(sends: seq<SendRequest>)
    | Receive(minimumIncompleteLength: nat, maximumLength: nat)

  /** One receive completion, `(content, contentContext, isComplete, error)`. */
  datatype Message = Message(
    content: Option<Bytes>,
    contentContext: Option<ContentContext>,
    isComplete: bool,
    error: Option<NWError>)

  const MinimumIncompleteLength: nat := 1
  const MaximumLength: nat := 1024 * 8

  /** The receive request every arming of the loop issues. */
  const ReceiveRequest: TransportCall := Receive(MinimumIncompleteLength, MaximumLength)

  /** The `sendData` closure built by `create(by:)`: `isComplete` defaults to true, the
      context to `.defaultMessage`, a missing completion becomes `.idempotent` and a given one
      `.contentProcessed` over its `errorHandle`; the content is passed on untouched. */
  function SendRequestFor(
    content: Option<Bytes>,
    contentContext: Option<ContentContext>,
    isComplete: Option<bool>,
    completion: Option<SendCompletion>): (r: SendRequest)
    ensures r.content == content
    ensures isComplete.None? ==> r.isComplete
    ensures isComplete.Some? ==> r.isComplete == isComplete.value
    ensures contentContext.None? ==> r.contentContext == DefaultMessage
    ensures contentContext.Some? ==> r.contentContext == contentContext.value
    ensures completion.None? <==> r.completion == Idempotent
    ensures completion.Some? ==> r.completion == ContentProcessed(completion.value.errorHandle)
  {
    SendRequest(
      content,
      contentContext.GetOr(DefaultMessage),
      isComplete.GetOr(true),
      if completion.None? then Idempotent else ContentProcessed(completion.value.errorHandle))
  }

  /** Leaving an argument out is the same as passing its default. */
  lemma DefaultsAreExplicit(content: Option<Bytes>, completion: Option<SendCompletion>)
    ensures SendRequestFor(content, None, None, completion)
         == SendRequestFor(content, Some(DefaultMessage), Some(true), completion)
  {
  }

  /** The effective maximum of `sendBatch`: the argument when given, else the connection's
      maximum at the time of the call. */
  function EffectiveMaximum(argument: Option<int>, current: int): (max: int)
    ensures argument.Some? ==> max == argument.value
    ensures argument.None? ==> max == current
  {
    argument.GetOr(current)
  }

  /** The sends of the batch path: one per slice, all with the caller's context, isComplete
      and completion. */
  function ChunkSends(
    data: Bytes,
    slices: seq<Slice>,
    contentContext: ContentContext,
    isComplete: Option<bool>,
    completion: Option<SendCompletion>): seq<SendRequest>
    requires forall i :: 0 <= i < |slices| ==> slices[i].lower <= slices[i].upper <= |data|
  {
    seq(|slices|, i requires 0 <= i < |slices| =>
      SendRequestFor(Some(data[slices[i].lower..slices[i].upper]), Some(contentContext), isComplete, completion))
  }

  /** `NWConnectionProxy`: the five `@PassthroughBacked` streams of a connection. */
  class ConnectionProxy {
    const stateUpdate: PassthroughBacked<State>
    const betterPathUpdate: PassthroughBacked<bool>
    const pathUpdate: PassthroughBacked<Path>
    const viabilityUpdate: PassthroughBacked<bool>
    const receiveMessage: PassthroughBacked<Message>

    ghost predicate Valid()
      reads this, stateUpdate.subject, betterPathUpdate.subject, pathUpdate.subject,
        viabilityUpdate.subject, receiveMessage.subject
    {
      && stateUpdate.subject.Valid()
      && betterPathUpdate.subject.Valid()
      && pathUpdate.subject.Valid()
      && viabilityUpdate.subject.Valid()
      && receiveMessage.subject.Valid()
    }

    constructor ()
      ensures Valid()
      ensures fresh(stateUpdate.subject) && fresh(betterPathUpdate.subject) && fresh(pathUpdate.subject)
      ensures fresh(viabilityUpdate.subject) && fresh(receiveMessage.subject)
      ensures stateUpdate.subject.sent == [] && stateUpdate.subject.joinedAt == map[]
      ensures betterPathUpdate.subject.sent == [] && viabilityUpdate.subject.sent == []
      ensures pathUpdate.subject.sent == [] && pathUpdate.subject.joinedAt == map[]
      ensures receiveMessage.subject.sent == [] && receiveMessage.subject.joinedAt == map[]
      ensures receiveMessage.subject.leftAt == map[]
    {
      var state := NewPassthroughBacked();
      var betterPath := NewPassthroughBacked();
      var path := NewPassthroughBacked();
      var viability := NewPassthroughBacked();
      var receive := NewPassthroughBacked();
      stateUpdate, betterPathUpdate, pathUpdate := state, betterPath, path;
      viabilityUpdate, receiveMessage := viability, receive;
    }
  }

  /** A connection made by `CombineConnection.create(by:)`, with the platform connection it
      wraps. `pending` tags each outstanding receive request with the receive chain that
      issued it; chain `i` is the one armed by the `i`-th subscription to `receiveMessage`. */
  class Connection {
    const proxy: ConnectionProxy
    var maximumDatagramSize: int
    var calls: seq<TransportCall>
    var pending: seq<nat>
    var chains: nat

    /** The receive-chain bookkeeping: every outstanding request belongs to an armed chain,
        and no chain has two. */
    ghost predicate Valid()
      reads this
    {
      && ChainsBelow(pending, chains)
      && Distinct(pending)
    }

    /** `create(by:)`: the handlers are installed, nothing has been asked of the platform. */
    constructor (maximumDatagramSize: int)
      ensures Valid() && proxy.Valid()
      ensures fresh(proxy) && fresh(proxy.stateUpdate.subject) && fresh(proxy.pathUpdate.subject)
      ensures fresh(proxy.betterPathUpdate.subject) && fresh(proxy.viabilityUpdate.subject)
      ensures fresh(proxy.receiveMessage.subject)
      ensures proxy.receiveMessage.subject.sent == [] && proxy.receiveMessage.subject.joinedAt == map[]
      ensures proxy.receiveMessage.subject.leftAt == map[]
      ensures proxy.stateUpdate.subject.sent == [] && proxy.pathUpdate.subject.sent == []
      ensures proxy.betterPathUpdate.subject.sent == [] && proxy.viabilityUpdate.subject.sent == []
      ensures this.maximumDatagramSize == maximumDatagramSize
      ensures calls == [] && pending == [] && chains == 0
    {
      proxy := new ConnectionProxy();
      this.maximumDatagramSize := maximumDatagramSize;
      calls := [];
      pending := [];
      chains := 0;
    }

    /** The platform reports a new maximum datagram size (it may change once ready). */
    method MaximumDatagramSizeChanged(size: int)
      modifies this
      ensures maximumDatagramSize == size
      ensures calls == old(calls) && pending == old(pending) && chains == old(chains)
    {
      maximumDatagramSize := size;
    }

    /** The `stateUpdateHandler`: forwards the reported state to `stateUpdate`. */
    method StateUpdateHandler(state: State)
      requires proxy.stateUpdate.subject.Valid()
      modifies proxy.stateUpdate.subject
      ensures proxy.stateUpdate.subject.Valid()
      ensures proxy.stateUpdate.subject.sent == old(proxy.stateUpdate.subject.sent) + [state]
      ensures proxy.stateUpdate.subject.joinedAt == old(proxy.stateUpdate.subject.joinedAt)
      ensures proxy.stateUpdate.subject.leftAt == old(proxy.stateUpdate.subject.leftAt)
      ensures forall id :: id in proxy.stateUpdate.subject.Active() ==>
        proxy.stateUpdate.subject.Received(id) == old(proxy.stateUpdate.subject.Received(id)) + [state]
    {
      proxy.stateUpdate.ProjectedValue().Send(state);
    }

    /** The `pathUpdateHandler`: forwards the reported path to `pathUpdate`. */
    method PathUpdateHandler(path: Path)
      requires proxy.pathUpdate.subject.Valid()
      modifies proxy.pathUpdate.subject
      ensures proxy.pathUpdate.subject.Valid()
      ensures proxy.pathUpdate.subject.sent == old(proxy.pathUpdate.subject.sent) + [path]
      ensures proxy.pathUpdate.subject.joinedAt == old(proxy.pathUpdate.subject.joinedAt)
      ensures proxy.pathUpdate.subject.leftAt == old(proxy.pathUpdate.subject.leftAt)
      ensures forall id :: id in proxy.pathUpdate.subject.Active() ==>
        proxy.pathUpdate.subject.Received(id) == old(proxy.pathUpdate.subject.Received(id)) + [path]
    {
      proxy.pathUpdate.ProjectedValue().Send(path);
    }

    /** `receiveMessageHandle`: issues one receive request for chain `chain`. */
    method ArmReceive(chain: nat)
      requires chain !in pending
      modifies this
      ensures calls == old(calls) + [ReceiveRequest]
      ensures pending == old(pending) + [chain]
      ensures chains == old(chains) && maximumDatagramSize == old(maximumDatagramSize)
    {
      calls := calls + [ReceiveRequest];
      pending := pending + [chain];
    }

    /** Subscribing to `receiveMessage`: the subscriber is attached to the proxy subject and,
        through `handleEvents(receiveSubscription:)`, a new receive chain is armed. Nothing
        checks whether a chain is already running. */
    method SubscribeReceiveMessage() returns (id: SubId)
      requires Valid() && proxy.receiveMessage.subject.Valid()
      modifies this, proxy.receiveMessage.subject
      ensures Valid() && proxy.receiveMessage.subject.Valid()
      ensures id !in old(proxy.receiveMessage.subject.joinedAt)
      ensures id in proxy.receiveMessage.subject.Active()
      ensures proxy.receiveMessage.subject.Received(id) == []
      ensures proxy.receiveMessage.subject.sent == old(proxy.receiveMessage.subject.sent)
      ensures proxy.receiveMessage.subject.joinedAt == old(proxy.receiveMessage.subject.joinedAt)[id := |proxy.receiveMessage.subject.sent|]
      ensures proxy.receiveMessage.subject.leftAt == old(proxy.receiveMessage.subject.leftAt)
      ensures calls == old(calls) + [ReceiveRequest]
      ensures chains == old(chains) + 1 && pending == old(pending) + [old(chains)]
      ensures forall c :: c < old(chains) ==> (c in pending <==> c in old(pending))
      ensures maximumDatagramSize == old(maximumDatagramSize)
    {
      id := proxy.receiveMessage.WrappedValue().Subscribe();
      Armed(pending, chains);
      ArmReceive(chains);
      chains := chains + 1;
    }

    /** A subscriber of `receiveMessage` cancels: it is detached, but the receive chain it armed
        keeps running. */
    method CancelReceiveMessage(id: SubId)
      requires proxy.receiveMessage.subject.Valid()
      modifies proxy.receiveMessage.subject
      ensures proxy.receiveMessage.subject.Valid()
      ensures proxy.receiveMessage.subject.Active() == old(proxy.receiveMessage.subject.Active()) - {id}
      ensures proxy.receiveMessage.subject.sent == old(proxy.receiveMessage.subject.sent)
      ensures proxy.receiveMessage.subject.joinedAt == old(proxy.receiveMessage.subject.joinedAt)
      ensures forall other :: other in old(proxy.receiveMessage.subject.joinedAt) ==>
        proxy.receiveMessage.subject.Received(other) == old(proxy.receiveMessage.subject.Received(other))
      ensures calls == old(calls) && pending == old(pending) && chains == old(chains)
    {
      proxy.receiveMessage.subject.Cancel(id);
    }

    /** The platform completes the outstanding receive request at `k`: the tuple is emitted on
        `receiveMessage` and, if and only if there is no error, the same chain issues a new
        request. After an error the chain has ended. */
    method ReceiveCompletion(k: nat, message: Message)
      requires Valid() && proxy.receiveMessage.subject.Valid() && k < |pending|
      modifies this, proxy.receiveMessage.subject
      ensures Valid() && proxy.receiveMessage.subject.Valid()
      ensures proxy.receiveMessage.subject.sent == old(proxy.receiveMessage.subject.sent) + [message]
      ensures proxy.receiveMessage.subject.joinedAt == old(proxy.receiveMessage.subject.joinedAt)
      ensures proxy.receiveMessage.subject.leftAt == old(proxy.receiveMessage.subject.leftAt)
      ensures calls == old(calls) + (if message.error.None? then [ReceiveRequest] else [])
      ensures pending == old(pending)[..k] + old(pending)[k + 1..] + (if message.error.None? then [old(pending)[k]] else [])
      ensures message.error.Some? <==> old(pending)[k] !in pending
      ensures forall c :: c !in old(pending) ==> c !in pending
      ensures chains == old(chains) && maximumDatagramSize == old(maximumDatagramSize)
    {
      var chain := pending[k];
      Completed(pending, k, chains, message.error.None?);
      pending := pending[..k] + pending[k + 1..];
      proxy.receiveMessage.ProjectedValue().Send(message);
      if message.error.None? {
        ArmReceive(chain);
      }
    }

    /** The public `sendData`: the caller's context is always given, so only `isComplete` and
        the completion fall back to their defaults. */
    method SendData(
      content: Option<Bytes>,
      contentContext: ContentContext,
      isComplete: Option<bool>,
      completion: Option<SendCompletion>)
      modifies this
      ensures calls == old(calls) + [Send(SendRequestFor(content, Some(contentContext), isComplete, completion))]
      ensures pending == old(pending) && chains == old(chains)
      ensures maximumDatagramSize == old(maximumDatagramSize)
    {
      calls := calls + [Send(SendRequestFor(content, Some(contentContext), isComplete, completion))];
    }

    /** `sendBatch`, as written. Absent content, or content no longer than the effective
        maximum, gives one `sendData` whose content is `nil`, not the payload. Longer content
        runs the chunk loop inside one `batch` block, every chunk with the caller's context,
        isComplete and completion; the loop slices `data[prefix..<end]` with `end` a length,
        and stops where that range would trap (see `Chunking.Run`). */
    method SendBatch(
      maximum: Option<int>,
      content: Option<Bytes>,
      contentContext: ContentContext,
      isComplete: Option<bool>,
      completion: Option<SendCompletion>) returns (outcome: Outcome)
      modifies this
      ensures pending == old(pending) && chains == old(chains)
      ensures maximumDatagramSize == old(maximumDatagramSize)
      ensures var max := EffectiveMaximum(maximum, maximumDatagramSize);
        if content.None? || |content.value| <= max then
          && outcome == Finished
          && calls == old(calls) + [Send(SendRequestFor(None, Some(contentContext), isComplete, completion))]
        else
          var run := Run(|content.value|, max, 0);
          && outcome == run.outcome
          && calls == old(calls) + [Batch(ChunkSends(content.value, run.slices, contentContext, isComplete, completion))]
    {
      var max := if maximum.Some? then maximum.value else maximumDatagramSize;
      if content.None? || |content.value| <= max {
        SendData(None, contentContext, isComplete, completion);
        return Finished;
      }
      var sends;
      sends, outcome := ChunkLoop(content.value, max, contentContext, isComplete, completion);
      calls := calls + [Batch(sends)];
    }
  }

  /** The loop of `sendBatch` for content longer than `max`: the chunk sends it collects for
      the batch block and how it ends, as `Chunking.Run` describes. */
  method ChunkLoop(
    data: Bytes,
    max: int,
    contentContext: ContentContext,
    isComplete: Option<bool>,
    completion: Option<SendCompletion>) returns (sends: seq<SendRequest>, outcome: Outcome)
    ensures var run := Run(|data|, max, 0);
      && outcome == run.outcome
      && sends == ChunkSends(data, run.slices, contentContext, isComplete, completion)
  {
    ghost var whole := Run(|data|, max, 0);
    var sandSize := 0;
    sends := [];
    assert whole == RunResult([] + whole.slices, whole.outcome);
    while sandSize < |data|
      invariant sandSize <= |data|
      invariant SentSoFar(data, max, whole, sends, sandSize, contentContext, isComplete, completion)
      decreases |data| - sandSize
    {
      var prefix := sandSize;
      var end := Min(max, |data| - sandSize);
      if prefix > end {
        TrapStep(data, max, whole, sends, sandSize, contentContext, isComplete, completion);
        return sends, Trapped;
      }
      if end == 0 {
        SpinStep(data, max, whole, sends, sandSize, contentContext, isComplete, completion);
        return sends + [SendRequestFor(Some(data[prefix..end]), Some(contentContext), isComplete, completion)], Spins;
      }
      MoveStep(data, max, whole, sends, sandSize, contentContext, isComplete, completion);
      sends := sends + [SendRequestFor(Some(data[prefix..end]), Some(contentContext), isComplete, completion)];
      sandSize := sandSize + end;
    }
    FinishedRun(data, max, whole, sends, contentContext, isComplete, completion);
    outcome := Finished;
  }

  /** The loop's state after collecting `sends` and counting `sandSize` bytes, against the
      whole run `whole`: its sends are `sends` followed by those of the run from `sandSize`,
      and both runs end alike. */
  ghost predicate SentSoFar(
    data: Bytes,
    max: int,
    whole: RunResult,
    sends: seq<SendRequest>,
    sandSize: nat,
    contentContext: ContentContext,
    isComplete: Option<bool>,
    completion: Option<SendCompletion>)
    requires sandSize <= |data|
  {
    var rest := Run(|data|, max, sandSize);
    && whole.outcome == rest.outcome
    && (forall i :: 0 <= i < |whole.slices| ==> whole.slices[i].lower <= whole.slices[i].upper <= |data|)
    && ChunkSends(data, whole.slices, contentContext, isComplete, completion)
       == sends + ChunkSends(data, rest.slices, contentContext, isComplete, completion)
  }

  /** A pass whose range would be inverted ends the run with what was sent so far. */
  lemma TrapStep(
    data: Bytes,
    max: int,
    whole: RunResult,
    sends: seq<SendRequest>,
    sandSize: nat,
    contentContext: ContentContext,
    isComplete: Option<bool>,
    completion: Option<SendCompletion>)
    requires sandSize < |data| && sandSize > Min(max, |data| - sandSize)
    requires SentSoFar(data, max, whole, sends, sandSize, contentContext, isComplete, completion)
    ensures whole.outcome == Trapped
    ensures sends == ChunkSends(data, whole.slices, contentContext, isComplete, completion)
  {
    RunStep(|data|, max, sandSize);
    assert sends + [] == sends;
  }

  /** A pass with `end == 0` sends the empty slice and is the last one recorded. */
  lemma SpinStep(
    data: Bytes,
    max: int,
    whole: RunResult,
    sends: seq<SendRequest>,
    sandSize: nat,
    contentContext: ContentContext,
    isComplete: Option<bool>,
    completion: Option<SendCompletion>)
    requires sandSize < |data| && sandSize == Min(max, |data| - sandSize) == 0
    requires SentSoFar(data, max, whole, sends, sandSize, contentContext, isComplete, completion)
    ensures whole.outcome == Spins
    ensures sends + [SendRequestFor(Some(data[0..0]), Some(contentContext), isComplete, completion)]
         == ChunkSends(data, whole.slices, contentContext, isComplete, completion)
  {
    RunStep(|data|, max, 0);
    ChunkSendsCons(data, [Slice(0, 0)], contentContext, isComplete, completion);
  }

  /** A well-formed pass with `end > 0` adds its send to those collected and moves on by
      `end`. */
  lemma MoveStep(
    data: Bytes,
    max: int,
    whole: RunResult,
    sends: seq<SendRequest>,
    sandSize: nat,
    contentContext: ContentContext,
    isComplete: Option<bool>,
    completion: Option<SendCompletion>)
    requires sandSize < |data| && sandSize <= Min(max, |data| - sandSize) && Min(max, |data| - sandSize) > 0
    requires SentSoFar(data, max, whole, sends, sandSize, contentContext, isComplete, completion)
    ensures var end := Min(max, |data| - sandSize);
      SentSoFar(data, max, whole, sends + [SendRequestFor(Some(data[sandSize..end]), Some(contentContext), isComplete, completion)],
                sandSize + end, contentContext, isComplete, completion)
  {
    var end := Min(max, |data| - sandSize);
    RunStep(|data|, max, sandSize);
    var rest := Run(|data|, max, sandSize).slices;
    assert rest[0] == Slice(sandSize, end);
    assert rest[1..] == Run(|data|, max, sandSize + end).slices;
    SendsMoveOn(data, rest, sends, contentContext, isComplete, completion);
  }

  /** Moving the first slice's send from the slices still to go onto those collected. */
  lemma SendsMoveOn(
    data: Bytes,
    slices: seq<Slice>,
    sends: seq<SendRequest>,
    contentContext: ContentContext,
    isComplete: Option<bool>,
    completion: Option<SendCompletion>)
    requires |slices| > 0
    requires forall i :: 0 <= i < |slices| ==> slices[i].lower <= slices[i].upper <= |data|
    ensures sends + ChunkSends(data, slices, contentContext, isComplete, completion)
         == (sends + [SendRequestFor(Some(data[slices[0].lower..slices[0].upper]), Some(contentContext), isComplete, completion)])
            + ChunkSends(data, slices[1..], contentContext, isComplete, completion)
  {
    ChunkSendsCons(data, slices, contentContext, isComplete, completion);
  }

  /** The sends of a non-empty list of slices: the first slice's send, then the others'. */
  lemma ChunkSendsCons(
    data: Bytes,
    slices: seq<Slice>,
    contentContext: ContentContext,
    isComplete: Option<bool>,
    completion: Option<SendCompletion>)
    requires |slices| > 0
    requires forall i :: 0 <= i < |slices| ==> slices[i].lower <= slices[i].upper <= |data|
    ensures ChunkSends(data, slices, contentContext, isComplete, completion)
         == [SendRequestFor(Some(data[slices[0].lower..slices[0].upper]), Some(contentContext), isComplete, completion)]
            + ChunkSends(data, slices[1..], contentContext, isComplete, completion)
  {
  }

  /** A loop that leaves normally has collected the whole run. */
  lemma FinishedRun(
    data: Bytes,
    max: int,
    whole: RunResult,
    sends: seq<SendRequest>,
    contentContext: ContentContext,
    isComplete: Option<bool>,
    completion: Option<SendCompletion>)
    requires SentSoFar(data, max, whole, sends, |data|, contentContext, isComplete, completion)
    ensures whole.outcome == Finished
    ensures sends == ChunkSends(data, whole.slices, contentContext, isComplete, completion)
  {
    assert sends + [] == sends;
  }

  /** Every outstanding request belongs to a chain armed so far. */
  ghost predicate ChainsBelow(pending: seq<nat>, chains: nat) {
    forall i :: 0 <= i < |pending| ==> pending[i] < chains
  }

  /** No chain has two outstanding requests. */
  ghost predicate Distinct(pending: seq<nat>) {
    forall i, j :: 0 <= i < j < |pending| ==> pending[i] != pending[j]
  }

  /** Completing the request at `k` and re-arming its chain or not: chains stay distinct, the
      completed chain is outstanding again exactly when it was re-armed, and no chain without
      an outstanding request gains one. */
  lemma {:induction false} Completed(pending: seq<nat>, k: nat, chains: nat, again: bool)
    requires k < |pending| && ChainsBelow(pending, chains) && Distinct(pending)
    ensures var next := pending[..k] + pending[k + 1..] + (if again then [pending[k]] else []);
      && ChainsBelow(next, chains)
      && Distinct(next)
      && (again <==> pending[k] in next)
      && (forall c :: c !in pending ==> c !in next)
  {
    var rest := pending[..k] + pending[k + 1..];
    var next := rest + (if again then [pending[k]] else []);
    assert forall i :: 0 <= i < |rest| ==> rest[i] == pending[if i < k then i else i + 1];
    assert forall i :: 0 <= i < |rest| ==> rest[i] != pending[k];
    assert forall i :: 0 <= i < |next| ==> next[i] == if i < |rest| then rest[i] else pending[k];
  }

  /** Arming a new chain, numbered after every existing one, keeps the chains distinct and
      leaves every existing chain's outstanding request as it was. */
  lemma Armed(pending: seq<nat>, chains: nat)
    requires ChainsBelow(pending, chains) && Distinct(pending)
    ensures ChainsBelow(pending + [chains], chains + 1) && Distinct(pending + [chains])
    ensures forall c :: c < chains ==> (c in pending + [chains] <==> c in pending)
  {
  }

  /** A payload that fits the effective maximum is not sent: the one request `sendBatch`
      makes carries `nil` content, and no batch block is opened. */
  method SmallPayloadSendsNil(c: Connection, maximum: Option<int>, data: Bytes, contentContext: ContentContext,
                              isComplete: Option<bool>, completion: Option<SendCompletion>)
    returns (requests: seq<TransportCall>, outcome: Outcome)
    requires c.calls == [] && |data| <= EffectiveMaximum(maximum, c.maximumDatagramSize)
    modifies c
    ensures outcome == Finished
    ensures |requests| == 1 && requests[0].Send? && requests[0].request.content == None
    ensures requests == [Send(SendRequestFor(None, Some(contentContext), isComplete, completion))]
  {
    outcome := c.SendBatch(maximum, Some(data), contentContext, isComplete, completion);
    requests := c.calls;
  }

  /** On a connection as `create(by:)` leaves it, two subscriptions to `receiveMessage` arm two receive chains, each
      with its own outstanding request; both chains emit into the one proxy subject, so each
      subscriber sees the completions of both. */
  method TwoSubscriptionsTwoChains(c: Connection, m1: Message, m2: Message)
    returns (outstanding: nat, first: seq<Message>, second: seq<Message>)
    requires c.Valid() && c.pending == [] && c.chains == 0
    requires c.proxy.receiveMessage.subject.Valid()
    requires c.proxy.receiveMessage.subject.sent == []
    requires c.proxy.receiveMessage.subject.joinedAt == map[] && c.proxy.receiveMessage.subject.leftAt == map[]
    modifies c, c.proxy.receiveMessage.subject
    ensures outstanding == 2
    ensures first == [m1, m2] && second == [m1, m2]
  {
    var s := c.proxy.receiveMessage.subject;
    var a := c.SubscribeReceiveMessage();
    var b := c.SubscribeReceiveMessage();
    outstanding := |c.pending|;
    assert s.joinedAt[a] == 0 && s.joinedAt[b] == 0 && a !in s.leftAt && b !in s.leftAt;
    c.ReceiveCompletion(0, m1);
    assert |c.pending| >= 1;
    c.ReceiveCompletion(0, m2);
    assert s.sent == [m1, m2] && s.sent[0..|s.sent|] == s.sent;
    assert s.joinedAt[a] == 0 && s.joinedAt[b] == 0 && a !in s.leftAt && b !in s.leftAt;
    first := s.Received(a);
    second := s.Received(b);
  }

  /** On a connection with no request yet, a chain re-arms after a completion without error and ends after one with an error. */
  method ErrorEndsChain(c: Connection, m: Message) returns (requests: seq<TransportCall>, outstanding: nat)
    requires c.Valid() && c.pending == [] && c.chains == 0 && c.calls == []
    requires c.proxy.receiveMessage.subject.Valid()
    modifies c, c.proxy.receiveMessage.subject
    ensures requests == [ReceiveRequest] + (if m.error.None? then [ReceiveRequest] else [])
    ensures outstanding == if m.error.None? then 1 else 0
  {
    var a := c.SubscribeReceiveMessage();
    c.ReceiveCompletion(0, m);
    requests := c.calls;
    outstanding := |c.pending|;
  }

  /** No handler installed by `create(by:)` feeds `betterPathUpdate` or `viabilityUpdate`:
      they stay empty through state and path reports, a subscription and a completion. */
  method UnfedStreamsStayEmpty(maximumDatagramSize: int, state: State, path: Path, m: Message)
    returns (betterPath: seq<bool>, viability: seq<bool>)
    ensures betterPath == [] && viability == []
  {
    var c := new Connection(maximumDatagramSize);
    c.StateUpdateHandler(state);
    c.PathUpdateHandler(path);
    var id := c.SubscribeReceiveMessage();
    c.ReceiveCompletion(0, m);
    betterPath := c.proxy.betterPathUpdate.subject.sent;
    viability := c.proxy.viabilityUpdate.subject.sent;
  }
}
