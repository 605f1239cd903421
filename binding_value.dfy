/** `BindingValueSubject` and its read/write view `BindingValue`. A subject is three stored
    closures: `get`, `set` and a publisher. Every way of building one used by the library reads
    `get` and the publisher from a `CurrentValueSubject` (the cell); `set` either sends into that
    same cell or calls a closure supplied by the caller. So a subject is modelled by its cell and
    by which `set` it holds, and a child, which copies the three closures, shares all of them. */
module BindingValues {
  import opened Combine

  /** A caller-supplied `set` closure, observed through the values it was called with. */
  class Sink<T> {
    var calls: seq<T>

    constructor ()
      ensures calls == []
    {
      calls := [];
    }

    method Call(x: T)
      modifies this
      ensures calls == old(calls) + [x]
    {
      calls := calls + [x];
    }
  }

  /** The `set` closure a subject holds. */
  datatype Setter<T> =
    | SendToCell(target: CurrentValueSubject<T>)   // `{ value in subject.send(value) }`
    | CallExternal(sink: Sink<T>)                  // the `set` given to `init(with:value:set:)`
  {
    /** What calling the closure may change. */
    function Footprint(): set<object>
    {
      match this
      case SendToCell(target) => {target}
      case CallExternal(sink) => {sink}
    }
  }

  class BindingValueSubject<T> {
    const cell: CurrentValueSubject<T>   // what `get` reads and what the publisher is
    const setter: Setter<T>

    /** A `set` that sends into a cell sends into the cell `get` reads. */
    ghost predicate Valid()
      reads this, cell
    {
      && cell.Valid()
      && (setter.SendToCell? ==> setter.target == cell)
    }

    /** `value`: whatever `get` returns, i.e. the cell's current value. `get` and the
        publisher read one cell, so it is what every attached subscriber was handed last. */
    function Value(): (r: T)
      reads this, cell
      requires Valid()
      ensures r in cell.held
      ensures forall id :: id in cell.Active() ==> r == cell.Received(id)[|cell.Received(id)| - 1]
    {
      cell.Value()
    }

    /** `init(_ value:)`: a new cell holding `value`, which `set` sends into. */
    constructor FromValue(value: T)
      ensures Valid() && fresh(cell)
      ensures Value() == value && cell.held == [value]
      ensures setter == SendToCell(cell)
    {
      var c := new CurrentValueSubject<T>(value);
      cell := c;
      setter := SendToCell(c);
    }

    /** `init(_ subject:)` over a `CurrentValueSubject`: `get` reads it, `set` sends into it. */
    constructor FromCell(subject: CurrentValueSubject<T>)
      requires subject.Valid()
      ensures Valid()
      ensures cell == subject && setter == SendToCell(subject)
      ensures Value() == subject.Value()
    {
      cell := subject;
      setter := SendToCell(subject);
    }

    /** `init(with:value:set:)`: a new cell made by `CurrentValueSubject(with:value:)`, so it
        starts at `value` updated by whatever the upstream emits while being subscribed, and is
        fed by the upstream afterwards (see `Relay`); `set` is the caller's closure and does not
        touch the cell. */
    constructor WithPublisher(value: T, replayed: seq<T>, setClosure: Sink<T>)
      ensures Valid() && fresh(cell)
      ensures cell.held == [value] + replayed
      ensures Value() == if replayed == [] then value else replayed[|replayed| - 1]
      ensures setter == CallExternal(setClosure)
    {
      var c := NewCellFedBy(value, replayed);
      cell := c;
      setter := CallExternal(setClosure);
    }

    /** The private `init(_ subject:)` behind `child()`: a new subject holding the parent's
        own `set`, `get` and publisher. */
    constructor Child(parent: BindingValueSubject<T>)
      requires parent.Valid()
      ensures Valid()
      ensures cell == parent.cell && setter == parent.setter
      ensures Value() == parent.Value()
    {
      cell := parent.cell;
      setter := parent.setter;
    }

    /** `send(_:)`: `set` is called once with `input`. With a cell-sending `set` the value
        becomes `input` and the cell's subscribers receive it; with the caller's `set` the cell,
        and so `value`, is untouched. */
    method Send(input: T)
      requires Valid()
      modifies setter.Footprint()
      ensures Valid()
      ensures setter.SendToCell? ==>
        && Value() == input
        && cell.held == old(cell.held) + [input]
        && cell.joinedAt == old(cell.joinedAt) && cell.leftAt == old(cell.leftAt)
        && (forall id :: id in cell.Active() ==> cell.Received(id) == old(cell.Received(id)) + [input])
      ensures setter.CallExternal? ==> setter.sink.calls == old(setter.sink.calls) + [input]
    {
      match setter {
        case SendToCell(target) =>
          target.Send(input);
        case CallExternal(sink) =>
          sink.Call(input);
      }
    }

    /** `send(completion:)`: ignored, so the subject never finishes. */
    method SendCompletion()
      requires Valid()
      ensures Valid() && Value() == old(Value())
    {
    }

    /** `send(subscription:)`: ignored. */
    method SendSubscription()
      requires Valid()
      ensures Valid() && Value() == old(Value())
    {
    }

    /** `receive(subscriber:)`: the subscriber attaches to the cell and is handed the current
        value first. */
    method Subscribe() returns (id: SubId)
      requires Valid()
      modifies cell
      ensures Valid()
      ensures id in cell.Active() && cell.Received(id) == [Value()]
      ensures cell.held == old(cell.held)
      ensures id !in old(cell.joinedAt) && cell.joinedAt == old(cell.joinedAt)[id := |cell.held| - 1]
      ensures cell.leftAt == old(cell.leftAt)
      ensures forall other :: other in old(cell.joinedAt) ==> cell.Received(other) == old(cell.Received(other))
    {
      id := cell.Subscribe();
    }

    /** The upstream publisher of `init(with:value:set:)` emits `x`: the cell, subscribed to it,
        takes `x` as its value and passes it on. */
    method Relay(x: T)
      requires Valid()
      modifies cell
      ensures Valid()
      ensures Value() == x && cell.held == old(cell.held) + [x]
      ensures cell.joinedAt == old(cell.joinedAt) && cell.leftAt == old(cell.leftAt)
    {
      cell.Send(x);
    }
  }

  /** `CurrentValueSubject(with:value:)`: a cell holding `value` that at once subscribes itself
      to the upstream publisher with unlimited demand. The values the upstream emits during
      that subscription, `replayed` (a `CurrentValueSubject` or `Just` upstream emits one),
      are sent into the cell, in order, before the initializer returns. */
  method NewCellFedBy<T>(value: T, replayed: seq<T>) returns (c: CurrentValueSubject<T>)
    ensures fresh(c) && c.Valid()
    ensures c.held == [value] + replayed && c.joinedAt == map[] && c.leftAt == map[]
    ensures c.Value() == if replayed == [] then value else replayed[|replayed| - 1]
  {
    c := new CurrentValueSubject<T>(value);
    var i := 0;
    while i < |replayed|
      invariant i <= |replayed|
      invariant fresh(c) && c.Valid()
      invariant c.held == [value] + replayed[..i] && c.joinedAt == map[] && c.leftAt == map[]
    {
      c.Send(replayed[i]);
      assert replayed[..i + 1] == replayed[..i] + [replayed[i]];
      i := i + 1;
    }
    assert replayed[..i] == replayed;
  }

  /** `BindingValue`: a struct holding one subject. */
  datatype BindingValue<T> = BindingValue(subject: BindingValueSubject<T>) {

    ghost predicate Valid()
      reads subject, subject.cell
    {
      subject.Valid()
    }

    /** `value`: the subject's `value`, so what every subscriber of the view's publisher
        was handed last. */
    function Value(): (r: T)
      reads subject, subject.cell
      requires Valid()
      ensures r in subject.cell.held
      ensures forall id :: id in subject.cell.Active() ==>
        r == subject.cell.Received(id)[|subject.cell.Received(id)| - 1]
    {
      subject.Value()
    }

    /** `accept(_:)`: the subject's `send(_:)`. */
    method Accept(input: T)
      requires Valid()
      modifies subject.setter.Footprint()
      ensures Valid()
      ensures subject.setter.SendToCell? ==>
        && Value() == input
        && subject.cell.held == old(subject.cell.held) + [input]
        && subject.cell.joinedAt == old(subject.cell.joinedAt) && subject.cell.leftAt == old(subject.cell.leftAt)
        && (forall id :: id in subject.cell.Active() ==> subject.cell.Received(id) == old(subject.cell.Received(id)) + [input])
      ensures subject.setter.CallExternal? ==> subject.setter.sink.calls == old(subject.setter.sink.calls) + [input]
    {
      subject.Send(input);
    }

    /** `receive(subscriber:)`: the subject's. */
    method Subscribe() returns (id: SubId)
      requires Valid()
      modifies subject.cell
      ensures Valid()
      ensures id in subject.cell.Active() && subject.cell.Received(id) == [Value()]
      ensures subject.cell.held == old(subject.cell.held)
      ensures id !in old(subject.cell.joinedAt)
      ensures subject.cell.joinedAt == old(subject.cell.joinedAt)[id := |subject.cell.held| - 1]
      ensures subject.cell.leftAt == old(subject.cell.leftAt)
      ensures forall other :: other in old(subject.cell.joinedAt) ==>
        subject.cell.Received(other) == old(subject.cell.Received(other))
    {
      id := subject.Subscribe();
    }
  }

  /** `BindingValue(_ value:)`. */
  method NewBindingValue<T>(value: T) returns (b: BindingValue<T>)
    ensures b.Valid() && fresh(b.subject) && fresh(b.subject.cell)
    ensures b.Value() == value && b.subject.setter == SendToCell(b.subject.cell)
  {
    var s := new BindingValueSubject.FromValue(value);
    b := BindingValue(s);
  }

  /** `BindingValue(_ subject:)` over a `CurrentValueSubject`, and the `bindingValue`
      property of such a subject. */
  method BindingValueOf<T>(cell: CurrentValueSubject<T>) returns (b: BindingValue<T>)
    requires cell.Valid()
    ensures b.Valid() && fresh(b.subject)
    ensures b.subject.cell == cell && b.subject.setter == SendToCell(cell) && b.Value() == cell.Value()
  {
    var s := new BindingValueSubject.FromCell(cell);
    b := BindingValue(s);
  }

  /** `BindingValue(with:value:set:)`. */
  method BindingValueWith<T>(value: T, replayed: seq<T>, setClosure: Sink<T>) returns (b: BindingValue<T>)
    ensures b.Valid() && fresh(b.subject) && fresh(b.subject.cell)
    ensures b.Value() == (if replayed == [] then value else replayed[|replayed| - 1])
    ensures b.subject.setter == CallExternal(setClosure)
  {
    var s := new BindingValueSubject.WithPublisher(value, replayed, setClosure);
    b := BindingValue(s);
  }

  /** `BindingValue(_ bindingValue:)`: a view over the child of the other's subject. */
  method CopyBindingValue<T>(other: BindingValue<T>) returns (b: BindingValue<T>)
    requires other.Valid()
    ensures b.Valid() && fresh(b.subject)
    ensures b.subject.cell == other.subject.cell && b.subject.setter == other.subject.setter
    ensures b.Value() == other.Value()
  {
    var s := new BindingValueSubject.Child(other.subject);
    b := BindingValue(s);
  }

  /** The `binding` property of a subject: a view over the subject itself. */
  function Binding<T>(subject: BindingValueSubject<T>): (b: BindingValue<T>)
    ensures b.subject == subject
  {
    BindingValue(subject)
  }

  /** A copy made with `BindingValue(_ bindingValue:)` is no snapshot: a value accepted through
      the copy is the value of the original, and one accepted through the original is the
      value of the copy. */
  method CopySharesState<T>(initial: T, x: T, y: T) returns (viaCopy: T, viaOriginal: T, copyAfter: T)
    ensures viaCopy == x && viaOriginal == y && copyAfter == y
  {
    var original := NewBindingValue(initial);
    var copy := CopyBindingValue(original);
    copy.Accept(x);
    viaCopy := original.Value();
    original.Accept(y);
    viaOriginal := original.Value();
    copyAfter := copy.Value();
  }

  /** Every current subscriber receives what is accepted: two subscribers attached one after
      the other are each handed the current value and then the accepted one. */
  method TwoSubscribersReceiveAccept<T>(v: T, x: T) returns (first: seq<T>, second: seq<T>)
    ensures first == [v, x] && second == [v, x]
  {
    var b := NewBindingValue(v);
    var a := b.Subscribe();
    var c := b.Subscribe();
    b.Accept(x);
    first := b.subject.cell.Received(a);
    second := b.subject.cell.Received(c);
  }

  /** With `init(with:value:set:)` over an upstream that emits nothing on subscription,
      sending calls `set` and leaves `value` alone; only the upstream publisher moves `value`. */
  method WithPublisherValueFollowsUpstream<T>(initial: T, x: T, y: T)
    returns (afterSend: T, calls: seq<T>, afterUpstream: T)
    ensures afterSend == initial && calls == [x] && afterUpstream == y
  {
    var setClosure := new Sink<T>();
    var s := new BindingValueSubject.WithPublisher(initial, [], setClosure);
    s.Send(x);
    afterSend := s.Value();
    calls := setClosure.calls;
    s.Relay(y);
    afterUpstream := s.Value();
  }

  /** Over an upstream that replays its current value on subscription, the `value` given to
      `BindingValue(with:value:set:)` is overwritten before the initializer returns. */
  method ReplayingUpstreamOverridesValue<T>(value: T, upstreamCurrent: T) returns (afterInit: T)
    ensures afterInit == upstreamCurrent
  {
    var setClosure := new Sink<T>();
    var b := BindingValueWith(value, [upstreamCurrent], setClosure);
    afterInit := b.Value();
  }
}
