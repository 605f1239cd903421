/** The `@PassthroughBacked` property wrapper: a struct holding one `PassthroughSubject` that
    owners send into and everyone else may only subscribe to. The struct is a value, so its
    copies (`projectedValue` is one) all share the same subject. */
module Passthrough {
  import opened Combine

  /** The erased `AnyPublisher<T, Never>` view of a subject: it can be subscribed to and
      nothing else; there is no way to send a value or a completion through it. */
  datatype Stream<T> = Stream(source: PassthroughSubject<T>) {

    method Subscribe() returns (id: SubId)
      requires source.Valid()
      modifies source
      ensures source.Valid()
      ensures id !in old(source.joinedAt) && id in source.Active()
      ensures source.Received(id) == []
      ensures source.sent == old(source.sent) && source.leftAt == old(source.leftAt)
      ensures source.joinedAt == old(source.joinedAt)[id := |source.sent|]
    {
      id := source.Subscribe();
    }
  }

  datatype PassthroughBacked<T> = PassthroughBacked(subject: PassthroughSubject<T>) {

    /** `wrappedValue`: the read-only stream over the shared subject. */
    function WrappedValue(): (s: Stream<T>)
      ensures s.source == subject
    {
      Stream(subject)
    }

    /** `projectedValue`: a copy of the wrapper, still backed by the same subject. */
    function ProjectedValue(): (w: PassthroughBacked<T>)
      ensures w.subject == subject && w.WrappedValue() == WrappedValue()
    {
      this
    }

    /** `send(_:)`: delivered to every subscriber attached to `wrappedValue` now. */
    method Send(v: T)
      requires subject.Valid()
      modifies subject
      ensures subject.Valid()
      ensures subject.sent == old(subject.sent) + [v]
      ensures subject.joinedAt == old(subject.joinedAt) && subject.leftAt == old(subject.leftAt)
      ensures forall id :: id in subject.Active() ==> subject.Received(id) == old(subject.Received(id)) + [v]
      ensures forall id :: id in subject.leftAt ==> subject.Received(id) == old(subject.Received(id))
    {
      subject.Send(v);
    }
  }

  /** `init()`: a wrapper over a new subject that nobody has subscribed to. */
  method NewPassthroughBacked<T>() returns (w: PassthroughBacked<T>)
    ensures fresh(w.subject) && w.subject.Valid()
    ensures w.subject.sent == [] && w.subject.joinedAt == map[] && w.subject.leftAt == map[]
  {
    var s := new PassthroughSubject<T>();
    w := PassthroughBacked(s);
  }

  /** `send()` for `Void` outputs: exactly one unit event. */
  method SendVoid(w: PassthroughBacked<()>)
    requires w.subject.Valid()
    modifies w.subject
    ensures w.subject.Valid()
    ensures w.subject.sent == old(w.subject.sent) + [()]
    ensures w.subject.joinedAt == old(w.subject.joinedAt) && w.subject.leftAt == old(w.subject.leftAt)
    ensures forall id :: id in w.subject.Active() ==> w.subject.Received(id) == old(w.subject.Received(id)) + [()]
  {
    w.Send(());
  }

  /** A send through `projectedValue` reaches a subscriber of `wrappedValue`, and a subscriber
      that attaches afterwards is not handed that value. */
  method ProjectedSendReachesSubscribers<T>(v: T) returns (early: seq<T>, late: seq<T>)
    ensures early == [v]
    ensures late == []
  {
    var w := NewPassthroughBacked<T>();
    var s := w.subject;
    var first := w.WrappedValue().Subscribe();
    assert s.joinedAt == map[first := 0] && s.leftAt == map[];
    w.ProjectedValue().Send(v);
    assert s.sent == [v];
    var second := w.WrappedValue().Subscribe();
    assert s.joinedAt == map[first := 0, second := 1] && s.leftAt == map[];
    early := s.Received(first);
    late := s.Received(second);
  }
}
