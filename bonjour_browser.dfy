/** The discovery adapter `CombineBonjourBrowser`. Its delegate receives the platform
    browser's callbacks: each change of a result set goes to one of three channels
    (`didFind`, `didRemove`, `didChanged`), then the published snapshot `services` is replaced
    by the new result set; reported states go to `updateState`, which the browser exposes with
    repeated states removed. The platform's change flags, an option set, are mapped onto a
    closed four-case enum. */
module BonjourBrowser {
  import opened Wrappers
  import opened Combine
  import opened Passthrough
  import FilterOperator

  /** A browse result, an opaque platform value compared by identity. */
  datatype Service = Service(handle: nat)

  /** The browser's lifecycle states; an error is an opaque code. */
  datatype BrowserState = Setup | Ready | Failed(error: int) | Cancelled | Waiting(error: int)

  /** `CombineBonjourBrowser.Flags`, an `Int`-backed enum. */
  datatype Flags = Identical | InterfaceAdded | InterfaceRemoved | MetadataChanged {
    /** `rawValue`: the cases in declaration order, from 0. */
    function RawValue(): (r: int)
      ensures 0 <= r <= 3
    {
      match this
      case Identical => 0
      case InterfaceAdded => 1
      case InterfaceRemoved => 2
      case MetadataChanged => 3
    }
  }

  /** `Flags(rawValue:)`: the case with that raw value, or nothing. */
  function FlagsFromRawValue(raw: int): (r: Option<Flags>)
    ensures r.Some? <==> 0 <= raw <= 3
    ensures r.Some? ==> r.value.RawValue() == raw
  {
    if raw == 0 then Some(Identical)
    else if raw == 1 then Some(InterfaceAdded)
    else if raw == 2 then Some(InterfaceRemoved)
    else if raw == 3 then Some(MetadataChanged)
    else None
  }

  /** Raw values identify the cases: reading a case's raw value back gives the case. */
  lemma {:induction false} RawValueRoundTrip(f: Flags)
    ensures FlagsFromRawValue(f.RawValue()) == Some(f)
  {
    match f
    case Identical =>
    case InterfaceAdded =>
    case InterfaceRemoved =>
    case MetadataChanged =>
  }

  /** One option of the platform's `NWBrowser.Result.Change.Flags`; `OtherBit` stands for any
      option bit the enum has no case for. */
  datatype FlagBit = IdenticalBit | InterfaceAddedBit | InterfaceRemovedBit | MetadataChangedBit | OtherBit(bit: nat)

  /** An option set value: the options that are set. */
  type PlatformFlags = set<FlagBit>

  /** `BonjourFlagsRawValue`: a `switch` over the option set. Each `case` matches an option set
      EQUAL to that single option; every other value, the empty set and every combination of
      options included, takes the `default` branch. */
  function BonjourFlagsRawValue(flags: PlatformFlags): (r: int)
    ensures 0 <= r <= 3
    ensures r == 1 <==> flags == {InterfaceAddedBit}
    ensures r == 2 <==> flags == {InterfaceRemovedBit}
    ensures r == 3 <==> flags == {MetadataChangedBit}
    ensures r == 0 <==> flags != {InterfaceAddedBit} && flags != {InterfaceRemovedBit} && flags != {MetadataChangedBit}
  {
    if flags == {IdenticalBit} then 0
    else if flags == {InterfaceAddedBit} then 1
    else if flags == {InterfaceRemovedBit} then 2
    else if flags == {MetadataChangedBit} then 3
    else 0
  }

  /** `Flags.init(_:)`: `Flags(rawValue:)` force-unwrapped. The unwrap never fails, since the
      raw value always names a case. */
  function FlagsFrom(flags: PlatformFlags): (f: Flags)
    ensures FlagsFromRawValue(BonjourFlagsRawValue(flags)) == Some(f)
    ensures f.RawValue() == BonjourFlagsRawValue(flags)
  {
    var r := FlagsFromRawValue(BonjourFlagsRawValue(flags));
    r.value
  }

  /** Each single option maps to its own case; anything else, several options together or
      none at all, maps to `.identical`. */
  lemma FlagsMapping(flags: PlatformFlags)
    ensures flags == {IdenticalBit} ==> FlagsFrom(flags) == Identical
    ensures flags == {InterfaceAddedBit} ==> FlagsFrom(flags) == InterfaceAdded
    ensures flags == {InterfaceRemovedBit} ==> FlagsFrom(flags) == InterfaceRemoved
    ensures flags == {MetadataChangedBit} ==> FlagsFrom(flags) == MetadataChanged
    ensures |flags| != 1 ==> FlagsFrom(flags) == Identical
    ensures (exists b :: b in flags && b.OtherBit?) ==> FlagsFrom(flags) == Identical
  {
    if |flags| != 1 {
      assert |{InterfaceAddedBit}| == 1 && |{InterfaceRemovedBit}| == 1 && |{MetadataChangedBit}| == 1;
    }
  }

  /** `NWBrowser.Result.Change`: one element of a change set. */
  datatype Change =
    | Added(result: Service)
    | Removed(result: Service)
    | Changed(before: Service, after: Service, flags: PlatformFlags)   // `.changed(old:new:flags:)`
    | IdenticalChange
    | UnknownChange     // a case added to the platform enum later: `@unknown default`

  /** What `didChanged` carries: the tuple `(old, new, flags)` with the flags mapped. */
  datatype ChangeEvent = ChangeEvent(before: Service, after: Service, flags: Flags)

  /** The results of the `.added` changes, in order: what `didFind` is sent. */
  function Found(changes: seq<Change>): (r: seq<Service>)
    ensures |r| <= |changes|
  {
    if changes == [] then []
    else (if changes[0].Added? then [changes[0].result] else []) + Found(changes[1..])
  }

  /** The results of the `.removed` changes, in order: what `didRemove` is sent. */
  function Lost(changes: seq<Change>): (r: seq<Service>)
    ensures |r| <= |changes|
  {
    if changes == [] then []
    else (if changes[0].Removed? then [changes[0].result] else []) + Lost(changes[1..])
  }

  /** The `.changed` changes with their flags mapped, in order: what `didChanged` is sent. */
  function Updated(changes: seq<Change>): (r: seq<ChangeEvent>)
    ensures |r| <= |changes|
  {
    if changes == [] then []
    else
      var c := changes[0];
      (if c.Changed? then [ChangeEvent(c.before, c.after, FlagsFrom(c.flags))] else []) + Updated(changes[1..])
  }

  /** The changes no channel hears of: `.identical` and unknown ones. */
  function Silent(changes: seq<Change>): (r: nat)
    ensures r <= |changes|
    ensures r == 0 <==> forall i :: 0 <= i < |changes| ==> !changes[i].IdenticalChange? && !changes[i].UnknownChange?
  {
    if changes == [] then 0
    else (if changes[0].IdenticalChange? || changes[0].UnknownChange? then 1 else 0) + Silent(changes[1..])
  }

  /** The channels split a change set: each channel gets the changes of one kind, one event
      per change, in the set's order, so a change set can be dispatched piece by piece. */
  lemma DispatchConcat(a: seq<Change>, b: seq<Change>)
    ensures Found(a + b) == Found(a) + Found(b)
    ensures Lost(a + b) == Lost(a) + Lost(b)
    ensures Updated(a + b) == Updated(a) + Updated(b)
    ensures Silent(a + b) == Silent(a) + Silent(b)
  {
    FoundConcat(a, b);
    LostConcat(a, b);
    UpdatedConcat(a, b);
    SilentConcat(a, b);
  }

  lemma {:induction false} FoundConcat(a: seq<Change>, b: seq<Change>)
    ensures Found(a + b) == Found(a) + Found(b)
    decreases |a|
  {
    if a == [] {
      assert a + b == b;
    } else {
      var head := if a[0].Added? then [a[0].result] else [];
      assert (a + b)[0] == a[0] && (a + b)[1..] == a[1..] + b;
      calc {
        Found(a + b);
        head + Found(a[1..] + b);
        { FoundConcat(a[1..], b); }
        head + (Found(a[1..]) + Found(b));
        (head + Found(a[1..])) + Found(b);
      }
    }
  }

  lemma {:induction false} LostConcat(a: seq<Change>, b: seq<Change>)
    ensures Lost(a + b) == Lost(a) + Lost(b)
    decreases |a|
  {
    if a == [] {
      assert a + b == b;
    } else {
      var head := if a[0].Removed? then [a[0].result] else [];
      assert (a + b)[0] == a[0] && (a + b)[1..] == a[1..] + b;
      calc {
        Lost(a + b);
        head + Lost(a[1..] + b);
        { LostConcat(a[1..], b); }
        head + (Lost(a[1..]) + Lost(b));
        (head + Lost(a[1..])) + Lost(b);
      }
    }
  }

  lemma {:induction false} UpdatedConcat(a: seq<Change>, b: seq<Change>)
    ensures Updated(a + b) == Updated(a) + Updated(b)
    decreases |a|
  {
    if a == [] {
      assert a + b == b;
    } else {
      var head := if a[0].Changed? then [ChangeEvent(a[0].before, a[0].after, FlagsFrom(a[0].flags))] else [];
      assert (a + b)[0] == a[0] && (a + b)[1..] == a[1..] + b;
      calc {
        Updated(a + b);
        head + Updated(a[1..] + b);
        { UpdatedConcat(a[1..], b); }
        head + (Updated(a[1..]) + Updated(b));
        (head + Updated(a[1..])) + Updated(b);
      }
    }
  }

  lemma {:induction false} SilentConcat(a: seq<Change>, b: seq<Change>)
    ensures Silent(a + b) == Silent(a) + Silent(b)
    decreases |a|
  {
    if a == [] {
      assert a + b == b;
    } else {
      var head := if a[0].IdenticalChange? || a[0].UnknownChange? then 1 else 0;
      assert (a + b)[0] == a[0] && (a + b)[1..] == a[1..] + b;
      calc {
        Silent(a + b);
        head + Silent(a[1..] + b);
        { SilentConcat(a[1..], b); }
        head + (Silent(a[1..]) + Silent(b));
        (head + Silent(a[1..])) + Silent(b);
      }
    }
  }

  /** The events of the three change channels. */
  datatype Channels = Channels(find: seq<Service>, remove: seq<Service>, changed: seq<ChangeEvent>) {
    /** These events, then `more`, channel by channel. */
    function Then(more: Channels): Channels
    {
      Channels(find + more.find, remove + more.remove, changed + more.changed)
    }
  }

  /** The events a change set is dispatched into. */
  function Dispatched(changes: seq<Change>): Channels
  {
    Channels(Found(changes), Lost(changes), Updated(changes))
  }

  /** Dispatching one more change of the set adds that change's events. */
  lemma DispatchStep(changes: seq<Change>, i: nat)
    requires i < |changes|
    ensures forall c: Channels :: c.Then(Dispatched(changes[..i])).Then(Dispatched([changes[i]]))
                               == c.Then(Dispatched(changes[..i + 1]))
  {
    assert changes[..i + 1] == changes[..i] + [changes[i]];
    DispatchConcat(changes[..i], [changes[i]]);
  }

  /** Every change is accounted for exactly once: one event on one channel, or none for
      `.identical` and unknown changes. */
  lemma {:induction false} EveryChangeOnce(changes: seq<Change>)
    ensures |Found(changes)| + |Lost(changes)| + |Updated(changes)| + Silent(changes) == |changes|
  {
    if changes != [] {
      EveryChangeOnce(changes[1..]);
    }
  }

  /** A result is announced on `didFind` exactly when the change set says it was added, and on
      `didRemove` exactly when it says it was removed. */
  lemma {:induction false} FoundIffAdded(changes: seq<Change>, s: Service)
    ensures s in Found(changes) <==> Added(s) in changes
    ensures s in Lost(changes) <==> Removed(s) in changes
  {
    if changes != [] {
      FoundIffAdded(changes[1..], s);
      assert changes == [changes[0]] + changes[1..];
    }
  }

  /** A change `(old, new, flags)` is announced on `didChanged` with its mapped flags exactly
      when it is in the change set. */
  lemma {:induction false} UpdatedIffChanged(changes: seq<Change>, before: Service, after: Service, flags: PlatformFlags)
    ensures Changed(before, after, flags) in changes ==> ChangeEvent(before, after, FlagsFrom(flags)) in Updated(changes)
    ensures forall e :: e in Updated(changes) ==>
      exists c :: c in changes && c.Changed? && e == ChangeEvent(c.before, c.after, FlagsFrom(c.flags))
  {
    if changes != [] {
      UpdatedIffChanged(changes[1..], before, after, flags);
      assert changes == [changes[0]] + changes[1..];
    }
  }

  /** Combine's `removeDuplicates()`: an element equal to the one just before it is dropped. */
  function RemoveDuplicates<T(==)>(s: seq<T>): (r: seq<T>)
    ensures |r| <= |s|
    ensures s != [] ==> r != [] && r[0] == s[0] && r[|r| - 1] == s[|s| - 1]
  {
    if |s| <= 1 then s
    else
      var init := RemoveDuplicates(s[..|s| - 1]);
      if s[|s| - 2] == s[|s| - 1] then init else init + [s[|s| - 1]]
  }

  /** No two neighbours are equal. */
  ghost predicate NoRepeats<T>(s: seq<T>) {
    forall i :: 0 < i < |s| ==> s[i - 1] != s[i]
  }

  /** A new upstream element is emitted exactly when it differs from the previous one. */
  lemma RemoveDuplicatesSnoc<T>(s: seq<T>, x: T)
    ensures RemoveDuplicates(s + [x])
         == RemoveDuplicates(s) + (if s != [] && s[|s| - 1] == x then [] else [x])
  {
    assert (s + [x])[..|s + [x]| - 1] == s;
  }

  /** Nothing emitted repeats the element before it, and nothing else is dropped: every
      upstream element shows up. */
  lemma {:induction false} RemoveDuplicatesShape<T>(s: seq<T>)
    ensures NoRepeats(RemoveDuplicates(s))
    ensures forall x :: x in s <==> x in RemoveDuplicates(s)
    ensures FilterOperator.Subsequence(RemoveDuplicates(s), s)
    decreases |s|
  {
    if |s| > 1 {
      var init := s[..|s| - 1];
      RemoveDuplicatesShape(init);
      assert s == init + [s[|s| - 1]];
      SubsequenceSnoc(RemoveDuplicates(init), init, s[|s| - 1]);
      if s[|s| - 2] != s[|s| - 1] {
        SubsequenceSnocBoth(RemoveDuplicates(init), init, s[|s| - 1]);
      }
    } else if |s| == 1 {
      assert FilterOperator.Subsequence(s[1..], s[1..]) by {
        assert s[1..] == [];
      }
    }
  }

  /** A sequence without repeats passes unchanged, so the operator is idempotent. */
  lemma RemoveDuplicatesIdempotent<T>(s: seq<T>)
    ensures NoRepeats(s) ==> RemoveDuplicates(s) == s
    ensures RemoveDuplicates(RemoveDuplicates(s)) == RemoveDuplicates(s)
  {
    if NoRepeats(s) {
      NoRepeatsFixed(s);
    }
    RemoveDuplicatesShape(s);
    NoRepeatsFixed(RemoveDuplicates(s));
  }

  lemma {:induction false} NoRepeatsFixed<T>(s: seq<T>)
    requires NoRepeats(s)
    ensures RemoveDuplicates(s) == s
    decreases |s|
  {
    if |s| > 1 {
      NoRepeatsFixed(s[..|s| - 1]);
      assert s == s[..|s| - 1] + [s[|s| - 1]];
    }
  }

  lemma {:induction false} SubsequenceSnoc<T>(r: seq<T>, s: seq<T>, x: T)
    requires FilterOperator.Subsequence(r, s)
    ensures FilterOperator.Subsequence(r, s + [x])
    decreases |s|
  {
    if r != [] {
      assert s != [];
      assert (s + [x])[0] == s[0] && (s + [x])[1..] == s[1..] + [x];
      if r[0] == s[0] && FilterOperator.Subsequence(r[1..], s[1..]) {
        SubsequenceSnoc(r[1..], s[1..], x);
      } else {
        SubsequenceSnoc(r, s[1..], x);
      }
    }
  }

  lemma {:induction false} SubsequenceSnocBoth<T>(r: seq<T>, s: seq<T>, x: T)
    requires FilterOperator.Subsequence(r, s)
    ensures FilterOperator.Subsequence(r + [x], s + [x])
    decreases |s|
  {
    if s == [] {
      assert r == [];
      assert ([x])[1..] == [];
    } else {
      assert (s + [x])[0] == s[0] && (s + [x])[1..] == s[1..] + [x];
      if r != [] && r[0] == s[0] && FilterOperator.Subsequence(r[1..], s[1..]) {
        SubsequenceSnocBoth(r[1..], s[1..], x);
        assert (r + [x])[1..] == r[1..] + [x];
      } else {
        SubsequenceSnocBoth(r, s[1..], x);
      }
    }
  }

  /** `NWBrowserDelegate`: four `@PassthroughBacked` channels and the `@Published` snapshot
      `services`, whose publisher hands a new subscriber the current snapshot first. */
  class BrowserDelegate {
    const updateState: PassthroughBacked<BrowserState>
    const didChanged: PassthroughBacked<ChangeEvent>
    const didFind: PassthroughBacked<Service>
    const didRemove: PassthroughBacked<Service>
    const services: CurrentValueSubject<set<Service>>

    ghost predicate Valid()
      reads this, updateState.subject, didChanged.subject, didFind.subject, didRemove.subject, services
    {
      && updateState.subject.Valid()
      && ChannelsValid()
      && services.Valid()
    }

    /** The three change channels are well-formed, and `didFind` and `didRemove` are two
        subjects, not one. */
    ghost predicate ChannelsValid()
      reads this, didChanged.subject, didFind.subject, didRemove.subject
    {
      && didChanged.subject.Valid()
      && didFind.subject.Valid()
      && didRemove.subject.Valid()
      && didFind.subject != didRemove.subject
    }

    /** The snapshot the browser's `service` closure reads: the last one published, which
        every subscriber of `$services` was handed last. */
    function Services(): (r: set<Service>)
      reads this, services
      requires services.Valid()
      ensures r in services.held
      ensures forall id :: id in services.Active() ==> r == services.Received(id)[|services.Received(id)| - 1]
    {
      services.Value()
    }

    /** A new delegate: no channel has been sent to and the snapshot is empty. */
    constructor ()
      ensures Valid()
      ensures Services() == {} && services.held == [{}]
      ensures updateState.subject.sent == [] && didChanged.subject.sent == []
      ensures didFind.subject.sent == [] && didRemove.subject.sent == []
      ensures fresh(updateState.subject) && fresh(didChanged.subject) && fresh(didFind.subject)
      ensures fresh(didRemove.subject) && fresh(services)
    {
      var state := NewPassthroughBacked();
      var changed := NewPassthroughBacked();
      var find := NewPassthroughBacked();
      var remove := NewPassthroughBacked();
      var cell := new CurrentValueSubject<set<Service>>({});
      updateState, didChanged, didFind, didRemove, services := state, changed, find, remove, cell;
    }

    /** What the subscriber `id` of the browser's `updateState` sees: the states sent since it
        attached, with repeats removed. */
    function StatesSeen(id: SubId): (r: seq<BrowserState>)
      reads this, updateState.subject
      requires updateState.subject.Valid() && id in updateState.subject.joinedAt
      ensures |r| <= |updateState.subject.Received(id)| && NoRepeats(r)
      ensures forall st :: st in r <==> st in updateState.subject.Received(id)
      ensures id in updateState.subject.Active() && updateState.subject.Received(id) != [] ==>
        r != [] && r[|r| - 1] == updateState.subject.sent[|updateState.subject.sent| - 1]
    {
      RemoveDuplicatesShape(updateState.subject.Received(id));
      RemoveDuplicates(updateState.subject.Received(id))
    }

    /** `receive(with state:)`: the state is sent to `updateState`; a subscriber of the
        browser sees it unless it equals the state it received just before. */
    method ReceiveState(state: BrowserState)
      requires updateState.subject.Valid()
      modifies updateState.subject
      ensures updateState.subject.Valid()
      ensures updateState.subject.sent == old(updateState.subject.sent) + [state]
      ensures updateState.subject.joinedAt == old(updateState.subject.joinedAt)
      ensures updateState.subject.leftAt == old(updateState.subject.leftAt)
      ensures forall id :: id in updateState.subject.Active() ==>
        var before := old(updateState.subject.Received(id));
        StatesSeen(id) == old(StatesSeen(id)) + (if before != [] && before[|before| - 1] == state then [] else [state])
    {
      updateState.Send(state);
      forall id | id in updateState.subject.Active()
        ensures var before := old(updateState.subject.Received(id));
          StatesSeen(id) == old(StatesSeen(id)) + (if before != [] && before[|before| - 1] == state then [] else [state])
      {
        RemoveDuplicatesSnoc(old(updateState.subject.Received(id)), state);
      }
    }

    /** Everything the three change channels have been sent. */
    function Sent(): Channels
      reads this, didFind.subject, didRemove.subject, didChanged.subject
    {
      Channels(didFind.subject.sent, didRemove.subject.sent, didChanged.subject.sent)
    }

    /** Who is attached to the three change channels, and since when. */
    ghost function Attached(): (map<SubId, nat>, map<SubId, nat>, map<SubId, nat>, map<SubId, nat>, map<SubId, nat>, map<SubId, nat>)
      reads this, didFind.subject, didRemove.subject, didChanged.subject
    {
      (didFind.subject.joinedAt, didFind.subject.leftAt, didRemove.subject.joinedAt,
       didRemove.subject.leftAt, didChanged.subject.joinedAt, didChanged.subject.leftAt)
    }

    /** The `switch` in the loop of `receive(with:changes:)`: the change goes to the channel of
        its kind; `.identical` and unknown changes go nowhere. */
    method Dispatch(change: Change)
      requires ChannelsValid()
      modifies didFind.subject, didRemove.subject, didChanged.subject
      ensures ChannelsValid()
      ensures Sent() == old(Sent()).Then(Dispatched([change]))
      ensures Attached() == old(Attached())
    {
      match change {
        case Added(result) =>
          didFind.Send(result);
        case Removed(result) =>
          didRemove.Send(result);
        case Changed(before, after, flags) =>
          didChanged.Send(ChangeEvent(before, after, FlagsFrom(flags)));
        case IdenticalChange =>
        case UnknownChange =>
      }
    }

    /** `receive(with:changes:)`: every change of the set, in its iteration order, goes to its
        channel; then the snapshot becomes `results`, whatever the changes said. */
    method ReceiveResults(results: set<Service>, changes: seq<Change>)
      requires Valid()
      modifies didFind.subject, didRemove.subject, didChanged.subject, services
      ensures Valid()
      ensures Sent() == old(Sent()).Then(Dispatched(changes))
      ensures Attached() == old(Attached())
      ensures services.held == old(services.held) + [results] && Services() == results
      ensures services.joinedAt == old(services.joinedAt) && services.leftAt == old(services.leftAt)
    {
      var i := 0;
      while i < |changes|
        invariant i <= |changes|
        invariant ChannelsValid()
        invariant Sent() == old(Sent()).Then(Dispatched(changes[..i]))
        invariant Attached() == old(Attached())
        invariant unchanged(services)
      {
        DispatchStep(changes, i);
        Dispatch(changes[i]);
        i := i + 1;
      }
      assert changes[..i] == changes;
      services.Send(results);
    }
  }
}
