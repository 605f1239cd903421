/** The parts of the Combine runtime that the adapters are built on. A subject is a shared cell
    that records every value pushed through it and, for each subscriber, the stretch of that
    record during which it was attached; what a subscriber has been handed is that stretch.
    Subscribers are named by a number handed out when they attach. */
module Combine {

  type SubId = nat

  /** Combine's `PassthroughSubject<T, Never>`: a hot broadcast channel with no replay. */
  class PassthroughSubject<T> {
    var sent: seq<T>                  // every value sent, in order
    var joinedAt: map<SubId, nat>     // |sent| when each subscriber attached
    var leftAt: map<SubId, nat>       // |sent| when a subscriber cancelled
    var nextId: SubId

    ghost predicate Valid()
      reads this
    {
      && leftAt.Keys <= joinedAt.Keys
      && (forall id :: id in joinedAt ==> id < nextId && joinedAt[id] <= |sent|)
      && (forall id :: id in leftAt ==> joinedAt[id] <= leftAt[id] <= |sent|)
    }

    /** The subscribers still attached. */
    function Active(): set<SubId>
      reads this
    {
      joinedAt.Keys - leftAt.Keys
    }

    /** Everything subscriber `id` has been handed: the values sent while it was attached. */
    function Received(id: SubId): (r: seq<T>)
      reads this
      requires Valid() && id in joinedAt
    {
      sent[joinedAt[id]..if id in leftAt then leftAt[id] else |sent|]
    }

    constructor ()
      ensures Valid()
      ensures sent == [] && joinedAt == map[] && leftAt == map[]
    {
      sent, joinedAt, leftAt, nextId := [], map[], map[], 0;
    }

    /** Attaching a subscriber: it starts with nothing, since no earlier value is replayed. */
    method Subscribe() returns (id: SubId)
      requires Valid()
      modifies this
      ensures Valid()
      ensures id !in old(joinedAt) && Active() == old(Active()) + {id}
      ensures Received(id) == []
      ensures sent == old(sent) && leftAt == old(leftAt)
      ensures joinedAt == old(joinedAt)[id := |sent|]
      ensures forall other :: other in old(joinedAt) ==> other in joinedAt && Received(other) == old(Received(other))
    {
      id := nextId;
      nextId := nextId + 1;
      joinedAt := joinedAt[id := |sent|];
    }

    /** `send(_:)`: every subscriber attached now receives `v`; detached ones receive nothing. */
    method Send(v: T)
      requires Valid()
      modifies this
      ensures Valid()
      ensures sent == old(sent) + [v]
      ensures joinedAt == old(joinedAt) && leftAt == old(leftAt)
      ensures forall id :: id in Active() ==> Received(id) == old(Received(id)) + [v]
      ensures forall id :: id in leftAt ==> Received(id) == old(Received(id))
    {
      sent := sent + [v];
      assert forall id :: id in leftAt ==> Received(id) == old(Received(id));
    }

    /** Cancelling a subscription: the subscriber keeps what it received and gets nothing more. */
    method Cancel(id: SubId)
      requires Valid()
      modifies this
      ensures Valid()
      ensures Active() == old(Active()) - {id}
      ensures sent == old(sent) && joinedAt == old(joinedAt)
      ensures forall other :: other in joinedAt ==> Received(other) == old(Received(other))
    {
      if id in joinedAt && id !in leftAt {
        leftAt := leftAt[id := |sent|];
      }
    }
  }

  /** Combine's `CurrentValueSubject<T, Never>`: it holds the latest value, hands it to a new
      subscriber at once, then broadcasts every later value. `held` is every value it has held,
      the initial one first; a subscriber receives the stretch of `held` that starts with the
      value held when it attached. */
  class CurrentValueSubject<T> {
    var held: seq<T>
    var joinedAt: map<SubId, nat>     // index in `held` of the value held when it attached
    var leftAt: map<SubId, nat>
    var nextId: SubId

    ghost predicate Valid()
      reads this
    {
      && |held| > 0
      && leftAt.Keys <= joinedAt.Keys
      && (forall id :: id in joinedAt ==> id < nextId && joinedAt[id] < |held|)
      && (forall id :: id in leftAt ==> joinedAt[id] < leftAt[id] <= |held|)
    }

    /** `value`: the value held now. */
    function Value(): T
      reads this
      requires Valid()
    {
      held[|held| - 1]
    }

    function Active(): set<SubId>
      reads this
    {
      joinedAt.Keys - leftAt.Keys
    }

    function Received(id: SubId): (r: seq<T>)
      reads this
      requires Valid() && id in joinedAt
      ensures |r| > 0
      ensures id in Active() ==> r[|r| - 1] == Value()
    {
      held[joinedAt[id]..if id in leftAt then leftAt[id] else |held|]
    }

    constructor (v: T)
      ensures Valid()
      ensures Value() == v && held == [v]
      ensures joinedAt == map[] && leftAt == map[]
    {
      held, joinedAt, leftAt, nextId := [v], map[], map[], 0;
    }

    /** Attaching a subscriber: it is handed the current value straight away. */
    method Subscribe() returns (id: SubId)
      requires Valid()
      modifies this
      ensures Valid()
      ensures id !in old(joinedAt) && Active() == old(Active()) + {id}
      ensures Received(id) == [Value()]
      ensures held == old(held) && leftAt == old(leftAt)
      ensures joinedAt == old(joinedAt)[id := |held| - 1]
      ensures forall other :: other in old(joinedAt) ==> other in joinedAt && Received(other) == old(Received(other))
    {
      id := nextId;
      nextId := nextId + 1;
      joinedAt := joinedAt[id := |held| - 1];
    }

    /** `send(_:)`: the held value becomes `v` and every attached subscriber receives it. */
    method Send(v: T)
      requires Valid()
      modifies this
      ensures Valid()
      ensures Value() == v && held == old(held) + [v]
      ensures joinedAt == old(joinedAt) && leftAt == old(leftAt)
      ensures forall id :: id in Active() ==> Received(id) == old(Received(id)) + [v]
      ensures forall id :: id in leftAt ==> Received(id) == old(Received(id))
    {
      held := held + [v];
      forall id | id in joinedAt
        ensures Received(id) == if id in leftAt then old(Received(id)) else old(Received(id)) + [v]
      {
        if id !in leftAt {
          assert held[joinedAt[id]..] == old(held)[joinedAt[id]..] + [v];
        }
      }
    }

    method Cancel(id: SubId)
      requires Valid()
      modifies this
      ensures Valid()
      ensures Active() == old(Active()) - {id}
      ensures held == old(held) && joinedAt == old(joinedAt)
      ensures forall other :: other in joinedAt ==> Received(other) == old(Received(other))
    {
      if id in joinedAt && id !in leftAt {
        leftAt := leftAt[id := |held|];
      }
    }
  }

  /** The demand a subscriber signals upstream. */
  datatype Demand = Limited(n: nat) | Unlimited {
    /** Combine adds demands; `.unlimited` absorbs everything. */
    function Plus(other: Demand): (r: Demand)
      ensures r.Unlimited? <==> Unlimited? || other.Unlimited?
      ensures r.Limited? ==> r.n == n + other.n
    {
      if Unlimited? || other.Unlimited? then Unlimited else Limited(n + other.n)
    }
  }

  /** A Combine `Subscription` handed to a subscriber by its upstream publisher. */
  class Subscription {
    var demand: Demand
    var cancelled: bool

    constructor ()
      ensures demand == Limited(0) && !cancelled
    {
      demand, cancelled := Limited(0), false;
    }

    method Request(d: Demand)
      modifies this
      ensures demand == old(demand).Plus(d) && cancelled == old(cancelled)
    {
      demand := demand.Plus(d);
    }

    method Cancel()
      modifies this
      ensures cancelled && demand == old(demand)
    {
      cancelled := true;
    }
  }
}
