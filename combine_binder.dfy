/** `CombineBinder`: a subscriber that hands every input to a scheduler, which later calls the
    binding closure with the target object if that object still exists. The target is held
    weakly, so the binder never keeps it alive; deallocation is an explicit `alive` flag. */
module Binder {
  import opened Wrappers
  import opened Combine

  /** The `base` object a binder is built over. `applied` records the inputs the binding
      closure has been called with on it. */
  class Target<T> {
    var alive: bool
    var applied: seq<T>

    constructor ()
      ensures alive && applied == []
    {
      alive, applied := true, [];
    }

    /** The last strong reference goes away; weak references now read `nil`. */
    method Deallocate()
      modifies this
      ensures !alive && applied == old(applied)
    {
      alive := false;
    }
  }

  /** A work item `{ [weak base] in if let base = base { binding(base, input) } }`. */
  datatype Delivery<T> = Delivery(target: Target<T>, input: T)

  /** A Combine scheduler such as `DispatchQueue.main`: work items run one at a time, in the
      order they were scheduled. */
  class Scheduler<T> {
    var pending: seq<Delivery<T>>

    constructor ()
      ensures pending == []
    {
      pending := [];
    }

    method Schedule(d: Delivery<T>)
      modifies this
      ensures pending == old(pending) + [d]
    {
      pending := pending + [d];
    }

    /** Runs the oldest work item: the binding is called with the target if and only if the
        target still exists at that moment; otherwise the input is dropped. */
    method Step() returns (ran: bool)
      requires pending != []
      modifies this, pending[0].target
      ensures pending == old(pending[1..])
      ensures var d := old(pending[0]);
        && ran == d.target.alive
        && d.target.alive == old(d.target.alive)
        && d.target.applied == old(d.target.applied) + (if ran then [d.input] else [])
    {
      var d := pending[0];
      pending := pending[1..];
      ran := d.target.alive;
      if ran {
        d.target.applied := d.target.applied + [d.input];
      }
    }
  }

  /** `SubscriptionContainer`: the one mutable part of the binder, shared by its copies. */
  class SubscriptionContainer {
    var subscription: Option<Subscription>

    constructor ()
      ensures subscription == None
    {
      subscription := None;
    }
  }

  /** `CombineBinder`: a struct of immutable fields. The binding closure itself is the
      `applied` log of the target. */
  datatype CombineBinder<T> = CombineBinder(
    base: Target<T>,              // captured `[weak base]`: never written by the binder
    scheduler: Scheduler<T>,
    container: SubscriptionContainer)
  {
    /** The stored subscription, if any, as a frame. */
    function Stored(): set<object>
      reads container
    {
      if container.subscription.Some? then {container.subscription.value} else {}
    }

    /** `_bind`, also exposed as `binding`: schedule exactly one delivery of `input` to the
        target. Nothing about the target is read or written here. */
    method Bind(input: T)
      modifies scheduler
      ensures scheduler.pending == old(scheduler.pending) + [Delivery(base, input)]
    {
      scheduler.Schedule(Delivery(base, input));
    }

    /** `receive(_:)`: schedule one delivery and ask for unlimited further input. */
    method Receive(input: T) returns (demand: Demand)
      modifies scheduler
      ensures demand == Unlimited
      ensures scheduler.pending == old(scheduler.pending) + [Delivery(base, input)]
    {
      Bind(input);
      demand := Unlimited;
    }

    /** `receive(subscription:)`: keep the subscription and request `.unlimited` from it. */
    method ReceiveSubscription(s: Subscription)
      modifies container, s
      ensures container.subscription == Some(s)
      ensures s.demand == Unlimited && s.cancelled == old(s.cancelled)
    {
      container.subscription := Some(s);
      s.Request(Unlimited);
    }

    /** `cancel()`: cancel the stored subscription; with none stored, nothing happens. */
    method Cancel()
      modifies Stored()
      ensures container.subscription == old(container.subscription)
      ensures container.subscription.Some? ==>
        && container.subscription.value.cancelled
        && container.subscription.value.demand == old(container.subscription.value.demand)
    {
      match container.subscription {
        case None =>
        case Some(s) => s.Cancel();
      }
    }

    /** `receive(completion:)`: ignored. */
    method ReceiveCompletion()
      ensures container.subscription == old(container.subscription)
      ensures scheduler.pending == old(scheduler.pending)
    {
    }
  }

  /** `CombineBinder(_:scheduler:binding:)`. */
  method NewCombineBinder<T>(base: Target<T>, scheduler: Scheduler<T>) returns (b: CombineBinder<T>)
    ensures b.base == base && b.scheduler == scheduler
    ensures fresh(b.container) && b.container.subscription == None
  {
    var c := new SubscriptionContainer();
    b := CombineBinder(base, scheduler, c);
  }

  /** `AnyCancellable(binder)`: cancelling it cancels the binder. */
  datatype AnyCancellable<T> = AnyCancellable(binder: CombineBinder<T>) {
    method Cancel()
      modifies binder.Stored()
      ensures binder.container.subscription == old(binder.container.subscription)
      ensures binder.container.subscription.Some? ==> binder.container.subscription.value.cancelled
    {
      binder.Cancel();
    }
  }

  /** `bind(to:)`: the publisher subscribes the binder, handing it `upstream`, and the result
      cancels that binder. */
  method BindTo<T>(binder: CombineBinder<T>, upstream: Subscription) returns (c: AnyCancellable<T>)
    modifies binder.container, upstream
    ensures c.binder == binder
    ensures binder.container.subscription == Some(upstream)
    ensures upstream.demand == Unlimited && upstream.cancelled == old(upstream.cancelled)
  {
    binder.ReceiveSubscription(upstream);
    c := AnyCancellable(binder);
  }

  /** Inputs reach a live target only when the scheduler runs, one per input, in order. */
  method DeliveredInOrder<T>(x: T, y: T) returns (demand: Demand, beforeRun: seq<T>, afterRun: seq<T>)
    ensures demand == Unlimited
    ensures beforeRun == [] && afterRun == [x, y]
  {
    var target := new Target<T>();
    var scheduler := new Scheduler<T>();
    var b := NewCombineBinder(target, scheduler);
    demand := b.Receive(x);
    demand := b.Receive(y);
    beforeRun := target.applied;
    var ran := scheduler.Step();
    ran := scheduler.Step();
    afterRun := target.applied;
  }

  /** An input received while the target exists but delivered after it is gone is dropped. */
  method DeallocatedBeforeDelivery<T>(x: T) returns (ran: bool, applied: seq<T>, left: nat)
    ensures !ran && applied == [] && left == 0
  {
    var target := new Target<T>();
    var scheduler := new Scheduler<T>();
    var b := NewCombineBinder(target, scheduler);
    var demand := b.Receive(x);
    target.Deallocate();
    ran := scheduler.Step();
    applied := target.applied;
    left := |scheduler.pending|;
  }

  /** The cancellable returned by `bind(to:)` cancels the subscription the publisher handed
      over, after the binder asked it for unlimited input. */
  method BindThenCancel() returns (requested: Demand, cancelled: bool)
    ensures requested == Unlimited && cancelled
  {
    var target := new Target<int>();
    var scheduler := new Scheduler<int>();
    var b := NewCombineBinder(target, scheduler);
    var upstream := new Subscription();
    var c := BindTo(b, upstream);
    requested := upstream.demand;
    c.Cancel();
    cancelled := upstream.cancelled;
  }
}
