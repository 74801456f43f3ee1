/**
 * OrderLifecycleTracker: listens to the broker's events. A final order
 * update for an order whose owner is known ends that ownership; a broker
 * error event, or an error in the event stream itself, trips the trading
 * guard; fills change nothing. The subscription is a flag: while it is set
 * the broker's events are handed to OnBrokerEvent, one at a time.
 */
module Lifecycle {
  import opened Common
  import opened Orders
  import opened Guards
  import PaperBrokerSpec

  /** The statuses after which an order can no longer change. */
  predicate IsTerminal(s: OrderStatus)
  {
    s == Filled || s == Canceled || s == Rejected || s == Expired
  }

  /** What the tracker acts on: the ownership table and the guard. */
  datatype Tracked = Tracked(owners: Ownership, guard: GuardState)

  /** The reason a broker error event trips the guard with. */
  function BrokerErrorReason(message: string): string
  {
    "BrokerError: " + message
  }

  /** OnBrokerEvent. */
  function OnEvent(t: Tracked, e: BrokerEvent): Tracked
  {
    match e
    case FillEvent(_, _) => t
    case OrderUpdatedEvent(_, o) =>
      if o.orderId in t.owners.orderToAlgo && IsTerminal(o.status)
      then t.(owners := RemoveSpec(t.owners, o.orderId, t.owners.orderToAlgo[o.orderId]))
      else t
    case BrokerErrorEvent(_, message, _) => t.(guard := ApplyGuard(t.guard, TripOp(BrokerErrorReason(message))))
  }

  /** The tracker after the events `es`, in order. */
  function OnEvents(t: Tracked, es: seq<BrokerEvent>): Tracked
  {
    if es == [] then t else OnEvent(OnEvents(t, es[..|es| - 1]), es[|es| - 1])
  }

  /**
   * One event: a final update for an owned order removes its ownership (the
   * order has no owner and is not in its former owner's set) and touches
   * nothing else; any other update, and any fill, changes nothing; a broker
   * error trips the guard with its message; the table stays consistent.
   */
  lemma EventRules(t: Tracked, e: BrokerEvent)
    requires Consistent(t.owners)
    ensures var r := OnEvent(t, e);
      && Consistent(r.owners)
      && (e.FillEvent? ==> r == t)
      && (e.OrderUpdatedEvent? && e.order.orderId in t.owners.orderToAlgo && IsTerminal(e.order.status) ==>
            && e.order.orderId !in r.owners.orderToAlgo
            && e.order.orderId !in OrdersOf(r.owners, t.owners.orderToAlgo[e.order.orderId])
            && OthersKept(t.owners, r.owners, e.order.orderId)
            && r.guard == t.guard)
      && (e.OrderUpdatedEvent? && (e.order.orderId !in t.owners.orderToAlgo || !IsTerminal(e.order.status)) ==> r == t)
      && (e.BrokerErrorEvent? ==> r.owners == t.owners && r.guard == GuardState(true, Some(BrokerErrorReason(e.message))))
  {
    if e.OrderUpdatedEvent? && e.order.orderId in t.owners.orderToAlgo {
      OwnershipSteps(t.owners, e.order.orderId, t.owners.orderToAlgo[e.order.orderId]);
    }
  }

  /**
   * Over any run of events the table stays consistent, and no order gains
   * an owner or changes owner.
   */
  lemma {:induction false} EventsKeepOwners(t: Tracked, es: seq<BrokerEvent>)
    requires Consistent(t.owners)
    ensures var r := OnEvents(t, es);
      && Consistent(r.owners)
      && (forall o :: o in r.owners.orderToAlgo ==> o in t.owners.orderToAlgo && r.owners.orderToAlgo[o] == t.owners.orderToAlgo[o])
  {
    if es != [] {
      var n := |es| - 1;
      EventsKeepOwners(t, es[..n]);
      EventRules(OnEvents(t, es[..n]), es[n]);
    }
  }

  /**
   * After any run of events the guard is read-only exactly when it was
   * before or one of the events was a broker error: the tracker trips it
   * and never clears it.
   */
  lemma {:induction false} EventsTripGuard(t: Tracked, es: seq<BrokerEvent>)
    ensures OnEvents(t, es).guard.readOnly <==> t.guard.readOnly || exists i :: 0 <= i < |es| && es[i].BrokerErrorEvent?
  {
    if es != [] {
      var n := |es| - 1;
      var prefix := es[..n];
      EventsTripGuard(t, prefix);
      assert OnEvents(t, es) == OnEvent(OnEvents(t, prefix), es[n]);
      if exists i :: 0 <= i < n && prefix[i].BrokerErrorEvent? {
        var i :| 0 <= i < n && prefix[i].BrokerErrorEvent?;
        assert es[i].BrokerErrorEvent?;
      }
      if exists i :: 0 <= i < |es| && es[i].BrokerErrorEvent? {
        var i :| 0 <= i < |es| && es[i].BrokerErrorEvent?;
        if i < n {
          assert prefix[i].BrokerErrorEvent?;
        }
      }
    }
  }

  /**
   * A user cancel the paper broker accepts publishes a broker error event,
   * so a tracker handed the events it published trips the guard: after a
   * successful cancel, new orders are refused as read-only.
   */
  lemma CancelTripsGuard(c: PaperBrokerSpec.Config, b: PaperBrokerSpec.Broker, req: CancelOrderRequest, now: Ticks, t: Tracked)
    requires PaperBrokerSpec.CancelOrder(c, b, req, now).outcome == Returned(CancelAck(true, req.orderId, None))
    ensures var after := PaperBrokerSpec.CancelOrder(c, b, req, now).state;
      && |b.events| <= |after.events|
      && OnEvents(t, after.events[|b.events|..]).guard.readOnly
  {
    var key := Fold(req.orderId);
    var after := PaperBrokerSpec.CancelOrder(c, b, req, now).state;
    assert b.started && key in b.orders && !PaperBrokerSpec.IsDone(b.orders[key].status);
    var published := after.events[|b.events|..];
    assert |published| == 2 && published[1].BrokerErrorEvent?;
    EventsTripGuard(t, published);
  }

  class OrderLifecycleTracker {
    const ownership: InMemoryOrderOwnershipStore
    const guard: TradingGuard
    /** Whether the tracker is subscribed to the broker's event stream. */
    var subscribed: bool

    ghost function State(): Tracked
      reads ownership, guard
    {
      Tracked(ownership.State(), guard.State())
    }

    constructor (ownership: InMemoryOrderOwnershipStore, guard: TradingGuard)
      ensures this.ownership == ownership && this.guard == guard && !subscribed
    {
      this.ownership := ownership;
      this.guard := guard;
      subscribed := false;
    }

    /** StartAsync: subscribes to the broker's events. */
    method Start()
      modifies this
      ensures subscribed
    {
      subscribed := true;
    }

    /** StopAsync, and Dispose: ends the subscription. */
    method Stop()
      modifies this
      ensures !subscribed
    {
      subscribed := false;
    }

    method OnBrokerEvent(e: BrokerEvent)
      requires guard.Valid()
      modifies ownership, guard
      ensures guard.Valid() && State() == OnEvent(old(State()), e)
    {
      match e
      case FillEvent(_, _) =>
      case OrderUpdatedEvent(_, o) => HandleOrderUpdated(o);
      case BrokerErrorEvent(_, message, _) => HandleBrokerError(message);
    }

    method HandleOrderUpdated(order: OrderState)
      modifies ownership
      ensures var t := old(State());
        ownership.State() == (if order.orderId in t.owners.orderToAlgo && IsTerminal(order.status)
          then RemoveSpec(t.owners, order.orderId, t.owners.orderToAlgo[order.orderId]) else t.owners)
    {
      var found, algoId := ownership.TryGetOwner(order.orderId);
      if !found {
        return;
      }
      if IsTerminal(order.status) {
        ownership.Remove(order.orderId, algoId.value);
      }
    }

    method HandleBrokerError(message: string)
      requires guard.Valid()
      modifies guard
      ensures guard.Valid() && guard.State() == ApplyGuard(old(guard.State()), TripOp(BrokerErrorReason(message)))
    {
      guard.Trip(BrokerErrorReason(message));
    }

    /** OnBrokerError: an error in the event stream itself trips the guard, naming the exception's message. */
    method OnBrokerError(exceptionMessage: string)
      requires guard.Valid()
      modifies guard
      ensures guard.Valid() && guard.State() == GuardState(true, Some("Broker stream error: " + exceptionMessage))
    {
      guard.Trip("Broker stream error: " + exceptionMessage);
    }
  }
}
