/**
 * KillSwitchBroker: a broker wrapper with no state of its own. New orders
 * are refused while the trading state's kill switch is on; every other
 * call, and the event stream and name, are the inner paper broker's.
 */
module KillSwitch {
  import opened Common
  import opened Orders
  import opened MarketData
  import opened PaperBrokerSpec
  import opened PaperBrokerInvariants
  import opened PaperBrokerClass
  import Trading

  const KillSwitchMessage := "InvalidOperationException: KillSwitch is ON: new orders are blocked."

  /** PlaceOrderAsync through the wrapper, as a function of the kill switch and the inner broker's state. */
  function GatedPlace(killSwitchOn: bool, c: Config, b: Broker, req: PlaceOrderRequest, book: Option<OrderBookTop>, now: Ticks): Placed
  {
    if killSwitchOn then Placed(Threw(KillSwitchMessage), b) else Place(c, b, req, book, now)
  }

  /**
   * With the switch on, placing throws and the inner broker is left as it
   * was (no order, no id taken, no event); with it off, placing is exactly
   * the inner broker's.
   */
  lemma GateBlocksOrPasses(on: bool, c: Config, b: Broker, req: PlaceOrderRequest, book: Option<OrderBookTop>, now: Ticks)
    ensures on ==> GatedPlace(on, c, b, req, book, now).outcome.Threw?
    ensures on ==> GatedPlace(on, c, b, req, book, now).state == b
    ensures !on ==> GatedPlace(on, c, b, req, book, now) == Place(c, b, req, book, now)
  {
  }

  class KillSwitchBroker {
    const inner: PaperBroker
    const state: Trading.TradingState

    constructor (inner: PaperBroker, state: Trading.TradingState)
      ensures this.inner == inner && this.state == state
    {
      this.inner := inner;
      this.state := state;
    }

    /** Name: the inner broker's. */
    function Name(): (name: string)
      ensures name == inner.config.name
    {
      inner.config.name
    }

    /** Events: the inner broker's stream. */
    function Events(): (events: seq<BrokerEvent>)
      reads inner
      ensures events == inner.State().events
    {
      inner.events
    }

    method PlaceOrder(req: PlaceOrderRequest, book: Option<OrderBookTop>, now: Ticks) returns (r: Outcome<OrderAck>)
      requires inner.Valid()
      modifies inner
      ensures inner.Valid()
      ensures var p := GatedPlace(old(state.KillSwitchEnabled()), inner.config, old(inner.State()), req, book, now);
        r == p.outcome && inner.State() == p.state
    {
      if state.KillSwitchEnabled() {
        return Threw(KillSwitchMessage);
      }
      r := inner.PlaceOrder(req, book, now);
    }

    method CancelOrder(req: CancelOrderRequest, now: Ticks) returns (r: Outcome<CancelAck>)
      requires inner.Valid()
      modifies inner
      ensures inner.Valid()
      ensures var p := PaperBrokerSpec.CancelOrder(inner.config, old(inner.State()), req, now);
        r == p.outcome && inner.State() == p.state
    {
      r := inner.CancelOrder(req, now);
    }

    method CancelAll(now: Ticks) returns (r: Outcome<()>)
      requires inner.Valid()
      modifies inner
      ensures inner.Valid()
      ensures (r, inner.State()) == PaperBrokerSpec.CancelAll(inner.config, old(inner.State()), now)
    {
      r := inner.CancelAll(now);
    }

    method Start()
      requires inner.Valid()
      modifies inner
      ensures inner.Valid() && inner.State() == old(inner.State()).(started := true)
    {
      inner.Start();
    }

    method Stop()
      requires inner.Valid()
      modifies inner
      ensures inner.Valid() && inner.State() == old(inner.State()).(started := false)
    {
      inner.Stop();
    }

    method GetOrder(orderId: string) returns (r: Option<OrderState>)
      requires inner.Valid()
      ensures r.None? <==> forall x :: x in inner.orders ==> Fold(inner.orders[x].orderId) != Fold(orderId)
      ensures r.Some? ==> r.value in inner.orders.Values && Fold(r.value.orderId) == Fold(orderId)
    {
      r := inner.GetOrder(orderId);
    }

    method GetOpenOrders(symbol: string) returns (r: seq<OrderState>)
      requires inner.Valid()
      ensures forall o :: o in r <==> o in inner.orders.Values && OnSymbol(o, symbol) && IsOpen(o.status)
      ensures forall i, j :: 0 <= i < j < |r| ==> r[i].createdUtc <= r[j].createdUtc
      ensures forall i, j :: 0 <= i < j < |r| ==> r[i].orderId != r[j].orderId
    {
      r := inner.GetOpenOrders(symbol);
    }

    method GetPosition(symbol: string) returns (r: Option<Position>)
      requires inner.Valid()
      ensures r.Some? <==> exists k :: k in inner.positions && Fold(inner.positions[k].key) == Fold(symbol)
      ensures r.Some? ==> r.value == inner.positions[Fold(symbol)].value
    {
      r := inner.GetPosition(symbol);
    }

    method GetAccount(now: Ticks) returns (snap: AccountSnapshot, ghost order: seq<string>)
      ensures Distinct(order) && forall k :: k in order <==> k in inner.positions
      ensures snap == AccountSnapshot(now, [BalanceItem("KRW", inner.krwTotal, inner.krwAvailable)] + PositionBalancesOf(inner.State(), order))
    {
      snap, order := inner.GetAccount(now);
    }
  }
}
