/**
 * The simulated broker's state machine as functions on a value of its state:
 * reservation on placement, fills with fees and slippage, cancel and reject
 * with release of what an order still holds, and the oldest-first scan of
 * open orders against one top-of-book snapshot whose quantities the scan
 * uses up. The class in paper_broker.dfy updates its fields step by step and
 * is proved equal to these functions.
 */
module PaperBrokerSpec {
  import opened Common
  import opened Orders
  import opened MarketData

  /** The broker's construction parameters. */
  datatype Config = Config(name: string, takerFeeRate: real, makerFeeRate: real, slippageBps: real)

  /**
   * Every field the broker updates. `orders` with `orderIds` is the order
   * dictionary: its entries and the order in which it enumerates them (orders
   * are never removed, so that is insertion order). `coinReserved` is filed
   * under the folded symbol; `nextId` stands for Guid.NewGuid(); `events` is
   * the stream the broker publishes.
   */
  datatype Broker = Broker(
    krwTotal: real,
    krwAvailable: real,
    krwReserved: real,
    positions: CIMap<Position>,
    coinReserved: map<string, real>,
    orders: map<string, OrderState>,
    orderIds: seq<string>,
    remaining: map<string, real>,
    reservedKrw: map<string, real>,
    reservedCoin: map<string, real>,
    started: bool,
    nextId: nat,
    events: seq<BrokerEvent>)

  function Initial(initialKrw: real): (b: Broker)
    ensures b.krwTotal == b.krwAvailable == initialKrw && b.krwReserved == 0.0
    ensures b.orders == map[] && b.positions == map[] && !b.started
  {
    Broker(initialKrw, initialKrw, 0.0, map[], map[], map[], [], map[], map[], map[], false, 0, [])
  }

  /** Accepted or PartiallyFilled: the statuses the broker still matches and may cancel. */
  predicate IsOpen(s: OrderStatus)
  {
    s == Accepted || s == PartiallyFilled
  }

  /** Filled, Canceled or Rejected: the statuses the broker treats as final. */
  predicate IsDone(s: OrderStatus)
  {
    s == Filled || s == Canceled || s == Rejected
  }

  function CoinReservedFor(b: Broker, symbol: string): real
  {
    GetOrZero(b.coinReserved, Fold(symbol))
  }

  function PositionQty(b: Broker, symbol: string): real
  {
    match CIFind(b.positions, symbol)
    case Some(p) => p.quantity
    case None => 0.0
  }

  // ---------------------------------------------------------------------
  // Slippage
  // ---------------------------------------------------------------------

  /** A buy pays `bps` basis points more, a sell receives the price divided by the same factor. */
  function ApplySlippage(bps: real, px: real, side: OrderSide): (r: real)
    ensures bps <= 0.0 ==> r == px
    ensures bps > 0.0 && px > 0.0 ==> (side == Buy ==> r > px) && (side == Sell ==> r < px)
    ensures bps > 0.0 && side == Buy ==> r == px * (1.0 + bps / 10000.0)
    ensures bps > 0.0 && side == Sell ==> r * (1.0 + bps / 10000.0) == px
  {
    if bps <= 0.0 then px
    else
      var factor := 1.0 + bps / 10000.0;
      if side == Buy then px * factor else px / factor
  }

  // ---------------------------------------------------------------------
  // Reservation
  // ---------------------------------------------------------------------

  /** The price a new order reserves at: its limit price, or the near side of the book. */
  function ReservePrice(o: OrderState, top: OrderBookTop): real
    requires o.orderType == Limit ==> o.limitPrice.Some?
  {
    if o.orderType == Limit then o.limitPrice.value
    else if o.side == Buy then top.bestAskPrice
    else top.bestBidPrice
  }

  function FeeRateFor(c: Config, t: OrderType): real
  {
    if t == Market then c.takerFeeRate else c.makerFeeRate
  }

  /** What a buy sets aside: the notional at the reserve price plus the fee on it. */
  function BuyReserve(c: Config, o: OrderState, top: OrderBookTop): real
    requires o.orderType == Limit ==> o.limitPrice.Some?
  {
    var notional := ReservePrice(o, top) * o.quantity;
    notional + notional * FeeRateFor(c, o.orderType)
  }

  /**
   * TryReserveForOrder. A buy moves price * quantity * (1 + fee rate) from
   * available to reserved KRW; a sell reserves its quantity of the symbol's
   * position, which must not already be promised to other sells.
   */
  function Reserve(c: Config, b: Broker, o: OrderState, book: Option<OrderBookTop>): (r: Result<Broker>)
    requires o.orderType == Limit ==> o.limitPrice.Some?
    ensures book.None? ==> r == Err("No orderbook available for reserve.")
    ensures r.Ok? && o.side == Buy ==>
      var reserve := BuyReserve(c, o, book.value);
      b.krwAvailable >= reserve
      && r.value == b.(krwAvailable := b.krwAvailable - reserve, krwReserved := b.krwReserved + reserve,
                       reservedKrw := b.reservedKrw[o.orderId := reserve])
    ensures r.Ok? && o.side == Sell ==>
      PositionQty(b, o.symbol) - CoinReservedFor(b, o.symbol) >= o.quantity
      && r.value == b.(coinReserved := b.coinReserved[Fold(o.symbol) := CoinReservedFor(b, o.symbol) + o.quantity],
                       reservedCoin := b.reservedCoin[o.orderId := o.quantity])
    ensures r.Err? && book.Some? && o.side == Buy ==>
      r.message == "Insufficient KRW."
      && b.krwAvailable < BuyReserve(c, o, book.value)
    ensures r.Err? && book.Some? && o.side == Sell && PositionQty(b, o.symbol) <= 0.0 ==>
      r.message == "No position to sell."
    ensures r.Err? && book.Some? && o.side == Sell && PositionQty(b, o.symbol) > 0.0 ==>
      r.message == "Insufficient available position (reserved by other orders)."
      && PositionQty(b, o.symbol) - CoinReservedFor(b, o.symbol) < o.quantity
  {
    if book.None? then Err("No orderbook available for reserve.")
    else
      if o.side == Buy then
        var reserve := BuyReserve(c, o, book.value);
        if b.krwAvailable < reserve then Err("Insufficient KRW.")
        else Ok(b.(krwAvailable := b.krwAvailable - reserve,
                   krwReserved := b.krwReserved + reserve,
                   reservedKrw := b.reservedKrw[o.orderId := reserve]))
      else
        match CIFind(b.positions, o.symbol)
        case None => Err("No position to sell.")
        case Some(pos) =>
          if pos.quantity <= 0.0 then Err("No position to sell.")
          else
            var alreadyRes := GetOrZero(b.coinReserved, Fold(o.symbol));
            if pos.quantity - alreadyRes < o.quantity then
              Err("Insufficient available position (reserved by other orders).")
            else Ok(b.(coinReserved := b.coinReserved[Fold(o.symbol) := alreadyRes + o.quantity],
                       reservedCoin := b.reservedCoin[o.orderId := o.quantity]))
  }

  // ---------------------------------------------------------------------
  // Release, cancel and reject
  // ---------------------------------------------------------------------

  /**
   * ReleaseRemainderLocked: a positive KRW reservation goes back to available,
   * a positive coin reservation is taken off the symbol's reserved quantity,
   * and the order loses its remaining quantity.
   */
  function Release(b: Broker, id: string): (r: Broker)
    ensures id !in r.remaining && r.remaining == b.remaining - {id}
    ensures GetOrZero(r.reservedKrw, id) <= 0.0 && GetOrZero(r.reservedCoin, id) <= 0.0
    ensures r.krwTotal == b.krwTotal
    ensures r.krwAvailable + r.krwReserved == b.krwAvailable + b.krwReserved
    ensures r.orders == b.orders && r.orderIds == b.orderIds && r.positions == b.positions
    ensures r.events == b.events && r.nextId == b.nextId && r.started == b.started
  {
    var b2 := ReleaseCoin(ReleaseKrw(b, id), id);
    b2.(remaining := b2.remaining - {id})
  }

  /** Releasing one order leaves every other order's reservations as they were. */
  lemma ReleaseFrame(b: Broker, id: string)
    ensures var r := Release(b, id);
      r.reservedKrw.Keys <= b.reservedKrw.Keys && r.reservedCoin.Keys <= b.reservedCoin.Keys
      && (forall x :: x != id ==> GetOrZero(r.reservedKrw, x) == GetOrZero(b.reservedKrw, x))
      && (forall x :: x != id ==> GetOrZero(r.reservedCoin, x) == GetOrZero(b.reservedCoin, x))
  {
    var b1 := ReleaseKrw(b, id);
    var b2 := ReleaseCoin(b1, id);
    assert Release(b, id) == b2.(remaining := b2.remaining - {id});
  }

  /** The KRW half of ReleaseRemainderLocked. */
  function ReleaseKrw(b: Broker, id: string): (r: Broker)
    ensures GetOrZero(r.reservedKrw, id) <= 0.0
    ensures r.krwTotal == b.krwTotal
    ensures r.krwAvailable + r.krwReserved == b.krwAvailable + b.krwReserved
    ensures r == b.(reservedKrw := r.reservedKrw, krwReserved := r.krwReserved, krwAvailable := r.krwAvailable)
  {
    if id in b.reservedKrw && b.reservedKrw[id] > 0.0 then
      var krw := b.reservedKrw[id];
      b.(reservedKrw := b.reservedKrw - {id},
         krwReserved := b.krwReserved - krw,
         krwAvailable := b.krwAvailable + krw)
    else b
  }

  /** The coin half of ReleaseRemainderLocked. */
  function ReleaseCoin(b: Broker, id: string): (r: Broker)
    ensures GetOrZero(r.reservedCoin, id) <= 0.0
    ensures r == b.(reservedCoin := r.reservedCoin, coinReserved := r.coinReserved)
  {
    if id in b.reservedCoin && b.reservedCoin[id] > 0.0 then
      var coin := b.reservedCoin[id];
      var b1 := b.(reservedCoin := b.reservedCoin - {id});
      if id in b.orders then
        var sym := b.orders[id].symbol;
        var cur := GetOrZero(b.coinReserved, Fold(sym));
        b1.(coinReserved := b.coinReserved[Fold(sym) := Max(0.0, cur - coin)])
      else b1
    else b
  }

  /**
   * CancelInternal and RejectInternal: an order that is not final gets the
   * new status, releases what it holds, and the broker publishes the order
   * update followed by an error event naming the reason.
   */
  function Close(b: Broker, orderId: string, status: OrderStatus, verb: string, reason: string, now: Ticks): (r: Broker)
    ensures Fold(orderId) !in b.orders || IsDone(b.orders[Fold(orderId)].status) ==> r == b
    ensures Fold(orderId) in b.orders && !IsDone(b.orders[Fold(orderId)].status) ==>
      var o := b.orders[Fold(orderId)].(status := status, updatedUtc := Some(now));
      r.orders == b.orders[Fold(orderId) := o]
      && r.events == b.events + [OrderUpdatedEvent(now, o),
           BrokerErrorEvent(now, "Order " + verb + ": " + reason + " (orderId=" + orderId + ")", None)]
  {
    var key := Fold(orderId);
    if key !in b.orders || IsDone(b.orders[key].status) then b
    else
      var closed := b.orders[key].(status := status, updatedUtc := Some(now));
      var b1 := Release(b.(orders := b.orders[key := closed]), key);
      b1.(events := b1.events + [
        OrderUpdatedEvent(now, closed),
        BrokerErrorEvent(now, "Order " + verb + ": " + reason + " (orderId=" + orderId + ")", None)])
  }

  function Cancel(b: Broker, orderId: string, reason: string, now: Ticks): Broker
  {
    Close(b, orderId, Canceled, "canceled", reason, now)
  }

  function Reject(b: Broker, orderId: string, reason: string, now: Ticks): Broker
  {
    Close(b, orderId, Rejected, "rejected", reason, now)
  }

  // ---------------------------------------------------------------------
  // Fills
  // ---------------------------------------------------------------------

  datatype FillResult = FillResult(ok: bool, state: Broker)

  /** A fill's fee: its notional times the fee rate, charged in KRW. */
  function Notional(price: real, qty: real): real
  {
    price * qty
  }

  function FeeOf(price: real, qty: real, feeRate: real): real
  {
    price * qty * feeRate
  }

  /** A fill's money and position side leaves the order book itself alone. */
  predicate LegFrame(b: Broker, r: Broker)
  {
    r.orders == b.orders && r.orderIds == b.orderIds && r.remaining == b.remaining
    && r.events == b.events && r.nextId == b.nextId && r.started == b.started
  }

  /** The money and position side of a buy fill, or None when its KRW reservation cannot pay. */
  function BuyLeg(b: Broker, id: string, o: OrderState, price: real, qty: real, notional: real, fee: real): (r: Option<Broker>)
    ensures r.Some? <==> id in b.reservedKrw && b.reservedKrw[id] > 0.0 && b.reservedKrw[id] >= notional + fee
    ensures r.Some? ==> LegFrame(b, r.value)
    ensures r.Some? ==>
      var spend := notional + fee;
      r.value.reservedKrw == b.reservedKrw[id := b.reservedKrw[id] - spend]
      && r.value.krwReserved == b.krwReserved - spend && r.value.krwTotal == b.krwTotal - spend
      && r.value.krwAvailable == b.krwAvailable
      && r.value.reservedCoin == b.reservedCoin && r.value.coinReserved == b.coinReserved
  {
    if id !in b.reservedKrw || b.reservedKrw[id] <= 0.0 then None
    else
      var resKrw := b.reservedKrw[id];
      var spend := notional + fee;
      if resKrw < spend then None
      else
        Some(b.(reservedKrw := b.reservedKrw[id := resKrw - spend],
                krwReserved := b.krwReserved - spend,
                krwTotal := b.krwTotal - spend,
                positions := CIPut(b.positions, o.symbol, BoughtPosition(b.positions, o.symbol, price, qty))))
  }

  /** The symbol's position after buying `qty` at `price`: quantities add and the average price is quantity-weighted. */
  function BoughtPosition(positions: CIMap<Position>, symbol: string, price: real, qty: real): Position
  {
    var pos := match CIFind(positions, symbol) case Some(p) => p case None => Position(symbol, 0.0, 0.0);
    var newQty := pos.quantity + qty;
    Position(symbol, newQty, if newQty == 0.0 then 0.0 else WeightedAvg(pos.avgPrice, pos.quantity, price, qty))
  }

  /** The quantity-weighted average of two prices. */
  function WeightedAvg(p0: real, q0: real, p1: real, q1: real): real
    requires q0 + q1 != 0.0
  {
    (p0 * q0 + p1 * q1) / (q0 + q1)
  }

  /** The coin and money side of a sell fill, or None when the order's reservation or the position is short. */
  function SellLeg(b: Broker, id: string, o: OrderState, qty: real, notional: real, fee: real): (r: Option<Broker>)
    ensures r.Some? <==> id in b.reservedCoin && b.reservedCoin[id] >= qty && PositionQty(b, o.symbol) >= qty
                         && CIFind(b.positions, o.symbol).Some?
    ensures r.Some? ==> LegFrame(b, r.value)
    ensures r.Some? ==>
      var proceeds := notional - fee;
      r.value.reservedCoin == b.reservedCoin[id := b.reservedCoin[id] - qty]
      && r.value.coinReserved == b.coinReserved[Fold(o.symbol) := Max(0.0, CoinReservedFor(b, o.symbol) - qty)]
      && r.value.krwAvailable == b.krwAvailable + proceeds && r.value.krwTotal == b.krwTotal + proceeds
      && r.value.krwReserved == b.krwReserved && r.value.reservedKrw == b.reservedKrw
  {
    if id !in b.reservedCoin || b.reservedCoin[id] < qty then None
    else
      match CIFind(b.positions, o.symbol)
      case None => None
      case Some(pos) =>
        if pos.quantity < qty then None
        else
          var curRes := GetOrZero(b.coinReserved, Fold(o.symbol));
          var proceeds := notional - fee;
          Some(b.(reservedCoin := b.reservedCoin[id := b.reservedCoin[id] - qty],
                  coinReserved := b.coinReserved[Fold(o.symbol) := Max(0.0, curRes - qty)],
                  positions := SoldPositions(b.positions, o.symbol, qty),
                  krwAvailable := b.krwAvailable + proceeds,
                  krwTotal := b.krwTotal + proceeds))
  }

  /** The positions after selling `qty` of the symbol: a position sold down to nothing is removed. */
  function SoldPositions(positions: CIMap<Position>, symbol: string, qty: real): CIMap<Position>
    requires CIFind(positions, symbol).Some?
  {
    var pos := CIFind(positions, symbol).value;
    var remainPos := pos.quantity - qty;
    if remainPos <= 0.0 then CIRemove(positions, symbol)
    else CIPut(positions, symbol, Position(symbol, remainPos, pos.avgPrice))
  }

  /** The order after a fill of `qty` at `price`: filled quantity, average fill price, status. */
  function FilledOrder(o: OrderState, rem: real, price: real, qty: real, now: Ticks): (u: OrderState)
    requires qty > 0.0
  {
    var newFilled := o.filledQuantity + qty;
    var newAvgFill :=
      if o.avgFillPrice.None? || o.filledQuantity <= 0.0 then price
      else WeightedAvg(o.avgFillPrice.value, o.filledQuantity, price, qty);
    o.(status := if rem - qty <= 0.0 then Filled else PartiallyFilled,
       filledQuantity := newFilled,
       avgFillPrice := Some(newAvgFill),
       updatedUtc := Some(now))
  }

  /** The side-specific money leg of a fill of `qty` on order `id`. */
  function FillLeg(b: Broker, id: string, price: real, qty: real, fee: real): (r: Option<Broker>)
    requires id in b.orders
    ensures r.Some? ==> LegFrame(b, r.value)
  {
    var o := b.orders[id];
    if o.side == Buy then BuyLeg(b, id, o, price, qty, Notional(price, qty), fee)
    else SellLeg(b, id, o, qty, Notional(price, qty), fee)
  }

  /**
   * TryFill: fills min(fillQty, remaining) of an order that is not final, at
   * `price` with fee `price * qty * feeRate`, publishing the Fill and then
   * the order update, and releasing the order's leftovers when it becomes
   * Filled. It fails, changing nothing, when the order is unknown or final
   * or has nothing remaining, or when its reservation cannot cover the fill.
   */
  function TryFill(b: Broker, id: string, price: real, fillQty: real, feeRate: real, now: Ticks): (r: FillResult)
    ensures !r.ok ==> r.state == b
    ensures fillQty <= 0.0 ==> r.state == b
  {
    if id !in b.orders then FillResult(false, b)
    else if IsDone(b.orders[id].status) then FillResult(false, b)
    else if id !in b.remaining || b.remaining[id] <= 0.0 then FillResult(false, b)
    else if fillQty <= 0.0 then FillResult(true, b)
    else
      var qty := Min(fillQty, b.remaining[id]);
      var fee := FeeOf(price, qty, feeRate);
      FillResult(FillLeg(b, id, price, qty, fee).Some?, FillOutcome(b, id, price, qty, fee, now))
  }

  /** A fill of a live order with quantity left is its money leg followed by its settlement. */
  lemma TryFillLive(b: Broker, id: string, price: real, fillQty: real, feeRate: real, now: Ticks)
    requires id in b.orders && !IsDone(b.orders[id].status) && id in b.remaining && b.remaining[id] > 0.0 && fillQty > 0.0
    ensures var qty := Min(fillQty, b.remaining[id]);
      TryFill(b, id, price, fillQty, feeRate, now)
      == FillResult(FillLeg(b, id, price, qty, FeeOf(price, qty, feeRate)).Some?,
                    FillOutcome(b, id, price, qty, FeeOf(price, qty, feeRate), now))
  {
  }

  /** The state after a fill of `qty` on order `id`: unchanged if its leg cannot pay, else settled. */
  function FillOutcome(b: Broker, id: string, price: real, qty: real, fee: real, now: Ticks): Broker
    requires id in b.orders && id in b.remaining && qty > 0.0
  {
    match FillLeg(b, id, price, qty, fee)
    case None => b
    case Some(b1) => Settle(b1, id, b.orders[id], b.remaining[id], price, qty, fee, now)
  }

  /**
   * What an applied fill does to the order: its filled quantity grows by
   * min(fillQty, remaining), it is Filled exactly when nothing remains (and
   * then leaves the remaining table) and PartiallyFilled otherwise, and the
   * Fill event with the next trade id precedes the order's update event.
   */
  lemma TryFillEffect(b: Broker, id: string, price: real, fillQty: real, feeRate: real, now: Ticks)
    ensures var r := TryFill(b, id, price, fillQty, feeRate, now);
      r.ok && fillQty > 0.0 ==>
      id in b.orders && id in b.remaining && b.remaining[id] > 0.0 && !IsDone(b.orders[id].status)
      && id in r.state.orders
      && var q := Min(fillQty, b.remaining[id]);
         var u := r.state.orders[id];
         u.filledQuantity == b.orders[id].filledQuantity + q
         && (u.status == Filled <==> b.remaining[id] - q <= 0.0)
         && (u.status != Filled ==> u.status == PartiallyFilled && id in r.state.remaining
                                    && r.state.remaining[id] == b.remaining[id] - q)
         && (u.status == Filled ==> id !in r.state.remaining)
         && r.state.events == b.events + [
              FillEvent(now, Fill(id, b.orders[id].symbol, b.orders[id].side, price, q, FeeOf(price, q, feeRate),
                                  "KRW", now, Some(IdOf(b.nextId)))),
              OrderUpdatedEvent(now, u)]
  {
    var r := TryFill(b, id, price, fillQty, feeRate, now);
    if r.ok && fillQty > 0.0 {
      var qty := Min(fillQty, b.remaining[id]);
      var fee := FeeOf(price, qty, feeRate);
      var b1 := FillLeg(b, id, price, qty, fee).value;
      assert LegFrame(b, b1);
      assert r.state == Settle(b1, id, b.orders[id], b.remaining[id], price, qty, fee, now);
    }
  }

  /**
   * The order's side of an applied fill: the Fill event with a fresh trade
   * id, the order's new quantities and status and its update event, and
   * release of its leftovers once it is Filled.
   */
  function Settle(b1: Broker, id: string, o: OrderState, rem: real, price: real, qty: real, fee: real, now: Ticks): (r: Broker)
    requires qty > 0.0
    ensures id in r.orders && r.orders[id] == FilledOrder(o, rem, price, qty, now)
    ensures r.events == b1.events + [FillEvent(now, Fill(id, o.symbol, o.side, price, qty, fee, "KRW", now, Some(IdOf(b1.nextId)))),
                                     OrderUpdatedEvent(now, r.orders[id])]
    ensures r.orders == b1.orders[id := r.orders[id]] && r.orderIds == b1.orderIds && r.nextId == b1.nextId + 1
  {
    var b2 := Settled(b1, id, o, rem, price, qty, fee, now);
    if b2.orders[id].status == Filled then Release(b2, id) else b2
  }

  /** The state a fill builds before any release. */
  function Settled(b1: Broker, id: string, o: OrderState, rem: real, price: real, qty: real, fee: real, now: Ticks): Broker
    requires qty > 0.0
  {
    var updated := FilledOrder(o, rem, price, qty, now);
    var fill := Fill(id, o.symbol, o.side, price, qty, fee, "KRW", now, Some(IdOf(b1.nextId)));
    b1.(remaining := b1.remaining[id := rem - qty],
        orders := b1.orders[id := updated],
        nextId := b1.nextId + 1,
        events := b1.events + [FillEvent(now, fill), OrderUpdatedEvent(now, updated)])
  }

  // ---------------------------------------------------------------------
  // Matching against the top of book
  // ---------------------------------------------------------------------

  predicate OnSymbol(o: OrderState, symbol: string)
  {
    Fold(o.symbol) == Fold(symbol)
  }

  /** The open orders on `symbol`, in the dictionary's enumeration order. */
  function OpenOn(ids: seq<string>, orders: map<string, OrderState>, symbol: string): seq<string>
  {
    if ids == [] then []
    else
      var rest := OpenOn(ids[1..], orders, symbol);
      if ids[0] in orders && OnSymbol(orders[ids[0]], symbol) && IsOpen(orders[ids[0]].status)
      then [ids[0]] + rest else rest
  }

  /** The filter keeps exactly the open orders on the symbol, in their order, each once if the ids are distinct. */
  lemma {:induction false} OpenOnFacts(ids: seq<string>, orders: map<string, OrderState>, symbol: string)
    ensures forall x :: x in OpenOn(ids, orders, symbol) <==> x in ids && x in orders && OnSymbol(orders[x], symbol) && IsOpen(orders[x].status)
    ensures multiset(OpenOn(ids, orders, symbol)) <= multiset(ids)
  {
    if ids != [] {
      OpenOnFacts(ids[1..], orders, symbol);
      assert ids == [ids[0]] + ids[1..];
    }
  }

  /** An order's creation time, as OrderBy reads it. */
  function CreatedAt(orders: map<string, OrderState>, x: string): Ticks
  {
    if x in orders then orders[x].createdUtc else 0
  }

  predicate SortedByCreated(ids: seq<string>, orders: map<string, OrderState>)
  {
    forall i, j :: 0 <= i < j < |ids| ==> CreatedAt(orders, ids[i]) <= CreatedAt(orders, ids[j])
  }

  /** Inserts `id` after every entry created no later than it (so equal times keep their order). */
  function InsertByCreated(id: string, sorted: seq<string>, orders: map<string, OrderState>): seq<string>
  {
    if sorted == [] then [id]
    else if CreatedAt(orders, id) < CreatedAt(orders, sorted[0]) then [id] + sorted
    else [sorted[0]] + InsertByCreated(id, sorted[1..], orders)
  }

  /** Insertion adds exactly `id`. */
  lemma {:induction false} InsertByCreatedCount(id: string, sorted: seq<string>, orders: map<string, OrderState>)
    ensures multiset(InsertByCreated(id, sorted, orders)) == multiset(sorted) + multiset{id}
  {
    if sorted != [] && CreatedAt(orders, id) >= CreatedAt(orders, sorted[0]) {
      InsertByCreatedCount(id, sorted[1..], orders);
      assert sorted == [sorted[0]] + sorted[1..];
    }
  }

  /** Every entry of `s` was created at `t` or later. */
  predicate NoEarlierThan(s: seq<string>, orders: map<string, OrderState>, t: Ticks)
  {
    forall i :: 0 <= i < |s| ==> t <= CreatedAt(orders, s[i])
  }

  lemma {:induction false} InsertByCreatedBound(id: string, sorted: seq<string>, orders: map<string, OrderState>, t: Ticks)
    requires NoEarlierThan(sorted, orders, t) && t <= CreatedAt(orders, id)
    ensures NoEarlierThan(InsertByCreated(id, sorted, orders), orders, t)
  {
    if sorted != [] && CreatedAt(orders, id) >= CreatedAt(orders, sorted[0]) {
      InsertByCreatedBound(id, sorted[1..], orders, t);
    }
  }

  /** Insertion keeps the sequence sorted. */
  lemma {:induction false} InsertByCreatedSorted(id: string, sorted: seq<string>, orders: map<string, OrderState>)
    requires SortedByCreated(sorted, orders)
    ensures SortedByCreated(InsertByCreated(id, sorted, orders), orders)
  {
    if sorted != [] {
      if CreatedAt(orders, id) < CreatedAt(orders, sorted[0]) {
        assert NoEarlierThan(sorted, orders, CreatedAt(orders, sorted[0]));
      } else {
        InsertByCreatedSorted(id, sorted[1..], orders);
        assert NoEarlierThan(sorted[1..], orders, CreatedAt(orders, sorted[0]));
        InsertByCreatedBound(id, sorted[1..], orders, CreatedAt(orders, sorted[0]));
      }
    }
  }

  /** LINQ's OrderBy(o => o.CreatedUtc): a stable insertion sort. */
  function SortByCreated(ids: seq<string>, orders: map<string, OrderState>): seq<string>
  {
    if ids == [] then []
    else InsertByCreated(ids[|ids| - 1], SortByCreated(ids[..|ids| - 1], orders), orders)
  }

  /** The sort is a permutation of its input, oldest first. */
  lemma {:induction false} SortByCreatedSorted(ids: seq<string>, orders: map<string, OrderState>)
    ensures multiset(SortByCreated(ids, orders)) == multiset(ids)
    ensures SortedByCreated(SortByCreated(ids, orders), orders)
  {
    if ids != [] {
      var init := ids[..|ids| - 1];
      assert ids == init + [ids[|ids| - 1]];
      SortByCreatedSorted(init, orders);
      InsertByCreatedCount(ids[|ids| - 1], SortByCreated(init, orders), orders);
      InsertByCreatedSorted(ids[|ids| - 1], SortByCreated(init, orders), orders);
    }
  }

  /** The ids TryMatchUsingTopOfBook walks: the symbol's open orders, oldest first. */
  function OpenIds(b: Broker, symbol: string): seq<string>
  {
    SortByCreated(OpenOn(b.orderIds, b.orders, symbol), b.orders)
  }

  /** The matching loop visits exactly the open orders on the symbol, oldest first. */
  lemma OpenIdsFacts(b: Broker, symbol: string)
    ensures forall x :: x in OpenIds(b, symbol) <==> x in b.orderIds && x in b.orders && OnSymbol(b.orders[x], symbol) && IsOpen(b.orders[x].status)
    ensures SortedByCreated(OpenIds(b, symbol), b.orders)
  {
    var open := OpenOn(b.orderIds, b.orders, symbol);
    OpenOnFacts(b.orderIds, b.orders, symbol);
    SortByCreatedSorted(open, b.orders);
    forall x ensures x in OpenIds(b, symbol) <==> x in open {
      assert x in OpenIds(b, symbol) <==> x in multiset(OpenIds(b, symbol));
      assert x in open <==> x in multiset(open);
    }
  }

  datatype StepResult = StepResult(state: Broker, ask: real, bid: real)

  /** Whether the top of book lets the order trade: always for a market order, at or through its price for a limit. */
  predicate Crosses(o: OrderState, top: OrderBookTop)
  {
    o.orderType == Market
    || (o.limitPrice.Some?
        && if o.side == Buy then o.limitPrice.value >= top.bestAskPrice else o.limitPrice.value <= top.bestBidPrice)
  }

  /** The touch an order trades against: the best ask for a buy, the best bid for a sell. */
  function TouchPrice(top: OrderBookTop, side: OrderSide): real
  {
    if side == Buy then top.bestAskPrice else top.bestBidPrice
  }

  function FillFailure(t: OrderType): string
  {
    if t == Market then "Insufficient funds/position during market fill."
    else "Insufficient funds/position during limit fill."
  }

  /**
   * One iteration of the matching loop for an order with quantity left.
   * `ask` and `bid` are the quantities still available at the top of book;
   * market orders pay the taker fee and limit orders the maker fee.
   */
  function Step(c: Config, b: Broker, id: string, top: OrderBookTop, ask: real, bid: real, now: Ticks): (r: StepResult)
    requires id in b.orders && id in b.remaining && b.remaining[id] > 0.0
  {
    var o := b.orders[id];
    var qty := Min(b.remaining[id], if o.side == Buy then ask else bid);
    if !Crosses(o, top) || qty <= 0.0 then StepResult(b, ask, bid)
    else
      var px := ApplySlippage(c.slippageBps, TouchPrice(top, o.side), o.side);
      var f := TryFill(b, id, px, qty, FeeRateFor(c, o.orderType), now);
      if !f.ok then StepResult(Reject(f.state, id, FillFailure(o.orderType), now), ask, bid)
      else if o.side == Buy then StepResult(f.state, ask - qty, bid)
      else StepResult(f.state, ask, bid - qty)
  }

  /** The matching loop over `ids`, threading the remaining top-of-book quantities. */
  function Scan(c: Config, b: Broker, ids: seq<string>, top: OrderBookTop, ask: real, bid: real, now: Ticks): Broker
    decreases |ids|
  {
    if ids == [] then b
    else
      var id := ids[0];
      if id in b.orders && id in b.remaining && b.remaining[id] > 0.0 then
        var s := Step(c, b, id, top, ask, bid, now);
        Scan(c, s.state, ids[1..], top, s.ask, s.bid, now)
      else Scan(c, b, ids[1..], top, ask, bid, now)
  }

  /** TryMatchUsingTopOfBook: nothing without a book, else one scan of the symbol's open orders. */
  function Match(c: Config, b: Broker, symbol: string, book: Option<OrderBookTop>, now: Ticks): Broker
  {
    if book.None? then b
    else Scan(c, b, OpenIds(b, symbol), book.value, book.value.bestAskQuantity, book.value.bestBidQuantity, now)
  }

  // ---------------------------------------------------------------------
  // What a scan takes from the book
  // ---------------------------------------------------------------------

  /** The later state's event stream continues the earlier one's. */
  predicate Extends(b: Broker, r: Broker)
  {
    |b.events| <= |r.events| && r.events[..|b.events|] == b.events
  }

  /** The events published between two states. */
  function Published(b: Broker, r: Broker): seq<BrokerEvent>
    requires Extends(b, r)
  {
    r.events[|b.events|..]
  }

  /** The quantity the Fill events in `events` trade on `side`. */
  function FilledOn(events: seq<BrokerEvent>, side: OrderSide): real
  {
    if events == [] then 0.0
    else
      (if events[0].FillEvent? && events[0].fill.side == side then events[0].fill.quantity else 0.0)
      + FilledOn(events[1..], side)
  }

  lemma {:induction false} FilledOnJoin(a: seq<BrokerEvent>, b: seq<BrokerEvent>, side: OrderSide)
    ensures FilledOn(a + b, side) == FilledOn(a, side) + FilledOn(b, side)
  {
    if a != [] {
      assert (a + b)[0] == a[0] && (a + b)[1..] == a[1..] + b;
      FilledOnJoin(a[1..], b, side);
    } else {
      assert a + b == b;
    }
  }

  /** Publishing in two stretches publishes their concatenation. */
  lemma PublishedJoin(b: Broker, m: Broker, r: Broker)
    requires Extends(b, m) && Extends(m, r)
    ensures Extends(b, r) && Published(b, r) == Published(b, m) + Published(m, r)
  {
    assert r.events[..|b.events|] == r.events[..|m.events|][..|b.events|];
  }

  /** A fill or update followed by a non-fill event trades only the first event's quantity. */
  lemma FilledOnPair(x: BrokerEvent, y: BrokerEvent, side: OrderSide)
    requires !y.FillEvent?
    ensures FilledOn([x, y], side) == if x.FillEvent? && x.fill.side == side then x.fill.quantity else 0.0
  {
    assert [x, y][1..] == [y] && [y][1..] == [];
    assert FilledOn([y], side) == 0.0 + FilledOn([], side);
  }

  /** An applied step publishes the Fill of q on the order's side and the order's update. */
  lemma StepFillEvents(c: Config, b: Broker, id: string, top: OrderBookTop, ask: real, bid: real, now: Ticks)
    requires id in b.orders && id in b.remaining && b.remaining[id] > 0.0
    requires var o := b.orders[id];
      var q := Min(b.remaining[id], if o.side == Buy then ask else bid);
      Crosses(o, top) && q > 0.0
      && TryFill(b, id, ApplySlippage(c.slippageBps, TouchPrice(top, o.side), o.side), q, FeeRateFor(c, o.orderType), now).ok
    ensures var r := Step(c, b, id, top, ask, bid, now);
      var o := b.orders[id];
      var q := Min(b.remaining[id], if o.side == Buy then ask else bid);
      Extends(b, r.state) && |Published(b, r.state)| == 2
      && Published(b, r.state)[0].FillEvent? && Published(b, r.state)[0].fill.side == o.side
      && Published(b, r.state)[0].fill.quantity == q && !Published(b, r.state)[1].FillEvent?
      && id in r.state.orders && r.state.orders[id].filledQuantity == o.filledQuantity + q
  {
    var o := b.orders[id];
    var q := Min(b.remaining[id], if o.side == Buy then ask else bid);
    TryFillEffect(b, id, ApplySlippage(c.slippageBps, TouchPrice(top, o.side), o.side), q, FeeRateFor(c, o.orderType), now);
  }

  /** A rejected step publishes no Fill. */
  lemma StepRejectEvents(c: Config, b: Broker, id: string, top: OrderBookTop, ask: real, bid: real, now: Ticks)
    requires id in b.orders && id in b.remaining && b.remaining[id] > 0.0
    requires var o := b.orders[id];
      var q := Min(b.remaining[id], if o.side == Buy then ask else bid);
      Crosses(o, top) && q > 0.0
      && !TryFill(b, id, ApplySlippage(c.slippageBps, TouchPrice(top, o.side), o.side), q, FeeRateFor(c, o.orderType), now).ok
    ensures var r := Step(c, b, id, top, ask, bid, now);
      Extends(b, r.state) && FilledOn(Published(b, r.state), Buy) == 0.0 && FilledOn(Published(b, r.state), Sell) == 0.0
  {
    var r := Step(c, b, id, top, ask, bid, now);
    var e := Published(b, r.state);
    if Fold(id) in b.orders && !IsDone(b.orders[Fold(id)].status) {
      assert e == [e[0], e[1]];
      FilledOnPair(e[0], e[1], Buy);
      FilledOnPair(e[0], e[1], Sell);
    } else {
      assert e == [];
    }
  }

  /**
   * One matching step takes from the side the order trades against exactly
   * the quantity of the Fill it publishes, and that fill is the smaller of
   * the order's remaining quantity and what the side still offers; the
   * other side is untouched. A rejected fill publishes no Fill.
   */
  lemma StepLiquidity(c: Config, b: Broker, id: string, top: OrderBookTop, ask: real, bid: real, now: Ticks)
    requires id in b.orders && id in b.remaining && b.remaining[id] > 0.0
    ensures var r := Step(c, b, id, top, ask, bid, now);
      var o := b.orders[id];
      var q := Min(b.remaining[id], if o.side == Buy then ask else bid);
      var px := ApplySlippage(c.slippageBps, TouchPrice(top, o.side), o.side);
      var filled := Crosses(o, top) && q > 0.0 && TryFill(b, id, px, q, FeeRateFor(c, o.orderType), now).ok;
      Extends(b, r.state)
      && ask - r.ask == FilledOn(Published(b, r.state), Buy)
      && bid - r.bid == FilledOn(Published(b, r.state), Sell)
      && FilledOn(Published(b, r.state), o.side) == (if filled then q else 0.0)
      && (o.side == Buy ==> r.bid == bid)
      && (o.side == Sell ==> r.ask == ask)
      && (filled ==> 0.0 < q <= b.remaining[id] && id in r.state.orders
                     && r.state.orders[id].filledQuantity == o.filledQuantity + q)
  {
    var r := Step(c, b, id, top, ask, bid, now);
    var o := b.orders[id];
    var q := Min(b.remaining[id], if o.side == Buy then ask else bid);
    var px := ApplySlippage(c.slippageBps, TouchPrice(top, o.side), o.side);
    if Crosses(o, top) && q > 0.0 {
      if TryFill(b, id, px, q, FeeRateFor(c, o.orderType), now).ok {
        StepFillEvents(c, b, id, top, ask, bid, now);
        var e := Published(b, r.state);
        assert e == [e[0], e[1]];
        FilledOnPair(e[0], e[1], Buy);
        FilledOnPair(e[0], e[1], Sell);
      } else {
        StepRejectEvents(c, b, id, top, ask, bid, now);
      }
    } else {
      assert Published(b, r.state) == [];
    }
  }

  /**
   * A scan never trades more than the top of book offers: the Fill
   * quantities it publishes on buy orders add up to at most the ask
   * quantity it starts with, and those on sell orders to at most the bid
   * quantity (nothing when the quantity is not positive).
   */
  lemma {:induction false} ScanLiquidity(c: Config, b: Broker, ids: seq<string>, top: OrderBookTop, ask: real, bid: real, now: Ticks)
    ensures var r := Scan(c, b, ids, top, ask, bid, now);
      Extends(b, r)
      && 0.0 <= FilledOn(Published(b, r), Buy) <= Max(0.0, ask)
      && 0.0 <= FilledOn(Published(b, r), Sell) <= Max(0.0, bid)
    decreases |ids|
  {
    if ids == [] {
      assert Published(b, b) == [];
    } else {
      var id := ids[0];
      if id in b.orders && id in b.remaining && b.remaining[id] > 0.0 {
        var s := Step(c, b, id, top, ask, bid, now);
        var r := Scan(c, s.state, ids[1..], top, s.ask, s.bid, now);
        StepLiquidity(c, b, id, top, ask, bid, now);
        ScanLiquidity(c, s.state, ids[1..], top, s.ask, s.bid, now);
        PublishedJoin(b, s.state, r);
        FilledOnJoin(Published(b, s.state), Published(s.state, r), Buy);
        FilledOnJoin(Published(b, s.state), Published(s.state, r), Sell);
      } else {
        ScanLiquidity(c, b, ids[1..], top, ask, bid, now);
      }
    }
  }

  /**
   * TryMatchUsingTopOfBook never trades more than the book shows: without a
   * book nothing happens; with one, the buy fills add up to at most the best
   * ask quantity and the sell fills to at most the best bid quantity.
   */
  lemma MatchLiquidity(c: Config, b: Broker, symbol: string, book: Option<OrderBookTop>, now: Ticks)
    ensures var r := Match(c, b, symbol, book, now);
      Extends(b, r)
      && (book.None? ==> r == b)
      && (book.Some? ==>
            0.0 <= FilledOn(Published(b, r), Buy) <= Max(0.0, book.value.bestAskQuantity)
            && 0.0 <= FilledOn(Published(b, r), Sell) <= Max(0.0, book.value.bestBidQuantity))
  {
    if book.Some? {
      ScanLiquidity(c, b, OpenIds(b, symbol), book.value, book.value.bestAskQuantity, book.value.bestBidQuantity, now);
    }
  }

  // ---------------------------------------------------------------------
  // The broker's operations
  // ---------------------------------------------------------------------

  function NotStarted(c: Config): string
  {
    c.name + " not started. Call StartAsync()."
  }

  datatype Placed = Placed(outcome: Outcome<OrderAck>, state: Broker)

  /** The order a request creates, before reservation. */
  function NewOrder(req: PlaceOrderRequest, id: string, now: Ticks): OrderState
  {
    OrderState(id, req.symbol, req.side, req.orderType, Accepted, req.quantity, 0.0, req.limitPrice, None,
               now, Some(now), req.clientOrderId)
  }

  predicate ValidRequest(req: PlaceOrderRequest)
  {
    req.quantity > 0.0 && (req.orderType == Limit ==> req.limitPrice.Some? && req.limitPrice.value > 0.0)
  }

  /** The state right after a successful reservation: the order is stored and announced. */
  function Admit(b: Broker, o: OrderState, now: Ticks): Broker
  {
    b.(orders := b.orders[o.orderId := o],
       remaining := b.remaining[o.orderId := o.quantity],
       orderIds := b.orderIds + [o.orderId],
       events := b.events + [OrderUpdatedEvent(now, o)])
  }

  /** IOC and FOK: cancel whatever the immediate match left open. */
  function CancelUnfilled(b: Broker, id: string, tif: TimeInForce, now: Ticks): Broker
  {
    if id in b.orders && GetOrZero(b.remaining, id) > 0.0 && IsOpen(b.orders[id].status)
    then Cancel(b, id, "TIF=" + TifName(tif) + " not fully filled immediately.", now)
    else b
  }

  /** PlaceOrderAsync, with the book and clock reading the market view gives at that moment. */
  function Place(c: Config, b: Broker, req: PlaceOrderRequest, book: Option<OrderBookTop>, now: Ticks): Placed
  {
    if !b.started then Placed(Threw(NotStarted(c)), b)
    else if req.quantity <= 0.0 then
      Placed(Returned(OrderAck(false, None, req.clientOrderId, Some("Quantity must be > 0."))), b)
    else if req.orderType == Limit && (req.limitPrice.None? || req.limitPrice.value <= 0.0) then
      Placed(Returned(OrderAck(false, None, req.clientOrderId, Some("LimitPrice must be set for limit orders."))), b)
    else
      var id := IdOf(b.nextId);
      var o := NewOrder(req, id, now);
      var b1 := b.(nextId := b.nextId + 1);
      match Reserve(c, b1, o, book)
      case Err(e) => Placed(Returned(OrderAck(false, None, req.clientOrderId, Some(e))), b1)
      case Ok(b2) =>
        Placed(Returned(OrderAck(true, Some(id), req.clientOrderId, None)), Immediate(c, Admit(b2, o, now), req, id, book, now))
  }

  /** After storing: market, IOC and FOK orders match at once; IOC and FOK then cancel what is left. */
  function Immediate(c: Config, b: Broker, req: PlaceOrderRequest, id: string, book: Option<OrderBookTop>, now: Ticks): Broker
  {
    var b1 := if req.orderType == Market || req.tif != GTC then Match(c, b, req.symbol, book, now) else b;
    if req.tif != GTC then CancelUnfilled(b1, id, req.tif, now) else b1
  }

  datatype Canceled = CanceledResult(outcome: Outcome<CancelAck>, state: Broker)

  /** CancelOrderAsync. */
  function CancelOrder(c: Config, b: Broker, req: CancelOrderRequest, now: Ticks): Canceled
  {
    if !b.started then CanceledResult(Threw(NotStarted(c)), b)
    else
      var key := Fold(req.orderId);
      if key !in b.orders then
        CanceledResult(Returned(CancelAck(false, req.orderId, Some("Order not found."))), b)
      else if IsDone(b.orders[key].status) then
        CanceledResult(Returned(CancelAck(false, req.orderId,
          Some("Cannot cancel order in state " + StatusName(b.orders[key].status) + "."))), b)
      else
        CanceledResult(Returned(CancelAck(true, req.orderId, None)), Cancel(b, req.orderId, "Canceled by user.", now))
  }

  /** The order ids of every open order, in enumeration order. */
  function OpenOrderIds(ids: seq<string>, orders: map<string, OrderState>): (r: seq<string>)
    ensures forall x :: x in r ==> exists k :: k in ids && k in orders && IsOpen(orders[k].status) && orders[k].orderId == x
  {
    if ids == [] then []
    else
      var rest := OpenOrderIds(ids[1..], orders);
      if ids[0] in orders && IsOpen(orders[ids[0]].status) then [orders[ids[0]].orderId] + rest else rest
  }

  function CancelEach(b: Broker, ids: seq<string>, reason: string, now: Ticks): Broker
    decreases |ids|
  {
    if ids == [] then b else CancelEach(Cancel(b, ids[0], reason, now), ids[1..], reason, now)
  }

  /** CancelAllAsync. */
  function CancelAll(c: Config, b: Broker, now: Ticks): (Outcome<()>, Broker)
  {
    if !b.started then (Threw(NotStarted(c)), b)
    else (Returned(()), CancelEach(b, OpenOrderIds(b.orderIds, b.orders), "Canceled by CancelAll.", now))
  }

  /** OnOrderBookTop: a stopped broker ignores book updates. */
  function OnBook(c: Config, b: Broker, symbol: string, book: Option<OrderBookTop>, now: Ticks): Broker
  {
    if !b.started then b else Match(c, b, symbol, book, now)
  }

  /** GetAccountAsync's item for a held position: its quantity, and what is not reserved by open sells (never below 0). */
  function PositionBalance(b: Broker, k: string): BalanceItem
    requires k in b.positions
  {
    var e := b.positions[k];
    BalanceItem(e.key, e.value.quantity, Max(0.0, e.value.quantity - GetOrZero(b.coinReserved, Fold(e.key))))
  }

  /** The items of the positions filed under `keys`, in that order. */
  function PositionBalancesOf(b: Broker, keys: seq<string>): seq<BalanceItem>
    requires forall k :: k in keys ==> k in b.positions
  {
    if keys == [] then []
    else PositionBalancesOf(b, keys[..|keys| - 1]) + [PositionBalance(b, keys[|keys| - 1])]
  }
}
