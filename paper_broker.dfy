/**
 * PaperBroker as the class it is: balances, positions and the per-order
 * dictionaries are fields that its methods update in place, in the order the
 * source does. Every method is proved to leave the broker in the state the
 * functions of PaperBrokerSpec compute from the state it started in, and the
 * public operations keep the invariants of PaperBrokerInvariants.
 *
 * The market view the broker consults (its clock and last top of book) is
 * read by the caller and passed in as `now` and `book`; the event subject is
 * the `events` sequence, to which publishing appends.
 */
module PaperBrokerClass {
  import opened Common
  import opened Orders
  import opened MarketData
  import opened PaperBrokerSpec
  import opened PaperBrokerInvariants

  class PaperBroker {
    const config: Config

    var krwTotal: real
    var krwAvailable: real
    var krwReserved: real
    var positions: CIMap<Position>
    var coinReserved: map<string, real>
    var orders: map<string, OrderState>
    var orderIds: seq<string>
    var remaining: map<string, real>
    var reservedKrw: map<string, real>
    var reservedCoin: map<string, real>
    var started: bool
    var nextId: nat
    var events: seq<BrokerEvent>

    /** The broker's fields as one value of the specification's state. */
    ghost function State(): Broker
      reads this
    {
      Broker(krwTotal, krwAvailable, krwReserved, positions, coinReserved, orders, orderIds, remaining,
             reservedKrw, reservedCoin, started, nextId, events)
    }

    ghost predicate Valid()
      reads this
    {
      Inv(State())
    }

    constructor (name: string, initialKrw: real, takerFeeRate: real, makerFeeRate: real, slippageBps: real)
      ensures config == Config(name, takerFeeRate, makerFeeRate, slippageBps)
      ensures State() == Initial(initialKrw) && Valid()
    {
      config := Config(name, takerFeeRate, makerFeeRate, slippageBps);
      krwTotal := initialKrw;
      krwAvailable := initialKrw;
      krwReserved := 0.0;
      positions := map[];
      coinReserved := map[];
      orders := map[];
      orderIds := [];
      remaining := map[];
      reservedKrw := map[];
      reservedCoin := map[];
      started := false;
      nextId := 0;
      events := [];
      new;
      InitialInv(initialKrw);
    }

    method Start()
      requires Valid()
      modifies this
      ensures State() == old(State()).(started := true) && Valid()
    {
      started := true;
      StartedEventsInv(old(State()), true, events);
    }

    method Stop()
      requires Valid()
      modifies this
      ensures State() == old(State()).(started := false) && Valid()
    {
      started := false;
      StartedEventsInv(old(State()), false, events);
    }

    // -------------------------------------------------------------------
    // Reserve / release / cancel / reject
    // -------------------------------------------------------------------

    /** TryReserveForOrder: on success the reservation is made, on failure nothing changes. */
    method TryReserve(o: OrderState, book: Option<OrderBookTop>) returns (error: Option<string>)
      requires o.orderType == Limit ==> o.limitPrice.Some?
      modifies this
      ensures Reserve(config, old(State()), o, book).Ok? ==> error.None? && State() == Reserve(config, old(State()), o, book).value
      ensures Reserve(config, old(State()), o, book).Err? ==>
        error == Some(Reserve(config, old(State()), o, book).message) && State() == old(State())
    {
      if book.None? {
        return Some("No orderbook available for reserve.");
      }
      if o.side == Buy {
        error := ReserveKrw(o, book.value);
      } else {
        error := ReserveCoin(o, book.value);
      }
    }

    /** The buy half of TryReserveForOrder: price times quantity plus the fee on it, out of available KRW. */
    method ReserveKrw(o: OrderState, top: OrderBookTop) returns (error: Option<string>)
      requires o.side == Buy && (o.orderType == Limit ==> o.limitPrice.Some?)
      modifies this
      ensures Reserve(config, old(State()), o, Some(top)).Ok? ==> error.None? && State() == Reserve(config, old(State()), o, Some(top)).value
      ensures Reserve(config, old(State()), o, Some(top)).Err? ==>
        error == Some(Reserve(config, old(State()), o, Some(top)).message) && State() == old(State())
    {
      var px := if o.orderType == Limit then o.limitPrice.value else top.bestAskPrice;
      var feeRate := FeeRateFor(config, o.orderType);
      var notional := px * o.quantity;
      var fee := notional * feeRate;
      var reserve := notional + fee;
      if krwAvailable < reserve {
        return Some("Insufficient KRW.");
      }
      krwAvailable := krwAvailable - reserve;
      krwReserved := krwReserved + reserve;
      reservedKrw := reservedKrw[o.orderId := reserve];
      return None;
    }

    /** The sell half of TryReserveForOrder: the quantity, out of the position not yet promised to other sells. */
    method ReserveCoin(o: OrderState, ghost top: OrderBookTop) returns (error: Option<string>)
      requires o.side == Sell && (o.orderType == Limit ==> o.limitPrice.Some?)
      modifies this
      ensures Reserve(config, old(State()), o, Some(top)).Ok? ==> error.None? && State() == Reserve(config, old(State()), o, Some(top)).value
      ensures Reserve(config, old(State()), o, Some(top)).Err? ==>
        error == Some(Reserve(config, old(State()), o, Some(top)).message) && State() == old(State())
    {
      var pos := CIFind(positions, o.symbol);
      if pos.None? || pos.value.quantity <= 0.0 {
        return Some("No position to sell.");
      }
      var alreadyRes := GetOrZero(coinReserved, Fold(o.symbol));
      var avail := pos.value.quantity - alreadyRes;
      if avail < o.quantity {
        return Some("Insufficient available position (reserved by other orders).");
      }
      coinReserved := coinReserved[Fold(o.symbol) := alreadyRes + o.quantity];
      reservedCoin := reservedCoin[o.orderId := o.quantity];
      return None;
    }

    /** ReleaseRemainderLocked: the KRW reservation, then the coin reservation, then the remaining quantity. */
    method ReleaseRemainder(id: string)
      modifies this
      ensures State() == Release(old(State()), id)
    {
      ReleaseKrwReservation(id);
      ReleaseCoinReservation(id);
      remaining := remaining - {id};
    }

    method ReleaseKrwReservation(id: string)
      modifies this
      ensures State() == ReleaseKrw(old(State()), id)
    {
      if id in reservedKrw && reservedKrw[id] > 0.0 {
        var krw := reservedKrw[id];
        reservedKrw := reservedKrw - {id};
        krwReserved := krwReserved - krw;
        krwAvailable := krwAvailable + krw;
      }
    }

    method ReleaseCoinReservation(id: string)
      modifies this
      ensures State() == ReleaseCoin(old(State()), id)
    {
      if id in reservedCoin && reservedCoin[id] > 0.0 {
        var coin := reservedCoin[id];
        reservedCoin := reservedCoin - {id};
        if id in orders {
          var sym := orders[id].symbol;
          var cur := GetOrZero(coinReserved, Fold(sym));
          coinReserved := coinReserved[Fold(sym) := Max(0.0, cur - coin)];
        }
      }
    }

    /**
     * CancelInternal (status Canceled, verb "canceled") and RejectInternal
     * (status Rejected, verb "rejected"): the two differ only in these.
     */
    method CloseInternal(orderId: string, status: OrderStatus, verb: string, reason: string, now: Ticks)
      modifies this
      ensures State() == Close(old(State()), orderId, status, verb, reason, now)
    {
      var key := Fold(orderId);
      if key !in orders || IsDone(orders[key].status) {
        return;
      }
      var closed := orders[key].(status := status, updatedUtc := Some(now));
      orders := orders[key := closed];
      ReleaseRemainder(key);
      events := events + [OrderUpdatedEvent(now, closed),
                          BrokerErrorEvent(now, "Order " + verb + ": " + reason + " (orderId=" + orderId + ")", None)];
    }

    // -------------------------------------------------------------------
    // Fills
    // -------------------------------------------------------------------

    /**
     * TryFill: fills min(fillQty, remaining) of a live order at `price`,
     * paying `feeRate` on the notional; false, with nothing changed, when the
     * order is unknown, final or exhausted or its reservation cannot pay.
     */
    method TryFill(id: string, price: real, fillQty: real, feeRate: real, now: Ticks) returns (ok: bool)
      modifies this
      ensures ok == PaperBrokerSpec.TryFill(old(State()), id, price, fillQty, feeRate, now).ok
      ensures State() == PaperBrokerSpec.TryFill(old(State()), id, price, fillQty, feeRate, now).state
    {
      if id !in orders {
        return false;
      }
      var o := orders[id];
      if IsDone(o.status) {
        return false;
      }
      if id !in remaining || remaining[id] <= 0.0 {
        return false;
      }
      if fillQty <= 0.0 {
        return true;
      }
      var rem := remaining[id];
      var qty := Min(fillQty, rem);
      var notional := Notional(price, qty);
      var fee := FeeOf(price, qty, feeRate);
      TryFillLive(State(), id, price, fillQty, feeRate, now);
      ok := ApplyFill(id, o, rem, price, qty, notional, fee, now);
    }

    /** The fill proper: the side's money leg, then, if it could pay, the order's side and release once Filled. */
    method ApplyFill(id: string, o: OrderState, rem: real, price: real, qty: real, notional: real, fee: real, now: Ticks)
      returns (ok: bool)
      requires id in orders && id in remaining && o == orders[id] && rem == remaining[id] && qty > 0.0
      requires notional == Notional(price, qty)
      modifies this
      ensures ok == FillLeg(old(State()), id, price, qty, fee).Some?
      ensures State() == FillOutcome(old(State()), id, price, qty, fee, now)
    {
      if o.side == Buy {
        ok := FillBuyLeg(id, o, price, qty, notional, fee);
      } else {
        ok := FillSellLeg(id, o, qty, notional, fee);
      }
      if !ok {
        return;
      }
      RecordFill(id, o, rem, price, qty, fee, now);
      if orders[id].status == Filled {
        ReleaseRemainder(id);
      }
    }

    /** A buy fill pays notional plus fee out of the order's KRW reservation and grows the position. */
    method FillBuyLeg(id: string, o: OrderState, price: real, qty: real, notional: real, fee: real) returns (ok: bool)
      modifies this
      ensures ok == BuyLeg(old(State()), id, o, price, qty, notional, fee).Some?
      ensures ok ==> State() == BuyLeg(old(State()), id, o, price, qty, notional, fee).value
      ensures !ok ==> State() == old(State())
    {
      if id !in reservedKrw || reservedKrw[id] <= 0.0 {
        return false;
      }
      var resKrw := reservedKrw[id];
      var spend := notional + fee;
      if resKrw < spend {
        return false;
      }
      reservedKrw := reservedKrw[id := resKrw - spend];
      krwReserved := krwReserved - spend;
      krwTotal := krwTotal - spend;
      positions := CIPut(positions, o.symbol, BoughtPosition(positions, o.symbol, price, qty));
      return true;
    }

    /** A sell fill takes the quantity out of the order's coin reservation and the position and credits the proceeds. */
    method FillSellLeg(id: string, o: OrderState, qty: real, notional: real, fee: real) returns (ok: bool)
      modifies this
      ensures ok == SellLeg(old(State()), id, o, qty, notional, fee).Some?
      ensures ok ==> State() == SellLeg(old(State()), id, o, qty, notional, fee).value
      ensures !ok ==> State() == old(State())
    {
      if id !in reservedCoin || reservedCoin[id] < qty {
        return false;
      }
      var pos := CIFind(positions, o.symbol);
      if pos.None? || pos.value.quantity < qty {
        return false;
      }
      TakeSoldCoin(id, o.symbol, qty);
      var proceeds := notional - fee;
      krwAvailable := krwAvailable + proceeds;
      krwTotal := krwTotal + proceeds;
      return true;
    }

    /** The coin side of a sell fill: the order's and the symbol's reservations and the position shrink by `qty`. */
    method TakeSoldCoin(id: string, symbol: string, qty: real)
      requires id in reservedCoin && CIFind(positions, symbol).Some?
      modifies this
      ensures State() == old(State()).(reservedCoin := old(reservedCoin)[id := old(reservedCoin)[id] - qty],
                                       coinReserved := old(coinReserved)[Fold(symbol) := Max(0.0, CoinReservedFor(old(State()), symbol) - qty)],
                                       positions := SoldPositions(old(positions), symbol, qty))
    {
      reservedCoin := reservedCoin[id := reservedCoin[id] - qty];
      var curRes := GetOrZero(coinReserved, Fold(symbol));
      coinReserved := coinReserved[Fold(symbol) := Max(0.0, curRes - qty)];
      positions := SoldPositions(positions, symbol, qty);
    }

    /** The order's side of a fill: its remaining quantity and new state, a fresh trade id and the two events. */
    method RecordFill(id: string, o: OrderState, rem: real, price: real, qty: real, fee: real, now: Ticks)
      requires qty > 0.0
      modifies this
      ensures State() == Settled(old(State()), id, o, rem, price, qty, fee, now)
    {
      remaining := remaining[id := rem - qty];
      var updated := FilledOrder(o, rem, price, qty, now);
      orders := orders[id := updated];
      var fill := Fill(id, o.symbol, o.side, price, qty, fee, "KRW", now, Some(IdOf(nextId)));
      nextId := nextId + 1;
      events := events + [FillEvent(now, fill), OrderUpdatedEvent(now, updated)];
    }

    // -------------------------------------------------------------------
    // Matching against the top of book
    // -------------------------------------------------------------------

    /**
     * One iteration of TryMatchUsingTopOfBook's loop for an order with
     * quantity left: a market order takes what the touch offers at the taker
     * fee, a limit order only when its price reaches the touch and at the
     * maker fee; a fill that cannot be paid rejects the order.
     */
    method StepOrder(id: string, top: OrderBookTop, askAvail: real, bidAvail: real, now: Ticks)
      returns (ask: real, bid: real)
      requires id in orders && id in remaining && remaining[id] > 0.0
      modifies this
      ensures StepResult(State(), ask, bid) == Step(config, old(State()), id, top, askAvail, bidAvail, now)
    {
      var o := orders[id];
      var rem := remaining[id];
      ask, bid := askAvail, bidAvail;
      if o.orderType == Market {
        var fillQty := if o.side == Buy then Min(rem, askAvail) else Min(rem, bidAvail);
        if fillQty <= 0.0 {
          return;
        }
        var px := if o.side == Buy then top.bestAskPrice else top.bestBidPrice;
        px := ApplySlippage(config.slippageBps, px, o.side);
        var ok := TryFill(id, px, fillQty, config.takerFeeRate, now);
        if !ok {
          CloseInternal(id, Rejected, "rejected", "Insufficient funds/position during market fill.", now);
          return;
        }
        if o.side == Buy { ask := ask - fillQty; } else { bid := bid - fillQty; }
        return;
      }
      if o.limitPrice.None? {
        return;
      }
      var lp := o.limitPrice.value;
      var canFill := if o.side == Buy then lp >= top.bestAskPrice else lp <= top.bestBidPrice;
      if !canFill {
        return;
      }
      var maxQty := if o.side == Buy then askAvail else bidAvail;
      var qty := Min(rem, maxQty);
      if qty <= 0.0 {
        return;
      }
      var price := if o.side == Buy then top.bestAskPrice else top.bestBidPrice;
      price := ApplySlippage(config.slippageBps, price, o.side);
      var ok := TryFill(id, price, qty, config.makerFeeRate, now);
      if !ok {
        CloseInternal(id, Rejected, "rejected", "Insufficient funds/position during limit fill.", now);
        return;
      }
      if o.side == Buy { ask := ask - qty; } else { bid := bid - qty; }
    }

    /**
     * TryMatchUsingTopOfBook: the symbol's open orders, oldest first, each
     * matched against what is left of the top of book's quantities.
     */
    method MatchTopOfBook(symbol: string, book: Option<OrderBookTop>, now: Ticks)
      modifies this
      ensures State() == Match(config, old(State()), symbol, book, now)
    {
      if book.None? {
        return;
      }
      var top := book.value;
      var openIds := SortByCreated(OpenOn(orderIds, orders, symbol), orders);
      var askAvail := top.bestAskQuantity;
      var bidAvail := top.bestBidQuantity;
      var i := 0;
      while i < |openIds|
        invariant 0 <= i <= |openIds|
        invariant Scan(config, State(), openIds[i..], top, askAvail, bidAvail, now) == Match(config, old(State()), symbol, book, now)
      {
        var id := openIds[i];
        assert openIds[i..][1..] == openIds[i + 1..];
        if id in orders && id in remaining && remaining[id] > 0.0 {
          askAvail, bidAvail := StepOrder(id, top, askAvail, bidAvail, now);
        }
        i := i + 1;
      }
    }

    /** OnOrderBookTop: a started broker matches the symbol's open orders against the new book. */
    method OnOrderBookTop(symbol: string, book: Option<OrderBookTop>, now: Ticks)
      requires Valid()
      modifies this
      ensures State() == OnBook(config, old(State()), symbol, book, now) && Valid()
    {
      if started {
        MatchTopOfBook(symbol, book, now);
      }
      OnBookInv(config, old(State()), symbol, book, now);
    }

    // -------------------------------------------------------------------
    // The broker's operations
    // -------------------------------------------------------------------

    /**
     * PlaceOrderAsync: validate, take a fresh id, reserve, store and announce
     * the order; market, IOC and FOK orders then match at once, and IOC and
     * FOK cancel what is left. A stopped broker throws.
     */
    method PlaceOrder(req: PlaceOrderRequest, book: Option<OrderBookTop>, now: Ticks) returns (r: Outcome<OrderAck>)
      requires Valid()
      modifies this
      ensures r == Place(config, old(State()), req, book, now).outcome
      ensures State() == Place(config, old(State()), req, book, now).state && Valid()
    {
      if !started {
        return Threw(NotStarted(config));
      }
      if req.quantity <= 0.0 {
        return Returned(OrderAck(false, None, req.clientOrderId, Some("Quantity must be > 0.")));
      }
      if req.orderType == Limit && (req.limitPrice.None? || req.limitPrice.value <= 0.0) {
        return Returned(OrderAck(false, None, req.clientOrderId, Some("LimitPrice must be set for limit orders.")));
      }
      var id := IdOf(nextId);
      nextId := nextId + 1;
      var state := NewOrder(req, id, now);
      var err := TryReserve(state, book);
      if err.Some? {
        PlaceInv(config, old(State()), req, book, now);
        return Returned(OrderAck(false, None, req.clientOrderId, err));
      }
      StoreOrder(state, now);
      ExecuteImmediately(req, id, book, now);
      PlaceInv(config, old(State()), req, book, now);
      r := Returned(OrderAck(true, Some(id), req.clientOrderId, None));
    }

    /** What follows storing: market, IOC and FOK orders match at once; IOC and FOK then cancel what is left. */
    method ExecuteImmediately(req: PlaceOrderRequest, id: string, book: Option<OrderBookTop>, now: Ticks)
      modifies this
      ensures State() == Immediate(config, old(State()), req, id, book, now)
    {
      if req.orderType == Market || req.tif == IOC || req.tif == FOK {
        MatchTopOfBook(req.symbol, book, now);
        if req.tif == IOC || req.tif == FOK {
          CancelIfUnfilled(id, req.tif, now);
        }
      }
    }

    /** Stores a reserved order with its full quantity remaining and publishes its first update. */
    method StoreOrder(o: OrderState, now: Ticks)
      modifies this
      ensures State() == Admit(old(State()), o, now)
    {
      orders := orders[o.orderId := o];
      remaining := remaining[o.orderId := o.quantity];
      orderIds := orderIds + [o.orderId];
      events := events + [OrderUpdatedEvent(now, o)];
    }

    /** IOC and FOK: an order the immediate match left open with quantity remaining is canceled. */
    method CancelIfUnfilled(id: string, tif: TimeInForce, now: Ticks)
      modifies this
      ensures State() == CancelUnfilled(old(State()), id, tif, now)
    {
      if id in orders {
        var rem := GetOrZero(remaining, id);
        if rem > 0.0 && IsOpen(orders[id].status) {
          CloseInternal(id, Canceled, "canceled", "TIF=" + TifName(tif) + " not fully filled immediately.", now);
        }
      }
    }

    /** CancelOrderAsync. */
    method CancelOrder(req: CancelOrderRequest, now: Ticks) returns (r: Outcome<CancelAck>)
      requires Valid()
      modifies this
      ensures r == PaperBrokerSpec.CancelOrder(config, old(State()), req, now).outcome
      ensures State() == PaperBrokerSpec.CancelOrder(config, old(State()), req, now).state && Valid()
    {
      CancelOrderInv(config, State(), req, now);
      if !started {
        return Threw(NotStarted(config));
      }
      var key := Fold(req.orderId);
      if key !in orders {
        return Returned(CancelAck(false, req.orderId, Some("Order not found.")));
      }
      var o := orders[key];
      if IsDone(o.status) {
        return Returned(CancelAck(false, req.orderId, Some("Cannot cancel order in state " + StatusName(o.status) + ".")));
      }
      CloseInternal(req.orderId, Canceled, "canceled", "Canceled by user.", now);
      return Returned(CancelAck(true, req.orderId, None));
    }

    /** CancelAllAsync: cancels every open order, in the dictionary's enumeration order. */
    method CancelAll(now: Ticks) returns (r: Outcome<()>)
      requires Valid()
      modifies this
      ensures r == PaperBrokerSpec.CancelAll(config, old(State()), now).0
      ensures State() == PaperBrokerSpec.CancelAll(config, old(State()), now).1 && Valid()
    {
      CancelAllInv(config, State(), now);
      if !started {
        return Threw(NotStarted(config));
      }
      var openOrderIds := OpenOrderIds(orderIds, orders);
      var i := 0;
      while i < |openOrderIds|
        invariant 0 <= i <= |openOrderIds|
        invariant CancelEach(State(), openOrderIds[i..], "Canceled by CancelAll.", now)
               == CancelEach(old(State()), openOrderIds, "Canceled by CancelAll.", now)
      {
        assert openOrderIds[i..][1..] == openOrderIds[i + 1..];
        CloseInternal(openOrderIds[i], Canceled, "canceled", "Canceled by CancelAll.", now);
        i := i + 1;
      }
      return Returned(());
    }

    /** GetOrderAsync: the order filed under the id, compared ignoring case. */
    method GetOrder(orderId: string) returns (r: Option<OrderState>)
      requires Valid()
      ensures r.None? <==> forall x :: x in orders ==> Fold(orders[x].orderId) != Fold(orderId)
      ensures r.Some? ==> r.value in orders.Values && Fold(r.value.orderId) == Fold(orderId)
    {
      var key := Fold(orderId);
      if key in orders {
        FoldIdempotent(orderId);
        r := Some(orders[key]);
      } else {
        r := None;
      }
    }

    /** GetOpenOrdersAsync: every open order on the symbol, once each, oldest first. */
    method GetOpenOrders(symbol: string) returns (r: seq<OrderState>)
      requires Valid()
      ensures forall o :: o in r <==> o in orders.Values && OnSymbol(o, symbol) && IsOpen(o.status)
      ensures forall i, j :: 0 <= i < j < |r| ==> r[i].createdUtc <= r[j].createdUtc
      ensures forall i, j :: 0 <= i < j < |r| ==> r[i].orderId != r[j].orderId
    {
      var ids := SortByCreated(OpenOn(orderIds, orders, symbol), orders);
      OpenIdsFacts(State(), symbol);
      OpenIdsDistinct(State(), symbol);
      var book := orders;
      r := seq(|ids|, i requires 0 <= i < |ids| && ids[i] in book => book[ids[i]]);
      forall o | o in orders.Values && OnSymbol(o, symbol) && IsOpen(o.status)
        ensures o in r
      {
        var x :| x in orders && orders[x] == o;
        assert Listed(State(), x);
        var i :| 0 <= i < |ids| && ids[i] == x;
        assert r[i] == o;
      }
      forall i, j | 0 <= i < j < |r|
        ensures r[i].createdUtc <= r[j].createdUtc
      {
        assert CreatedAt(orders, ids[i]) <= CreatedAt(orders, ids[j]);
      }
    }

    /** GetPositionAsync: the position held in the symbol, compared ignoring case. */
    method GetPosition(symbol: string) returns (r: Option<Position>)
      requires Valid()
      ensures r.Some? <==> exists k :: k in positions && Fold(positions[k].key) == Fold(symbol)
      ensures r.Some? ==> r.value == positions[Fold(symbol)].value
    {
      r := CIFind(positions, symbol);
      if r.None? {
        forall k | k in positions
          ensures Fold(positions[k].key) != Fold(symbol)
        {
          assert Fold(positions[k].key) == k;
        }
      }
    }

    /**
     * GetAccountAsync: KRW first, then one item per held position, in the
     * dictionary's enumeration order, which the model leaves open: `order`
     * is that enumeration, each key once.
     */
    method GetAccount(now: Ticks) returns (snap: AccountSnapshot, ghost order: seq<string>)
      ensures Distinct(order) && forall k :: k in order <==> k in positions
      ensures snap == AccountSnapshot(now, [BalanceItem("KRW", krwTotal, krwAvailable)] + PositionBalancesOf(State(), order))
    {
      var balances := [BalanceItem("KRW", krwTotal, krwAvailable)];
      var keys := positions.Keys;
      order := [];
      while keys != {}
        invariant keys <= positions.Keys
        invariant Distinct(order) && forall k :: k in order ==> k in positions
        invariant forall k :: k in positions ==> (k in order <==> k !in keys)
        invariant balances == [BalanceItem("KRW", krwTotal, krwAvailable)] + PositionBalancesOf(State(), order)
        decreases |keys|
      {
        var k :| k in keys;
        var entry := positions[k];
        var reserved := GetOrZero(coinReserved, Fold(entry.key));
        var avail := Max(0.0, entry.value.quantity - reserved);
        balances := balances + [BalanceItem(entry.key, entry.value.quantity, avail)];
        keys := keys - {k};
        order := order + [k];
      }
      snap := AccountSnapshot(now, balances);
    }
  }
}
