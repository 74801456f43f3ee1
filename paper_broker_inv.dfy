/**
 * The broker's bookkeeping invariants and their preservation by every
 * operation: total KRW is available plus reserved, reserved KRW is the sum of
 * the per-order KRW reservations, each symbol's reserved coin is the sum of
 * the per-order coin reservations on that symbol, and every order's status,
 * remaining quantity and reservations agree with each other.
 */
module PaperBrokerInvariants {
  import opened Common
  import opened Orders
  import opened MarketData
  import opened PaperBrokerSpec

  // ---------------------------------------------------------------------
  // Sums over the order dictionary
  // ---------------------------------------------------------------------

  ghost predicate Distinct(ids: seq<string>)
  {
    forall i, j :: 0 <= i < j < |ids| ==> ids[i] != ids[j]
  }

  /** The KRW reservations of the ids, summed. */
  function KrwSumOf(ids: seq<string>, reservedKrw: map<string, real>): real
  {
    if ids == [] then 0.0 else KrwSumOf(ids[..|ids| - 1], reservedKrw) + GetOrZero(reservedKrw, ids[|ids| - 1])
  }

  /** The coin an order reserves on `symbol`: its reservation if it is on that symbol, else 0. */
  function CoinOf(orders: map<string, OrderState>, reservedCoin: map<string, real>, symbol: string, x: string): real
  {
    if x in orders && Fold(orders[x].symbol) == Fold(symbol) then GetOrZero(reservedCoin, x) else 0.0
  }

  /** The coin reservations of the ids on `symbol`, summed. */
  function CoinSumOf(ids: seq<string>, orders: map<string, OrderState>, reservedCoin: map<string, real>, symbol: string): real
  {
    if ids == [] then 0.0
    else CoinSumOf(ids[..|ids| - 1], orders, reservedCoin, symbol) + CoinOf(orders, reservedCoin, symbol, ids[|ids| - 1])
  }

  lemma DistinctInit(ids: seq<string>)
    requires Distinct(ids) && ids != []
    ensures Distinct(ids[..|ids| - 1]) && ids[|ids| - 1] !in ids[..|ids| - 1]
    ensures forall x :: x in ids <==> x in ids[..|ids| - 1] || x == ids[|ids| - 1]
  {
    assert ids == ids[..|ids| - 1] + [ids[|ids| - 1]];
  }

  /** Changing one order's KRW reservation changes the sum by exactly the difference. */
  lemma {:induction false} KrwSumPointwise(ids: seq<string>, m: map<string, real>, m': map<string, real>, k: string)
    requires Distinct(ids)
    requires forall x :: x != k ==> GetOrZero(m, x) == GetOrZero(m', x)
    ensures KrwSumOf(ids, m') == KrwSumOf(ids, m) + (if k in ids then GetOrZero(m', k) - GetOrZero(m, k) else 0.0)
  {
    if ids != [] {
      DistinctInit(ids);
      KrwSumPointwise(ids[..|ids| - 1], m, m', k);
    }
  }

  /** Changing one order's coin term changes the sum by exactly the difference. */
  lemma {:induction false} CoinSumPointwise(ids: seq<string>, orders: map<string, OrderState>, m: map<string, real>,
                                            orders': map<string, OrderState>, m': map<string, real>, symbol: string, k: string)
    requires Distinct(ids)
    requires forall x :: x != k ==> CoinOf(orders, m, symbol, x) == CoinOf(orders', m', symbol, x)
    ensures CoinSumOf(ids, orders', m', symbol) == CoinSumOf(ids, orders, m, symbol)
              + (if k in ids then CoinOf(orders', m', symbol, k) - CoinOf(orders, m, symbol, k) else 0.0)
  {
    if ids != [] {
      DistinctInit(ids);
      CoinSumPointwise(ids[..|ids| - 1], orders, m, orders', m', symbol, k);
    }
  }

  /** With non-negative reservations the sum is at least each order's term. */
  lemma {:induction false} CoinSumAtLeast(ids: seq<string>, orders: map<string, OrderState>, m: map<string, real>, symbol: string, k: string)
    requires forall x :: x in m ==> m[x] >= 0.0
    ensures CoinSumOf(ids, orders, m, symbol) >= 0.0
    ensures k in ids ==> CoinSumOf(ids, orders, m, symbol) >= CoinOf(orders, m, symbol, k)
  {
    if ids != [] {
      var init := ids[..|ids| - 1];
      assert ids == init + [ids[|ids| - 1]];
      CoinSumAtLeast(init, orders, m, symbol, k);
    }
  }

  function KrwSum(b: Broker): real
  {
    KrwSumOf(b.orderIds, b.reservedKrw)
  }

  function CoinSum(b: Broker, symbol: string): real
  {
    CoinSumOf(b.orderIds, b.orders, b.reservedCoin, symbol)
  }

  // ---------------------------------------------------------------------
  // The invariants
  // ---------------------------------------------------------------------

  /** The dictionary enumerates x. */
  predicate Listed(b: Broker, x: string)
  {
    x in b.orderIds
  }

  /**
   * The order dictionary: `orderIds` enumerates exactly its keys once each,
   * every per-order table is keyed by known orders, a key is its own folded
   * spelling and its order's id, and no id the counter will still produce
   * is taken.
   */
  ghost predicate BookWf(b: Broker)
  {
    Distinct(b.orderIds)
    && (forall x {:trigger Listed(b, x)} :: Listed(b, x) <==> x in b.orders)
    && (forall x :: x in b.orders ==> Fold(x) == x && b.orders[x].orderId == x)
    && b.remaining.Keys <= b.orders.Keys
    && b.reservedKrw.Keys <= b.orders.Keys
    && b.reservedCoin.Keys <= b.orders.Keys
    && (forall x :: x in b.orders ==> IdNumber(x) < b.nextId)
  }

  /**
   * Every stored order is open or final; it has a remaining quantity exactly
   * when it is open, and then filled plus remaining is its quantity; a Filled
   * order is filled completely; a final order holds no reservation.
   */
  ghost predicate OrdersWf(b: Broker)
  {
    forall x {:trigger OrderWf(b, x)} :: x in b.orders ==> OrderWf(b, x)
  }

  ghost predicate OrderWf(b: Broker, x: string)
    requires x in b.orders
  {
    var o := b.orders[x];
    (IsOpen(o.status) || IsDone(o.status))
    && (x in b.remaining <==> IsOpen(o.status))
    && (x in b.remaining ==> b.remaining[x] > 0.0 && o.filledQuantity + b.remaining[x] == o.quantity)
    && (o.status == Filled ==> o.filledQuantity == o.quantity)
    && (IsDone(o.status) ==> GetOrZero(b.reservedKrw, x) <= 0.0 && GetOrZero(b.reservedCoin, x) <= 0.0)
  }

  /** The three money invariants of the broker. */
  ghost predicate MoneyInv(b: Broker)
  {
    b.krwTotal == b.krwAvailable + b.krwReserved
    && b.krwReserved == KrwSum(b)
    && (forall x :: x in b.reservedCoin ==> b.reservedCoin[x] >= 0.0)
    && (forall symbol :: CoinReservedFor(b, symbol) == CoinSum(b, symbol))
  }

  /** Positions are filed under their folded symbol and only a position with coin in it is kept. */
  ghost predicate PositionsWf(b: Broker)
  {
    HeldWf(b.positions)
  }

  ghost predicate HeldWf(positions: CIMap<Position>)
  {
    CIValid(positions) && forall k :: k in positions ==> positions[k].value.quantity > 0.0
  }

  ghost predicate Inv(b: Broker)
  {
    BookWf(b) && OrdersWf(b) && MoneyInv(b) && PositionsWf(b)
  }

  // ---------------------------------------------------------------------
  // Frames
  // ---------------------------------------------------------------------

  /** Changing orders in place, without adding or removing any, keeps the dictionary well formed. */
  lemma {:induction false} BookFrame(b: Broker, r: Broker)
    requires BookWf(b)
    requires r.orderIds == b.orderIds && r.orders.Keys == b.orders.Keys
    requires forall x :: x in b.orders ==> r.orders[x].orderId == b.orders[x].orderId
    requires r.remaining.Keys <= b.orders.Keys && r.reservedKrw.Keys <= b.orders.Keys && r.reservedCoin.Keys <= b.orders.Keys
    requires r.nextId >= b.nextId
    ensures BookWf(r)
  {
    forall x | x in r.orders ensures Fold(x) == x && r.orders[x].orderId == x && IdNumber(x) < r.nextId {
      assert x in b.orders;
    }
    forall x ensures Listed(r, x) <==> x in r.orders {
      assert Listed(b, x) <==> x in b.orders;
    }
  }

  /** A step that moves no money and keeps every order on its symbol keeps the money invariants. */
  lemma {:induction false} MoneyFrame(b: Broker, r: Broker)
    requires MoneyInv(b) && Distinct(b.orderIds)
    requires r.krwTotal == b.krwTotal && r.krwAvailable == b.krwAvailable && r.krwReserved == b.krwReserved
    requires r.orderIds == b.orderIds && r.reservedKrw == b.reservedKrw
    requires r.reservedCoin == b.reservedCoin && r.coinReserved == b.coinReserved
    requires r.orders.Keys == b.orders.Keys
    requires forall x :: x in b.orders ==> r.orders[x].symbol == b.orders[x].symbol
    ensures MoneyInv(r)
  {
    forall symbol ensures CoinReservedFor(r, symbol) == CoinSum(r, symbol) {
      forall x ensures CoinOf(b.orders, b.reservedCoin, symbol, x) == CoinOf(r.orders, r.reservedCoin, symbol, x) {
        assert x in r.orders <==> x in b.orders;
      }
      CoinSumPointwise(b.orderIds, b.orders, b.reservedCoin, r.orders, r.reservedCoin, symbol, symbol);
      assert CoinSum(r, symbol) == CoinSum(b, symbol);
      assert CoinReservedFor(b, symbol) == CoinSum(b, symbol);
      assert CoinReservedFor(r, symbol) == CoinReservedFor(b, symbol);
    }
  }

  /** Appending an id adds its term to both sums. */
  lemma AppendSums(ids: seq<string>, x: string, orders: map<string, OrderState>,
                   reservedKrw: map<string, real>, reservedCoin: map<string, real>, symbol: string)
    ensures KrwSumOf(ids + [x], reservedKrw) == KrwSumOf(ids, reservedKrw) + GetOrZero(reservedKrw, x)
    ensures CoinSumOf(ids + [x], orders, reservedCoin, symbol)
              == CoinSumOf(ids, orders, reservedCoin, symbol) + CoinOf(orders, reservedCoin, symbol, x)
  {
    assert (ids + [x])[..|ids|] == ids;
  }

  // ---------------------------------------------------------------------
  // The fresh broker
  // ---------------------------------------------------------------------

  lemma InitialInv(initialKrw: real)
    ensures Inv(Initial(initialKrw))
  {
  }

  /** Starting, stopping and publishing touch none of the invariants' fields. */
  lemma {:induction false} StartedEventsInv(b: Broker, started: bool, events: seq<BrokerEvent>)
    requires Inv(b)
    ensures Inv(b.(started := started, events := events))
  {
    var r := b.(started := started, events := events);
    MoneyFrame(b, r);
    BookFrame(b, r);
    forall x | x in r.orders ensures OrderWf(r, x) {
      assert OrderWf(b, x);
    }
  }

  // ---------------------------------------------------------------------
  // Release
  // ---------------------------------------------------------------------

  lemma {:induction false} ReleaseKrwMoney(b: Broker, id: string)
    requires BookWf(b) && MoneyInv(b)
    ensures MoneyInv(ReleaseKrw(b, id))
  {
    var r := ReleaseKrw(b, id);
    if id in b.reservedKrw && b.reservedKrw[id] > 0.0 {
      assert r.reservedKrw == b.reservedKrw - {id};
      KrwSumPointwise(b.orderIds, b.reservedKrw, r.reservedKrw, id);
      assert Listed(b, id);
    }
    assert r.orderIds == b.orderIds && r.orders == b.orders && r.reservedCoin == b.reservedCoin;
    assert forall symbol :: CoinSum(r, symbol) == CoinSum(b, symbol);
  }

  lemma {:induction false} ReleaseCoinMoney(b: Broker, id: string)
    requires BookWf(b) && MoneyInv(b)
    ensures MoneyInv(ReleaseCoin(b, id))
  {
    var r := ReleaseCoin(b, id);
    if id in b.reservedCoin && b.reservedCoin[id] > 0.0 {
      var coin := b.reservedCoin[id];
      var sym := b.orders[id].symbol;
      var cur := GetOrZero(b.coinReserved, Fold(sym));
      assert Listed(b, id);
      CoinSumAtLeast(b.orderIds, b.orders, b.reservedCoin, sym, id);
      assert CoinOf(b.orders, b.reservedCoin, sym, id) == coin;
      assert CoinReservedFor(b, sym) == cur;
      assert cur >= coin;
      assert r.reservedCoin == b.reservedCoin - {id};
      assert r.coinReserved == b.coinReserved[Fold(sym) := cur - coin];
      forall symbol ensures CoinReservedFor(r, symbol) == CoinSum(r, symbol) {
        CoinSumPointwise(b.orderIds, b.orders, b.reservedCoin, r.orders, r.reservedCoin, symbol, id);
        if Fold(symbol) == Fold(sym) {
          assert CoinSum(r, symbol) == CoinSum(b, symbol) - coin;
        } else {
          assert CoinSum(r, symbol) == CoinSum(b, symbol);
        }
      }
    } else {
      assert r == b;
    }
  }

  /** Releasing an order keeps the dictionary well formed and the money invariants. */
  lemma {:induction false} ReleaseMoney(b: Broker, id: string)
    requires BookWf(b) && MoneyInv(b)
    ensures BookWf(Release(b, id)) && MoneyInv(Release(b, id))
  {
    ReleaseKrwMoney(b, id);
    var b1 := ReleaseKrw(b, id);
    BookFrame(b, b1);
    ReleaseCoinMoney(b1, id);
    ReleaseTail(b1, id);
  }

  /** The last step of a release: dropping the remaining entry after both halves. */
  lemma {:induction false} ReleaseTail(b1: Broker, id: string)
    requires BookWf(b1) && MoneyInv(ReleaseCoin(b1, id))
    ensures var b2 := ReleaseCoin(b1, id); BookWf(b2.(remaining := b2.remaining - {id}))
    ensures var b2 := ReleaseCoin(b1, id); MoneyInv(b2.(remaining := b2.remaining - {id}))
  {
    var b2 := ReleaseCoin(b1, id);
    BookFrame(b1, b2);
    var r := b2.(remaining := b2.remaining - {id});
    MoneyFrame(b2, r);
    BookFrame(b2, r);
  }

  // ---------------------------------------------------------------------
  // Cancel and reject
  // ---------------------------------------------------------------------

  /** Giving an open order a final status and releasing it keeps every invariant. */
  lemma {:induction false} CloseCoreInv(b: Broker, key: string, closed: OrderState)
    requires Inv(b) && key in b.orders && !IsDone(b.orders[key].status)
    requires closed == b.orders[key].(status := closed.status, updatedUtc := closed.updatedUtc)
    requires closed.status == Canceled || closed.status == Rejected
    ensures Inv(Release(b.(orders := b.orders[key := closed]), key))
  {
    var b0 := b.(orders := b.orders[key := closed]);
    MoneyFrame(b, b0);
    BookFrame(b, b0);
    ReleaseMoney(b0, key);
    ReleasedOrdersWf(b, b0, key);
  }

  /** A cancel or reject keeps every invariant. */
  lemma {:induction false} CloseInv(b: Broker, orderId: string, status: OrderStatus, verb: string, reason: string, now: Ticks)
    requires Inv(b) && (status == Canceled || status == Rejected)
    ensures Inv(Close(b, orderId, status, verb, reason, now))
  {
    var key := Fold(orderId);
    if key in b.orders && !IsDone(b.orders[key].status) {
      var closed := b.orders[key].(status := status, updatedUtc := Some(now));
      CloseCoreInv(b, key, closed);
      var b1 := Release(b.(orders := b.orders[key := closed]), key);
      var r := Close(b, orderId, status, verb, reason, now);
      assert r == b1.(events := r.events);
      StartedEventsInv(b1, b1.started, r.events);
    }
  }

  lemma CancelInv(b: Broker, orderId: string, reason: string, now: Ticks)
    requires Inv(b)
    ensures Inv(Cancel(b, orderId, reason, now))
  {
    CloseInv(b, orderId, Canceled, "canceled", reason, now);
  }

  lemma RejectInv(b: Broker, orderId: string, reason: string, now: Ticks)
    requires Inv(b)
    ensures Inv(Reject(b, orderId, reason, now))
  {
    CloseInv(b, orderId, Rejected, "rejected", reason, now);
  }

  // ---------------------------------------------------------------------
  // Fills
  // ---------------------------------------------------------------------

  /** A buy fill's leg: paying `spend` out of the order's KRW reservation keeps the book and the money invariants. */
  lemma {:induction false} BuyLegMoney(b: Broker, r: Broker, id: string, price: real, qty: real, notional: real, fee: real)
    requires BookWf(b) && MoneyInv(b) && id in b.orders
    requires BuyLeg(b, id, b.orders[id], price, qty, notional, fee) == Some(r)
    ensures BookWf(r) && MoneyInv(r)
    ensures forall x :: x != id ==> GetOrZero(r.reservedKrw, x) == GetOrZero(b.reservedKrw, x)
  {
    BookFrame(b, r);
    assert r.krwReserved == KrwSum(r) by {
      KrwSumPointwise(b.orderIds, b.reservedKrw, r.reservedKrw, id);
      assert Listed(b, id);
    }
    forall symbol ensures CoinReservedFor(r, symbol) == CoinSum(r, symbol) {
      assert CoinReservedFor(b, symbol) == CoinSum(b, symbol);
    }
  }

  /** A sell fill's leg: releasing `qty` of the order's coin reservation and crediting the proceeds keeps the invariants. */
  lemma {:induction false} SellLegMoney(b: Broker, r: Broker, id: string, qty: real, notional: real, fee: real)
    requires BookWf(b) && MoneyInv(b) && id in b.orders && qty > 0.0
    requires SellLeg(b, id, b.orders[id], qty, notional, fee) == Some(r)
    ensures BookWf(r) && MoneyInv(r)
    ensures forall x :: x != id ==> GetOrZero(r.reservedCoin, x) == GetOrZero(b.reservedCoin, x)
  {
    var sym := b.orders[id].symbol;
    BookFrame(b, r);
    CoinCovers(b, id);
    assert r.coinReserved == b.coinReserved[Fold(sym) := CoinReservedFor(b, sym) - qty];
    CoinAfterSell(b, r, id, qty);
  }

  /** Buying adds to the symbol's position, so every held position keeps a positive quantity. */
  lemma BoughtHeld(positions: CIMap<Position>, symbol: string, price: real, qty: real)
    requires HeldWf(positions) && qty > 0.0
    ensures HeldWf(CIPut(positions, symbol, BoughtPosition(positions, symbol, price, qty)))
  {
    CIPutFacts(positions, symbol, BoughtPosition(positions, symbol, price, qty));
  }

  /** Selling either empties the position, which is removed, or leaves a positive quantity. */
  lemma SoldHeld(positions: CIMap<Position>, symbol: string, qty: real)
    requires HeldWf(positions) && CIFind(positions, symbol).Some?
    ensures HeldWf(SoldPositions(positions, symbol, qty))
  {
    var pos := CIFind(positions, symbol).value;
    if pos.quantity - qty <= 0.0 {
      CIRemoveFacts(positions, symbol);
    } else {
      CIPutFacts(positions, symbol, Position(symbol, pos.quantity - qty, pos.avgPrice));
    }
  }

  /** A sell's coin reservation is part of what its symbol has reserved in total. */
  lemma {:induction false} CoinCovers(b: Broker, id: string)
    requires BookWf(b) && MoneyInv(b) && id in b.orders && id in b.reservedCoin
    ensures CoinReservedFor(b, b.orders[id].symbol) >= b.reservedCoin[id]
  {
    var sym := b.orders[id].symbol;
    assert Listed(b, id);
    CoinSumAtLeast(b.orderIds, b.orders, b.reservedCoin, sym, id);
    assert CoinOf(b.orders, b.reservedCoin, sym, id) == b.reservedCoin[id];
    assert CoinReservedFor(b, sym) == CoinSum(b, sym);
  }

  /** Taking `qty` off one order's coin reservation and off its symbol's total keeps the totals right. */
  lemma {:induction false} CoinAfterSell(b: Broker, r: Broker, id: string, qty: real)
    requires BookWf(b) && MoneyInv(b) && id in b.orders && id in b.reservedCoin
    requires r.orderIds == b.orderIds && r.orders == b.orders
    requires r.reservedCoin == b.reservedCoin[id := b.reservedCoin[id] - qty]
    requires r.coinReserved == b.coinReserved[Fold(b.orders[id].symbol) := CoinReservedFor(b, b.orders[id].symbol) - qty]
    ensures forall symbol :: CoinReservedFor(r, symbol) == CoinSum(r, symbol)
  {
    var sym := b.orders[id].symbol;
    forall symbol ensures CoinReservedFor(r, symbol) == CoinSum(r, symbol) {
      CoinSumPointwise(b.orderIds, b.orders, b.reservedCoin, r.orders, r.reservedCoin, symbol, id);
      assert Listed(b, id);
      assert CoinReservedFor(b, symbol) == CoinSum(b, symbol);
      if Fold(symbol) == Fold(sym) {
        assert CoinSum(r, symbol) == CoinSum(b, symbol) - qty;
      } else {
        assert CoinSum(r, symbol) == CoinSum(b, symbol);
      }
    }
  }

  /** The order after a fill, with what it still holds. */
  ghost predicate SettleReady(b: Broker, b1: Broker, id: string, qty: real)
  {
    Inv(b) && id in b.orders && !IsDone(b.orders[id].status) && id in b.remaining
    && 0.0 < qty <= b.remaining[id]
    && BookWf(b1) && MoneyInv(b1) && PositionsWf(b1) && LegFrame(b, b1)
    && (forall x :: x != id ==> GetOrZero(b1.reservedKrw, x) == GetOrZero(b.reservedKrw, x))
    && (forall x :: x != id ==> GetOrZero(b1.reservedCoin, x) == GetOrZero(b.reservedCoin, x))
  }

  lemma {:induction false} SettledMoney(b: Broker, b1: Broker, id: string, price: real, qty: real, fee: real, now: Ticks)
    requires SettleReady(b, b1, id, qty)
    ensures BookWf(Settled(b1, id, b.orders[id], b.remaining[id], price, qty, fee, now))
    ensures MoneyInv(Settled(b1, id, b.orders[id], b.remaining[id], price, qty, fee, now))
  {
    var b2 := Settled(b1, id, b.orders[id], b.remaining[id], price, qty, fee, now);
    MoneyFrame(b1, b2);
    BookFrame(b1, b2);
  }

  /** Orders other than `id` that keep their state, remainder and reservations stay well formed. */
  lemma {:induction false} OrdersFrame(b: Broker, r: Broker, id: string)
    requires OrdersWf(b)
    requires r.orders.Keys == b.orders.Keys
    requires id in r.orders && OrderWf(r, id)
    requires forall x :: x in b.orders && x != id ==> r.orders[x] == b.orders[x]
    requires forall x :: x != id ==> (x in r.remaining <==> x in b.remaining)
    requires forall x :: x != id && x in r.remaining ==> r.remaining[x] == b.remaining[x]
    requires forall x :: x != id ==> GetOrZero(r.reservedKrw, x) == GetOrZero(b.reservedKrw, x)
    requires forall x :: x != id ==> GetOrZero(r.reservedCoin, x) == GetOrZero(b.reservedCoin, x)
    ensures OrdersWf(r)
  {
    forall x | x in r.orders ensures OrderWf(r, x) {
      if x != id {
        assert OrderWf(b, x);
      }
    }
  }

  lemma {:induction false} SettlePartialInv(b: Broker, b1: Broker, id: string, price: real, qty: real, fee: real, now: Ticks)
    requires SettleReady(b, b1, id, qty)
    requires b.remaining[id] - qty > 0.0
    ensures Inv(Settled(b1, id, b.orders[id], b.remaining[id], price, qty, fee, now))
  {
    SettledMoney(b, b1, id, price, qty, fee, now);
    assert OrderWf(b, id);
    SettledOrders(b, Settled(b1, id, b.orders[id], b.remaining[id], price, qty, fee, now), id, qty);
  }

  /** After a partial fill the order is PartiallyFilled with its remainder reduced; every other order is untouched. */
  lemma {:induction false} SettledOrders(b: Broker, b2: Broker, id: string, qty: real)
    requires OrdersWf(b) && id in b.orders && id in b.remaining && OrderWf(b, id) && b.remaining[id] - qty > 0.0
    requires id in b2.orders && b2.orders == b.orders[id := b2.orders[id]]
    requires b2.orders[id].status == PartiallyFilled && b2.orders[id].quantity == b.orders[id].quantity
    requires b2.orders[id].filledQuantity == b.orders[id].filledQuantity + qty
    requires b2.remaining == b.remaining[id := b.remaining[id] - qty]
    requires forall x :: x != id ==> GetOrZero(b2.reservedKrw, x) == GetOrZero(b.reservedKrw, x)
    requires forall x :: x != id ==> GetOrZero(b2.reservedCoin, x) == GetOrZero(b.reservedCoin, x)
    ensures OrdersWf(b2)
  {
    OrdersFrame(b, b2, id);
  }

  lemma {:induction false} SettleFilledInv(b: Broker, b1: Broker, id: string, price: real, qty: real, fee: real, now: Ticks)
    requires SettleReady(b, b1, id, qty)
    requires b.remaining[id] - qty <= 0.0
    ensures Inv(Release(Settled(b1, id, b.orders[id], b.remaining[id], price, qty, fee, now), id))
  {
    var b2 := Settled(b1, id, b.orders[id], b.remaining[id], price, qty, fee, now);
    SettledMoney(b, b1, id, price, qty, fee, now);
    ReleaseMoney(b2, id);
    assert OrderWf(b, id);
    ReleasedOrdersWf(b, b2, id);
  }

  /** An order given a final status and then released is well formed; every other order is untouched. */
  lemma {:induction false} ReleasedOrdersWf(b: Broker, b2: Broker, id: string)
    requires OrdersWf(b) && id in b.orders && id in b2.orders
    requires b2.orders == b.orders[id := b2.orders[id]]
    requires IsDone(b2.orders[id].status)
    requires b2.orders[id].status == Filled ==> b2.orders[id].filledQuantity == b2.orders[id].quantity
    requires forall x :: x != id ==> (x in b2.remaining <==> x in b.remaining)
    requires forall x :: x != id && x in b2.remaining ==> b2.remaining[x] == b.remaining[x]
    requires forall x :: x != id ==> GetOrZero(b2.reservedKrw, x) == GetOrZero(b.reservedKrw, x)
    requires forall x :: x != id ==> GetOrZero(b2.reservedCoin, x) == GetOrZero(b.reservedCoin, x)
    ensures OrdersWf(Release(b2, id))
  {
    ReleaseFrame(b2, id);
    OrdersFrame(b, Release(b2, id), id);
  }

  lemma {:induction false} SettleInv(b: Broker, b1: Broker, id: string, price: real, qty: real, fee: real, now: Ticks)
    requires SettleReady(b, b1, id, qty)
    ensures Inv(Settle(b1, id, b.orders[id], b.remaining[id], price, qty, fee, now))
  {
    var b2 := Settled(b1, id, b.orders[id], b.remaining[id], price, qty, fee, now);
    if b.remaining[id] - qty <= 0.0 {
      SettleFilledInv(b, b1, id, price, qty, fee, now);
      assert Settle(b1, id, b.orders[id], b.remaining[id], price, qty, fee, now) == Release(b2, id);
    } else {
      SettlePartialInv(b, b1, id, price, qty, fee, now);
      assert Settle(b1, id, b.orders[id], b.remaining[id], price, qty, fee, now) == b2;
    }
  }

  /** A leg that can pay leaves the state ready for the order's settlement. */
  lemma {:induction false} LegReady(b: Broker, id: string, price: real, qty: real, fee: real)
    requires BookWf(b) && MoneyInv(b) && id in b.orders && qty > 0.0
    requires FillLeg(b, id, price, qty, fee).Some?
    ensures var b1 := FillLeg(b, id, price, qty, fee).value;
      BookWf(b1) && MoneyInv(b1) && LegFrame(b, b1)
      && (HeldWf(b.positions) ==> HeldWf(b1.positions))
      && (forall x :: x != id ==> GetOrZero(b1.reservedKrw, x) == GetOrZero(b.reservedKrw, x))
      && (forall x :: x != id ==> GetOrZero(b1.reservedCoin, x) == GetOrZero(b.reservedCoin, x))
  {
    var b1 := FillLeg(b, id, price, qty, fee).value;
    var o := b.orders[id];
    if o.side == Buy {
      BuyLegMoney(b, b1, id, price, qty, Notional(price, qty), fee);
      if HeldWf(b.positions) {
        BoughtHeld(b.positions, o.symbol, price, qty);
      }
    } else {
      SellLegMoney(b, b1, id, qty, Notional(price, qty), fee);
      if HeldWf(b.positions) {
        SoldHeld(b.positions, o.symbol, qty);
      }
    }
  }

  /** Applying a fill of an order's remainder, or of part of it, keeps every invariant. */
  lemma {:induction false} FillOutcomeInv(b: Broker, id: string, price: real, qty: real, fee: real, now: Ticks)
    requires Inv(b) && id in b.orders && !IsDone(b.orders[id].status) && id in b.remaining
    requires 0.0 < qty <= b.remaining[id]
    ensures Inv(FillOutcome(b, id, price, qty, fee, now))
  {
    var leg := FillLeg(b, id, price, qty, fee);
    if leg.Some? {
      LegReady(b, id, price, qty, fee);
      assert SettleReady(b, leg.value, id, qty);
      SettleInv(b, leg.value, id, price, qty, fee, now);
    }
  }

  /** A fill, complete or partial, keeps every invariant; a failed one changes nothing. */
  lemma {:induction false} TryFillInv(b: Broker, id: string, price: real, fillQty: real, feeRate: real, now: Ticks)
    requires Inv(b)
    ensures Inv(TryFill(b, id, price, fillQty, feeRate, now).state)
  {
    if id in b.orders && !IsDone(b.orders[id].status) && id in b.remaining && b.remaining[id] > 0.0 && fillQty > 0.0 {
      var qty := Min(fillQty, b.remaining[id]);
      FillOutcomeInv(b, id, price, qty, FeeOf(price, qty, feeRate), now);
    }
  }

  // ---------------------------------------------------------------------
  // Matching
  // ---------------------------------------------------------------------

  lemma {:induction false} StepInv(c: Config, b: Broker, id: string, top: OrderBookTop, ask: real, bid: real, now: Ticks)
    requires Inv(b) && id in b.orders && id in b.remaining && b.remaining[id] > 0.0
    ensures Inv(Step(c, b, id, top, ask, bid, now).state)
  {
    var o := b.orders[id];
    var qty := Min(b.remaining[id], if o.side == Buy then ask else bid);
    if Crosses(o, top) && qty > 0.0 {
      var px := ApplySlippage(c.slippageBps, TouchPrice(top, o.side), o.side);
      TryFillInv(b, id, px, qty, FeeRateFor(c, o.orderType), now);
      var f := TryFill(b, id, px, qty, FeeRateFor(c, o.orderType), now);
      if !f.ok {
        RejectInv(f.state, id, FillFailure(o.orderType), now);
      }
    }
  }

  lemma {:induction false} ScanInv(c: Config, b: Broker, ids: seq<string>, top: OrderBookTop, ask: real, bid: real, now: Ticks)
    requires Inv(b)
    ensures Inv(Scan(c, b, ids, top, ask, bid, now))
    decreases |ids|
  {
    if ids != [] {
      var id := ids[0];
      if id in b.orders && id in b.remaining && b.remaining[id] > 0.0 {
        StepInv(c, b, id, top, ask, bid, now);
        var s := Step(c, b, id, top, ask, bid, now);
        ScanInv(c, s.state, ids[1..], top, s.ask, s.bid, now);
      } else {
        ScanInv(c, b, ids[1..], top, ask, bid, now);
      }
    }
  }

  lemma MatchInv(c: Config, b: Broker, symbol: string, book: Option<OrderBookTop>, now: Ticks)
    requires Inv(b)
    ensures Inv(Match(c, b, symbol, book, now))
  {
    if book.Some? {
      ScanInv(c, b, OpenIds(b, symbol), book.value, book.value.bestAskQuantity, book.value.bestBidQuantity, now);
    }
  }

  lemma OnBookInv(c: Config, b: Broker, symbol: string, book: Option<OrderBookTop>, now: Ticks)
    requires Inv(b)
    ensures Inv(OnBook(c, b, symbol, book, now))
  {
    MatchInv(c, b, symbol, book, now);
  }

  // ---------------------------------------------------------------------
  // Placement
  // ---------------------------------------------------------------------

  /** Taking the next id from the counter keeps every invariant. */
  lemma {:induction false} TakeIdInv(b: Broker)
    requires Inv(b)
    ensures Inv(b.(nextId := b.nextId + 1))
  {
    var r := b.(nextId := b.nextId + 1);
    MoneyFrame(b, r);
    BookFrame(b, r);
    forall x | x in r.orders ensures OrderWf(r, x) {
      assert OrderWf(b, x);
    }
  }

  /** The id the counter hands out next is not yet taken anywhere. */
  lemma FreshId(b: Broker)
    requires BookWf(b)
    ensures var id := IdOf(b.nextId);
      id !in b.orders && id !in b.orderIds && id !in b.reservedKrw && id !in b.reservedCoin && id !in b.remaining
  {
    IdNumberOf(b.nextId);
    assert Listed(b, IdOf(b.nextId)) <==> IdOf(b.nextId) in b.orders;
  }

  /** Storing a new order keeps the dictionary and the per-order invariants. */
  lemma {:induction false} AdmitBook(b: Broker, b2: Broker, o: OrderState, now: Ticks)
    requires Inv(b) && o.orderId == IdOf(b.nextId)
    requires o.status == Accepted && o.quantity > 0.0 && o.filledQuantity == 0.0
    requires b2.orders == b.orders && b2.orderIds == b.orderIds && b2.remaining == b.remaining
    requires b2.nextId == b.nextId + 1
    requires b2.reservedKrw.Keys <= b.reservedKrw.Keys + {o.orderId}
    requires b2.reservedCoin.Keys <= b.reservedCoin.Keys + {o.orderId}
    requires forall x :: x != o.orderId ==> GetOrZero(b2.reservedKrw, x) == GetOrZero(b.reservedKrw, x)
    requires forall x :: x != o.orderId ==> GetOrZero(b2.reservedCoin, x) == GetOrZero(b.reservedCoin, x)
    ensures BookWf(Admit(b2, o, now)) && OrdersWf(Admit(b2, o, now))
  {
    FreshId(b);
    AdmitIds(b, Admit(b2, o, now), o.orderId);
    AdmitOrders(b, Admit(b2, o, now), o);
  }

  /** Appending a fresh id keeps the dictionary well formed. */
  lemma {:induction false} AdmitIds(b: Broker, r: Broker, id: string)
    requires BookWf(b) && id == IdOf(b.nextId) && id !in b.orders
    requires r.orderIds == b.orderIds + [id] && r.orders.Keys == b.orders.Keys + {id} && r.orders[id].orderId == id
    requires forall x :: x in b.orders ==> r.orders[x] == b.orders[x]
    requires r.nextId == b.nextId + 1
    requires r.remaining.Keys <= r.orders.Keys && r.reservedKrw.Keys <= r.orders.Keys && r.reservedCoin.Keys <= r.orders.Keys
    ensures BookWf(r)
  {
    IdOfFolds(b.nextId);
    IdNumberOf(b.nextId);
    forall i, j | 0 <= i < j < |r.orderIds| ensures r.orderIds[i] != r.orderIds[j] {
      if j == |b.orderIds| {
        assert r.orderIds[i] in b.orderIds;
        assert Listed(b, r.orderIds[i]);
      }
    }
    forall x ensures Listed(r, x) <==> x in r.orders {
      assert Listed(b, x) <==> x in b.orders;
    }
  }

  /** The stored order is open with its whole quantity remaining and every other order is as it was. */
  lemma {:induction false} AdmitOrders(b: Broker, r: Broker, o: OrderState)
    requires OrdersWf(b) && o.orderId !in b.orders
    requires o.status == Accepted && o.quantity > 0.0 && o.filledQuantity == 0.0
    requires r.orders == b.orders[o.orderId := o] && r.remaining == b.remaining[o.orderId := o.quantity]
    requires forall x :: x != o.orderId ==> GetOrZero(r.reservedKrw, x) == GetOrZero(b.reservedKrw, x)
    requires forall x :: x != o.orderId ==> GetOrZero(r.reservedCoin, x) == GetOrZero(b.reservedCoin, x)
    ensures OrdersWf(r)
  {
    forall x | x in r.orders ensures OrderWf(r, x) {
      if x != o.orderId {
        assert OrderWf(b, x);
      }
    }
  }

  /** A buy's reservation followed by storing the order keeps the money invariants. */
  lemma {:induction false} AdmitBuyMoney(b: Broker, b2: Broker, o: OrderState, reserve: real, now: Ticks)
    requires Inv(b) && o.orderId == IdOf(b.nextId)
    requires b2 == b.(nextId := b.nextId + 1, krwAvailable := b.krwAvailable - reserve,
                      krwReserved := b.krwReserved + reserve, reservedKrw := b.reservedKrw[o.orderId := reserve])
    ensures MoneyInv(Admit(b2, o, now))
  {
    var id := o.orderId;
    var r := Admit(b2, o, now);
    FreshId(b);
    AppendSums(b.orderIds, id, r.orders, r.reservedKrw, r.reservedCoin, "");
    KrwSumPointwise(b.orderIds, b.reservedKrw, r.reservedKrw, id);
    forall symbol ensures CoinReservedFor(r, symbol) == CoinSum(r, symbol) {
      assert CoinReservedFor(b, symbol) == CoinSum(b, symbol);
      AppendSums(b.orderIds, id, r.orders, r.reservedKrw, r.reservedCoin, symbol);
      CoinSumPointwise(b.orderIds, b.orders, b.reservedCoin, r.orders, r.reservedCoin, symbol, id);
    }
  }

  /** A sell's reservation followed by storing the order keeps the money invariants. */
  lemma {:induction false} AdmitSellMoney(b: Broker, b2: Broker, o: OrderState, now: Ticks)
    requires Inv(b) && o.orderId == IdOf(b.nextId) && o.quantity > 0.0
    requires b2 == b.(nextId := b.nextId + 1,
                      coinReserved := b.coinReserved[Fold(o.symbol) := CoinReservedFor(b, o.symbol) + o.quantity],
                      reservedCoin := b.reservedCoin[o.orderId := o.quantity])
    ensures MoneyInv(Admit(b2, o, now))
  {
    var id := o.orderId;
    var r := Admit(b2, o, now);
    FreshId(b);
    AppendSums(b.orderIds, id, r.orders, r.reservedKrw, r.reservedCoin, "");
    forall symbol ensures CoinReservedFor(r, symbol) == CoinSum(r, symbol) {
      AdmitSellCoin(b, r, o, symbol);
    }
  }

  /** One symbol's share of AdmitSellMoney: the new order adds its quantity on its own symbol only. */
  lemma {:induction false} AdmitSellCoin(b: Broker, r: Broker, o: OrderState, symbol: string)
    requires BookWf(b) && MoneyInv(b) && o.orderId !in b.orders && o.orderId !in b.reservedCoin && o.quantity > 0.0
    requires r.orderIds == b.orderIds + [o.orderId] && r.orders == b.orders[o.orderId := o]
    requires r.reservedCoin == b.reservedCoin[o.orderId := o.quantity]
    requires r.coinReserved == b.coinReserved[Fold(o.symbol) := CoinReservedFor(b, o.symbol) + o.quantity]
    ensures CoinReservedFor(r, symbol) == CoinSum(r, symbol)
  {
    var id := o.orderId;
    assert CoinReservedFor(b, symbol) == CoinSum(b, symbol);
    AppendSums(b.orderIds, id, r.orders, r.reservedKrw, r.reservedCoin, symbol);
    CoinSumPointwise(b.orderIds, b.orders, b.reservedCoin, r.orders, r.reservedCoin, symbol, id);
    assert id !in b.orderIds by {
      assert Listed(b, id) <==> id in b.orders;
    }
  }

  lemma {:induction false} CancelUnfilledInv(b: Broker, id: string, tif: TimeInForce, now: Ticks)
    requires Inv(b)
    ensures Inv(CancelUnfilled(b, id, tif, now))
  {
    if id in b.orders && GetOrZero(b.remaining, id) > 0.0 && IsOpen(b.orders[id].status) {
      CancelInv(b, id, "TIF=" + TifName(tif) + " not fully filled immediately.", now);
    }
  }

  /** Reserving for a fresh order and storing it keeps every invariant. */
  lemma {:induction false} AdmitInv(c: Config, b: Broker, req: PlaceOrderRequest, book: Option<OrderBookTop>, now: Ticks, b2: Broker)
    requires Inv(b) && ValidRequest(req)
    requires Reserve(c, b.(nextId := b.nextId + 1), NewOrder(req, IdOf(b.nextId), now), book) == Ok(b2)
    ensures Inv(Admit(b2, NewOrder(req, IdOf(b.nextId), now), now))
  {
    var o := NewOrder(req, IdOf(b.nextId), now);
    if o.side == Buy {
      AdmitBuyInv(b, b2, o, BuyReserve(c, o, book.value), now);
    } else {
      AdmitSellInv(b, b2, o, now);
    }
  }

  lemma {:induction false} AdmitBuyInv(b: Broker, b2: Broker, o: OrderState, reserve: real, now: Ticks)
    requires Inv(b) && o.orderId == IdOf(b.nextId)
    requires o.status == Accepted && o.quantity > 0.0 && o.filledQuantity == 0.0
    requires b2 == b.(nextId := b.nextId + 1, krwAvailable := b.krwAvailable - reserve,
                      krwReserved := b.krwReserved + reserve, reservedKrw := b.reservedKrw[o.orderId := reserve])
    ensures Inv(Admit(b2, o, now))
  {
    AdmitBuyMoney(b, b2, o, reserve, now);
    AdmitBook(b, b2, o, now);
  }

  lemma {:induction false} AdmitSellInv(b: Broker, b2: Broker, o: OrderState, now: Ticks)
    requires Inv(b) && o.orderId == IdOf(b.nextId)
    requires o.status == Accepted && o.quantity > 0.0 && o.filledQuantity == 0.0
    requires b2 == b.(nextId := b.nextId + 1,
                      coinReserved := b.coinReserved[Fold(o.symbol) := CoinReservedFor(b, o.symbol) + o.quantity],
                      reservedCoin := b.reservedCoin[o.orderId := o.quantity])
    ensures Inv(Admit(b2, o, now))
  {
    AdmitSellMoney(b, b2, o, now);
    AdmitBook(b, b2, o, now);
  }

  lemma {:induction false} ImmediateInv(c: Config, b: Broker, req: PlaceOrderRequest, id: string, book: Option<OrderBookTop>, now: Ticks)
    requires Inv(b)
    ensures Inv(Immediate(c, b, req, id, book, now))
  {
    MatchInv(c, b, req.symbol, book, now);
    var b1 := if req.orderType == Market || req.tif != GTC then Match(c, b, req.symbol, book, now) else b;
    CancelUnfilledInv(b1, id, req.tif, now);
  }

  /** The state PlaceOrderAsync leaves behind, branch by branch. */
  function PlacedState(c: Config, b: Broker, req: PlaceOrderRequest, book: Option<OrderBookTop>, now: Ticks): Broker
  {
    if !(b.started && ValidRequest(req)) then b
    else
      var id := IdOf(b.nextId);
      var o := NewOrder(req, id, now);
      match Reserve(c, b.(nextId := b.nextId + 1), o, book)
      case Err(_) => b.(nextId := b.nextId + 1)
      case Ok(b2) => Immediate(c, Admit(b2, o, now), req, id, book, now)
  }

  lemma PlaceShape(c: Config, b: Broker, req: PlaceOrderRequest, book: Option<OrderBookTop>, now: Ticks)
    ensures Place(c, b, req, book, now).state == PlacedState(c, b, req, book, now)
  {
  }

  lemma {:induction false} PlacedStateInv(c: Config, b: Broker, req: PlaceOrderRequest, book: Option<OrderBookTop>, now: Ticks)
    requires Inv(b)
    ensures Inv(PlacedState(c, b, req, book, now))
  {
    if b.started && ValidRequest(req) {
      var o := NewOrder(req, IdOf(b.nextId), now);
      var res := Reserve(c, b.(nextId := b.nextId + 1), o, book);
      if res.Ok? {
        AcceptedInv(c, b, req, book, now, res.value);
        AcceptedStateInv(c, b, req, book, now, res.value);
      } else {
        RefusedInv(c, b, req, book, now);
      }
    } else {
      assert PlacedState(c, b, req, book, now) == b;
    }
  }

  /** An accepted order: storing it and the immediate match keep every invariant. */
  lemma {:induction false} AcceptedInv(c: Config, b: Broker, req: PlaceOrderRequest, book: Option<OrderBookTop>, now: Ticks, b2: Broker)
    requires Inv(b) && b.started && ValidRequest(req)
    requires Reserve(c, b.(nextId := b.nextId + 1), NewOrder(req, IdOf(b.nextId), now), book) == Ok(b2)
    ensures Inv(Immediate(c, Admit(b2, NewOrder(req, IdOf(b.nextId), now), now), req, IdOf(b.nextId), book, now))
  {
    AdmitInv(c, b, req, book, now, b2);
    ImmediateInv(c, Admit(b2, NewOrder(req, IdOf(b.nextId), now), now), req, IdOf(b.nextId), book, now);
  }

  lemma AcceptedStateInv(c: Config, b: Broker, req: PlaceOrderRequest, book: Option<OrderBookTop>, now: Ticks, b2: Broker)
    requires b.started && ValidRequest(req)
    requires Reserve(c, b.(nextId := b.nextId + 1), NewOrder(req, IdOf(b.nextId), now), book) == Ok(b2)
    requires Inv(Immediate(c, Admit(b2, NewOrder(req, IdOf(b.nextId), now), now), req, IdOf(b.nextId), book, now))
    ensures Inv(PlacedState(c, b, req, book, now))
  {
    PlacedAccepted(c, b, req, book, now, b2);
  }

  /** An accepted order leaves the state of the immediate match on the stored order. */
  lemma PlacedAccepted(c: Config, b: Broker, req: PlaceOrderRequest, book: Option<OrderBookTop>, now: Ticks, b2: Broker)
    requires b.started && ValidRequest(req)
    requires Reserve(c, b.(nextId := b.nextId + 1), NewOrder(req, IdOf(b.nextId), now), book) == Ok(b2)
    ensures PlacedState(c, b, req, book, now)
         == Immediate(c, Admit(b2, NewOrder(req, IdOf(b.nextId), now), now), req, IdOf(b.nextId), book, now)
  {
  }

  lemma {:induction false} RefusedInv(c: Config, b: Broker, req: PlaceOrderRequest, book: Option<OrderBookTop>, now: Ticks)
    requires Inv(b) && b.started && ValidRequest(req)
    requires Reserve(c, b.(nextId := b.nextId + 1), NewOrder(req, IdOf(b.nextId), now), book).Err?
    ensures Inv(PlacedState(c, b, req, book, now))
  {
    TakeIdInv(b);
    assert PlacedState(c, b, req, book, now) == b.(nextId := b.nextId + 1);
  }

  lemma {:induction false} PlaceInv(c: Config, b: Broker, req: PlaceOrderRequest, book: Option<OrderBookTop>, now: Ticks)
    requires Inv(b)
    ensures Inv(Place(c, b, req, book, now).state)
  {
    PlaceShape(c, b, req, book, now);
    PlacedStateInv(c, b, req, book, now);
  }

  // ---------------------------------------------------------------------
  // Cancellation
  // ---------------------------------------------------------------------

  lemma {:induction false} CancelOrderInv(c: Config, b: Broker, req: CancelOrderRequest, now: Ticks)
    requires Inv(b)
    ensures Inv(CancelOrder(c, b, req, now).state)
  {
    if b.started {
      CancelInv(b, req.orderId, "Canceled by user.", now);
    }
  }

  lemma {:induction false} CancelEachInv(b: Broker, ids: seq<string>, reason: string, now: Ticks)
    requires Inv(b)
    ensures Inv(CancelEach(b, ids, reason, now))
    decreases |ids|
  {
    if ids != [] {
      CancelInv(b, ids[0], reason, now);
      CancelEachInv(Cancel(b, ids[0], reason, now), ids[1..], reason, now);
    }
  }

  lemma CancelAllInv(c: Config, b: Broker, now: Ticks)
    requires Inv(b)
    ensures Inv(CancelAll(c, b, now).1)
  {
    if b.started {
      CancelEachInv(b, OpenOrderIds(b.orderIds, b.orders), "Canceled by CancelAll.", now);
    }
  }

  // ---------------------------------------------------------------------
  // Queries
  // ---------------------------------------------------------------------

  /** An id occurs at most once in a sequence without repeats. */
  lemma {:induction false} DistinctCount(ids: seq<string>, x: string)
    requires Distinct(ids)
    ensures multiset(ids)[x] <= 1
  {
    if ids != [] {
      var init := ids[..|ids| - 1];
      DistinctInit(ids);
      assert ids == init + [ids[|ids| - 1]];
      DistinctCount(init, x);
    }
  }

  /** A sequence with no more of each id than a sequence without repeats has no repeats either. */
  lemma DistinctSub(s: seq<string>, t: seq<string>)
    requires multiset(s) <= multiset(t) && Distinct(t)
    ensures Distinct(s)
  {
    forall i, j | 0 <= i < j < |s|
      ensures s[i] != s[j]
    {
      if s[i] == s[j] {
        assert s == s[..i] + [s[i]] + s[i + 1..j] + [s[j]] + s[j + 1..];
        assert multiset(s)[s[i]] >= 2;
        DistinctCount(t, s[i]);
        assert false;
      }
    }
  }

  /** The open orders of a symbol are listed once each. */
  lemma OpenIdsDistinct(b: Broker, symbol: string)
    requires BookWf(b)
    ensures Distinct(OpenIds(b, symbol))
  {
    var open := OpenOn(b.orderIds, b.orders, symbol);
    OpenOnSub(b.orderIds, b.orders, symbol);
    SortByCreatedSorted(open, b.orders);
    DistinctSub(OpenIds(b, symbol), b.orderIds);
  }

  /** Filtering keeps no more of each id than there was. */
  lemma {:induction false} OpenOnSub(ids: seq<string>, orders: map<string, OrderState>, symbol: string)
    ensures multiset(OpenOn(ids, orders, symbol)) <= multiset(ids)
  {
    if ids != [] {
      OpenOnSub(ids[1..], orders, symbol);
      assert ids == [ids[0]] + ids[1..];
    }
  }

  /** What an account snapshot reports as available coin lies between 0 and the quantity held. */
  lemma {:induction false} PositionBalanceBounded(b: Broker, k: string)
    requires Inv(b) && k in b.positions
    ensures 0.0 <= PositionBalance(b, k).available <= PositionBalance(b, k).total
    ensures PositionBalance(b, k).total > 0.0
  {
    var sym := b.positions[k].key;
    CoinSumAtLeast(b.orderIds, b.orders, b.reservedCoin, sym, sym);
    assert CoinReservedFor(b, sym) == CoinSum(b, sym);
  }
}
