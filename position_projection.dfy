/**
 * PositionProjection: positions per (algorithm, symbol), kept with the
 * average-cost method. A fill moves the net quantity (positive long,
 * negative short), the average entry price and the realized profit; a
 * trade tick sets the last price; the unrealized profit is recomputed
 * after both. The changes the projection publishes are kept as a ghost log
 * of the positions' values at the time of publishing.
 */
module Positions {
  import opened Common
  import opened Orders
  import opened Guards

  const UnknownAlgorithm := "UNKNOWN"

  datatype PositionKey = PositionKey(algorithmId: string, symbol: string)

  /** The fields of a PositionState, as a value. */
  datatype Holding = Holding(
    algorithmId: string,
    symbol: string,
    netQty: real,
    avgPrice: real,
    realizedPnl: real,
    lastPrice: real,
    unrealizedPnl: real,
    updatedAt: Ticks)

  /** A published change: the position as it was when published, and whether it is flat. */
  datatype PositionChanged = PositionChanged(position: Holding, removed: bool)

  function Abs(x: real): (r: real)
    ensures r >= 0.0 && (r == x || r == -x)
  {
    if x < 0.0 then -x else x
  }

  predicate SameSign(a: real, b: real)
  {
    (a > 0.0 && b > 0.0) || (a < 0.0 && b < 0.0)
  }

  /** The algorithm id positions are looked up under: a blank id stands for "UNKNOWN". */
  function Norm(algorithmId: string): (r: string)
    ensures IsBlank(algorithmId) ==> r == UnknownAlgorithm
    ensures !IsBlank(algorithmId) ==> r == algorithmId
  {
    if IsBlank(algorithmId) then UnknownAlgorithm else algorithmId
  }

  /** The signed quantity of a fill: positive for a buy, negative for a sell. */
  function Delta(f: Fill): real
  {
    if f.side == Buy then f.quantity else -f.quantity
  }

  /** The state a new (algorithm, symbol) pair starts from: all zero. */
  function Flat(algorithmId: string, symbol: string, time: Ticks): Holding
  {
    Holding(algorithmId, symbol, 0.0, 0.0, 0.0, 0.0, 0.0, time)
  }

  /** A fill on a flat position: it opens at the fill's price. */
  function Opened(h: Holding, f: Fill): Holding
  {
    h.(netQty := h.netQty + Delta(f), avgPrice := f.price, realizedPnl := h.realizedPnl - f.fee)
  }

  /** A fill in the position's own direction: the average becomes the quantity-weighted mean. */
  function Added(h: Holding, f: Fill): Holding
    requires h.netQty != 0.0
  {
    var abs0 := Abs(h.netQty);
    var absd := Abs(Delta(f));
    h.(avgPrice := (abs0 * h.avgPrice + absd * f.price) / (abs0 + absd), netQty := h.netQty + Delta(f), realizedPnl := h.realizedPnl - f.fee)
  }

  /** A fill against the position: the closed part is realized; the average goes to zero, the fill's price, or stays. */
  function Reduced(h: Holding, f: Fill): Holding
  {
    var px := f.price;
    var q0 := h.netQty;
    var q1 := q0 + Delta(f);
    var closed := Min(Abs(q0), Abs(Delta(f)));
    var realized := if q0 > 0.0 then (px - h.avgPrice) * closed else (h.avgPrice - px) * closed;
    var h1 := h.(realizedPnl := h.realizedPnl + realized - f.fee, netQty := q1);
    if q1 == 0.0 then h1.(avgPrice := 0.0)
    else if !SameSign(q1, q0) then h1.(avgPrice := px)
    else h1
  }

  /** ApplyFillAvgCost. */
  function ApplyFill(h: Holding, f: Fill): Holding
  {
    if h.netQty == 0.0 then Opened(h, f)
    else if SameSign(h.netQty, Delta(f)) then Added(h, f)
    else Reduced(h, f)
  }

  /** RecalcUnrealized. */
  function Recalc(h: Holding): Holding
  {
    if h.netQty == 0.0 || h.lastPrice == 0.0 || h.avgPrice == 0.0 then h.(unrealizedPnl := 0.0)
    else if h.netQty > 0.0 then h.(unrealizedPnl := (h.lastPrice - h.avgPrice) * h.netQty)
    else h.(unrealizedPnl := (h.avgPrice - h.lastPrice) * Abs(h.netQty))
  }

  /** What the position has paid so far, net: realized profit less the cost of what it still holds. */
  function Basis(h: Holding): real
  {
    h.realizedPnl - h.netQty * h.avgPrice
  }

  /**
   * The average-cost method loses no money and no quantity: a fill moves
   * the net quantity by the fill's signed quantity, and what the position
   * has paid by exactly the fill's cash flow, `-dq * price - fee`, whichever
   * of the cases (opening, adding, reducing, closing, reversing) applies.
   * The fill touches nothing but the quantity, the average and the
   * realized profit.
   */
  lemma FillConserves(h: Holding, f: Fill)
    ensures var r := ApplyFill(h, f);
      && r.netQty == h.netQty + Delta(f)
      && Basis(r) == Basis(h) - Delta(f) * f.price - f.fee
      && r == h.(netQty := r.netQty, avgPrice := r.avgPrice, realizedPnl := r.realizedPnl)
  {
    var dq := Delta(f);
    var px := f.price;
    var q0 := h.netQty;
    var q1 := q0 + dq;
    var r := ApplyFill(h, f);
    if q0 == 0.0 {
    } else if SameSign(q0, dq) {
      var abs0 := Abs(q0);
      var absd := Abs(dq);
      var s := abs0 + absd;
      var avg := (abs0 * h.avgPrice + absd * px) / s;
      assert avg * s == abs0 * h.avgPrice + absd * px;
      if q0 > 0.0 {
        assert q1 == s;
      } else {
        assert q1 == -s;
      }
      assert q1 * avg == q0 * h.avgPrice + dq * px;
    } else {
      var closed := Min(Abs(q0), Abs(dq));
      if q0 > 0.0 {
        ClosingLong(q0, dq, h.avgPrice, px, r.avgPrice, closed);
      } else {
        ClosingLong(-q0, -dq, -h.avgPrice, -px, -r.avgPrice, closed);
      }
    }
  }

  /**
   * The arithmetic of reducing a long `q0` by a sell `dq`, and by symmetry
   * (all signs flipped) a short: the realized part plus the cost of what
   * is left is the old cost plus the cash the fill moves.
   */
  lemma ClosingLong(q0: real, dq: real, avg: real, px: real, avg1: real, closed: real)
    requires q0 > 0.0 && dq <= 0.0
    requires closed == Min(q0, -dq)
    requires q0 + dq == 0.0 ==> avg1 == 0.0
    requires q0 + dq > 0.0 ==> avg1 == avg
    requires q0 + dq < 0.0 ==> avg1 == px
    ensures (px - avg) * closed - (q0 + dq) * avg1 == - q0 * avg - dq * px
  {
    if q0 + dq < 0.0 {
      assert closed == q0;
    } else {
      assert closed == -dq;
    }
  }

  /**
   * Adding to a position in its own direction keeps the direction and
   * moves the average to a mean lying between the old average and the
   * fill's price.
   */
  lemma AddingAverages(h: Holding, f: Fill)
    requires h.netQty != 0.0 && SameSign(h.netQty, Delta(f))
    ensures var r := ApplyFill(h, f);
      && Min(h.avgPrice, f.price) <= r.avgPrice <= Max(h.avgPrice, f.price)
      && SameSign(r.netQty, h.netQty)
  {
    var abs0 := Abs(h.netQty);
    var absd := Abs(Delta(f));
    var lo := Min(h.avgPrice, f.price);
    var hi := Max(h.avgPrice, f.price);
    var x := abs0 * h.avgPrice + absd * f.price;
    assert abs0 * lo + absd * lo <= x <= abs0 * hi + absd * hi;
    DivBetween(x, abs0 + absd, lo, hi);
  }

  lemma DivBetween(x: real, s: real, lo: real, hi: real)
    requires s > 0.0 && s * lo <= x <= s * hi
    ensures lo <= x / s <= hi
  {
  }

  /**
   * The average after a fill when the position is flat or the fill goes
   * against it: from flat it is the fill's price; a fill smaller than the
   * position keeps the average and the direction, one of the same size
   * closes the position and zeroes the average, and a larger one reverses
   * the position into the fill's direction at the fill's price.
   */
  lemma ReducingAverages(h: Holding, f: Fill)
    ensures var r := ApplyFill(h, f);
      var q0 := h.netQty;
      var dq := Delta(f);
      && (q0 == 0.0 ==> r.avgPrice == f.price)
      && (q0 != 0.0 && !SameSign(q0, dq) && Abs(dq) < Abs(q0) ==> r.avgPrice == h.avgPrice && SameSign(r.netQty, q0))
      && (q0 != 0.0 && !SameSign(q0, dq) && Abs(dq) == Abs(q0) ==> r.avgPrice == 0.0 && r.netQty == 0.0)
      && (q0 != 0.0 && !SameSign(q0, dq) && Abs(dq) > Abs(q0) ==> r.avgPrice == f.price && SameSign(r.netQty, dq))
  {
  }

  /**
   * Opening a position with one fill and closing it with an opposite fill
   * of the same size leaves it flat, with no average, having realized the
   * price move times the quantity (in the position's direction) less both
   * fees.
   */
  lemma RoundTrip(h: Holding, open: Fill, close: Fill)
    requires h.netQty == 0.0 && open.quantity > 0.0 && close.quantity == open.quantity && close.side != open.side
    ensures var r := ApplyFill(ApplyFill(h, open), close);
      && r.netQty == 0.0 && r.avgPrice == 0.0
      && r.realizedPnl == h.realizedPnl + Delta(open) * (close.price - open.price) - open.fee - close.fee
  {
  }

  /** The position after the fills `fs`, in order. */
  function ApplyFills(h: Holding, fs: seq<Fill>): Holding
  {
    if fs == [] then h else ApplyFill(ApplyFills(h, fs[..|fs| - 1]), fs[|fs| - 1])
  }

  /** The net signed quantity of the fills `fs`. */
  function NetDelta(fs: seq<Fill>): real
  {
    if fs == [] then 0.0 else NetDelta(fs[..|fs| - 1]) + Delta(fs[|fs| - 1])
  }

  /** The cash the fills `fs` move: what sells bring in, less what buys cost and all fees. */
  function CashFlow(fs: seq<Fill>): real
  {
    if fs == [] then 0.0 else CashFlow(fs[..|fs| - 1]) - Delta(fs[|fs| - 1]) * fs[|fs| - 1].price - fs[|fs| - 1].fee
  }

  /** Over any run of fills the net quantity moves by the fills' net quantity, and nothing but the quantity, the average and the realized profit changes. */
  lemma {:induction false} FillsMoveQuantity(h: Holding, fs: seq<Fill>)
    ensures var r := ApplyFills(h, fs);
      && r.netQty == h.netQty + NetDelta(fs)
      && r == h.(netQty := r.netQty, avgPrice := r.avgPrice, realizedPnl := r.realizedPnl)
  {
    if fs != [] {
      var n := |fs| - 1;
      var prior := ApplyFills(h, fs[..n]);
      FillsMoveQuantity(h, fs[..n]);
      FillConserves(prior, fs[n]);
    }
  }

  /** Over any run of fills what the position has paid moves by exactly the fills' cash flow. */
  lemma {:induction false} FillsConserve(h: Holding, fs: seq<Fill>)
    ensures Basis(ApplyFills(h, fs)) == Basis(h) + CashFlow(fs)
  {
    if fs != [] {
      var n := |fs| - 1;
      var prior := ApplyFills(h, fs[..n]);
      FillsConserve(h, fs[..n]);
      FillConserves(prior, fs[n]);
    }
  }

  /**
   * The unrealized profit marks the position to the last price: the same
   * formula, (last - average) times the signed quantity, for a long and a
   * short; zero while there is no last price or no average.
   */
  lemma MarkToMarket(h: Holding)
    ensures var r := Recalc(h);
      && r == h.(unrealizedPnl := r.unrealizedPnl)
      && r.unrealizedPnl == if h.lastPrice == 0.0 || h.avgPrice == 0.0 then 0.0 else (h.lastPrice - h.avgPrice) * h.netQty
  {
  }

  /**
   * Once there is a last price and an average, realized plus unrealized
   * profit is what the position has paid plus what it holds, valued at the
   * last price.
   */
  lemma MarkedProfit(h: Holding, last: real)
    requires last != 0.0 && h.avgPrice != 0.0
    ensures var r := Recalc(h.(lastPrice := last));
      r.realizedPnl + r.unrealizedPnl == Basis(h) + h.netQty * last
  {
    MarkToMarket(h.(lastPrice := last));
  }

  /**
   * From a flat start, once there is a last price and an average, realized
   * plus unrealized profit is what the fills' cash flow and the net
   * quantity held at the last price add up to.
   */
  lemma ProfitFromFlat(algorithmId: string, symbol: string, time: Ticks, fs: seq<Fill>, h: Holding, last: real)
    requires h == ApplyFills(Flat(algorithmId, symbol, time), fs)
    requires last != 0.0 && h.avgPrice != 0.0
    ensures var r := Recalc(h.(lastPrice := last));
      r.realizedPnl + r.unrealizedPnl == CashFlow(fs) + NetDelta(fs) * last
  {
    var h0 := Flat(algorithmId, symbol, time);
    FillsMoveQuantity(h0, fs);
    FillsConserve(h0, fs);
    MarkedProfit(h, last);
  }

  // ---------------------------------------------------------------------
  // The projection as a map of values
  // ---------------------------------------------------------------------

  /** The algorithm a fill is booked to: its order's owner, or "UNKNOWN" when the order has none. */
  function OwnerOf(owners: Ownership, orderId: string): string
  {
    if orderId in owners.orderToAlgo then owners.orderToAlgo[orderId] else UnknownAlgorithm
  }

  function FillKey(owners: Ownership, f: Fill): PositionKey
  {
    PositionKey(OwnerOf(owners, f.orderId), f.symbol)
  }

  /** Every position is filed under its own algorithm id and symbol. */
  predicate KeysMatch(pos: map<PositionKey, Holding>)
  {
    forall k :: k in pos ==> pos[k].algorithmId == k.algorithmId && pos[k].symbol == k.symbol
  }

  /** OnFill on the positions as values: the fill's position, created flat if new, takes the fill and is marked again. */
  function OnFillSpec(pos: map<PositionKey, Holding>, owners: Ownership, time: Ticks, f: Fill): map<PositionKey, Holding>
  {
    var k := FillKey(owners, f);
    var h := if k in pos then pos[k] else Flat(k.algorithmId, k.symbol, time);
    pos[k := Recalc(ApplyFill(h, f)).(updatedAt := time)]
  }

  /** One position's share of a tick. */
  function Tick(h: Holding, last: real, time: Ticks): Holding
  {
    Recalc(h.(lastPrice := last)).(updatedAt := time)
  }

  /** OnTick on the positions as values: every position in the symbol, whatever its algorithm, takes the tick. */
  function OnTickSpec(pos: map<PositionKey, Holding>, symbol: string, last: real, time: Ticks): map<PositionKey, Holding>
  {
    map k | k in pos :: if k.symbol == symbol then Tick(pos[k], last, time) else pos[k]
  }

  /**
   * A fill is booked under its order's owner, or "UNKNOWN" for an order
   * nobody owns, and the symbol; a new pair starts flat, so its position
   * holds the fill's signed quantity at the fill's price, having realized
   * minus the fee; an existing one moves as ApplyFill says; no other
   * position changes, and positions stay filed under their own ids.
   */
  lemma OnFillRules(pos: map<PositionKey, Holding>, owners: Ownership, time: Ticks, f: Fill)
    requires KeysMatch(pos)
    ensures var r := OnFillSpec(pos, owners, time, f);
      var k := FillKey(owners, f);
      && KeysMatch(r)
      && r.Keys == pos.Keys + {k}
      && (f.orderId in owners.orderToAlgo ==> k.algorithmId == owners.orderToAlgo[f.orderId])
      && (f.orderId !in owners.orderToAlgo ==> k.algorithmId == UnknownAlgorithm)
      && (forall k' :: k' in pos && k' != k ==> r[k'] == pos[k'])
      && (k !in pos ==> r[k].netQty == Delta(f) && r[k].avgPrice == f.price && r[k].realizedPnl == -f.fee && r[k].unrealizedPnl == 0.0)
      && (k in pos ==> r[k].netQty == pos[k].netQty + Delta(f) && Basis(r[k]) == Basis(pos[k]) - Delta(f) * f.price - f.fee)
      && r[k].updatedAt == time
  {
    var k := FillKey(owners, f);
    if k in pos {
      FillConserves(pos[k], f);
    }
  }

  /**
   * A tick sets the last price, and the time, of exactly the positions in
   * its symbol, across all algorithms, and marks them again; it never moves
   * a quantity, an average or a realized profit, and it leaves every other
   * position as it was.
   */
  lemma OnTickRules(pos: map<PositionKey, Holding>, symbol: string, last: real, time: Ticks)
    requires KeysMatch(pos)
    ensures var r := OnTickSpec(pos, symbol, last, time);
      && KeysMatch(r)
      && r.Keys == pos.Keys
      && (forall k :: k in pos ==>
            && r[k].netQty == pos[k].netQty && r[k].avgPrice == pos[k].avgPrice && r[k].realizedPnl == pos[k].realizedPnl
            && (k.symbol == symbol ==> r[k].lastPrice == last && r[k].updatedAt == time)
            && (k.symbol != symbol ==> r[k] == pos[k]))
  {
  }

  // ---------------------------------------------------------------------
  // The classes
  // ---------------------------------------------------------------------

  /** PositionState: one (algorithm, symbol) position, updated in place. */
  class PositionState {
    const algorithmId: string
    const symbol: string
    var netQty: real
    var avgPrice: real
    var realizedPnl: real
    var lastPrice: real
    var unrealizedPnl: real
    var updatedAt: Ticks

    ghost function Value(): Holding
      reads this
    {
      Holding(algorithmId, symbol, netQty, avgPrice, realizedPnl, lastPrice, unrealizedPnl, updatedAt)
    }

    /** The all-zero state OnFill creates for a new pair. */
    constructor (algorithmId: string, symbol: string, time: Ticks)
      ensures Value() == Flat(algorithmId, symbol, time)
    {
      this.algorithmId := algorithmId;
      this.symbol := symbol;
      netQty, avgPrice, realizedPnl, lastPrice, unrealizedPnl := 0.0, 0.0, 0.0, 0.0, 0.0;
      updatedAt := time;
    }

    method ApplyFillAvgCost(f: Fill)
      modifies this
      ensures Value() == ApplyFill(old(Value()), f)
    {
      var dq := if f.side == Buy then f.quantity else -f.quantity;
      var q0 := netQty;
      if q0 == 0.0 {
        Open(f);
        return;
      }
      if SameSign(q0, dq) {
        Add(f);
        return;
      }
      Reduce(f);
    }

    /** The first branch of ApplyFillAvgCost: a flat position opens at the fill's price. */
    method Open(f: Fill)
      modifies this
      ensures Value() == Opened(old(Value()), f)
    {
      var dq := if f.side == Buy then f.quantity else -f.quantity;
      netQty := netQty + dq;
      avgPrice := f.price;
      realizedPnl := realizedPnl - f.fee;
    }

    /** The second branch: adding in the position's direction. */
    method Add(f: Fill)
      requires netQty != 0.0
      modifies this
      ensures Value() == Added(old(Value()), f)
    {
      var dq := if f.side == Buy then f.quantity else -f.quantity;
      var abs0 := Abs(netQty);
      var absd := Abs(dq);
      var abs1 := abs0 + absd;
      avgPrice := (abs0 * avgPrice + absd * f.price) / abs1;
      netQty := netQty + dq;
      realizedPnl := realizedPnl - f.fee;
    }

    /** The third branch: reducing, closing or reversing. */
    method Reduce(f: Fill)
      modifies this
      ensures Value() == Reduced(old(Value()), f)
    {
      var dq := if f.side == Buy then f.quantity else -f.quantity;
      var px := f.price;
      var q0 := netQty;
      var q1 := q0 + dq;
      var closed := Min(Abs(q0), Abs(dq));
      var realized := if q0 > 0.0 then (px - avgPrice) * closed else (avgPrice - px) * closed;
      ghost var h := Value();
      realizedPnl := realizedPnl + realized - f.fee;
      netQty := q1;
      assert Value() == h.(realizedPnl := h.realizedPnl + realized - f.fee, netQty := q1);
      if q1 == 0.0 {
        avgPrice := 0.0;
        return;
      }
      if !SameSign(q1, q0) {
        avgPrice := px;
      }
    }

    method RecalcUnrealized()
      modifies this
      ensures Value() == Recalc(old(Value()))
    {
      if netQty == 0.0 || lastPrice == 0.0 || avgPrice == 0.0 {
        unrealizedPnl := 0.0;
        return;
      }
      unrealizedPnl := if netQty > 0.0 then (lastPrice - avgPrice) * netQty else (avgPrice - lastPrice) * Abs(netQty);
    }
  }

  /** The key a position object is filed under: its own algorithm id and symbol. */
  function KeyOf(p: PositionState): PositionKey
  {
    PositionKey(p.algorithmId, p.symbol)
  }

  /** `p` is the position filed under `k`, and its fields are `h`. */
  ghost predicate Filed(k: PositionKey, p: PositionState, h: Holding)
    reads p
  {
    KeyOf(p) == k && p.Value() == h
  }

  /** The changes HandleTick publishes for `ps`: each position that is not flat, as it is now, not removed. */
  ghost function TickChanges(ps: seq<PositionState>): seq<PositionChanged>
    reads set p | p in ps
  {
    if ps == [] then []
    else
      var p := ps[|ps| - 1];
      TickChanges(ps[..|ps| - 1]) + if p.netQty == 0.0 then [] else [PositionChanged(p.Value(), false)]
  }

  /** The changes HandleFill publishes for `ps`: each position as it is now, marked removed when it is flat. */
  ghost function FillChanges(ps: seq<PositionState>): seq<PositionChanged>
    reads set p | p in ps
  {
    if ps == [] then []
    else
      var p := ps[|ps| - 1];
      FillChanges(ps[..|ps| - 1]) + [PositionChanged(p.Value(), p.netQty == 0.0)]
  }

  class PositionProjection {
    const ownership: InMemoryOrderOwnershipStore
    var pos: map<PositionKey, PositionState>
    /** The fields of every position, by key. */
    ghost var holdings: map<PositionKey, Holding>
    /** Every change published, oldest first. */
    ghost var changes: seq<PositionChanged>

    ghost predicate Valid()
      reads this, pos.Values
    {
      holdings.Keys == pos.Keys && forall k :: k in pos ==> Filed(k, pos[k], holdings[k])
    }

    constructor (ownership: InMemoryOrderOwnershipStore)
      ensures Valid() && this.ownership == ownership && holdings == map[] && changes == []
    {
      this.ownership := ownership;
      pos := map[];
      holdings := map[];
      changes := [];
    }

    /** Snapshot: every position for a blank or missing id, otherwise that algorithm's, each once. */
    method Snapshot(algorithmId: Option<string>) returns (r: seq<PositionState>)
      ensures forall p :: p in r <==> p in pos.Values && (IsNullOrBlank(algorithmId) || p.algorithmId == algorithmId.value)
      ensures forall i, j :: 0 <= i < j < |r| ==> r[i] != r[j]
    {
      if IsNullOrBlank(algorithmId) {
        r := Enumerate(pos.Values);
      } else {
        r := Enumerate(set p | p in pos.Values && p.algorithmId == algorithmId.value);
      }
    }

    /** TryGet: the position of the algorithm (a blank id standing for "UNKNOWN") in the symbol. */
    method TryGet(algorithmId: string, symbol: string) returns (found: bool, state: Option<PositionState>)
      requires Valid()
      ensures found <==> PositionKey(Norm(algorithmId), symbol) in holdings
      ensures found ==> state.Some? && state.value.Value() == holdings[PositionKey(Norm(algorithmId), symbol)]
      ensures !found ==> state.None?
    {
      var key := PositionKey(Norm(algorithmId), symbol);
      found := key in pos;
      state := if found then Some(pos[key]) else None;
    }

    /** Books a fill on the position filed under `key`: the fill, the mark, the time. */
    method Book(key: PositionKey, p: PositionState, time: Ticks, f: Fill)
      requires Valid() && key in pos && pos[key] == p
      modifies this, p
      ensures Valid() && pos == old(pos) && changes == old(changes)
      ensures holdings == old(holdings)[key := Recalc(ApplyFill(old(holdings)[key], f)).(updatedAt := time)]
    {
      p.ApplyFillAvgCost(f);
      p.RecalcUnrealized();
      p.updatedAt := time;
      holdings := holdings[key := p.Value()];
      forall k | k in pos && k != key
        ensures pos[k] != p
      {
        assert KeyOf(pos[k]) == k;
      }
    }

    /** Files a new, flat position under `key`. */
    method Create(key: PositionKey, time: Ticks) returns (p: PositionState)
      requires Valid() && key !in pos
      modifies this
      ensures Valid() && fresh(p) && changes == old(changes)
      ensures pos == old(pos)[key := p]
      ensures holdings == old(holdings)[key := Flat(key.algorithmId, key.symbol, time)]
    {
      p := new PositionState(key.algorithmId, key.symbol, time);
      pos := pos[key := p];
      holdings := holdings[key := p.Value()];
    }

    method OnFill(time: Ticks, f: Fill) returns (changed: seq<PositionState>)
      requires Valid()
      modifies this, pos.Values
      ensures Valid() && changes == old(changes)
      ensures holdings == OnFillSpec(old(holdings), ownership.State(), time, f)
      ensures changed == [pos[FillKey(ownership.State(), f)]]
    {
      var found, owner := ownership.TryGetOwner(f.orderId);
      var algoId := if found then owner.value else UnknownAlgorithm;
      var key := PositionKey(algoId, f.symbol);
      assert key == FillKey(ownership.State(), f);
      ghost var h := if key in holdings then holdings[key] else Flat(algoId, f.symbol, time);
      ghost var booked := Recalc(ApplyFill(h, f)).(updatedAt := time);
      assert OnFillSpec(old(holdings), ownership.State(), time, f) == old(holdings)[key := booked];
      var p: PositionState;
      if key in pos {
        p := pos[key];
      } else {
        p := Create(key, time);
        Overwrite(old(holdings), key, h, booked);
      }
      Book(key, p, time, f);
      changed := [p];
    }

    /** Ticks one position. */
    method TickOne(p: PositionState, last: real, time: Ticks)
      requires Valid() && p in pos.Values
      modifies this, p
      ensures Valid() && pos == old(pos) && changes == old(changes)
      ensures holdings == old(holdings)[KeyOf(p) := Tick(old(holdings)[KeyOf(p)], last, time)]
    {
      p.lastPrice := last;
      p.RecalcUnrealized();
      p.updatedAt := time;
      holdings := holdings[KeyOf(p) := p.Value()];
      forall k | k in pos && k != KeyOf(p)
        ensures pos[k] != p
      {
        assert KeyOf(pos[k]) == k;
      }
    }

    /** Where `p` is one of the positions, it is the one filed under its own key. */
    lemma FiledUnderOwnKey(p: PositionState)
      requires Valid() && p in pos.Values
      ensures KeyOf(p) in pos && pos[KeyOf(p)] == p
    {
      var k :| k in pos && pos[k] == p;
      assert Filed(k, pos[k], holdings[k]);
    }

    /** Ticks each of the distinct positions `ps`, in order. */
    method TickEach(ps: seq<PositionState>, last: real, time: Ticks)
      requires Valid()
      requires forall p :: p in ps ==> p in pos.Values
      requires forall i, j :: 0 <= i < j < |ps| ==> ps[i] != ps[j]
      modifies this, pos.Values
      ensures Valid() && pos == old(pos) && changes == old(changes)
      ensures holdings.Keys == old(holdings).Keys
      ensures forall k :: k in holdings ==>
        holdings[k] == if pos[k] in ps then Tick(old(holdings)[k], last, time) else old(holdings)[k]
    {
      var i := 0;
      while i < |ps|
        invariant 0 <= i <= |ps|
        invariant Valid() && pos == old(pos) && changes == old(changes)
        invariant holdings.Keys == old(holdings).Keys
        invariant forall k :: k in holdings ==>
          holdings[k] == if pos[k] in ps[..i] then Tick(old(holdings)[k], last, time) else old(holdings)[k]
      {
        var p := ps[i];
        assert p in ps;
        FiledUnderOwnKey(p);
        assert p !in ps[..i];
        TickOne(p, last, time);
        assert ps[..i + 1] == ps[..i] + [p];
        i := i + 1;
      }
      assert ps[..i] == ps;
    }

    method OnTick(symbol: string, last: real, time: Ticks) returns (affected: seq<PositionState>)
      requires Valid()
      modifies this, pos.Values
      ensures Valid() && pos == old(pos) && changes == old(changes)
      ensures holdings == OnTickSpec(old(holdings), symbol, last, time)
      ensures forall p :: p in affected <==> p in pos.Values && p.symbol == symbol
      ensures forall i, j :: 0 <= i < j < |affected| ==> affected[i] != affected[j]
    {
      affected := Enumerate(set p | p in pos.Values && p.symbol == symbol);
      TickEach(affected, last, time);
      forall k | k in holdings
        ensures pos[k] in affected <==> k.symbol == symbol
      {
        assert Filed(k, pos[k], holdings[k]);
      }
    }

    /** Publishes each of `ps`, marked removed when it is flat. */
    method PublishFills(ps: seq<PositionState>)
      modifies this
      ensures pos == old(pos) && holdings == old(holdings)
      ensures changes == old(changes) + FillChanges(ps)
    {
      var i := 0;
      while i < |ps|
        invariant 0 <= i <= |ps|
        invariant pos == old(pos) && holdings == old(holdings)
        invariant changes == old(changes) + FillChanges(ps[..i])
      {
        var p := ps[i];
        assert ps[..i + 1][..i] == ps[..i];
        var removed := p.netQty == 0.0;
        changes := changes + [PositionChanged(p.Value(), removed)];
        i := i + 1;
      }
      assert ps[..i] == ps;
    }

    /** HandleFill: books the fill, then publishes its position, marked removed when it is flat. */
    method HandleFill(time: Ticks, f: Fill)
      requires Valid()
      modifies this, pos.Values
      ensures Valid()
      ensures holdings == OnFillSpec(old(holdings), ownership.State(), time, f)
      ensures var h := holdings[FillKey(ownership.State(), f)];
        changes == old(changes) + [PositionChanged(h, h.netQty == 0.0)]
    {
      var changed := OnFill(time, f);
      var key := FillKey(ownership.State(), f);
      assert Filed(key, pos[key], holdings[key]);
      PublishFills(changed);
    }

    /** Publishes each of `ps` that is not flat. */
    method PublishTicks(ps: seq<PositionState>)
      modifies this
      ensures pos == old(pos) && holdings == old(holdings)
      ensures changes == old(changes) + TickChanges(ps)
    {
      var i := 0;
      while i < |ps|
        invariant 0 <= i <= |ps|
        invariant pos == old(pos) && holdings == old(holdings)
        invariant changes == old(changes) + TickChanges(ps[..i])
      {
        var p := ps[i];
        assert ps[..i + 1][..i] == ps[..i];
        if p.netQty == 0.0 {
          i := i + 1;
          continue;
        }
        changes := changes + [PositionChanged(p.Value(), false)];
        i := i + 1;
      }
      assert ps[..i] == ps;
    }

    /** HandleTick: ticks the symbol's positions, then publishes each that is not flat. */
    method HandleTick(symbol: string, last: real, time: Ticks) returns (ghost affected: seq<PositionState>)
      requires Valid()
      modifies this, pos.Values
      ensures Valid()
      ensures holdings == OnTickSpec(old(holdings), symbol, last, time)
      ensures forall p :: p in affected <==> p in pos.Values && p.symbol == symbol
      ensures forall i, j :: 0 <= i < j < |affected| ==> affected[i] != affected[j]
      ensures changes == old(changes) + TickChanges(affected)
    {
      var changed := OnTick(symbol, last, time);
      affected := changed;
      PublishTicks(changed);
    }
  }
}
