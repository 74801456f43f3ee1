/**
 * TradingState: the server's in-memory picture of trading — orders by id,
 * positions by symbol, algorithm states by name, a bounded queue of recent
 * fills, the kill switch — with a sequence number bumped by every change,
 * and the snapshot it hands to clients.
 */
module Trading {
  import opened Common
  import opened Orders
  import opened Snapshots

  datatype AlgorithmRuntimeState = AlgorithmRuntimeState(name: string, status: string, message: string)

  datatype TradingSnapshot = TradingSnapshot(
    seqNo: int,
    timeUtc: Ticks,
    killSwitchEnabled: bool,
    orders: seq<OrderState>,
    recentFills: seq<Fill>,
    positions: seq<Position>,
    algorithms: seq<AlgorithmRuntimeState>,
    marketDataOk: bool,
    marketDataStatus: string)

  /** The fewest recent fills kept, whatever the constructor is given. */
  const MinRecentFills := 10

  /** `Math.Max(10, maxRecentFills)`. */
  function RecentFillsCap(maxRecentFills: int): (cap: nat)
    ensures cap >= MinRecentFills && cap >= maxRecentFills
    ensures cap == MinRecentFills || cap == maxRecentFills
  {
    if maxRecentFills < MinRecentFills then MinRecentFills else maxRecentFills
  }

  /** The position a symbol's first fill opens: long for a buy, short for a sell, at the fill price. */
  function FirstFillPosition(f: Fill): Position
  {
    if f.side == Buy then Position(f.symbol, f.quantity, f.price)
    else Position(f.symbol, -f.quantity, f.price)
  }

  /**
   * A later fill: a buy adds to the quantity and moves the average price so
   * that quantity times average is the old cost plus the fill's (a flat
   * result has average 0); a sell takes from the quantity, never below 0,
   * and keeps the average.
   */
  function UpdatePosition(prior: Position, f: Fill): (r: Position)
    ensures r.symbol == prior.symbol
    ensures f.side == Buy ==> r.quantity == prior.quantity + f.quantity
    ensures f.side == Buy && r.quantity != 0.0 ==>
      r.quantity * r.avgPrice == prior.quantity * prior.avgPrice + f.quantity * f.price
    ensures f.side == Buy && r.quantity == 0.0 ==> r.avgPrice == 0.0
    ensures f.side == Sell ==> r.quantity == Max(0.0, prior.quantity - f.quantity) && r.avgPrice == prior.avgPrice
  {
    if f.side == Buy then
      var newQty := prior.quantity + f.quantity;
      if newQty == 0.0 then Position(prior.symbol, 0.0, 0.0)
      else Position(prior.symbol, newQty, (prior.quantity * prior.avgPrice + f.quantity * f.price) / newQty)
    else
      var newQty := prior.quantity - f.quantity;
      if newQty <= 0.0 then Position(prior.symbol, 0.0, prior.avgPrice)
      else Position(prior.symbol, newQty, prior.avgPrice)
  }

  /**
   * A first buy opens the same position a buy would give a flat one; a
   * first sell opens a short position, which a sell from flat never does.
   */
  lemma FirstFillAgainstFlat(f: Fill)
    requires f.quantity > 0.0
    ensures var flat := Position(f.symbol, 0.0, 0.0);
      && (f.side == Buy ==> FirstFillPosition(f) == UpdatePosition(flat, f))
      && (f.side == Sell ==> FirstFillPosition(f).quantity < 0.0 && UpdatePosition(flat, f).quantity == 0.0)
  {
    var flat := Position(f.symbol, 0.0, 0.0);
    if f.side == Buy {
      var r := UpdatePosition(flat, f);
      assert r.quantity * r.avgPrice == f.quantity * f.price;
    }
  }

  /** `AddOrUpdate` on the position table: open from the first fill, or update the existing one. */
  function PositionAfter(positions: CIMap<Position>, f: Fill): Position
  {
    match CIFind(positions, f.symbol)
    case None => FirstFillPosition(f)
    case Some(p) => UpdatePosition(p, f)
  }

  /** Everything a TradingState holds, as a value. */
  datatype TradingData = TradingData(
    seqNo: int,
    killSwitch: int,
    orders: CIMap<OrderState>,
    positions: CIMap<Position>,
    algorithms: CIMap<AlgorithmRuntimeState>,
    recentFills: seq<Fill>,
    cap: nat,
    marketDataOk: bool,
    marketDataStatus: string)

  /** The calls that change a TradingState. */
  datatype TradingOp =
    | NextSeqOp
    | SetKillSwitchOp(enabled: bool)
    | OrderUpdatedOp(order: OrderState)
    | FillOp(fill: Fill)
    | AlgorithmStateOp(name: string, status: string, message: string)

  /** One call: its own change, then the sequence number moves on by one. */
  function Apply(d: TradingData, op: TradingOp): TradingData
  {
    var changed := match op
      case NextSeqOp => d
      case SetKillSwitchOp(enabled) => d.(killSwitch := if enabled then 1 else 0)
      case OrderUpdatedOp(order) => d.(orders := CIPut(d.orders, order.orderId, order))
      case FillOp(f) =>
        d.(recentFills := Newest(d.recentFills + [f], d.cap),
           positions := CIPut(d.positions, f.symbol, PositionAfter(d.positions, f)))
      case AlgorithmStateOp(name, status, message) =>
        d.(algorithms := CIPut(d.algorithms, name, AlgorithmRuntimeState(name, status, message)));
    changed.(seqNo := d.seqNo + 1)
  }

  /** The state after the calls `ops`, in order. */
  function Run(d: TradingData, ops: seq<TradingOp>): TradingData
  {
    if ops == [] then d else Apply(Run(d, ops[..|ops| - 1]), ops[|ops| - 1])
  }

  /** The fills among `ops`, in order. */
  function FillsOf(ops: seq<TradingOp>): seq<Fill>
  {
    if ops == [] then []
    else FillsOf(ops[..|ops| - 1]) + (if ops[|ops| - 1].FillOp? then [ops[|ops| - 1].fill] else [])
  }

  /** What one call does to the counters, the fill queue and the kill switch. */
  lemma ApplyCounters(d: TradingData, op: TradingOp)
    ensures var e := Apply(d, op);
      && e.seqNo == d.seqNo + 1 && e.cap == d.cap
      && e.recentFills == (if op.FillOp? then Newest(d.recentFills + [op.fill], d.cap) else d.recentFills)
      && e.killSwitch == (if op.SetKillSwitchOp? then (if op.enabled then 1 else 0) else d.killSwitch)
  {
  }

  /** ApplyCounters for the last call of a run. */
  lemma RunStep(d: TradingData, ops: seq<TradingOp>)
    requires ops != []
    ensures var b, e, op := Run(d, ops[..|ops| - 1]), Run(d, ops), ops[|ops| - 1];
      && e.seqNo == b.seqNo + 1 && e.cap == b.cap
      && e.recentFills == (if op.FillOp? then Newest(b.recentFills + [op.fill], b.cap) else b.recentFills)
      && e.killSwitch == (if op.SetKillSwitchOp? then (if op.enabled then 1 else 0) else b.killSwitch)
  {
    ApplyCounters(Run(d, ops[..|ops| - 1]), ops[|ops| - 1]);
  }

  /**
   * Over any run of calls the sequence number grows by exactly the number
   * of calls, and the recent fills are the newest `cap` of all fills ever
   * applied, oldest first.
   */
  lemma {:induction false} RunCounts(d: TradingData, ops: seq<TradingOp>, history: seq<Fill>)
    requires d.cap > 0 && d.recentFills == Newest(history, d.cap)
    ensures var e := Run(d, ops);
      && e.seqNo == d.seqNo + |ops|
      && e.cap == d.cap
      && e.recentFills == Newest(history + FillsOf(ops), d.cap)
  {
    if ops != [] {
      var n := |ops| - 1;
      var prefix := ops[..n];
      RunCounts(d, prefix, history);
      RunStep(d, ops);
      var h := history + FillsOf(prefix);
      var b, e := Run(d, prefix), Run(d, ops);
      if ops[n].FillOp? {
        var f := ops[n].fill;
        assert FillsOf(ops) == FillsOf(prefix) + [f];
        assert history + FillsOf(ops) == h + [f];
        NewestAppend(h, f, d.cap);
        assert b.recentFills == Newest(h, d.cap);
        assert e.recentFills == Newest(Newest(h, d.cap) + [f], d.cap);
      } else {
        assert FillsOf(ops) == FillsOf(prefix);
        assert e.recentFills == b.recentFills;
      }
    }
  }

  /**
   * The kill switch is on exactly when the last SetKillSwitch of a run
   * turned it on, and a run without one leaves it as it was.
   */
  lemma {:induction false} RunKillSwitch(d: TradingData, ops: seq<TradingOp>)
    ensures forall i :: 0 <= i < |ops| && ops[i].SetKillSwitchOp? && (forall j :: i < j < |ops| ==> !ops[j].SetKillSwitchOp?) ==>
      (Run(d, ops).killSwitch == 1 <==> ops[i].enabled)
    ensures (forall i :: 0 <= i < |ops| ==> !ops[i].SetKillSwitchOp?) ==> Run(d, ops).killSwitch == d.killSwitch
  {
    if ops != [] {
      var n := |ops| - 1;
      var prefix := ops[..n];
      RunKillSwitch(d, prefix);
      RunStep(d, ops);
      var b, e := Run(d, prefix), Run(d, ops);
      assert forall j :: 0 <= j < n ==> prefix[j] == ops[j];
      if ops[n].SetKillSwitchOp? {
        assert e.killSwitch == if ops[n].enabled then 1 else 0;
      } else {
        assert e.killSwitch == b.killSwitch;
        forall i | 0 <= i < n && ops[i].SetKillSwitchOp? && (forall j :: i < j < |ops| ==> !ops[j].SetKillSwitchOp?)
          ensures e.killSwitch == 1 <==> ops[i].enabled
        {
          assert prefix[i].SetKillSwitchOp? && forall j :: i < j < n ==> !prefix[j].SetKillSwitchOp?;
        }
      }
    }
  }

  /** An order update is an upsert by order id, ignoring case: the order is found under its id, others are untouched. */
  lemma OrderUpdatedUpserts(d: TradingData, order: OrderState, id: string)
    ensures var e := Apply(d, OrderUpdatedOp(order));
      CIFind(e.orders, id) == if Fold(id) == Fold(order.orderId) then Some(order) else CIFind(d.orders, id)
  {
    CIPutFacts(d.orders, order.orderId, order);
    if Fold(id) == Fold(order.orderId) {
      assert CIFind(CIPut(d.orders, order.orderId, order), id) == CIFind(CIPut(d.orders, order.orderId, order), order.orderId);
    }
  }

  function PositionSymbol(p: Position): string { p.symbol }

  function AlgorithmName(a: AlgorithmRuntimeState): string { a.name }

  class TradingState {
    var seqNo: int
    var killSwitch: int
    var orders: CIMap<OrderState>
    var positions: CIMap<Position>
    var algorithms: CIMap<AlgorithmRuntimeState>
    var recentFills: seq<Fill>
    const cap: nat
    var marketDataOk: bool
    var marketDataStatus: string
    /** Every fill applied since construction, oldest first. */
    ghost var fills: seq<Fill>

    /** The queue holds the newest `cap` fills ever applied; the tables are keyed by folded name. */
    ghost predicate Valid()
      reads this
    {
      && cap >= MinRecentFills
      && recentFills == Newest(fills, cap)
      && CIValid(orders) && CIValid(positions) && CIValid(algorithms)
    }

    ghost function State(): TradingData
      reads this
    {
      TradingData(seqNo, killSwitch, orders, positions, algorithms, recentFills, cap, marketDataOk, marketDataStatus)
    }

    function KillSwitchEnabled(): (on: bool)
      reads this
      ensures on <==> State().killSwitch == 1
    {
      killSwitch == 1
    }

    constructor (maxRecentFills: int)
      ensures Valid() && fills == []
      ensures State() == TradingData(0, 0, map[], map[], map[], [], RecentFillsCap(maxRecentFills), true, "OK")
    {
      seqNo := 0;
      killSwitch := 0;
      orders, positions, algorithms := map[], map[], map[];
      recentFills := [];
      cap := RecentFillsCap(maxRecentFills);
      marketDataOk, marketDataStatus := true, "OK";
      fills := [];
    }

    method NextSeq() returns (s: int)
      modifies this
      ensures State() == Apply(old(State()), NextSeqOp) && fills == old(fills)
      ensures s == seqNo
    {
      seqNo := seqNo + 1;
      s := seqNo;
    }

    method SetKillSwitch(enabled: bool) returns (s: int)
      modifies this
      ensures State() == Apply(old(State()), SetKillSwitchOp(enabled)) && fills == old(fills)
      ensures s == seqNo
    {
      killSwitch := if enabled then 1 else 0;
      s := NextSeq();
    }

    method ApplyOrderUpdated(order: OrderState) returns (s: int)
      requires Valid()
      modifies this
      ensures Valid() && State() == Apply(old(State()), OrderUpdatedOp(order)) && fills == old(fills)
      ensures s == seqNo
    {
      CIPutFacts(orders, order.orderId, order);
      orders := CIPut(orders, order.orderId, order);
      s := NextSeq();
    }

    /** Drops the oldest fills while the queue is over its bound. */
    method TrimRecentFills()
      modifies this
      ensures State() == old(State()).(recentFills := Newest(old(recentFills), cap)) && fills == old(fills)
    {
      while |recentFills| > cap
        invariant recentFills == old(recentFills)[|old(recentFills)| - |recentFills|..]
        invariant |recentFills| >= cap || recentFills == old(recentFills)
        invariant State() == old(State()).(recentFills := recentFills) && fills == old(fills)
        decreases |recentFills|
      {
        recentFills := recentFills[1..];
      }
    }

    method ApplyFill(f: Fill) returns (s: int)
      requires Valid()
      modifies this
      ensures Valid() && State() == Apply(old(State()), FillOp(f)) && fills == old(fills) + [f]
      ensures s == seqNo
    {
      NewestAppend(fills, f, cap);
      recentFills := recentFills + [f];
      fills := fills + [f];
      TrimRecentFills();
      CIPutFacts(positions, f.symbol, PositionAfter(positions, f));
      positions := CIPut(positions, f.symbol, PositionAfter(positions, f));
      s := NextSeq();
    }

    method ApplyAlgorithmState(name: string, status: string, message: string) returns (s: int)
      requires Valid()
      modifies this
      ensures Valid() && State() == Apply(old(State()), AlgorithmStateOp(name, status, message)) && fills == old(fills)
      ensures s == seqNo
    {
      var a := AlgorithmRuntimeState(name, status, message);
      CIPutFacts(algorithms, name, a);
      algorithms := CIPut(algorithms, name, a);
      s := NextSeq();
    }

    /**
     * The snapshot at `now`: the current sequence number and flags, every
     * order once, newest first; the recent fills newest first; every
     * position once, by symbol; every algorithm once, by name.
     */
    method Snapshot(now: Ticks) returns (snap: TradingSnapshot, ghost orderKeys: seq<string>, ghost positionKeys: seq<string>, ghost algorithmKeys: seq<string>)
      ensures snap.seqNo == seqNo && snap.timeUtc == now && snap.killSwitchEnabled == KillSwitchEnabled()
      ensures snap.marketDataOk == marketDataOk && snap.marketDataStatus == marketDataStatus
      ensures Lists(orderKeys, orders) && NewestFirst(snap.orders)
      ensures multiset(snap.orders) == multiset(ValuesIn(orders, orderKeys))
      ensures snap.recentFills == Reversed(recentFills)
      ensures Lists(positionKeys, positions) && ByNameSorted(snap.positions, PositionSymbol)
      ensures multiset(snap.positions) == multiset(ValuesIn(positions, positionKeys))
      ensures Lists(algorithmKeys, algorithms) && ByNameSorted(snap.algorithms, AlgorithmName)
      ensures multiset(snap.algorithms) == multiset(ValuesIn(algorithms, algorithmKeys))
    {
      var os, ps, as_;
      os, orderKeys := ListValues(orders);
      ps, positionKeys := ListValues(positions);
      as_, algorithmKeys := ListValues(algorithms);
      ByRecencySorted(os);
      ByNameSortedFacts(ps, PositionSymbol);
      ByNameSortedFacts(as_, AlgorithmName);
      snap := TradingSnapshot(
        seqNo, now, KillSwitchEnabled(), ByRecency(os), Reversed(recentFills),
        ByName(ps, PositionSymbol), ByName(as_, AlgorithmName), marketDataOk, marketDataStatus);
    }
  }
}
