/**
 * OrderStateProjection: the order-side part of the trading state — orders
 * by id, a bounded queue of recent fills, the kill switch and a sequence
 * number — and its snapshot. It keeps exactly what TradingState keeps
 * for those, without positions or algorithms.
 */
module OrderProjection {
  import opened Common
  import opened Orders
  import opened Snapshots
  import Trading

  datatype TradingSnapshot = TradingSnapshot(
    seqNo: int,
    timeUtc: Ticks,
    killSwitchEnabled: bool,
    orders: seq<OrderState>,
    recentFills: seq<Fill>,
    marketDataOk: bool,
    marketDataStatus: string)

  /** Everything the projection holds, as a value. */
  datatype ProjectionData = ProjectionData(
    seqNo: int,
    killSwitch: int,
    orders: CIMap<OrderState>,
    recentFills: seq<Fill>,
    cap: nat,
    marketDataOk: bool,
    marketDataStatus: string)

  /** The calls the projection offers: every TradingState call but the algorithm one. */
  predicate Offered(op: Trading.TradingOp)
  {
    !op.AlgorithmStateOp?
  }

  /** One call: its own change, then the sequence number moves on by one. */
  function Apply(p: ProjectionData, op: Trading.TradingOp): ProjectionData
    requires Offered(op)
  {
    var changed := match op
      case NextSeqOp => p
      case SetKillSwitchOp(enabled) => p.(killSwitch := if enabled then 1 else 0)
      case OrderUpdatedOp(order) => p.(orders := CIPut(p.orders, order.orderId, order))
      case FillOp(f) => p.(recentFills := Newest(p.recentFills + [f], p.cap));
    changed.(seqNo := p.seqNo + 1)
  }

  /** The order-side part of a TradingState. */
  function Project(d: Trading.TradingData): ProjectionData
  {
    ProjectionData(d.seqNo, d.killSwitch, d.orders, d.recentFills, d.cap, d.marketDataOk, d.marketDataStatus)
  }

  function Run(p: ProjectionData, ops: seq<Trading.TradingOp>): ProjectionData
    requires forall i :: 0 <= i < |ops| ==> Offered(ops[i])
  {
    if ops == [] then p else Apply(Run(p, ops[..|ops| - 1]), ops[|ops| - 1])
  }

  /**
   * Fed the same calls, the projection ends where the order-side part of a
   * TradingState ends: same sequence number, kill switch, orders and
   * recent fills.
   */
  lemma {:induction false} RunMirrorsTradingState(d: Trading.TradingData, ops: seq<Trading.TradingOp>)
    requires forall i :: 0 <= i < |ops| ==> Offered(ops[i])
    ensures Run(Project(d), ops) == Project(Trading.Run(d, ops))
  {
    if ops != [] {
      var n := |ops| - 1;
      RunMirrorsTradingState(d, ops[..n]);
      var before := Trading.Run(d, ops[..n]);
      assert Trading.Run(d, ops) == Trading.Apply(before, ops[n]);
      assert Project(Trading.Apply(before, ops[n])) == Apply(Project(before), ops[n]);
    }
  }

  class OrderStateProjection {
    var seqNo: int
    var killSwitch: int
    var orders: CIMap<OrderState>
    var recentFills: seq<Fill>
    const cap: nat
    var marketDataOk: bool
    var marketDataStatus: string
    /** Every fill applied since construction, oldest first. */
    ghost var fills: seq<Fill>

    /** The queue holds the newest `cap` fills ever applied; orders are keyed by folded id. */
    ghost predicate Valid()
      reads this
    {
      cap >= Trading.MinRecentFills && recentFills == Newest(fills, cap) && CIValid(orders)
    }

    ghost function State(): ProjectionData
      reads this
    {
      ProjectionData(seqNo, killSwitch, orders, recentFills, cap, marketDataOk, marketDataStatus)
    }

    function KillSwitchEnabled(): (on: bool)
      reads this
      ensures on <==> State().killSwitch == 1
    {
      killSwitch == 1
    }

    constructor (maxRecentFills: int)
      ensures Valid() && fills == []
      ensures State() == ProjectionData(0, 0, map[], [], Trading.RecentFillsCap(maxRecentFills), true, "OK")
    {
      seqNo := 0;
      killSwitch := 0;
      orders := map[];
      recentFills := [];
      cap := Trading.RecentFillsCap(maxRecentFills);
      marketDataOk, marketDataStatus := true, "OK";
      fills := [];
    }

    method NextSeq() returns (s: int)
      modifies this
      ensures State() == Apply(old(State()), Trading.NextSeqOp) && fills == old(fills)
      ensures s == seqNo
    {
      seqNo := seqNo + 1;
      s := seqNo;
    }

    method SetKillSwitch(enabled: bool) returns (s: int)
      modifies this
      ensures State() == Apply(old(State()), Trading.SetKillSwitchOp(enabled)) && fills == old(fills)
      ensures s == seqNo
    {
      killSwitch := if enabled then 1 else 0;
      s := NextSeq();
    }

    method ApplyOrderUpdated(order: OrderState) returns (s: int)
      requires Valid()
      modifies this
      ensures Valid() && State() == Apply(old(State()), Trading.OrderUpdatedOp(order)) && fills == old(fills)
      ensures s == seqNo
    {
      CIPutFacts(orders, order.orderId, order);
      orders := CIPut(orders, order.orderId, order);
      s := NextSeq();
    }

    /** Drops the oldest fills while the queue is over its bound. */
    method TrimRecentFills()
      modifies this
      ensures State() == old(State()).(recentFills := Newest(old(recentFills), cap)) && fills == old(fills)
    {
      while |recentFills| > cap
        invariant recentFills == old(recentFills)[|old(recentFills)| - |recentFills|..]
        invariant |recentFills| >= cap || recentFills == old(recentFills)
        invariant State() == old(State()).(recentFills := recentFills) && fills == old(fills)
        decreases |recentFills|
      {
        recentFills := recentFills[1..];
      }
    }

    method ApplyFill(f: Fill) returns (s: int)
      requires Valid()
      modifies this
      ensures Valid() && State() == Apply(old(State()), Trading.FillOp(f)) && fills == old(fills) + [f]
      ensures s == seqNo
    {
      NewestAppend(fills, f, cap);
      recentFills := recentFills + [f];
      fills := fills + [f];
      TrimRecentFills();
      s := NextSeq();
    }

    /**
     * The snapshot at `now`: the current sequence number and flags, every
     * order once, newest first, and the recent fills newest first.
     */
    method Snapshot(now: Ticks) returns (snap: TradingSnapshot, ghost orderKeys: seq<string>)
      ensures snap.seqNo == seqNo && snap.timeUtc == now && snap.killSwitchEnabled == KillSwitchEnabled()
      ensures snap.marketDataOk == marketDataOk && snap.marketDataStatus == marketDataStatus
      ensures Lists(orderKeys, orders) && NewestFirst(snap.orders)
      ensures multiset(snap.orders) == multiset(ValuesIn(orders, orderKeys))
      ensures snap.recentFills == Reversed(recentFills)
    {
      var os;
      os, orderKeys := ListValues(orders);
      ByRecencySorted(os);
      snap := TradingSnapshot(seqNo, now, KillSwitchEnabled(), ByRecency(os), Reversed(recentFills), marketDataOk, marketDataStatus);
    }
  }
}
