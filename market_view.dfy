/**
 * The read-only market view handed to the broker and the algorithms: the
 * clock's time, the repository's reads, and a summary of the recent trades
 * of a symbol inside a time window.
 */
module MarketView {
  import opened Common
  import opened MarketData
  import opened RingBuffers
  import opened MarketStorage
  import opened Clocks

  /** How many of the newest stored trades the summary looks at. */
  const SummaryFetch: nat := 1000

  predicate InWindow(t: TradeTick, fromUtc: Ticks, toUtc: Ticks)
  {
    fromUtc <= t.timeUtc <= toUtc
  }

  /** The trades of `ts` inside [fromUtc, toUtc], in their original order. */
  function Window(ts: seq<TradeTick>, fromUtc: Ticks, toUtc: Ticks): (r: seq<TradeTick>)
    ensures |r| <= |ts|
    ensures forall t :: t in r ==> t in ts && InWindow(t, fromUtc, toUtc)
  {
    if ts == [] then []
    else
      var w := Window(ts[..|ts| - 1], fromUtc, toUtc);
      if InWindow(ts[|ts| - 1], fromUtc, toUtc) then w + [ts[|ts| - 1]] else w
  }

  /** Every trade of `ts` inside the window is kept. */
  lemma {:induction false} WindowKeeps(ts: seq<TradeTick>, fromUtc: Ticks, toUtc: Ticks, t: TradeTick)
    requires t in ts && InWindow(t, fromUtc, toUtc)
    ensures t in Window(ts, fromUtc, toUtc)
  {
    var last := ts[|ts| - 1];
    if t != last {
      assert ts == ts[..|ts| - 1] + [last];
      WindowKeeps(ts[..|ts| - 1], fromUtc, toUtc, t);
    }
  }

  function SumQuantity(ts: seq<TradeTick>): real
  {
    if ts == [] then 0.0 else SumQuantity(ts[..|ts| - 1]) + ts[|ts| - 1].quantity
  }

  function SumBuys(ts: seq<TradeTick>): real
  {
    if ts == [] then 0.0
    else SumBuys(ts[..|ts| - 1]) + (if ts[|ts| - 1].isBuy then ts[|ts| - 1].quantity else 0.0)
  }

  function SumSells(ts: seq<TradeTick>): real
  {
    if ts == [] then 0.0
    else SumSells(ts[..|ts| - 1]) + (if ts[|ts| - 1].isBuy then 0.0 else ts[|ts| - 1].quantity)
  }

  /** Every traded quantity is either a buy or a sell: the total volume splits into the two. */
  lemma {:induction false} VolumeSplits(ts: seq<TradeTick>)
    ensures SumQuantity(ts) == SumBuys(ts) + SumSells(ts)
  {
    if ts != [] {
      VolumeSplits(ts[..|ts| - 1]);
    }
  }

  /** The summary of the trades `ts` over [fromUtc, toUtc]. */
  function Summarize(ts: seq<TradeTick>, fromUtc: Ticks, toUtc: Ticks): TradeSummary
  {
    var w := Window(ts, fromUtc, toUtc);
    TradeSummary(fromUtc, toUtc, SumQuantity(w), SumBuys(w), SumSells(w), |w|)
  }

  /**
   * A summary's total is its buy volume plus its sell volume, and it counts
   * exactly the trades inside its window.
   */
  lemma SummaryFacts(ts: seq<TradeTick>, fromUtc: Ticks, toUtc: Ticks)
    ensures var s := Summarize(ts, fromUtc, toUtc);
      s.totalVolume == s.buyVolume + s.sellVolume
      && s.tradeCount == |Window(ts, fromUtc, toUtc)| <= |ts|
      && s.fromUtc == fromUtc && s.toUtc == toUtc
  {
    VolumeSplits(Window(ts, fromUtc, toUtc));
  }

  /** The foreach of GetTradeSummary: one pass over the trades, accumulating the window's volumes and count. */
  method Tally(ts: seq<TradeTick>, fromUtc: Ticks, toUtc: Ticks) returns (s: TradeSummary)
    ensures s == Summarize(ts, fromUtc, toUtc)
  {
    var totalVol, buyVol, sellVol, count := 0.0, 0.0, 0.0, 0;
    for i := 0 to |ts|
      invariant var w := Window(ts[..i], fromUtc, toUtc);
        totalVol == SumQuantity(w) && buyVol == SumBuys(w) && sellVol == SumSells(w) && count == |w|
    {
      assert ts[..i + 1][..i] == ts[..i];
      var t := ts[i];
      if fromUtc <= t.timeUtc <= toUtc {
        totalVol := totalVol + t.quantity;
        if t.isBuy {
          buyVol := buyVol + t.quantity;
        } else {
          sellVol := sellVol + t.quantity;
        }
        count := count + 1;
      }
    }
    assert ts[..|ts|] == ts;
    s := TradeSummary(fromUtc, toUtc, totalVol, buyVol, sellVol, count);
  }

  /**
   * The view reads the time from its clock and the data from the
   * repository; it never writes either.
   */
  class MarketDataView {
    const clock: VirtualClock
    const read: MarketDataRepository

    constructor (clock: VirtualClock, read: MarketDataRepository)
      ensures this.clock == clock && this.read == read
    {
      this.clock := clock;
      this.read := read;
    }

    /** NowUtc: the clock's time. */
    method NowUtc() returns (r: Ticks)
      ensures r == clock.UtcNow()
    {
      r := clock.ticks;
    }

    method GetBars(symbol: string, size: nat, res: Resolution) returns (r: seq<Bar>)
      requires read.Valid()
      ensures r == Recent(read.bars.History(SeriesKey(symbol, res)), read.bars.capacity, size)
    {
      r := read.GetBars(symbol, size, res);
    }

    method GetLastBar(symbol: string, res: Resolution) returns (r: Option<Bar>)
      requires read.Valid()
      ensures var h := read.bars.History(SeriesKey(symbol, res)); r == if h == [] then None else Some(h[|h| - 1])
    {
      r := read.GetLastBar(symbol, res);
    }

    method GetRecentTrades(symbol: string, maxCount: nat) returns (r: seq<TradeTick>)
      requires read.Valid()
      ensures r == Recent(read.trades.History(symbol), read.trades.capacity, maxCount)
    {
      r := read.GetRecentTrades(symbol, maxCount);
    }

    method GetLastOrderBookTop(symbol: string) returns (r: Option<OrderBookTop>)
      ensures r == CIFind(read.books.last, symbol)
    {
      r := read.GetLastOrderBookTop(symbol);
    }

    /**
     * GetTradeSummary: sums the trades among the newest 1000 stored for the
     * symbol whose time lies in [now - window, now]; `now - window` throws
     * when it leaves the DateTime range.
     */
    method GetTradeSummary(symbol: string, window: int) returns (r: Outcome<TradeSummary>)
      requires read.Valid()
      ensures var start := Shifted(clock.ticks, -window);
        r == if start.Threw? then Threw(start.message)
             else Returned(Summarize(Recent(read.trades.History(symbol), read.trades.capacity, SummaryFetch), start.value, clock.ticks))
    {
      var now := NowUtc();
      var start := Shifted(now, -window);
      if start.Threw? {
        return Threw(start.message);
      }
      var ts := read.GetRecentTrades(symbol, SummaryFetch);
      var summary := Tally(ts, start.value, now);
      return Returned(summary);
    }

    /** HasSymbol: whether a top of book was ever stored for the symbol, in any spelling. */
    method HasSymbol(symbol: string) returns (b: bool)
      ensures b <==> CIFind(read.books.last, symbol).Some?
    {
      var top := read.GetLastOrderBookTop(symbol);
      b := top.Some?;
    }
  }
}
