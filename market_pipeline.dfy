/**
 * MarketPipeline: the ingestion path of market data. Each trade or
 * top-of-book update sets a settable clock to the update's time, advances
 * the time advancer, is written to the repository and published on the
 * bus; trades then feed the one-minute bar aggregator. Every bar the
 * aggregator closes goes through the pipeline's bar-closed callback, which
 * sets the clock to the bar's minute, advances the advancer, appends the bar
 * to its series and publishes it.
 *
 * The bus is the `published` sequence and the time advancer, whichever
 * implementation is plugged in, is the `advanced` sequence of the times it
 * was asked to advance to.
 */
module Pipeline {
  import opened Common
  import opened MarketData
  import opened Clocks
  import opened MarketStorage
  import opened BarAggregation

  /** The advance targets of the bar-closed events, in order. */
  function BarTimes(events: seq<MarketEvent>): (r: seq<Ticks>)
    ensures |r| <= |events|
  {
    if events == [] then []
    else
      var e := events[|events| - 1];
      BarTimes(events[..|events| - 1]) + (if e.BarClosedEvent? then [e.barTimeUtc] else [])
  }

  /** The bar an event appends to the series `k`: its bar if it is a bar-closed event of that series. */
  function BarRow(e: MarketEvent, k: SeriesKey): seq<Bar>
  {
    if e.BarClosedEvent? && SeriesKey(e.symbol, e.resolution) == k then [e.bar] else []
  }

  /** The bars of the bar-closed events that belong to the series `k`, in order. */
  function BarsFor(events: seq<MarketEvent>, k: SeriesKey): (r: seq<Bar>)
    ensures |r| <= |events|
  {
    if events == [] then [] else BarsFor(events[..|events| - 1], k) + BarRow(events[|events| - 1], k)
  }

  /** The bars stored in the series `k` of the bar store's histories. */
  function SeriesOf(m: map<SeriesKey, seq<Bar>>, k: SeriesKey): seq<Bar>
  {
    if k in m then m[k] else []
  }

  /** AppendBar of a bar-closed event's bar to the event's series. */
  function FileBar(m: map<SeriesKey, seq<Bar>>, e: MarketEvent): map<SeriesKey, seq<Bar>>
  {
    if e.BarClosedEvent? then
      var k := SeriesKey(e.symbol, e.resolution);
      m[k := SeriesOf(m, k) + [e.bar]]
    else m
  }

  /** The bar store's histories after the bars of `events` were appended, in order. */
  function FileBars(m: map<SeriesKey, seq<Bar>>, events: seq<MarketEvent>): map<SeriesKey, seq<Bar>>
  {
    if events == [] then m else FileBar(FileBars(m, events[..|events| - 1]), events[|events| - 1])
  }

  /** Each series gains exactly the bars of its own events, in order; every other series is untouched. */
  lemma {:induction false} FileBarsSeries(m: map<SeriesKey, seq<Bar>>, events: seq<MarketEvent>, k: SeriesKey)
    ensures SeriesOf(FileBars(m, events), k) == SeriesOf(m, k) + BarsFor(events, k)
  {
    if events != [] {
      FileBarsSeries(m, events[..|events| - 1], k);
    }
  }

  /** What a clock reading `cur` reads after being set to each of `times`: only a settable clock is written. */
  function LastSet(cur: Ticks, settable: bool, times: seq<Ticks>): (r: Ticks)
    ensures !settable || times == [] ==> r == cur
    ensures r == cur || r in times
  {
    if settable && times != [] then times[|times| - 1] else cur
  }

  lemma LastSetJoin(cur: Ticks, settable: bool, a: seq<Ticks>, b: seq<Ticks>)
    ensures LastSet(LastSet(cur, settable, a), settable, b) == LastSet(cur, settable, a + b)
  {
    if b != [] {
      assert (a + b)[|a + b| - 1] == b[|b| - 1];
    }
  }

  /** The pipeline's own observable effects: the clock's reading, the advancer's targets and the bus. */
  datatype Trace = Trace(clock: Ticks, advanced: seq<Ticks>, published: seq<MarketEvent>)

  /** Stamping the time `t`: a settable clock is set to it and the advancer is sent to it. */
  function Stamped(tr: Trace, settable: bool, t: Ticks): Trace
  {
    tr.(clock := if settable then t else tr.clock, advanced := tr.advanced + [t])
  }

  /** The trace after the bar-closed callback ran on each of `events`, in order. */
  function AfterBars(tr: Trace, settable: bool, events: seq<MarketEvent>): Trace
  {
    if events == [] then tr else AfterBar(AfterBars(tr, settable, events[..|events| - 1]), settable, events[|events| - 1])
  }

  /** The trace after the bar-closed callback ran on `e`: the bar's minute is stamped, then `e` is published. */
  function AfterBar(tr: Trace, settable: bool, e: MarketEvent): Trace
  {
    if e.BarClosedEvent? then Published(Stamped(tr, settable, e.barTimeUtc), e) else tr
  }

  function Published(tr: Trace, e: MarketEvent): Trace
  {
    tr.(published := tr.published + [e])
  }

  /**
   * After the callbacks, the bus holds every event in order, the advancer
   * was sent to each bar's minute in order, and a settable clock reads the
   * minute of the last bar (a clock that is not settable is untouched).
   */
  lemma {:induction false} AfterBarsFacts(tr: Trace, settable: bool, events: seq<MarketEvent>)
    requires LawfulBars(events)
    ensures AfterBars(tr, settable, events) ==
      Trace(LastSet(tr.clock, settable, BarTimes(events)), tr.advanced + BarTimes(events), tr.published + events)
  {
    if events != [] {
      var rest := events[..|events| - 1];
      assert LawfulBars(rest) by {
        forall i | 0 <= i < |rest| ensures rest[i] == events[i] { }
      }
      var e := events[|events| - 1];
      assert e.BarClosedEvent?;
      AfterBarsFacts(tr, settable, rest);
      assert BarTimes(events) == BarTimes(rest) + [e.barTimeUtc];
      LastSetJoin(tr.clock, settable, BarTimes(rest), [e.barTimeUtc]);
      assert events == rest + [e];
    }
  }

  /**
   * The order of an ingest's effects: the update's time is stamped first,
   * then the update's own event is published, then each closed bar's minute
   * is stamped and its event published. So the bus carries the update's
   * event before the bars it closed, the advancer is sent to the update's
   * time before the bars' minutes, and a settable clock ends at the last
   * time it was set to.
   */
  lemma IngestEffects(tr: Trace, settable: bool, t: Ticks, ev: MarketEvent, events: seq<MarketEvent>)
    requires LawfulBars(events)
    ensures var after := AfterBars(Published(Stamped(tr, settable, t), ev), settable, events);
      && after.published == tr.published + [ev] + events
      && after.advanced == tr.advanced + [t] + BarTimes(events)
      && after.clock == LastSet(tr.clock, settable, [t] + BarTimes(events))
  {
    AfterBarsFacts(Published(Stamped(tr, settable, t), ev), settable, events);
    LastSetJoin(tr.clock, settable, [t], BarTimes(events));
  }

  lemma {:induction false} BarTimesJoin(a: seq<MarketEvent>, b: seq<MarketEvent>)
    ensures BarTimes(a + b) == BarTimes(a) + BarTimes(b)
    decreases |b|
  {
    if b != [] {
      var b' := b[..|b| - 1];
      assert (a + b)[..|a + b| - 1] == a + b';
      BarTimesJoin(a, b');
    } else {
      assert a + b == a;
    }
  }

  lemma {:induction false} BarsForJoin(a: seq<MarketEvent>, b: seq<MarketEvent>, k: SeriesKey)
    ensures BarsFor(a + b, k) == BarsFor(a, k) + BarsFor(b, k)
    decreases |b|
  {
    if b != [] {
      var b' := b[..|b| - 1];
      assert (a + b)[..|a + b| - 1] == a + b';
      BarsForJoin(a, b', k);
    } else {
      assert a + b == a;
    }
  }

  /**
   * The bar a builder closes is appended to exactly one series, the
   * builder's symbol at one minute, and the advancer is sent to the bar's
   * minute; a builder without trades stores and advances nothing.
   */
  lemma ClosedBarStored(symbol: string, b: OpenBar, k: SeriesKey)
    ensures BarsFor(Closed(symbol, b), k) ==
      if b.trades != [] && k == SeriesKey(symbol, M1) then [BuiltBar(b.bucket, b.trades)] else []
    ensures BarTimes(Closed(symbol, b)) == if b.trades != [] then [b.bucket] else []
  {
  }

  /**
   * A trade that closes its symbol's bar leaves a settable clock at the
   * start of the closed bar's minute, which is earlier than the trade's own
   * time that the clock was set to first.
   */
  lemma ClosingTradeRewindsClock(p: Option<OpenBar>, symbol: string, tick: TradeTick, cur: Ticks)
    requires WfAt(Fold(symbol), p)
    requires OnTradeSpec(p, symbol, tick).events != []
    ensures var times := [tick.timeUtc] + BarTimes(OnTradeSpec(p, symbol, tick).events);
      LastSet(cur, true, times) == p.value.bucket < tick.timeUtc
  {
    var events := OnTradeSpec(p, symbol, tick).events;
    ClosedBarStored(symbol, p.value, SeriesKey(symbol, M1));
    assert BarTimes(events) == [p.value.bucket];
    FloorFacts(tick.timeUtc, tick.timeUtc);
  }


  /**
   * The repository's contents as values: the trade histories by folded
   * symbol, the bar histories by series, the tops of book, and the symbols
   * top-of-book updates were stored under, in order.
   */
  datatype Stores = Stores(
    trades: map<string, seq<TradeTick>>,
    bars: map<SeriesKey, seq<Bar>>,
    books: CIMap<OrderBookTop>,
    updated: seq<string>)

  function TradesOf(m: map<string, seq<TradeTick>>, k: string): seq<TradeTick>
  {
    if k in m then m[k] else []
  }

  /** AppendTrade on the contents: the trade goes after the others of its symbol, in any spelling. */
  function Traded(st: Stores, symbol: string, tick: TradeTick): Stores
  {
    st.(trades := st.trades[Fold(symbol) := TradesOf(st.trades, Fold(symbol)) + [tick]])
  }

  /** UpdateTopOfBook on the contents. */
  function Booked(st: Stores, symbol: string, top: OrderBookTop): Stores
  {
    st.(books := CIPut(st.books, symbol, top), updated := st.updated + [symbol])
  }

  /** The bar-closed callback's AppendBar on the contents. */
  function FiledBar(st: Stores, e: MarketEvent): Stores
  {
    st.(bars := FileBar(st.bars, e))
  }

  /** AppendBar for each of `events`, in order. */
  function Filed(st: Stores, events: seq<MarketEvent>): Stores
  {
    st.(bars := FileBars(st.bars, events))
  }

  /** The builders after the entry of `k` became `p`. */
  function Put(m: map<string, OpenBar>, k: string, p: Option<OpenBar>): (r: map<string, OpenBar>)
    ensures forall k' :: Lookup(r, k') == if k' == k then p else Lookup(m, k')
  {
    if p.Some? then m[k := p.value] else m - {k}
  }

  /** The builders left after FlushAll at `now`: those of the minute of `now` or later. */
  function Kept(m: map<string, OpenBar>, now: Ticks): (r: map<string, OpenBar>)
    ensures forall k :: Lookup(r, k) == Current(Lookup(m, k), now)
  {
    map k | k in m && Current(Lookup(m, k), now).Some? :: m[k]
  }

  /** Two maps of builders that agree on every symbol are the same. */
  lemma SameBuilders(a: map<string, OpenBar>, b: map<string, OpenBar>)
    requires forall k :: Lookup(a, k) == Lookup(b, k)
    ensures a == b
  {
    assert a.Keys == b.Keys by {
      forall k ensures k in a <==> k in b {
        assert Lookup(a, k) == Lookup(b, k);
      }
    }
    forall k | k in a ensures a[k] == b[k] {
      assert Lookup(a, k) == Lookup(b, k);
    }
  }

  /**
   * MarketPipeline: every update is stamped on the clock and the time
   * advancer, stored, published on the bus, and fed to the one-minute bar
   * aggregator, whose bar-closed callback stamps, stores and publishes each
   * bar it closes. The bus and the advancer are modelled by the logs
   * `published` and `advanced`.
   */
  class MarketPipeline {
    const clock: VirtualClock
    /** Whether the clock is an ISettableClock: a clock that is not is only ever read. */
    const settable: bool
    const write: MarketDataRepository
    const agg: TradeToBarAggregator1m
    /** Every time the time advancer was asked to advance to, in order. */
    var advanced: seq<Ticks>
    /** Every event published on the bus, in order. */
    var published: seq<MarketEvent>
    ghost var Repr: set<object>

    /** The pipeline's parts are distinct objects, the repository is valid, and nothing the repository owns belongs to the aggregator. */
    ghost predicate Wired()
      reads this, Repr
    {
      this in Repr && clock in Repr && write in Repr && agg in Repr
      && write.Repr <= Repr && agg.Repr <= Repr
      && write.Valid()
      && clock !in write.Repr && (clock as object) != agg
      && agg !in write.Repr && write.Repr !! agg.Repr
      && this !in write.Repr && (this as object) != clock && (this as object) != agg
    }

    ghost predicate Valid()
      reads this, Repr
    {
      Wired() && agg.Valid()
    }

    /** The constructor: the aggregator is created with the bar-closed callback and holds no builders. */
    constructor (clock: VirtualClock, settable: bool, write: MarketDataRepository)
      requires write.Valid() && clock !in write.Repr
      ensures Valid() && fresh(agg) && fresh(agg.Repr)
      ensures this.clock == clock && this.settable == settable && this.write == write
      ensures advanced == [] && published == []
      ensures Held() == map[]
    {
      this.clock := clock;
      this.settable := settable;
      this.write := write;
      agg := new TradeToBarAggregator1m();
      advanced := [];
      published := [];
      new;
      Repr := {this, clock, agg} + write.Repr + agg.Repr;
      SameBuilders(Held(), map[]);
    }

    /** The clock's reading, the advancer's targets and the bus. */
    ghost function Observed(): Trace
      reads this, clock
    {
      Trace(clock.ticks, advanced, published)
    }

    /** The repository's contents. */
    ghost function Stored(): Stores
      reads write.trades, write.bars, write.books
    {
      Stores(write.trades.histories, write.bars.histories, write.books.last, write.books.updated)
    }

    /** The aggregator's builders, as values, by folded symbol. */
    ghost function Held(): map<string, OpenBar>
      reads agg, agg.Repr
    {
      agg.Builders()
    }

    /** Sets a settable clock to `t`, then advances the time advancer to `t`. */
    method Stamp(t: Ticks)
      requires Wired()
      modifies this, clock
      ensures Wired() && Repr == old(Repr)
      ensures unchanged(agg) && unchanged(agg.Repr)
      ensures Observed() == Stamped(old(Observed()), settable, t)
      ensures Stored() == old(Stored())
    {
      if settable {
        clock.SetUtc(t);
      }
      advanced := advanced + [t];
    }

    /** The bar-closed callback: stamp the bar's minute, append the bar to its series, publish the event. */
    method OnBarClosed(e: MarketEvent)
      requires Wired() && e.BarClosedEvent?
      modifies this, clock, write.Repr
      ensures Wired() && fresh(Repr - old(Repr)) && fresh(write.Repr - old(write.Repr))
      ensures unchanged(agg) && unchanged(agg.Repr)
      ensures Observed() == AfterBar(old(Observed()), settable, e)
      ensures Stored() == FiledBar(old(Stored()), e)
    {
      Stamp(e.barTimeUtc);
      Store(e);
    }

    /** The bar-closed callback after the stamp: append the bar to its series and publish the event. */
    method Store(e: MarketEvent)
      requires Wired() && e.BarClosedEvent?
      modifies this, write.Repr
      ensures Wired() && fresh(Repr - old(Repr)) && fresh(write.Repr - old(write.Repr))
      ensures unchanged(agg) && unchanged(agg.Repr)
      ensures Observed() == Published(old(Observed()), e)
      ensures Stored() == FiledBar(old(Stored()), e)
    {
      write.AppendBar(e.symbol, e.resolution, e.bar);
      published := published + [e];
      Repr := Repr + write.Repr;
    }

    /** The callback run on each bar-closed event the aggregator raised, in order. */
    method PublishBars(events: seq<MarketEvent>)
      requires Wired() && LawfulBars(events)
      modifies this, clock, write.Repr
      ensures Wired() && fresh(Repr - old(Repr)) && fresh(write.Repr - old(write.Repr))
      ensures unchanged(agg) && unchanged(agg.Repr)
      ensures Observed() == AfterBars(old(Observed()), settable, events)
      ensures Stored() == Filed(old(Stored()), events)
      decreases |events|
    {
      if events == [] {
        return;
      }
      var rest := events[..|events| - 1];
      var e := events[|events| - 1];
      PublishBars(rest);
      OnBarClosed(e);
    }

    /** Stamps the trade's time, appends the trade to the repository and publishes its event. */
    method RecordTrade(symbol: string, tick: TradeTick)
      requires Wired()
      modifies this, clock, write.Repr
      ensures Wired() && fresh(Repr - old(Repr)) && fresh(write.Repr - old(write.Repr))
      ensures unchanged(agg) && unchanged(agg.Repr)
      ensures Observed() == Published(Stamped(old(Observed()), settable, tick.timeUtc), TradeTickEvent(symbol, tick))
      ensures Stored() == Traded(old(Stored()), symbol, tick)
    {
      Stamp(tick.timeUtc);
      write.AppendTrade(symbol, tick);
      published := published + [TradeTickEvent(symbol, tick)];
      Repr := Repr + write.Repr;
    }

    /** The aggregator folds the trade in; the bars it closes are returned to run the callback on. */
    method Aggregate(symbol: string, tick: TradeTick) returns (events: seq<MarketEvent>)
      requires Valid()
      modifies this, agg, agg.Repr
      ensures Valid() && fresh(Repr - old(Repr))
      ensures var s := OnTradeSpec(Lookup(old(Held()), Fold(symbol)), symbol, tick);
        Held() == Put(old(Held()), Fold(symbol), s.pending) && events == s.events && LawfulBars(events)
      ensures Observed() == old(Observed()) && Stored() == old(Stored())
    {
      ghost var before := Held();
      events := agg.OnTrade(symbol, tick);
      Repr := Repr + agg.Repr;
      TradeLawful(Lookup(before, Fold(symbol)), symbol, tick);
      ghost var after := Held();
      ghost var want := Put(before, Fold(symbol), OnTradeSpec(Lookup(before, Fold(symbol)), symbol, tick).pending);
      forall k ensures Lookup(after, k) == Lookup(want, k) {
        assert Lookup(after, k) == agg.Pending(k);
        assert Lookup(before, k) == old(agg.Pending(k));
      }
      SameBuilders(after, want);
    }

    /**
     * IngestTrade: stamps the trade's time, appends the trade, publishes it
     * and feeds it to the aggregator; a bar the trade closes goes through
     * the bar-closed callback.
     */
    method IngestTrade(symbol: string, tick: TradeTick)
      requires Valid()
      modifies this, clock, write.Repr, agg, agg.Repr
      ensures Valid() && fresh(Repr - old(Repr))
      ensures var s := OnTradeSpec(Lookup(old(Held()), Fold(symbol)), symbol, tick);
        && Held() == Put(old(Held()), Fold(symbol), s.pending)
        && Observed() == AfterBars(Published(Stamped(old(Observed()), settable, tick.timeUtc), TradeTickEvent(symbol, tick)), settable, s.events)
        && Stored() == Filed(Traded(old(Stored()), symbol, tick), s.events)
        && LawfulBars(s.events)
    {
      RecordTrade(symbol, tick);
      var events := Aggregate(symbol, tick);
      assert fresh(Repr - old(Repr));
      PublishBars(events);
    }

    /** Stamps the update's time, replaces the stored top of book and publishes its event. */
    method RecordBook(symbol: string, top: OrderBookTop)
      requires Wired()
      modifies this, clock, write.books
      ensures Wired() && Repr == old(Repr)
      ensures unchanged(agg) && unchanged(agg.Repr)
      ensures Observed() == Published(Stamped(old(Observed()), settable, top.timeUtc), OrderBookTopEvent(symbol, top))
      ensures Stored() == Booked(old(Stored()), symbol, top)
    {
      Stamp(top.timeUtc);
      write.UpdateTopOfBook(symbol, top);
      published := published + [OrderBookTopEvent(symbol, top)];
    }

    /** The aggregator closes the symbol's bar if its minute has passed by `now`. */
    method Flush(symbol: string, now: Ticks) returns (events: seq<MarketEvent>)
      requires Valid()
      modifies agg
      ensures Valid() && Repr == old(Repr)
      ensures var s := FlushSpec(Lookup(old(Held()), Fold(symbol)), symbol, now);
        Held() == Put(old(Held()), Fold(symbol), s.pending) && events == s.events && LawfulBars(events)
      ensures Observed() == old(Observed()) && Stored() == old(Stored())
    {
      ghost var before := Held();
      events := agg.FlushIfMinutePassed(symbol, now);
      FlushLawful(Lookup(before, Fold(symbol)), symbol, now);
      ghost var after := Held();
      ghost var want := Put(before, Fold(symbol), FlushSpec(Lookup(before, Fold(symbol)), symbol, now).pending);
      forall k ensures Lookup(after, k) == Lookup(want, k) {
        assert Lookup(after, k) == agg.Pending(k);
        assert Lookup(before, k) == old(agg.Pending(k));
      }
      SameBuilders(after, want);
    }

    /**
     * IngestOrderBookTop: stamps the update's time, replaces the stored top
     * of book, publishes it, then closes the symbol's bar if the clock's
     * time has left its minute.
     */
    method IngestOrderBookTop(symbol: string, top: OrderBookTop)
      requires Valid()
      modifies this, clock, write.Repr, agg
      ensures Valid() && fresh(Repr - old(Repr))
      ensures var stamped := Stamped(old(Observed()), settable, top.timeUtc);
        var s := FlushSpec(Lookup(old(Held()), Fold(symbol)), symbol, stamped.clock);
        && Held() == Put(old(Held()), Fold(symbol), s.pending)
        && Observed() == AfterBars(Published(stamped, OrderBookTopEvent(symbol, top)), settable, s.events)
        && Stored() == Filed(Booked(old(Stored()), symbol, top), s.events)
        && LawfulBars(s.events)
    {
      RecordBook(symbol, top);
      var events := Flush(symbol, clock.ticks);
      PublishBars(events);
    }

    /**
     * FlushBars: closes every bar whose minute has passed by the clock's
     * time, running the bar-closed callback on each; `events` are the
     * bar-closed events in the order the callback ran.
     */
    method FlushBars() returns (ghost events: seq<MarketEvent>)
      requires Valid()
      modifies this, clock, write.Repr, agg
      ensures Valid() && fresh(Repr - old(Repr))
      ensures Held() == Kept(old(Held()), old(clock.ticks))
      ensures |events| == |old(agg.state)| - |agg.state| && LawfulBars(events)
      ensures forall k :: EventsOf(events, k) == Due(Lookup(old(Held()), k), old(clock.ticks))
      ensures Observed() == AfterBars(old(Observed()), settable, events)
      ensures Stored() == Filed(old(Stored()), events)
    {
      ghost var before := Held();
      var closed := agg.FlushAll(clock.ticks);
      SameBuilders(Held(), Kept(before, old(clock.ticks)));
      PublishBars(closed);
      events := closed;
    }
  }
}
