/**
 * The in-memory market-data stores. Bars are kept per (symbol, resolution)
 * series and trades per symbol, each in a ring buffer created on first
 * write; the latest top of book is kept per symbol. Trade and book symbols
 * are compared ignoring case, bar series keys exactly.
 */
module MarketStorage {
  import opened Common
  import opened MarketData
  import opened RingBuffers

  /** A bar series key: the tuple (symbol, resolution) with its default, case-sensitive equality. */
  datatype SeriesKey = SeriesKey(symbol: string, res: Resolution)

  /** A store's buffer holds the history `h` with the store's capacity. */
  ghost predicate Holds<T(0)>(rb: RingBuffer<T>, capacity: nat, h: seq<T>)
    reads rb, rb.buf
  {
    rb.Valid() && rb.buf.Length == capacity && rb.history == h
  }

  class BarStorage {
    const capacity: nat
    var series: map<SeriesKey, RingBuffer<Bar>>
    /** Every bar ever appended to each series, oldest first. */
    ghost var histories: map<SeriesKey, seq<Bar>>
    ghost var Repr: set<object>
    /** The series each buffer and each buffer's array belongs to: no two series share either. */
    ghost var owner: map<object, SeriesKey>

    ghost predicate Valid()
      reads this, Repr
    {
      this in Repr && capacity > 0 && series.Keys == histories.Keys
      && forall k :: k in series ==>
        series[k] in Repr && series[k].buf in Repr && Holds(series[k], capacity, histories[k])
        && series[k] in owner && owner[series[k]] == k && series[k].buf in owner && owner[series[k].buf] == k
    }

    /** Every bar ever appended to the series, oldest first. */
    ghost function History(k: SeriesKey): seq<Bar>
      reads this
    {
      if k in histories then histories[k] else []
    }

    constructor (capacityPerSeries: nat)
      requires capacityPerSeries > 0
      ensures Valid() && fresh(Repr) && capacity == capacityPerSeries
      ensures forall k :: History(k) == []
    {
      capacity := capacityPerSeries;
      series := map[];
      histories := map[];
      Repr := {this};
      owner := map[];
    }

    /** AppendBar: adds the bar to its series, creating the series on first use; no other series changes. */
    method AppendBar(symbol: string, res: Resolution, bar: Bar)
      requires Valid()
      modifies Repr
      ensures Valid() && fresh(Repr - old(Repr))
      ensures histories == old(histories)[SeriesKey(symbol, res) := old(History(SeriesKey(symbol, res))) + [bar]]
    {
      var key := SeriesKey(symbol, res);
      var rb := SeriesFor(key);
      AddTo(key, rb, bar);
    }

    /** The series' buffer, created empty on first use. */
    method SeriesFor(key: SeriesKey) returns (rb: RingBuffer<Bar>)
      requires Valid()
      modifies this
      ensures Valid() && fresh(Repr - old(Repr))
      ensures key in series && rb == series[key]
      ensures histories == old(histories)[key := old(History(key))]
    {
      if key in series {
        rb := series[key];
      } else {
        rb := NewSeries(key);
      }
    }

    /** `_series[key] = new RingBuffer<Bar>(_capacity)` for a key not yet present. */
    method NewSeries(key: SeriesKey) returns (rb: RingBuffer<Bar>)
      requires Valid() && key !in series
      modifies this
      ensures Valid() && fresh(Repr - old(Repr))
      ensures series == old(series)[key := rb] && histories == old(histories)[key := []] && fresh(rb)
    {
      rb := new RingBuffer<Bar>(capacity);
      Register(key, rb);
    }

    /** Files the new, empty buffer `rb` under `key`. */
    method Register(key: SeriesKey, rb: RingBuffer<Bar>)
      requires Valid() && key !in series && rb !in Repr && rb.buf !in Repr && Holds(rb, capacity, [])
      modifies this
      ensures Valid() && Repr == old(Repr) + {rb, rb.buf}
      ensures series == old(series)[key := rb] && histories == old(histories)[key := []]
    {
      series := series[key := rb];
      histories := histories[key := []];
      Repr := Repr + {rb, rb.buf};
      owner := owner[rb := key][rb.buf := key];
    }

    /** rb.Add(bar) on the series' buffer: the other buffers are distinct objects and keep their contents. */
    method AddTo(key: SeriesKey, rb: RingBuffer<Bar>, bar: Bar)
      requires Valid() && key in series && series[key] == rb
      modifies this, rb, rb.buf
      ensures Valid() && Repr == old(Repr) && histories == old(histories)[key := old(histories[key]) + [bar]]
    {
      rb.Add(bar);
      histories := histories[key := histories[key] + [bar]];
      forall k | k in series && k != key
        ensures Holds(series[k], capacity, histories[k])
      {
        assert series[k] != rb && series[k].buf != rb.buf;
      }
    }

    /** GetBars: the newest `size` bars of the series that are still held, oldest first; none for an unknown series. */
    method GetBars(symbol: string, size: nat, res: Resolution) returns (r: seq<Bar>)
      requires Valid()
      ensures r == Recent(History(SeriesKey(symbol, res)), capacity, size)
    {
      var key := SeriesKey(symbol, res);
      if key !in series {
        return [];
      }
      r := series[key].Tail(size);
    }

    /** GetLastBar: the bar appended last to the series, or null for an unknown series. */
    method GetLastBar(symbol: string, res: Resolution) returns (r: Option<Bar>)
      requires Valid()
      ensures var h := History(SeriesKey(symbol, res)); r == if h == [] then None else Some(h[|h| - 1])
    {
      var key := SeriesKey(symbol, res);
      if key !in series {
        return None;
      }
      r := series[key].LastOrDefault();
    }
  }

  /** Trade buffers are filed under the folded symbol (StringComparer.OrdinalIgnoreCase). */
  class TradeStorage {
    const capacity: nat
    var ticks: map<string, RingBuffer<TradeTick>>
    /** Every trade ever appended under each folded symbol, oldest first. */
    ghost var histories: map<string, seq<TradeTick>>
    ghost var Repr: set<object>
    /** The folded symbol each buffer and each buffer's array belongs to: no two symbols share either. */
    ghost var owner: map<object, string>

    ghost predicate Valid()
      reads this, Repr
    {
      this in Repr && capacity > 0 && ticks.Keys == histories.Keys
      && forall k :: k in ticks ==>
        ticks[k] in Repr && ticks[k].buf in Repr && Holds(ticks[k], capacity, histories[k])
        && ticks[k] in owner && owner[ticks[k]] == k && ticks[k].buf in owner && owner[ticks[k].buf] == k
    }

    /** Every trade ever appended under the symbol, in any spelling, oldest first. */
    ghost function History(symbol: string): seq<TradeTick>
      reads this
    {
      if Fold(symbol) in histories then histories[Fold(symbol)] else []
    }

    constructor (capacityPerSymbol: nat)
      requires capacityPerSymbol > 0
      ensures Valid() && fresh(Repr) && capacity == capacityPerSymbol
      ensures forall s :: History(s) == []
    {
      capacity := capacityPerSymbol;
      ticks := map[];
      histories := map[];
      Repr := {this};
      owner := map[];
    }

    /** AppendTrade: adds the trade to the symbol's buffer; symbols that differ other than in case are untouched. */
    method AppendTrade(symbol: string, tick: TradeTick)
      requires Valid()
      modifies Repr
      ensures Valid() && fresh(Repr - old(Repr))
      ensures histories == old(histories)[Fold(symbol) := old(History(symbol)) + [tick]]
    {
      var rb := BufferFor(Fold(symbol));
      AddTo(Fold(symbol), rb, tick);
    }

    /** The buffer filed under the folded symbol, created empty on first use. */
    method BufferFor(key: string) returns (rb: RingBuffer<TradeTick>)
      requires Valid()
      modifies this
      ensures Valid() && fresh(Repr - old(Repr))
      ensures key in ticks && rb == ticks[key]
      ensures histories == old(histories)[key := if key in old(histories) then old(histories[key]) else []]
    {
      if key in ticks {
        rb := ticks[key];
      } else {
        rb := NewBuffer(key);
      }
    }

    /** `_ticks[symbol] = new RingBuffer<TradeTick>(_capacity)` for a symbol not yet present. */
    method NewBuffer(key: string) returns (rb: RingBuffer<TradeTick>)
      requires Valid() && key !in ticks
      modifies this
      ensures Valid() && fresh(Repr - old(Repr))
      ensures ticks == old(ticks)[key := rb] && histories == old(histories)[key := []] && fresh(rb)
    {
      rb := new RingBuffer<TradeTick>(capacity);
      Register(key, rb);
    }

    /** Files the new, empty buffer `rb` under `key`. */
    method Register(key: string, rb: RingBuffer<TradeTick>)
      requires Valid() && key !in ticks && rb !in Repr && rb.buf !in Repr && Holds(rb, capacity, [])
      modifies this
      ensures Valid() && Repr == old(Repr) + {rb, rb.buf}
      ensures ticks == old(ticks)[key := rb] && histories == old(histories)[key := []]
    {
      ticks := ticks[key := rb];
      histories := histories[key := []];
      Repr := Repr + {rb, rb.buf};
      owner := owner[rb := key][rb.buf := key];
    }

    /** rb.Add(tick) on the buffer filed under `key`; the other buffers keep their contents. */
    method AddTo(key: string, rb: RingBuffer<TradeTick>, tick: TradeTick)
      requires Valid() && key in ticks && ticks[key] == rb
      modifies this, rb, rb.buf
      ensures Valid() && Repr == old(Repr) && histories == old(histories)[key := old(histories[key]) + [tick]]
    {
      rb.Add(tick);
      histories := histories[key := histories[key] + [tick]];
      forall k | k in ticks && k != key
        ensures Holds(ticks[k], capacity, histories[k])
      {
        assert ticks[k] != rb && ticks[k].buf != rb.buf;
      }
    }

    /** GetRecent: the newest `maxCount` trades still held for the symbol, oldest first. */
    method GetRecent(symbol: string, maxCount: nat) returns (r: seq<TradeTick>)
      requires Valid()
      ensures r == Recent(History(symbol), capacity, maxCount)
    {
      var key := Fold(symbol);
      if key !in ticks {
        return [];
      }
      r := ticks[key].Tail(maxCount);
    }
  }

  /** The last top of book per symbol: last write wins, no history. */
  class OrderBookStorage {
    var last: CIMap<OrderBookTop>
    /** Every symbol ever given a top of book, in call order. */
    ghost var updated: seq<string>

    ghost predicate Valid()
      reads this
    {
      CIValid(last)
      && (forall k :: k in last ==> last[k].key in updated)
      && (forall s :: s in updated ==> Fold(s) in last)
    }

    constructor ()
      ensures Valid() && last == map[] && updated == []
    {
      last := map[];
      updated := [];
    }

    /** UpdateTopOfBook: replaces the symbol's top of book. */
    method UpdateTopOfBook(symbol: string, top: OrderBookTop)
      requires Valid()
      modifies this
      ensures Valid() && last == CIPut(old(last), symbol, top) && updated == old(updated) + [symbol]
    {
      CIPutFacts(last, symbol, top);
      last := CIPut(last, symbol, top);
      updated := updated + [symbol];
    }

    /** GetLast: the symbol's latest top of book, or null. */
    method GetLast(symbol: string) returns (r: Option<OrderBookTop>)
      ensures r == CIFind(last, symbol)
    {
      r := CIFind(last, symbol);
    }

    /**
     * Symbols: one spelling for each symbol ever given a top of book, the
     * spelling it was first given in (the enumeration order is not modelled).
     */
    method Symbols() returns (r: set<string>)
      requires Valid()
      ensures forall s :: s in r ==> s in updated
      ensures forall s :: s in updated ==> exists k :: k in r && Fold(k) == Fold(s)
      ensures forall k, k' :: k in r && k' in r && Fold(k) == Fold(k') ==> k == k'
    {
      r := CIKeys(last);
      forall s | s in updated
        ensures exists k :: k in r && Fold(k) == Fold(s)
      {
        assert last[Fold(s)].key in r;
      }
    }
  }

  /**
   * The repository the pipeline writes to and the view reads from: each
   * call is forwarded unchanged to the store that owns that kind of data.
   */
  class MarketDataRepository {
    const trades: TradeStorage
    const books: OrderBookStorage
    const bars: BarStorage
    ghost var Repr: set<object>

    ghost predicate Valid()
      reads this, Repr
    {
      this in Repr && books in Repr && trades in Repr && bars in Repr
      && trades.Repr <= Repr && bars.Repr <= Repr
      && this !in trades.Repr && this !in bars.Repr
      && books !in trades.Repr && books !in bars.Repr && trades.Repr !! bars.Repr
      && trades.Valid() && bars.Valid() && books.Valid()
    }

    constructor (trades: TradeStorage, books: OrderBookStorage, bars: BarStorage)
      requires trades.Valid() && bars.Valid() && books.Valid()
      requires books !in trades.Repr && books !in bars.Repr && trades.Repr !! bars.Repr
      ensures Valid() && this.trades == trades && this.books == books && this.bars == bars
      ensures Repr == {this, books} + trades.Repr + bars.Repr
    {
      this.trades := trades;
      this.books := books;
      this.bars := bars;
      Repr := {this, books} + trades.Repr + bars.Repr;
    }

    method AppendTrade(symbol: string, tick: TradeTick)
      requires Valid()
      modifies trades.Repr, this
      ensures Valid() && fresh(Repr - old(Repr))
      ensures trades.histories == old(trades.histories)[Fold(symbol) := old(trades.History(symbol)) + [tick]]
      ensures bars.histories == old(bars.histories)
      ensures books.last == old(books.last) && books.updated == old(books.updated)
    {
      trades.AppendTrade(symbol, tick);
      Repr := Repr + trades.Repr;
    }

    method UpdateTopOfBook(symbol: string, top: OrderBookTop)
      requires Valid()
      modifies books
      ensures Valid() && Repr == old(Repr)
      ensures books.last == CIPut(old(books.last), symbol, top) && books.updated == old(books.updated) + [symbol]
      ensures trades.histories == old(trades.histories) && bars.histories == old(bars.histories)
    {
      books.UpdateTopOfBook(symbol, top);
    }

    method AppendBar(symbol: string, res: Resolution, bar: Bar)
      requires Valid()
      modifies bars.Repr, this
      ensures Valid() && fresh(Repr - old(Repr))
      ensures bars.histories == old(bars.histories)[SeriesKey(symbol, res) := old(bars.History(SeriesKey(symbol, res))) + [bar]]
      ensures trades.histories == old(trades.histories)
      ensures books.last == old(books.last) && books.updated == old(books.updated)
    {
      bars.AppendBar(symbol, res, bar);
      Repr := Repr + bars.Repr;
    }

    method GetBars(symbol: string, size: nat, res: Resolution) returns (r: seq<Bar>)
      requires Valid()
      ensures r == Recent(bars.History(SeriesKey(symbol, res)), bars.capacity, size)
    {
      r := bars.GetBars(symbol, size, res);
    }

    method GetLastBar(symbol: string, res: Resolution) returns (r: Option<Bar>)
      requires Valid()
      ensures var h := bars.History(SeriesKey(symbol, res)); r == if h == [] then None else Some(h[|h| - 1])
    {
      r := bars.GetLastBar(symbol, res);
    }

    method GetRecentTrades(symbol: string, maxCount: nat) returns (r: seq<TradeTick>)
      requires Valid()
      ensures r == Recent(trades.History(symbol), trades.capacity, maxCount)
    {
      r := trades.GetRecent(symbol, maxCount);
    }

    method GetLastOrderBookTop(symbol: string) returns (r: Option<OrderBookTop>)
      ensures r == CIFind(books.last, symbol)
    {
      r := books.GetLast(symbol);
    }
  }

  /** Repeated top-of-book updates: each symbol is left with its last update. */
  lemma {:induction false} LastWriteWins(m: CIMap<OrderBookTop>, symbol: string, first: OrderBookTop, second: OrderBookTop)
    ensures CIPut(CIPut(m, symbol, first), symbol, second) == CIPut(m, symbol, second)
  {
  }
}
