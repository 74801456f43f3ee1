/**
 * TradeToBarAggregator1m: folds trades into one-minute OHLCV bars per
 * symbol (symbols compared ignoring case). A trade in a later minute closes
 * the symbol's open bar, a trade in an earlier minute is dropped, and a
 * flush closes bars whose minute has passed. Closed bars are handed to the
 * onBarClosed callback; the model returns them, in call order, to the
 * caller, which runs the callback.
 */
module BarAggregation {
  import opened Common
  import opened MarketData

  // ---------------------------------------------------------------------
  // Minute buckets
  // ---------------------------------------------------------------------

  /** FloorToMinute: the same minute with seconds and sub-second ticks zeroed. */
  function FloorToMinute(t: Ticks): (r: Ticks)
    ensures r <= t < r + TicksPerMinute
    ensures r % TicksPerMinute == 0
  {
    t - t % TicksPerMinute
  }

  /** Flooring is monotone and flooring a floored time changes nothing. */
  lemma FloorFacts(t: Ticks, u: Ticks)
    ensures t <= u ==> FloorToMinute(t) <= FloorToMinute(u)
    ensures FloorToMinute(FloorToMinute(t)) == FloorToMinute(t)
  {
  }

  // ---------------------------------------------------------------------
  // What a builder accumulates
  // ---------------------------------------------------------------------

  function MaxPrice(ts: seq<TradeTick>): real
    requires ts != []
  {
    if |ts| == 1 then ts[0].price else Max(MaxPrice(ts[..|ts| - 1]), ts[|ts| - 1].price)
  }

  function MinPrice(ts: seq<TradeTick>): real
    requires ts != []
  {
    if |ts| == 1 then ts[0].price else Min(MinPrice(ts[..|ts| - 1]), ts[|ts| - 1].price)
  }

  function SumQuantity(ts: seq<TradeTick>): real
    requires ts != []
  {
    if |ts| == 1 then ts[0].quantity else SumQuantity(ts[..|ts| - 1]) + ts[|ts| - 1].quantity
  }

  /** BarBuilder.Build for a builder opened at `bucket` that folded the trades `ts`. */
  function BuiltBar(bucket: Ticks, ts: seq<TradeTick>): Bar
  {
    if ts == [] then Bar(bucket, 0.0, 0.0, 0.0, 0.0, 0.0)
    else Bar(bucket, ts[0].price, MaxPrice(ts), MinPrice(ts), ts[|ts| - 1].price, SumQuantity(ts))
  }

  /** The high is the largest folded price and the low the smallest; both are prices of folded trades. */
  lemma {:induction false} PriceRange(ts: seq<TradeTick>)
    requires ts != []
    ensures forall i :: 0 <= i < |ts| ==> MinPrice(ts) <= ts[i].price <= MaxPrice(ts)
    ensures exists i :: 0 <= i < |ts| && ts[i].price == MaxPrice(ts)
    ensures exists i :: 0 <= i < |ts| && ts[i].price == MinPrice(ts)
  {
    if |ts| > 1 {
      var init := ts[..|ts| - 1];
      PriceRange(init);
      var hi :| 0 <= hi < |init| && init[hi].price == MaxPrice(init);
      var lo :| 0 <= lo < |init| && init[lo].price == MinPrice(init);
      assert ts[hi] == init[hi] && ts[lo] == init[lo];
      var last := |ts| - 1;
      assert ts[if ts[last].price >= MaxPrice(init) then last else hi].price == MaxPrice(ts);
      assert ts[if ts[last].price <= MinPrice(init) then last else lo].price == MinPrice(ts);
      forall i | 0 <= i < |ts|
        ensures MinPrice(ts) <= ts[i].price <= MaxPrice(ts)
      {
        if i < |init| {
          assert ts[i] == init[i];
        }
      }
    } else {
      assert ts[0].price == MaxPrice(ts) == MinPrice(ts);
    }
  }

  /** Every bar built from at least one trade satisfies the OHLC laws. */
  lemma BarLaws(bucket: Ticks, ts: seq<TradeTick>)
    requires ts != []
    ensures var b := BuiltBar(bucket, ts);
      b.low <= b.open <= b.high && b.low <= b.close <= b.high && b.timeUtc == bucket
  {
    PriceRange(ts);
  }

  /** A bar of non-negative quantities has a non-negative volume. */
  lemma {:induction false} VolumeNonneg(ts: seq<TradeTick>)
    requires ts != [] && forall i :: 0 <= i < |ts| ==> ts[i].quantity >= 0.0
    ensures SumQuantity(ts) >= 0.0
  {
    if |ts| > 1 {
      VolumeNonneg(ts[..|ts| - 1]);
    }
  }

  // ---------------------------------------------------------------------
  // One symbol's slot, as values
  // ---------------------------------------------------------------------

  /** An open builder: the symbol as first filed, its minute, and the trades folded so far. */
  datatype OpenBar = OpenBar(key: string, bucket: Ticks, trades: seq<TradeTick>)

  /**
   * Between calls, a builder filed under the folded symbol `k` is filed with
   * a spelling of `k`, holds at least one trade, and every trade it holds
   * lies in its minute.
   */
  ghost predicate WfAt(k: string, p: Option<OpenBar>)
  {
    p.Some? ==>
      Fold(p.value.key) == k && p.value.trades != []
      && forall i :: 0 <= i < |p.value.trades| ==> FloorToMinute(p.value.trades[i].timeUtc) == p.value.bucket
  }

  /** CloseAndPublish: the bar-closed event of a builder, none for a builder without trades. */
  function Closed(symbol: string, b: OpenBar): (r: seq<MarketEvent>)
    ensures |r| <= 1
    ensures r != [] ==> r[0].BarClosedEvent? && r[0].resolution == M1 && r[0].barTimeUtc == b.bucket
  {
    if b.trades == [] then [] else [BarClosedEvent(symbol, M1, b.bucket, BuiltBar(b.bucket, b.trades))]
  }

  /** What a step leaves filed under one folded symbol, and the bar-closed events it raised, in order. */
  datatype Step = Step(pending: Option<OpenBar>, events: seq<MarketEvent>)

  /** OnTrade on the builder `p` filed under the trade's folded symbol. */
  function OnTradeSpec(p: Option<OpenBar>, symbol: string, tick: TradeTick): Step
  {
    if IsBlank(symbol) then Step(p, [])
    else
      var bucket := FloorToMinute(tick.timeUtc);
      if p.None? then Step(Some(OpenBar(symbol, bucket, [tick])), [])
      else if bucket > p.value.bucket then Step(Some(OpenBar(p.value.key, bucket, [tick])), Closed(symbol, p.value))
      else if bucket < p.value.bucket then Step(p, [])
      else Step(Some(p.value.(trades := p.value.trades + [tick])), [])
  }

  /** FlushIfMinutePassed on the builder `p` filed under the symbol. */
  function FlushSpec(p: Option<OpenBar>, symbol: string, now: Ticks): Step
  {
    if p.Some? && FloorToMinute(now) > p.value.bucket then Step(None, Closed(symbol, p.value))
    else Step(p, [])
  }

  /** What is left of the builder `p` once every builder whose minute has passed by `now` is closed. */
  function Current(p: Option<OpenBar>, now: Ticks): Option<OpenBar>
  {
    if p.Some? && FloorToMinute(now) > p.value.bucket then None else p
  }

  function Lookup(m: map<string, OpenBar>, k: string): Option<OpenBar>
  {
    if k in m then Some(m[k]) else None
  }

  /** The builder filed under `k` once the symbols `done` were flushed at `now`, starting from `m`. */
  function Flushed(m: map<string, OpenBar>, done: set<string>, now: Ticks, k: string): Option<OpenBar>
  {
    if k in done then Current(Lookup(m, k), now) else Lookup(m, k)
  }

  /** The folded spellings of `symbols`. */
  function FoldSet(symbols: seq<string>): set<string>
  {
    if symbols == [] then {} else FoldSet(symbols[..|symbols| - 1]) + {Fold(symbols[|symbols| - 1])}
  }

  lemma {:induction false} FoldSetHas(symbols: seq<string>, x: string)
    requires x in symbols
    ensures Fold(x) in FoldSet(symbols)
  {
    if x != symbols[|symbols| - 1] {
      assert symbols == symbols[..|symbols| - 1] + [symbols[|symbols| - 1]];
      FoldSetHas(symbols[..|symbols| - 1], x);
    }
  }

  // ---------------------------------------------------------------------
  // Properties of the steps
  // ---------------------------------------------------------------------

  /**
   * The cases of a trade on a non-blank symbol: the first trade opens a bar
   * under the trade's spelling; a later minute publishes the open bar exactly
   * once and reopens under the first spelling with just the trade; an
   * earlier minute is dropped; the same minute folds the trade in. The open
   * minute never moves back.
   */
  lemma OnTradeCases(k: string, p: Option<OpenBar>, symbol: string, tick: TradeTick)
    requires WfAt(k, p) && !IsBlank(symbol) && Fold(symbol) == k
    ensures var bucket, s := FloorToMinute(tick.timeUtc), OnTradeSpec(p, symbol, tick);
      && s.pending.Some? && (p.Some? ==> s.pending.value.bucket >= p.value.bucket)
      && (p.None? ==> s.events == [] && s.pending.value == OpenBar(symbol, bucket, [tick]))
      && (p.Some? && bucket > p.value.bucket ==>
            s.events == [BarClosedEvent(symbol, M1, p.value.bucket, BuiltBar(p.value.bucket, p.value.trades))]
            && s.pending.value == OpenBar(p.value.key, bucket, [tick]))
      && (p.Some? && bucket < p.value.bucket ==> s == Step(p, []))
      && (p.Some? && bucket == p.value.bucket ==>
            s.events == [] && s.pending.value.trades == p.value.trades + [tick]
            && s.pending.value.key == p.value.key)
  {
  }

  /** A trade keeps its symbol's builder well formed. */
  lemma OnTradeWf(k: string, p: Option<OpenBar>, symbol: string, tick: TradeTick)
    requires WfAt(k, p) && (IsBlank(symbol) || Fold(symbol) == k)
    ensures WfAt(k, OnTradeSpec(p, symbol, tick).pending)
  {
    if !IsBlank(symbol) && p.Some? && FloorToMinute(tick.timeUtc) == p.value.bucket {
      var ts := p.value.trades + [tick];
      forall i | 0 <= i < |ts|
        ensures FloorToMinute(ts[i].timeUtc) == p.value.bucket
      {
        if i < |p.value.trades| {
          assert ts[i] == p.value.trades[i];
        }
      }
    }
  }

  /** Every bar a step publishes is stamped with its minute and obeys the OHLC laws. */
  ghost predicate LawfulBars(events: seq<MarketEvent>)
  {
    forall i :: 0 <= i < |events| ==>
      events[i].BarClosedEvent? && events[i].bar.timeUtc == events[i].barTimeUtc
      && events[i].bar.low <= events[i].bar.open <= events[i].bar.high
      && events[i].bar.low <= events[i].bar.close <= events[i].bar.high
  }

  lemma ClosedLawful(symbol: string, b: OpenBar)
    ensures LawfulBars(Closed(symbol, b))
  {
    if b.trades != [] {
      BarLaws(b.bucket, b.trades);
    }
  }

  /** Lawful bar runs concatenate to a lawful run. */
  lemma LawfulJoin(a: seq<MarketEvent>, b: seq<MarketEvent>)
    requires LawfulBars(a) && LawfulBars(b)
    ensures LawfulBars(a + b)
  {
    forall i | |a| <= i < |a + b|
      ensures (a + b)[i] == b[i - |a|]
    {
    }
  }

  /** Trades and flushes publish only lawful bars. */
  lemma TradeLawful(p: Option<OpenBar>, symbol: string, tick: TradeTick)
    ensures LawfulBars(OnTradeSpec(p, symbol, tick).events)
  {
    if p.Some? {
      ClosedLawful(symbol, p.value);
    }
  }

  lemma FlushLawful(p: Option<OpenBar>, symbol: string, now: Ticks)
    ensures LawfulBars(FlushSpec(p, symbol, now).events)
  {
    if p.Some? {
      ClosedLawful(symbol, p.value);
    }
  }

  /**
   * A flush of a symbol whose minute has passed removes its builder and
   * publishes its bar once; otherwise it changes nothing. Either way what is
   * left is the current builder, and a second flush does nothing.
   */
  lemma FlushCases(k: string, p: Option<OpenBar>, symbol: string, now: Ticks)
    requires WfAt(k, p)
    ensures var s := FlushSpec(p, symbol, now);
      && s.pending == Current(p, now)
      && (p.Some? && FloorToMinute(now) > p.value.bucket ==>
            s.events == [BarClosedEvent(symbol, M1, p.value.bucket, BuiltBar(p.value.bucket, p.value.trades))])
      && (p.None? || FloorToMinute(now) <= p.value.bucket ==> s.events == [])
      && FlushSpec(s.pending, symbol, now) == Step(s.pending, [])
      && WfAt(k, s.pending)
  {
  }

  /** Closing what has passed twice is closing it once; later flushes close at least as much. */
  lemma CurrentFacts(p: Option<OpenBar>, now: Ticks, later: Ticks)
    requires now <= later
    ensures Current(Current(p, now), now) == Current(p, now)
    ensures Current(Current(p, now), later) == Current(p, later)
  {
    FloorFacts(now, later);
  }

  // ---------------------------------------------------------------------
  // What FlushAll publishes
  // ---------------------------------------------------------------------

  /** The events among `events` whose symbol folds to `k`, in order. */
  function EventsOf(events: seq<MarketEvent>, k: string): seq<MarketEvent>
  {
    if events == [] then []
    else EventsOf(events[..|events| - 1], k) + (if Fold(events[|events| - 1].symbol) == k then [events[|events| - 1]] else [])
  }

  /** What flushing the builder `p` at `now` publishes, under the spelling it was filed with. */
  function Due(p: Option<OpenBar>, now: Ticks): seq<MarketEvent>
  {
    if p.Some? then FlushSpec(p, p.value.key, now).events else []
  }

  /**
   * FlushAll's loop on the builders `m`: FlushIfMinutePassed for each of
   * `symbols`, in order; a symbol already flushed has nothing left to close.
   */
  function FlushEvents(m: map<string, OpenBar>, symbols: seq<string>, now: Ticks): seq<MarketEvent>
  {
    if symbols == [] then []
    else
      var init := symbols[..|symbols| - 1];
      var k := Fold(symbols[|symbols| - 1]);
      FlushEvents(m, init, now) + (if k in FoldSet(init) then [] else Due(Lookup(m, k), now))
  }

  lemma {:induction false} EventsOfJoin(a: seq<MarketEvent>, b: seq<MarketEvent>, k: string)
    ensures EventsOf(a + b, k) == EventsOf(a, k) + EventsOf(b, k)
    decreases |b|
  {
    if b == [] {
      assert a + b == a;
    } else {
      assert (a + b)[..|a + b| - 1] == a + b[..|b| - 1];
      assert (a + b)[|a + b| - 1] == b[|b| - 1];
      EventsOfJoin(a, b[..|b| - 1], k);
    }
  }

  /** A builder's bar is published under a spelling of the folded symbol it is filed under. */
  lemma DueOf(m: map<string, OpenBar>, j: string, now: Ticks, k: string)
    requires j in m ==> Fold(m[j].key) == j
    ensures EventsOf(Due(Lookup(m, j), now), k) == if k == j then Due(Lookup(m, j), now) else []
  {
    var d := Due(Lookup(m, j), now);
    if d != [] {
      assert d == [d[0]] && d[..0] == [];
    }
  }

  /**
   * Whatever the order of the symbols, the events FlushAll raises for a
   * folded symbol are the bar of its builder when that builder's minute has
   * passed, exactly once, and nothing for any other symbol.
   */
  lemma {:induction false} FlushEventsPerSymbol(m: map<string, OpenBar>, symbols: seq<string>, now: Ticks, k: string)
    requires forall j :: j in m ==> Fold(m[j].key) == j
    ensures EventsOf(FlushEvents(m, symbols, now), k) == if k in FoldSet(symbols) then Due(Lookup(m, k), now) else []
    decreases |symbols|
  {
    if symbols != [] {
      var init := symbols[..|symbols| - 1];
      var j := Fold(symbols[|symbols| - 1]);
      var x := if j in FoldSet(init) then [] else Due(Lookup(m, j), now);
      FlushEventsPerSymbol(m, init, now, k);
      EventsOfJoin(FlushEvents(m, init, now), x, k);
      DueOf(m, j, now, k);
    }
  }

  // ---------------------------------------------------------------------
  // The builder and the aggregator as objects
  // ---------------------------------------------------------------------

  /** BarBuilder: the running OHLCV of one symbol's open minute. */
  class BarBuilder {
    const bucketTimeUtc: Ticks
    var hasAnyTrade: bool
    var open: real
    var high: real
    var low: real
    var close: real
    var volume: real
    /** The trades folded in so far. */
    ghost var trades: seq<TradeTick>

    /** The running fields are what Build makes of the folded trades. */
    ghost predicate Valid()
      reads this
    {
      hasAnyTrade == (trades != [])
      && Bar(bucketTimeUtc, open, high, low, close, volume) == BuiltBar(bucketTimeUtc, trades)
    }

    constructor (bucketTimeUtc: Ticks)
      ensures Valid() && this.bucketTimeUtc == bucketTimeUtc && trades == []
    {
      this.bucketTimeUtc := bucketTimeUtc;
      hasAnyTrade := false;
      open, high, low, close := 0.0, 0.0, 0.0, 0.0;
      volume := 0.0;
      trades := [];
    }

    /** Add: the first trade sets every price; later ones widen the range, move the close and add volume. */
    method Add(t: TradeTick)
      requires Valid()
      modifies this
      ensures Valid() && trades == old(trades) + [t]
    {
      trades := trades + [t];
      if !hasAnyTrade {
        open, high, low, close := t.price, t.price, t.price, t.price;
        volume := t.quantity;
        hasAnyTrade := true;
        return;
      }
      assert trades[..|trades| - 1] == old(trades);
      if t.price > high {
        high := t.price;
      }
      if t.price < low {
        low := t.price;
      }
      close := t.price;
      volume := volume + t.quantity;
    }

    method Build() returns (bar: Bar)
      requires Valid()
      ensures bar == BuiltBar(bucketTimeUtc, trades)
    {
      bar := Bar(bucketTimeUtc, open, high, low, close, volume);
    }
  }

  /** CloseAndPublish: the bar-closed event of a builder that holds a trade. */
  method CloseAndPublish(symbol: string, b: BarBuilder) returns (events: seq<MarketEvent>)
    requires b.Valid()
    ensures events == Closed(symbol, OpenBar(symbol, b.bucketTimeUtc, b.trades))
  {
    if !b.hasAnyTrade {
      return [];
    }
    var bar := b.Build();
    events := [BarClosedEvent(symbol, M1, b.bucketTimeUtc, bar)];
  }

  /**
   * An entry filed under the folded symbol `k`: its spelling folds to `k`,
   * and its builder is consistent and holds at least one trade, every one of
   * its own minute.
   */
  ghost predicate FiledWell(k: string, e: Entry<BarBuilder>)
    reads e.value
  {
    e.value.Valid() && WfAt(k, Some(OpenBar(e.key, e.value.bucketTimeUtc, e.value.trades)))
  }

  /**
   * TradeToBarAggregator1m: the open builders in a dictionary that ignores
   * the case of symbols. The methods return the bar-closed events they hand
   * to the callback, in order.
   */
  class TradeToBarAggregator1m {
    var state: CIMap<BarBuilder>
    /** Every builder ever filed. */
    ghost var Repr: set<BarBuilder>
    /** The folded symbol each builder was last filed under: no two symbols share a builder. */
    ghost var owner: map<BarBuilder, string>

    /** Every entry is filed well, and its builder is owned by the symbol it is filed under. */
    ghost predicate Valid()
      reads this, Repr
    {
      forall k :: k in state ==>
        state[k].value in Repr && FiledWell(k, state[k])
        && state[k].value in owner && owner[state[k].value] == k
    }

    /** The builder filed under the folded symbol `k`, as a value. */
    ghost function Pending(k: string): Option<OpenBar>
      reads this, Repr
    {
      if k in state && state[k].value in Repr
      then Some(OpenBar(state[k].key, state[k].value.bucketTimeUtc, state[k].value.trades))
      else None
    }

    constructor ()
      ensures Valid() && Repr == {} && forall k :: Pending(k).None?
    {
      state := map[];
      Repr := {};
      owner := map[];
    }

    /**
     * `_state[symbol] = b` for a new builder `b` that already holds a trade,
     * with `k` the folded symbol and `key` the spelling it stays filed under.
     */
    method File(k: string, key: string, b: BarBuilder)
      requires Valid() && b !in Repr && FiledWell(k, Entry(key, b))
      modifies this
      ensures Valid() && Repr == old(Repr) + {b}
      ensures Pending(k) == Some(OpenBar(key, b.bucketTimeUtc, b.trades))
      ensures forall k' :: k' != k ==> Pending(k') == old(Pending(k'))
    {
      state := state[k := Entry(key, b)];
      Repr := Repr + {b};
      owner := owner[b := k];
      forall k' | k' != k
        ensures Pending(k') == old(Pending(k'))
      {
        assert k' in state <==> k' in old(state);
      }
    }

    /** `b.Add(tick)` on the builder filed under `k`, for a trade of its minute. */
    method Extend(k: string, b: BarBuilder, tick: TradeTick)
      requires Valid() && k in state && state[k].value == b && FloorToMinute(tick.timeUtc) == b.bucketTimeUtc
      modifies b
      ensures Valid()
      ensures Pending(k) == Some(old(Pending(k)).value.(trades := old(Pending(k)).value.trades + [tick]))
      ensures forall k' :: k' != k ==> Pending(k') == old(Pending(k'))
    {
      OnTradeWf(k, Pending(k), state[k].key, tick);
      b.Add(tick);
      forall k' | k' in state && k' != k
        ensures FiledWell(k', state[k']) && Pending(k') == old(Pending(k'))
      {
        assert state[k'].value != b;
      }
    }

    /** `_state.Remove(symbol)` for a filed symbol, folded to `k`. */
    method Drop(k: string)
      requires Valid() && k in state
      modifies this
      ensures Valid() && Repr == old(Repr) && |state| == |old(state)| - 1
      ensures Pending(k) == None
      ensures forall k' :: k' != k ==> Pending(k') == old(Pending(k'))
    {
      state := state - {k};
      forall k' | k' != k
        ensures Pending(k') == old(Pending(k'))
      {
        assert k' in state <==> k' in old(state);
      }
    }

    /**
     * The branch of OnTrade that opens a builder: for a symbol without one,
     * or whose builder belongs to an earlier minute, whose bar is published
     * first. The new builder receives its first trade before it is filed
     * rather than after: nothing else holds it, so the state afterwards is
     * the same.
     */
    method Reopen(symbol: string, tick: TradeTick) returns (events: seq<MarketEvent>)
      requires Valid() && !IsBlank(symbol)
      requires Fold(symbol) in state ==> FloorToMinute(tick.timeUtc) > state[Fold(symbol)].value.bucketTimeUtc
      modifies this
      ensures Valid() && fresh(Repr - old(Repr))
      ensures var s := OnTradeSpec(old(Pending(Fold(symbol))), symbol, tick);
        Pending(Fold(symbol)) == s.pending && events == s.events
      ensures forall k :: k != Fold(symbol) ==> Pending(k) == old(Pending(k))
    {
      var bucket := FloorToMinute(tick.timeUtc);
      var k := Fold(symbol);
      ghost var p := Pending(k);
      var key := symbol;
      events := [];
      if k in state {
        key := state[k].key;
        events := CloseAndPublish(symbol, state[k].value);
      }
      assert events == OnTradeSpec(p, symbol, tick).events;
      var b := new BarBuilder(bucket);
      b.Add(tick);
      assert b.trades == [tick];
      FoldIdempotent(symbol);
      File(k, key, b);
      assert Pending(k) == OnTradeSpec(p, symbol, tick).pending;
    }

    /** OnTrade: files the trade in its symbol's builder, closing the previous minute's bar first when it starts a new minute. */
    method OnTrade(symbol: string, tick: TradeTick) returns (events: seq<MarketEvent>)
      requires Valid()
      modifies this, Repr
      ensures Valid() && fresh(Repr - old(Repr))
      ensures var s := OnTradeSpec(old(Pending(Fold(symbol))), symbol, tick);
        Pending(Fold(symbol)) == s.pending && events == s.events
      ensures forall k :: k != Fold(symbol) ==> Pending(k) == old(Pending(k))
    {
      events := [];
      if IsBlank(symbol) {
        return;
      }
      var bucket := FloorToMinute(tick.timeUtc);
      var k := Fold(symbol);
      if k in state && bucket <= state[k].value.bucketTimeUtc {
        if bucket == state[k].value.bucketTimeUtc {
          Extend(k, state[k].value, tick);
        }
        return;
      }
      events := Reopen(symbol, tick);
    }

    /** FlushIfMinutePassed: closes and drops the symbol's builder once `now` lies in a later minute. */
    method FlushIfMinutePassed(symbol: string, now: Ticks) returns (events: seq<MarketEvent>)
      requires Valid()
      modifies this
      ensures Valid() && Repr == old(Repr) && |state| == |old(state)| - |events|
      ensures var s := FlushSpec(old(Pending(Fold(symbol))), symbol, now);
        Pending(Fold(symbol)) == s.pending && events == s.events
      ensures forall k :: k != Fold(symbol) ==> Pending(k) == old(Pending(k))
    {
      events := [];
      var k := Fold(symbol);
      if k !in state {
        return;
      }
      var b := state[k].value;
      if FloorToMinute(now) > b.bucketTimeUtc {
        events := CloseAndPublish(symbol, b);
        Drop(k);
      }
    }

    /** The builders, as values, by folded symbol. */
    ghost function Builders(): (m: map<string, OpenBar>)
      reads this, Repr
      ensures forall k :: Pending(k) == Lookup(m, k)
    {
      map k | k in state && state[k].value in Repr :: Pending(k).value
    }

    /** One turn of FlushAll's loop: the symbols of `done` have been flushed, now `symbol` is. */
    method FlushStep(symbol: string, now: Ticks, ghost m: map<string, OpenBar>, ghost done: set<string>)
      returns (events: seq<MarketEvent>)
      requires Valid() && forall k :: Pending(k) == Flushed(m, done, now, k)
      requires Fold(symbol) in m ==> m[Fold(symbol)].key == symbol
      modifies this
      ensures Valid() && Repr == old(Repr) && |state| == |old(state)| - |events|
      ensures forall k :: Pending(k) == Flushed(m, done + {Fold(symbol)}, now, k)
      ensures events == if Fold(symbol) in done then [] else Due(Lookup(m, Fold(symbol)), now)
      ensures LawfulBars(events)
    {
      events := FlushIfMinutePassed(symbol, now);
      CurrentFacts(Lookup(m, Fold(symbol)), now, now);
      FlushLawful(Lookup(m, Fold(symbol)), symbol, now);
    }

    /** The foreach of FlushAll: FlushIfMinutePassed for each of `symbols`, in order. */
    method FlushEach(symbols: seq<string>, now: Ticks, ghost m: map<string, OpenBar>)
      returns (events: seq<MarketEvent>, ghost done: set<string>)
      requires Valid() && forall k :: Pending(k) == Lookup(m, k)
      requires forall i :: 0 <= i < |symbols| && Fold(symbols[i]) in m ==> m[Fold(symbols[i])].key == symbols[i]
      modifies this
      ensures Valid() && Repr == old(Repr) && |state| == |old(state)| - |events|
      ensures done == FoldSet(symbols)
      ensures forall k :: Pending(k) == Flushed(m, done, now, k)
      ensures events == FlushEvents(m, symbols, now)
      ensures LawfulBars(events)
    {
      events := [];
      done := {};
      for i := 0 to |symbols|
        invariant Valid() && Repr == old(Repr) && |state| == |old(state)| - |events|
        invariant done == FoldSet(symbols[..i])
        invariant forall k :: Pending(k) == Flushed(m, done, now, k)
        invariant events == FlushEvents(m, symbols[..i], now)
        invariant LawfulBars(events)
      {
        var e := FlushStep(symbols[i], now, m, done);
        LawfulJoin(events, e);
        events := events + e;
        assert symbols[..i + 1][..i] == symbols[..i];
        done := done + {Fold(symbols[i])};
      }
      assert symbols[..|symbols|] == symbols;
    }

    /**
     * FlushAll: FlushIfMinutePassed for each stored symbol, in the order the
     * dictionary lists them. Afterwards exactly the builders of the current
     * minute or later are left, and for each symbol the events published are
     * the bar of its dropped builder, once, under the spelling it was filed
     * with, and nothing for a builder that is kept.
     */
    method FlushAll(now: Ticks) returns (events: seq<MarketEvent>)
      requires Valid()
      modifies this
      ensures Valid() && Repr == old(Repr) && |state| == |old(state)| - |events|
      ensures forall k :: Pending(k) == Current(old(Pending(k)), now)
      ensures forall k :: EventsOf(events, k) == Due(old(Pending(k)), now)
      ensures LawfulBars(events)
    {
      ghost var m := Builders();
      var symbols := Enumerate(CIKeys(state));
      forall i | 0 <= i < |symbols| && Fold(symbols[i]) in m
        ensures m[Fold(symbols[i])].key == symbols[i]
      {
        assert symbols[i] in CIKeys(state);
        var k0 :| k0 in state && state[k0].key == symbols[i];
        assert FiledWell(k0, state[k0]);
      }
      ghost var done;
      events, done := FlushEach(symbols, now, m);
      forall k | k in old(state)
        ensures k in done
      {
        assert old(state)[k].key in CIKeys(old(state));
        FoldSetHas(symbols, old(state)[k].key);
      }
      forall j | j in m
        ensures Fold(m[j].key) == j
      {
        assert FiledWell(j, old(state)[j]);
      }
      forall k
        ensures EventsOf(events, k) == Due(old(Pending(k)), now)
      {
        FlushEventsPerSymbol(m, symbols, now, k);
        assert k !in done ==> Lookup(m, k).None?;
      }
    }
  }
}
