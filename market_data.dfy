/**
 * The market-data records and events: one-minute bars, trade ticks,
 * top-of-book snapshots, trade summaries, bar resolutions and the three
 * events the pipeline publishes.
 */
module MarketData {
  import opened Common

  datatype Bar = Bar(timeUtc: Ticks, open: real, high: real, low: real, close: real, volume: real)

  datatype TradeTick = TradeTick(timeUtc: Ticks, price: real, quantity: real, isBuy: bool)

  datatype TradeSummary = TradeSummary(
    fromUtc: Ticks, toUtc: Ticks, totalVolume: real, buyVolume: real, sellVolume: real, tradeCount: nat)

  datatype OrderBookTop = OrderBookTop(
    timeUtc: Ticks, bestBidPrice: real, bestBidQuantity: real, bestAskPrice: real, bestAskQuantity: real)

  /** A bar length in minutes. */
  datatype Resolution = Resolution(minutes: int)

  const M1: Resolution := Resolution(1)
  const M5: Resolution := Resolution(5)

  datatype MarketEvent =
    | OrderBookTopEvent(symbol: string, book: OrderBookTop)
    | TradeTickEvent(symbol: string, tick: TradeTick)
    | BarClosedEvent(symbol: string, resolution: Resolution, barTimeUtc: Ticks, bar: Bar)
}
