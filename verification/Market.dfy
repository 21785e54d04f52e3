/** Shared vocabulary: optional values, symbols, bars and quotes. */
module Market {

  datatype Option<+T> = None | Some(value: T)

  function GetOr<T>(o: Option<T>, fallback: T): T
  {
    match o
    case Some(v) => v
    case None => fallback
  }

  type Ticker = string

  type StrategyId = string

  /** One bar; `ts` is a time in milliseconds, prices are in cents. */
  datatype Candle = Candle(
    ticker: Ticker, timeframe: string, ts: int, open: real, high: real, low: real, close: real, volume: real)

  /** Top of book, each part possibly unknown. */
  datatype Quote = Quote(ticker: Ticker, bid: Option<real>, ask: Option<real>, last: Option<real>, ts: int)
}
