/** How each OHLC provider is asked: day counts, windows, counts, limits and interval codes. */
module RequestPolicy {
  import opened Wrappers
  import opened Text
  import opened JsNumber
  import opened Identifiers

  const SecondsPerDay: int := 86_400
  const MillisPerDay: int := 86_400_000

  /** The longest history the primary provider's plan serves, in days. */
  const MaxPrimaryDays: int := 30

  /** Bounds Binance puts on a klines `limit`. */
  const MinBinanceLimit: int := 100
  const MaxBinanceLimit: int := 1000

  /** The `days` parameter: absent (defaults to 1), a number, or a string. */
  datatype Days = DefaultDays | DaysNumber(n: int) | DaysText(s: string)

  /** `typeof days === 'string' ? parseInt(days) || 1 : days`, after the default of 1. */
  function DaysNum(days: Days): (n: int)
    ensures days.DaysText? ==> n != 0
    ensures days.DaysText? && ParseInt(days.s).None? ==> n == 1
    ensures days.DaysText? && ParseInt(days.s).Some? ==>
      n == (if ParseInt(days.s).value == 0 then 1 else ParseInt(days.s).value)
    ensures days.DaysNumber? ==> n == days.n
    ensures days.DefaultDays? ==> n == 1
  {
    match days
    case DefaultDays => 1
    case DaysNumber(n) => n
    case DaysText(s) =>
      match ParseInt(s)
      case None => 1
      case Some(v) => if v == 0 then 1 else v
  }

  /** A day count written out in decimal is read back as itself, except that "0" becomes 1. */
  lemma DaysTextDecimal(n: nat)
    ensures DaysNum(DaysText(Decimal(n))) == if n == 0 then 1 else n
  {
    ParseIntDecimal(n);
  }

  /** The `interval` parameter after its default of "hourly". */
  function IntervalName(interval: Option<string>): string {
    interval.GetOr("hourly")
  }

  function Min(a: int, b: int): int {
    if a <= b then a else b
  }

  function Max(a: int, b: int): int {
    if a <= b then b else a
  }

  // ---------------------------------------------------------------------------
  // Primary provider (CoinMarketCap OHLCV historical)
  // ---------------------------------------------------------------------------

  datatype PrimaryRequest = PrimaryRequest(
    query: Query, timeStart: int, timeEnd: int, interval: string, count: int, convert: string)

  /** The OHLCV request of `getCoinOHLCV`, at wall-clock time `nowMs`. */
  function PrimaryRequestFor(slug: string, days: Days, interval: string, convert: string, nowMs: int)
    : (r: PrimaryRequest)
    ensures r.query == PrimaryQuery(slug) && r.convert == convert
    ensures r.timeEnd * 1000 <= nowMs < r.timeEnd * 1000 + 1000
    ensures r.timeEnd - r.timeStart <= MaxPrimaryDays * SecondsPerDay
    ensures DaysNum(days) <= MaxPrimaryDays ==> r.timeEnd - r.timeStart == DaysNum(days) * SecondsPerDay
    ensures DaysNum(days) >= MaxPrimaryDays ==> r.timeEnd - r.timeStart == MaxPrimaryDays * SecondsPerDay
    ensures 2 <= r.count <= MaxPrimaryDays
    ensures DaysNum(days) <= 1 ==> r.count == 24
    ensures 1 < DaysNum(days) <= MaxPrimaryDays ==> r.count == DaysNum(days)
    ensures DaysNum(days) >= MaxPrimaryDays ==> r.count == MaxPrimaryDays
    ensures r.interval == "hourly" || r.interval == "daily"
    ensures r.interval == "hourly" <==> interval == "hourly"
  {
    var timeEnd := nowMs / 1000;
    assert timeEnd * 1000 + nowMs % 1000 == nowMs;
    var limitedDays := Min(DaysNum(days), MaxPrimaryDays);
    var cmcInterval := if interval == "hourly" then "hourly" else if interval == "daily" then "daily" else "daily";
    var count := if limitedDays <= 1 then 24 else limitedDays;
    assert limitedDays <= MaxPrimaryDays;
    assert limitedDays * SecondsPerDay <= MaxPrimaryDays * SecondsPerDay;
    PrimaryRequest(PrimaryQuery(slug), timeEnd - limitedDays * SecondsPerDay, timeEnd, cmcInterval, count, convert)
  }

  // ---------------------------------------------------------------------------
  // Binance klines
  // ---------------------------------------------------------------------------

  datatype BinanceRequest = BinanceRequest(
    symbol: string, interval: string, limit: int, startTime: int, endTime: int)

  /** The klines request of `getOHLCVFromBinance`, at wall-clock time `nowMs`. */
  function BinanceRequestFor(symbol: string, days: Days, interval: string, nowMs: int): (r: BinanceRequest)
    ensures StartsWith(r.symbol, symbol) && r.symbol[|symbol|..] == "USDT"
    ensures r.interval == "1d" <==> interval == "daily"
    ensures r.interval == "1h" <==> interval != "daily"
    ensures MinBinanceLimit <= r.limit <= MaxBinanceLimit
    ensures var wanted := DaysNum(days) * (if interval == "hourly" then 24 else 1);
      && (MinBinanceLimit <= wanted <= MaxBinanceLimit ==> r.limit == wanted)
      && (wanted < MinBinanceLimit ==> r.limit == MinBinanceLimit)
      && (wanted > MaxBinanceLimit ==> r.limit == MaxBinanceLimit)
    ensures r.endTime == nowMs && r.endTime - r.startTime == DaysNum(days) * MillisPerDay
  {
    var binanceInterval := if interval == "hourly" then "1h" else if interval == "daily" then "1d" else "1h";
    var daysNum := DaysNum(days);
    var limit := Min(Max(daysNum * (if interval == "hourly" then 24 else 1), MinBinanceLimit), MaxBinanceLimit);
    BinanceRequest(symbol + "USDT", binanceInterval, limit, nowMs - daysNum * MillisPerDay, nowMs)
  }

  // ---------------------------------------------------------------------------
  // CoinGecko OHLC
  // ---------------------------------------------------------------------------

  datatype GeckoRequest = GeckoRequest(coinId: string, vsCurrency: string, days: int)

  /** `daysNum <= 1 ? 1 : daysNum`: CoinGecko is never asked for less than one day. */
  function GeckoDays(days: Days): (n: int)
    ensures n >= 1
    ensures DaysNum(days) >= 1 ==> n == DaysNum(days)
    ensures DaysNum(days) <= 1 ==> n == 1
  {
    var daysNum := DaysNum(days);
    if daysNum <= 1 then 1 else daysNum
  }

  /** The request of `getOHLCVFromCoinGecko` once the coin id is known. */
  function GeckoRequestFor(coinId: string, days: Days): (r: GeckoRequest)
    ensures r.coinId == coinId && r.vsCurrency == "usd" && r.days >= 1
    ensures r.days == GeckoDays(days)
  {
    GeckoRequest(coinId, "usd", GeckoDays(days))
  }
}
