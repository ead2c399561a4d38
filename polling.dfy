/**
 * `useCoinMarketCapPolling`: the client hook that polls the quotes proxy for a live price.
 * The proxy's reply is a parameter (a function of the query the hook sends).
 */
module Polling {
  import opened Wrappers
  import opened Text
  import opened JsNumber
  import opened Identifiers
  import opened Candles

  /**
   * `fetchCoinPrice`'s identifier: a numeric last dash part (with at least two parts) is the id;
   * otherwise the FIRST dash part, upper-cased, is the symbol.
   */
  function HookQuery(coinId: string): (q: Query)
    ensures q.ById? <==> '-' in coinId && IsNumberString(LastPart(coinId))
    ensures q.ById? ==> q.id == LastPart(coinId)
    ensures q.BySymbol? ==> q.symbol == Upper(coinId[..IndexOf(coinId, '-')])
  {
    var parts := Split(coinId, '-');
    SplitFirst(coinId, '-');
    if |parts| >= 2 && IsNumberString(parts[|parts| - 1]) then ById(parts[|parts| - 1])
    else BySymbol(Upper(parts[0]))
  }

  /** On every slug `idToSlug` makes, the hook and the server ask for the same coin. */
  lemma HookQueryOfSlug(id: nat, symbol: string)
    ensures HookQuery(IdToSlug(id, symbol)) == ById(Decimal(id))
    ensures HookQuery(IdToSlug(id, symbol)) == PrimaryQuery(IdToSlug(id, symbol))
  {
    PrimaryQueryOfSlug(id, symbol);
    DecimalIsNumber(id);
  }

  /** Whenever the server looks a slug up by id, the hook sends that id too. */
  lemma HookAgreesOnIds(slug: string)
    requires PrimaryQuery(slug).ById?
    ensures HookQuery(slug) == PrimaryQuery(slug)
  {
  }

  /** Whenever the server looks a slug up by symbol, the hook sends the upper-cased first dash
      part, except after a trailing dash, where it sends an empty id. */
  lemma HookSymbolOnSymbolQueries(slug: string)
    requires PrimaryQuery(slug).BySymbol?
    ensures !('-' in slug && LastPart(slug) == []) ==> HookQuery(slug) == BySymbol(Upper(slug[..IndexOf(slug, '-')]))
    ensures '-' in slug && LastPart(slug) == [] ==> HookQuery(slug) == ById([])
  {
    if '-' in slug && LastPart(slug) == [] {
      EmptyIsNumber();
    } else {
      assert !HookQuery(slug).ById?;
    }
  }

  /** The two selections differ on a multi-part symbol slug: the hook keeps the first part only ... */
  lemma HookKeepsFirstPart()
    ensures HookQuery("usd-coin") == BySymbol("USD")
  {
    UsdCoinParts();
    UpperUsd();
  }

  /** ... while the server upper-cases the whole slug. */
  lemma ServerKeepsWholeSlug()
    ensures PrimaryQuery("usd-coin") == BySymbol("USD-COIN")
  {
    UsdCoinParts();
    UpperUsdCoin();
  }

  lemma UsdCoinParts()
    ensures Split("usd-coin", '-') == ["usd", "coin"]
    ensures '-' in "usd-coin" && LastPart("usd-coin") == "coin" && !IsNumberString("coin")
  {
    UsdCoinSplit();
    SplitLast("usd-coin", '-');
    LetterIsNotNumber("coin");
  }

  lemma UsdCoinSplit()
    ensures Split("usd-coin", '-') == ["usd", "coin"]
  {
    var a, b := "usd", "coin";
    assert a + ['-'] + b == "usd-coin";
    assert '-' !in a && '-' !in b;
    SplitTwo(a, '-', b);
  }

  /** ... and on a trailing dash: `Number("")` is 0, so the hook asks for the empty id. */
  lemma HookSendsEmptyId()
    ensures HookQuery("btc-") == ById("")
    ensures PrimaryQuery("btc-") == BySymbol("BTC")
  {
    BtcDashParts();
    EmptyIsNumber();
    UpperBtc();
  }

  lemma BtcDashParts()
    ensures '-' in "btc-" && LastPart("btc-") == "" && "btc-"[..3] == "btc"
  {
    assert "btc-"[3] == '-';
    assert LastIndexOf("btc-", '-') == 3;
  }

  lemma UpperUsd()
    ensures Upper("usd") == "USD"
  {
    UpperLetters("usd", "USD");
  }

  lemma UpperUsdCoin()
    ensures Upper("usd-coin") == "USD-COIN"
  {
    UpperLetters("usd-coin", "USD-COIN");
  }

  lemma UpperBtc()
    ensures Upper("btc") == "BTC"
  {
    UpperLetters("btc", "BTC");
  }

  /** Upper-casing checked letter by letter. */
  lemma UpperLetters(s: string, expected: string)
    requires |s| == |expected|
    requires forall i :: 0 <= i < |s| ==> UpperChar(s[i]) == expected[i]
    ensures Upper(s) == expected
  {
    forall i | 0 <= i < |s|
      ensures Upper(s)[i] == expected[i]
    {
      UpperAt(s, i);
    }
  }

  /** `coin.quote?.USD`: a missing optional number stands for a falsy one. */
  datatype UsdQuote = UsdQuote(price: real, change24h: Option<real>, marketCap: Option<real>,
                               volume24h: Option<real>, lastUpdatedMs: int)

  datatype CoinEntry = CoinEntry(symbol: string, usd: Option<UsdQuote>)

  /** The proxy's answer: a non-ok status, a thrown error, a null body, or a body whose
      `data` record (its values in order) may be missing. */
  datatype PriceResponse = NotOk | FetchThrown | NullBody | Body(data: Option<seq<CoinEntry>>)

  datatype PriceData = PriceData(usd: real, coin: string, price: real, change24h: real,
                                 marketCap: real, volume24h: real, timestamp: int)

  /** `x || 0`. */
  function OrZero(x: Option<real>): real {
    x.GetOr(0.0)
  }

  /**
   * `fetchCoinPrice`: a price only when the reply has a first coin with a USD quote; every
   * other outcome, including a failed or thrown request, is null and nothing is thrown.
   */
  function FetchCoinPrice(coinId: string, proxy: Query -> PriceResponse): (p: Option<PriceData>)
    ensures var reply := proxy(HookQuery(coinId));
      p.Some? <==> reply.Body? && reply.data.Some? && reply.data.value != [] && reply.data.value[0].usd.Some?
    ensures p.Some? ==>
      var coin := proxy(HookQuery(coinId)).data.value[0];
      var quote := coin.usd.value;
      && p.value.usd == quote.price && p.value.price == quote.price
      && p.value.coin == coin.symbol
      && p.value.change24h == (if quote.change24h.Some? then quote.change24h.value else 0.0)
      && p.value.marketCap == (if quote.marketCap.Some? then quote.marketCap.value else 0.0)
      && p.value.volume24h == (if quote.volume24h.Some? then quote.volume24h.value else 0.0)
      && p.value.timestamp == quote.lastUpdatedMs
  {
    match proxy(HookQuery(coinId))
    case Body(Some(coins)) =>
      if coins == [] || coins[0].usd.None? then None
      else
        var quote := coins[0].usd.value;
        Some(PriceData(quote.price, coins[0].symbol, quote.price, OrZero(quote.change24h),
                       OrZero(quote.marketCap), OrZero(quote.volume24h), quote.lastUpdatedMs))
    case _ => None
  }

  /** '1s' is raised to '1m'; every other interval is kept. */
  function EffectiveInterval(liveInterval: string): (effective: string)
    ensures effective != "1s"
    ensures liveInterval != "1s" ==> effective == liveInterval
    ensures liveInterval == "1s" ==> effective == "1m"
  {
    if liveInterval == "1s" then "1m" else liveInterval
  }

  /** The timer period: one minute, whatever the requested interval. */
  function PollInterval(liveInterval: string): (ms: nat)
    ensures ms == 60_000
  {
    if EffectiveInterval(liveInterval) == "1m" then 60_000 else 60_000
  }

  /** A trade of the (unused) trade stream. */
  datatype Trade = Trade(price: real, amount: real, time: int)

  /** The hook's state: its props, its state hooks and the interval ref. */
  class CoinMarketCapPolling {
    var coinId: string
    var poolId: string
    var liveInterval: string
    var price: Option<PriceData>
    var trades: seq<Trade>
    var ohlcv: Option<Candle>
    var isConnected: bool
    /** `intervalRef.current`: the handle of the running timer. */
    var timer: Option<nat>
    /** The period the running timer was set up with. */
    var pollInterval: nat

    constructor (coinId: string, poolId: string, liveInterval: Option<string>)
      ensures this.coinId == coinId && this.poolId == poolId && this.liveInterval == liveInterval.GetOr("1m")
      ensures price.None? && trades == [] && ohlcv.None? && !isConnected && timer.None?
    {
      this.coinId := coinId;
      this.poolId := poolId;
      this.liveInterval := liveInterval.GetOr("1m");
      price := None;
      trades := [];
      ohlcv := None;
      isConnected := false;
      timer := None;
      pollInterval := 0;
    }

    /** The first effect: connected, and a one-minute timer stored under `handle`. */
    method Start(handle: nat)
      modifies this`isConnected, this`timer, this`pollInterval
      ensures isConnected && timer == Some(handle) && pollInterval == 60_000
    {
      isConnected := true;
      pollInterval := PollInterval(liveInterval);
      timer := Some(handle);
    }

    /** One poll (`fetchData`): a price replaces the stored one; null keeps it. */
    method Poll(proxy: Query -> PriceResponse)
      modifies this`price
      ensures FetchCoinPrice(coinId, proxy).Some? ==> price == FetchCoinPrice(coinId, proxy)
      ensures FetchCoinPrice(coinId, proxy).None? ==> price == old(price)
    {
      var priceData := FetchCoinPrice(coinId, proxy);
      if priceData.Some? {
        price := priceData;
      }
    }

    /** The first effect's cleanup: the timer is cleared and the hook disconnected. */
    method Stop()
      modifies this`isConnected, this`timer
      ensures !isConnected && timer.None?
    {
      if timer.Some? {
        timer := None;
      }
      isConnected := false;
    }

    /** The second effect: the trade and OHLCV streams start over. */
    method ResetStreams()
      modifies this`trades, this`ohlcv
      ensures trades == [] && ohlcv.None?
    {
      trades := [];
      ohlcv := None;
    }

    /**
     * A render with new props: a changed coin or interval restarts polling (cleanup, then start
     * with `handle`); a changed coin or pool resets the streams. The price survives either way.
     */
    method Rerender(newCoinId: string, newPoolId: string, newInterval: string, handle: nat)
      modifies this
      ensures coinId == newCoinId && poolId == newPoolId && liveInterval == newInterval
      ensures price == old(price)
      ensures old(coinId) != newCoinId || old(liveInterval) != newInterval ==>
        isConnected && timer == Some(handle) && pollInterval == 60_000
      ensures old(coinId) == newCoinId && old(liveInterval) == newInterval ==>
        isConnected == old(isConnected) && timer == old(timer) && pollInterval == old(pollInterval)
      ensures old(coinId) != newCoinId || old(poolId) != newPoolId ==> trades == [] && ohlcv.None?
      ensures old(coinId) == newCoinId && old(poolId) == newPoolId ==> trades == old(trades) && ohlcv == old(ohlcv)
    {
      var restart := coinId != newCoinId || liveInterval != newInterval;
      var reset := coinId != newCoinId || poolId != newPoolId;
      if restart {
        Stop();
      }
      coinId, poolId, liveInterval := newCoinId, newPoolId, newInterval;
      if restart {
        Start(handle);
      }
      if reset {
        ResetStreams();
      }
    }
  }
}
