/**
 * `getCoinOHLCV`: the primary provider first; when it throws, a quote lookup for the ticker
 * symbol and name, then Binance, then CoinGecko; an empty series when everything fails.
 * Every provider is a function from the request to what the client code makes of the reply.
 */
module Orchestrator {
  import opened Wrappers
  import opened Text
  import opened Candles
  import opened Identifiers
  import opened RequestPolicy
  import opened CoinGecko
  import Fetcher

  /** The primary OHLCV call: its candles, or the message of what it threw. */
  datatype PrimaryReply = Quotes(candles: seq<Candle>) | Thrown(message: string)

  /** The first coin of a quotes reply. */
  datatype QuoteCoin = QuoteCoin(symbol: string, name: string)

  /** `{ vs_currency?, days?, interval? }`. */
  datatype OhlcParams = OhlcParams(vsCurrency: Option<string>, days: Days, interval: Option<string>)

  /** One outbound request, in the order they are made. */
  datatype Call =
    | PrimaryCall(primaryRequest: PrimaryRequest)
    | QuoteCall(query: Query)
    | BinanceCall(binanceRequest: BinanceRequest)
    | GeckoCall(geckoRequest: GeckoRequest)

  /** The condition of the first catch branch. */
  predicate FirstBranch(message: string) {
    Contains(message, "403") || Contains(message, "Forbidden") || Contains(message, "Error")
  }

  /** Everything the primary provider's `fetcher` throws is handled by the first catch branch. */
  lemma FetcherErrorsTakeFirstBranch(status: nat, providerMessage: string, statusText: string)
    ensures FirstBranch(Fetcher.ErrorMessage(status, providerMessage, statusText))
  {
  }

  /** The ticker symbol after the quote lookups: the quote's symbol when a coin came back. */
  function FallbackSymbol(slug: string, found: Option<QuoteCoin>): string {
    if found.Some? then found.value.symbol else CoinSymbol(slug)
  }

  /** The coin name after the quote lookups; empty stands for `undefined`. */
  function FallbackName(found: Option<QuoteCoin>): string {
    if found.Some? then found.value.name else []
  }

  function PrimaryRequestOf(slug: string, params: OhlcParams, nowMs: int): PrimaryRequest {
    PrimaryRequestFor(slug, params.days, IntervalName(params.interval), params.vsCurrency.GetOr("USD"), nowMs)
  }

  /** The same quote request made `n` times. */
  function QuoteCalls(query: Query, n: nat): (calls: seq<Call>)
    ensures |calls| == n && forall i :: 0 <= i < n ==> calls[i] == QuoteCall(query)
  {
    if n == 0 then [] else QuoteCalls(query, n - 1) + [QuoteCall(query)]
  }

  /** The first catch branch: a lookup that takes a non-empty symbol, then one that takes
      the name and the symbol of whatever coin it finds. */
  method LookupTwice(slug: string, query: Query, quote: Query -> Option<QuoteCoin>)
    returns (correctSymbol: string, coinName: string, calls: seq<Call>)
    ensures correctSymbol == FallbackSymbol(slug, quote(query))
    ensures coinName == FallbackName(quote(query))
    ensures calls == QuoteCalls(query, 2)
  {
    correctSymbol, coinName := CoinSymbol(slug), [];
    var first := quote(query);
    calls := [QuoteCall(query)];
    if first.Some? && first.value.symbol != [] {
      correctSymbol := first.value.symbol;
    }
    var second := quote(query);
    calls := calls + [QuoteCall(query)];
    if second.Some? {
      coinName := second.value.name;
      correctSymbol := second.value.symbol;
    }
  }

  /** The second catch branch: one lookup for the symbol and the name. */
  method LookupOnce(slug: string, query: Query, quote: Query -> Option<QuoteCoin>)
    returns (correctSymbol: string, coinName: string, calls: seq<Call>)
    ensures correctSymbol == FallbackSymbol(slug, quote(query))
    ensures coinName == FallbackName(quote(query))
    ensures calls == QuoteCalls(query, 1)
  {
    correctSymbol, coinName := CoinSymbol(slug), [];
    var found := quote(query);
    calls := [QuoteCall(query)];
    if found.Some? {
      correctSymbol := found.value.symbol;
      coinName := found.value.name;
    }
  }

  /** Binance with the resolved symbol; CoinGecko only when Binance gave nothing. */
  method Secondaries(
    slug: string, symbol: string, name: string, days: Days, interval: string, nowMs: int,
    binance: BinanceRequest -> seq<Candle>,
    gecko: GeckoRequest -> seq<Candle>)
    returns (candles: seq<Candle>, calls: seq<Call>)
    ensures
      var breq := BinanceRequestFor(symbol, days, interval, nowMs);
      var geckoId := GeckoIdFor(slug, name, symbol);
      var asksGecko := |binance(breq)| == 0 && geckoId.Some?;
      && calls == [BinanceCall(breq)]
                  + (if asksGecko then [GeckoCall(GeckoRequestFor(geckoId.value, days))] else [])
      && candles == (if |binance(breq)| > 0 then binance(breq)
                     else if asksGecko then gecko(GeckoRequestFor(geckoId.value, days))
                     else [])
  {
    var breq := BinanceRequestFor(symbol, days, interval, nowMs);
    var binanceData := binance(breq);
    calls := [BinanceCall(breq)];
    if |binanceData| > 0 {
      return binanceData, calls;
    }
    var geckoData, greq := FetchFromCoinGecko(slug, name, symbol, days, gecko);
    if greq.Some? {
      calls := calls + [GeckoCall(greq.value)];
    }
    if |geckoData| > 0 {
      return geckoData, calls;
    }
    return [], calls;
  }

  method GetCoinOHLCV(
    slug: string, params: OhlcParams, nowMs: int,
    primary: PrimaryRequest -> PrimaryReply,
    quote: Query -> Option<QuoteCoin>,
    binance: BinanceRequest -> seq<Candle>,
    gecko: GeckoRequest -> seq<Candle>)
    returns (candles: seq<Candle>, calls: seq<Call>)
    // the primary provider is always asked first, exactly once
    ensures |calls| >= 1 && calls[0] == PrimaryCall(PrimaryRequestOf(slug, params, nowMs))
    // a reply that did not throw is the answer, even an empty one; nothing else is asked
    ensures primary(PrimaryRequestOf(slug, params, nowMs)).Quotes? ==>
      && candles == primary(PrimaryRequestOf(slug, params, nowMs)).candles
      && calls == [PrimaryCall(PrimaryRequestOf(slug, params, nowMs))]
    // otherwise: quote lookup(s) with the primary's own query, Binance, then CoinGecko if needed
    ensures primary(PrimaryRequestOf(slug, params, nowMs)).Thrown? ==>
      var lookups := if FirstBranch(primary(PrimaryRequestOf(slug, params, nowMs)).message) then 2 else 1;
      var found := quote(PrimaryQuery(slug));
      var symbol := FallbackSymbol(slug, found);
      var breq := BinanceRequestFor(symbol, params.days, IntervalName(params.interval), nowMs);
      var geckoId := GeckoIdFor(slug, FallbackName(found), symbol);
      var asksGecko := |binance(breq)| == 0 && geckoId.Some?;
      && calls == [PrimaryCall(PrimaryRequestOf(slug, params, nowMs))]
                  + QuoteCalls(PrimaryQuery(slug), lookups)
                  + ([BinanceCall(breq)]
                     + (if asksGecko then [GeckoCall(GeckoRequestFor(geckoId.value, params.days))] else []))
      && candles == (if |binance(breq)| > 0 then binance(breq)
                     else if asksGecko then gecko(GeckoRequestFor(geckoId.value, params.days))
                     else [])
  {
    var interval := IntervalName(params.interval);
    var req := PrimaryRequestOf(slug, params, nowMs);
    var reply := primary(req);
    if reply.Quotes? {
      return reply.candles, [PrimaryCall(req)];
    }

    var query := PrimaryQuery(slug);
    var correctSymbol, coinName, lookups;
    if FirstBranch(reply.message) {
      correctSymbol, coinName, lookups := LookupTwice(slug, query, quote);
    } else {
      correctSymbol, coinName, lookups := LookupOnce(slug, query, quote);
    }
    assert lookups == QuoteCalls(query, if FirstBranch(reply.message) then 2 else 1);
    var rest;
    candles, rest := Secondaries(slug, correctSymbol, coinName, params.days, interval, nowMs, binance, gecko);
    calls := [PrimaryCall(req)] + lookups + rest;
  }
}
