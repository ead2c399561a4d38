/** CoinGecko fallback: resolving the long-form coin id, then one OHLC request. */
module CoinGecko {
  import opened Wrappers
  import opened Text
  import opened Candles
  import opened RequestPolicy

  /** Common ticker symbols and their CoinGecko ids. */
  const SymbolToGeckoId: map<string, string> := map[
    "BTC" := "bitcoin", "ETH" := "ethereum", "BNB" := "binancecoin", "SOL" := "solana",
    "XRP" := "ripple", "ADA" := "cardano", "DOGE" := "dogecoin", "DOT" := "polkadot",
    "MATIC" := "matic-network", "LINK" := "chainlink", "LTC" := "litecoin",
    "AVAX" := "avalanche-2", "UNI" := "uniswap", "ATOM" := "cosmos",
    "ETC" := "ethereum-classic", "XLM" := "stellar", "ALGO" := "algorand",
    "FIL" := "filecoin", "TRX" := "tron", "VET" := "vechain"]

  /** The first dash part of the slug, lower-cased, with "eth" and "btc" spelled out. */
  function SlugCandidate(slug: string): (id: string)
    ensures |id| == 0 <==> IndexOf(slug, '-') == 0
    ensures var p := Lower(slug[..IndexOf(slug, '-')]);
            id == (if p == "eth" then "ethereum" else if p == "btc" then "bitcoin" else p)
  {
    var potentialId := Lower(Split(slug, '-')[0]);
    SplitFirst(slug, '-');
    if potentialId == "eth" then "ethereum"
    else if potentialId == "btc" then "bitcoin"
    else potentialId
  }

  /**
   * The resolution order: the symbol table, then the slug's first part, then the coin's
   * display name with whitespace runs turned into dashes. Empty strings stand for absent values.
   */
  function GeckoIdFor(slug: string, coinName: string, symbol: string): (id: Option<string>)
    ensures id.Some? ==> id.value != []
    ensures symbol != [] && Upper(symbol) in SymbolToGeckoId ==> id == Some(SymbolToGeckoId[Upper(symbol)])
    ensures id.None? <==>
      (symbol == [] || Upper(symbol) !in SymbolToGeckoId) && IndexOf(slug, '-') == 0 && coinName == []
    ensures (symbol == [] || Upper(symbol) !in SymbolToGeckoId) && IndexOf(slug, '-') != 0
      ==> id == Some(SlugCandidate(slug))
    ensures (symbol == [] || Upper(symbol) !in SymbolToGeckoId) && IndexOf(slug, '-') == 0 && coinName != []
      ==> id == Some(DashForSpaceRuns(Lower(coinName)))
  {
    if symbol != [] && Upper(symbol) in SymbolToGeckoId then Some(SymbolToGeckoId[Upper(symbol)])
    else if SlugCandidate(slug) != [] then Some(SlugCandidate(slug))
    else if coinName != [] then Some(DashForSpaceRuns(Lower(coinName)))
    else None
  }

  /** Every id of the symbol table is a non-empty string. */
  lemma TableIdsNonEmpty(symbol: string)
    requires symbol in SymbolToGeckoId
    ensures SymbolToGeckoId[symbol] != []
  {
  }

  /** The id lookup of `getOHLCVFromCoinGecko`, reassigning one variable step by step;
      the empty string plays the role of `null`. */
  method ResolveCoinGeckoId(slug: string, coinName: string, symbol: string) returns (coinId: Option<string>)
    ensures coinId == GeckoIdFor(slug, coinName, symbol)
  {
    var id: string := [];
    if symbol != [] && Upper(symbol) in SymbolToGeckoId {
      id := SymbolToGeckoId[Upper(symbol)];
      TableIdsNonEmpty(Upper(symbol));
    }
    if id == [] {
      var slugParts := Split(slug, '-');
      if |slugParts| > 0 {
        var potentialId := Lower(slugParts[0]);
        if potentialId == "eth" {
          id := "ethereum";
        } else if potentialId == "btc" {
          id := "bitcoin";
        } else {
          id := potentialId;
        }
      }
    }
    if id == [] && coinName != [] {
      id := DashForSpaceRuns(Lower(coinName));
    }
    coinId := if id == [] then None else Some(id);
  }

  /**
   * `getOHLCVFromCoinGecko`: without an id it answers [] and makes no request; otherwise it makes
   * one request. `gecko` gives the candles a request yields, [] for a failed or empty reply.
   */
  method FetchFromCoinGecko(slug: string, coinName: string, symbol: string, days: Days,
                            gecko: GeckoRequest -> seq<Candle>)
    returns (candles: seq<Candle>, request: Option<GeckoRequest>)
    ensures request.None? <==> GeckoIdFor(slug, coinName, symbol).None?
    ensures request.None? ==> candles == []
    ensures request.Some? ==>
      && request.value == GeckoRequestFor(GeckoIdFor(slug, coinName, symbol).value, days)
      && candles == gecko(request.value)
  {
    var coinId := ResolveCoinGeckoId(slug, coinName, symbol);
    if coinId.None? {
      return [], None;
    }
    var req := GeckoRequestFor(coinId.value, days);
    var data := gecko(req);
    if |data| == 0 {
      return [], Some(req);
    }
    return data, Some(req);
  }
}
