# coinpulse OHLC pipeline, in Dafny

This project models the data side of the coinpulse crypto dashboard:

- how a dashboard coin id such as `bitcoin-1` (a "slug": the lower-cased ticker symbol, a dash, and the CoinMarketCap numeric id) becomes provider requests;
- how `getCoinOHLCV` falls back from CoinMarketCap to Binance and then to CoinGecko when the primary OHLCV endpoint throws;
- how the candlestick chart normalises its stored rows, splices in a live candle and sorts the result;
- how the price-polling hook picks its identifier, maps a reply to a price and starts and stops.

Network calls are abstract. Each provider is a function-typed parameter from the request to what the client code makes of the reply. The orchestrator returns both the candles and the ordered list of requests it made, so "nothing else is asked" can be stated. Wall-clock time (`Date.now()`) is an integer parameter `nowMs`.

JavaScript semantics the source relies on are written out over `seq<char>`:

- `Number(s)` being not-NaN (`JsNumber.IsNumberString`: trimmed, empty means 0, decimal with sign, point and exponent, `Infinity`, and `0x`/`0o`/`0b` literals);
- `parseInt` without a radix (`JsNumber.ParseInt`, with `None` for NaN);
- `split` and `join`, `startsWith`, `endsWith` and `includes`;
- `trim` and `.replace(/\s+/g, '-')` over the JavaScript whitespace set;
- ASCII `toUpperCase` and `toLowerCase`;
- the stable `Array.prototype.sort` with a numeric comparator: `Sorting.SortedOf` is a functional insertion sort, and `Sorting.SortInPlace` sorts an array in place and is proved equal to it.

Where the source reads an absent or falsy string (`undefined`, `null`, `''`), the model uses the empty string.

Modules, one per concern:

- `Text` and `JsNumber`: the JavaScript string and number helpers.
- `Identifiers`: `slugToIdAndSymbol`, `idToSlug`, and the query the server sends.
- `RequestPolicy`: the day, window, count, limit and interval rules of the three providers.
- `Fetcher`: URL joining and the error message `fetcher` throws.
- `CoinGecko`: id resolution and the fallback call.
- `Orchestrator`: `getCoinOHLCV`.
- `Trending`: `getTrendingCoins`.
- `Details`: the info-endpoint decision of `getCoinDetails`.
- `Sorting`: the stable sort.
- `Chart`: `CandlestickChart`.
- `Polling`: `useCoinMarketCapPolling`.

Two identifier behaviours follow the code and are stated as lemmas:

- A slug with a trailing dash (`btc-`) has the empty string as its "numeric" last part, because `Number("")` is 0. `slugToIdAndSymbol` therefore returns the id `""`. The server treats that id as falsy and looks the coin up by the symbol `BTC`, while the hook asks the proxy for the id `""` (`Polling.HookSendsEmptyId`).
- On a symbol slug with several parts (`usd-coin`), the hook sends only the first part (`USD`), while the server sends `USD-COIN` (`Polling.HookKeepsFirstPart`).

## Model

| member | source | states |
|---|---|---|
| Text.JoinSplit | lib/coinmarketcap.actions.ts:76-80 | joining the dash-split parts with a dash gives back the original string |
| Text.SplitFirst | hooks/useCoinMarketCapPolling.ts:9-11 | the first split part is everything before the first separator |
| Text.UpperOfLower | lib/coinmarketcap.actions.ts:70-84 | upper-casing a lower-cased string equals upper-casing the original |
| Text.DashForSpaceRuns | lib/coinmarketcap.actions.ts:370-373 | a non-empty coin name never turns into an empty id |
| Text.DashForSpaceRunsShape | lib/coinmarketcap.actions.ts:371 | the result has no whitespace, is no longer than the input, and equals the input when it has no whitespace |
| Text.SpaceRunBecomesDash | lib/coinmarketcap.actions.ts:371 | a whole whitespace run between two non-space characters (or at either end) becomes exactly one dash, and the text on each side is converted on its own |
| JsNumber.DecimalIsNumber | lib/coinmarketcap.actions.ts:77 | the decimal rendering of every natural number passes the `!isNaN(Number(...))` test |
| JsNumber.ParseIntDecimal | lib/coinmarketcap.actions.ts:381 | `parseInt` reads the decimal rendering of n back as n |
| JsNumber.ParseIntDigits | lib/coinmarketcap.actions.ts:446 | `parseInt` reads a plain run of decimal digits as its value |
| JsNumber.LetterIsNotNumber | lib/coinmarketcap.actions.ts:77 | a part that starts with a lower-case letter ("coin") is NaN whatever whitespace follows it, so it is never taken as an id |
| Identifiers.SlugToIdAndSymbol | lib/coinmarketcap.actions.ts:74-84 | an id exists iff the slug has a dash and a numeric last part; the id is that last part and the symbol is everything before its dash, upper-cased; otherwise the symbol is the whole slug upper-cased |
| Identifiers.IdToSlug | lib/coinmarketcap.actions.ts:70-72 | the slug starts with the lower-cased symbol, its last dash sits right after it, and the part after that dash is the id's decimal digits |
| Identifiers.SlugRoundTrip | lib/coinmarketcap.actions.ts:70-84 | parsing a slug made by `idToSlug` returns the id and the upper-cased symbol, even when the symbol holds dashes |
| Identifiers.CoinSymbol | lib/coinmarketcap.actions.ts:513 | with a numeric last part after a dash that is not the first character, the ticker is the upper-cased text before that dash; otherwise (no id, or an empty symbol before a leading dash) it is the whole slug upper-cased; it is non-empty for a non-empty slug and no longer than the slug |
| Identifiers.PrimaryQuery | lib/coinmarketcap.actions.ts:511-512 | lookup by id iff the slug has a dash and a non-empty numeric last part, and the id is then that last part; with no numeric last part the symbol is the whole slug upper-cased; with a trailing dash it is the part before the dash upper-cased (the bare "-" is sent as it is) |
| Identifiers.PrimaryQueryOfSlug | lib/coinmarketcap.actions.ts:553 | every slug made by `idToSlug` is looked up by its numeric id |
| RequestPolicy.DaysNum | lib/coinmarketcap.actions.ts:519 | a day string that parses to a non-zero integer gives that integer, and one that parses to 0 or is NaN gives 1, so a string never yields 0; a number is kept; an absent value is 1 |
| RequestPolicy.DaysTextDecimal | lib/coinmarketcap.actions.ts:446 | the string of a day count reads back as that count, except that "0" becomes 1 |
| RequestPolicy.PrimaryRequestFor | lib/coinmarketcap.actions.ts:518-528 | timeEnd is now in whole seconds; the window is exactly days·86400 s up to 30 days and exactly 30·86400 s from 30 days on; count is 24 up to one day, otherwise the clamped day count; the interval is "hourly" iff "hourly" was asked, else "daily" |
| RequestPolicy.BinanceRequestFor | lib/coinmarketcap.actions.ts:443-454 | the symbol gets the USDT suffix; "1d" iff daily, "1h" otherwise; the limit always lies in 100..1000 and equals days times 24 (hourly) or 1 when that is in range; the window ends at now and spans days·86 400 000 ms |
| RequestPolicy.GeckoDays | lib/coinmarketcap.actions.ts:386 | a day count of one or less (zero and negatives included) becomes exactly 1, and a larger one is kept |
| RequestPolicy.GeckoRequestFor | lib/coinmarketcap.actions.ts:380-394 | the request carries the resolved id, currency "usd" and exactly the clamped day count `GeckoDays(days)`, which is at least one |
| Fetcher.BaseUrl | lib/coinmarketcap.actions.ts:5 | a configured non-empty base URL wins; an absent or empty one gives the default `https://pro-api.coinmarketcap.com`; the URL is never empty |
| Fetcher.RequestUrl | lib/coinmarketcap.actions.ts:15-21 | base minus one trailing slash, one "/", endpoint minus one leading slash, with no doubled separator unless a side brings two slashes |
| Fetcher.ErrorMessage | lib/coinmarketcap.actions.ts:35-63 | the thrown message always contains "Error" and the HTTP status |
| Fetcher.ForbiddenMentions403 | lib/coinmarketcap.actions.ts:63 | a 403 reply always surfaces as a message containing "403" |
| CoinGecko.SlugCandidate | lib/coinmarketcap.actions.ts:355-366 | the candidate is the slug's part before its first dash, lower-cased, with "eth" spelled "ethereum" and "btc" spelled "bitcoin"; it is empty exactly when the slug is empty or starts with a dash |
| CoinGecko.GeckoIdFor | lib/coinmarketcap.actions.ts:346-378 | a table hit for the symbol wins; otherwise a non-empty first slug part is used; the name fallback applies only when that part is empty; no id iff all three fail; a resolved id is never empty |
| CoinGecko.TableIdsNonEmpty | lib/coinmarketcap.actions.ts:309-330 | every id in the symbol table is non-empty |
| CoinGecko.ResolveCoinGeckoId | lib/coinmarketcap.actions.ts:346-373 | the step-by-step reassignment of `coinId` yields exactly the resolution order |
| CoinGecko.FetchFromCoinGecko | lib/coinmarketcap.actions.ts:334-429 | with no id the result is [] and no request is made; otherwise exactly one request for that id, whose answer is returned |
| Orchestrator.FetcherErrorsTakeFirstBranch | lib/coinmarketcap.actions.ts:570 | every error `fetcher` throws satisfies the first catch branch's condition |
| Orchestrator.QuoteCalls | lib/coinmarketcap.actions.ts:576-599 | n copies of the same quotes request |
| Orchestrator.LookupTwice | lib/coinmarketcap.actions.ts:574-607 | after both lookups the symbol is the found coin's symbol (else `symbol` or the slug upper-cased) and the name the found coin's name; exactly two quote requests |
| Orchestrator.LookupOnce | lib/coinmarketcap.actions.ts:632-648 | the single lookup of the second branch ends with the same symbol and name as the two lookups of the first |
| Orchestrator.Secondaries | lib/coinmarketcap.actions.ts:609-627 | Binance first with the resolved symbol; CoinGecko only when Binance returned nothing and an id resolves; otherwise [] |
| Orchestrator.GetCoinOHLCV | lib/coinmarketcap.actions.ts:503-662 | the primary is asked first; a non-throwing reply is returned as-is, even empty, with no other request; a thrown one leads to the quote lookups, then Binance, then possibly CoinGecko, returning the first non-empty series or []; it never fails |
| Sorting.InsertPermutes | components/CandlestickChart.tsx:172 | inserting adds exactly the inserted element |
| Sorting.SortedOfPermutes | components/CandlestickChart.tsx:172 | the sorted series is a permutation of its input |
| Sorting.InsertSorted | components/CandlestickChart.tsx:172 | inserting into a sorted sequence keeps it sorted |
| Sorting.SortedOfIsSorted | components/CandlestickChart.tsx:172 | the sorted series is non-decreasing by key |
| Sorting.SortedOfIsStable | components/CandlestickChart.tsx:172 | elements with equal keys keep their relative order |
| Sorting.SortedOfSorted | components/CandlestickChart.tsx:172 | an already sorted sequence is left as it is |
| Sorting.InsertAtGap | components/CandlestickChart.tsx:172 | an element goes right after the last element whose key does not exceed its own, so ties keep insertion order |
| Sorting.ShiftLarger | components/CandlestickChart.tsx:172 | the larger-keyed tail of the prefix moves one place right, nothing else changes, and the gap left is where the element belongs |
| Sorting.InsertAt | components/CandlestickChart.tsx:172 | one in-place insertion step turns the prefix up to i into the functional insertion and leaves the rest of the array alone |
| Sorting.SortInPlace | lib/coinmarketcap.actions.ts:695-697 | the array is sorted in place into exactly the functional stable sort of its old contents |
| Chart.ToSeconds | components/CandlestickChart.tsx:145-148 | a timestamp above 946 684 800 000 becomes floor(t/1000); any other stays; positive stays positive |
| Chart.ToCandle | components/CandlestickChart.tsx:147-153 | the candle's time is the converted timestamp and the four prices pass through untouched |
| Chart.Normalize | components/CandlestickChart.tsx:141-154 | never longer than the stored series, and every surviving candle has a positive timestamp |
| Chart.NormalizeAppend | components/CandlestickChart.tsx:141-142 | normalisation works row by row: it distributes over concatenation, so survivors keep their order |
| Chart.NormalizeOne | components/CandlestickChart.tsx:142 | a single row is dropped when falsy, shorter than five fields or not positive in time, and converted otherwise |
| Chart.NormalizeAllValid | components/CandlestickChart.tsx:141-154 | a series of valid rows loses nothing and keeps each row at its own position |
| Chart.Spliced | components/CandlestickChart.tsx:156-170 | without a live candle the series is unchanged; a live candle with the last candle's time replaces it, length unchanged; any other is appended, length plus one |
| Chart.MergeLive | components/CandlestickChart.tsx:141-172 | sorting the fresh array in place yields exactly `Merged`, the stable sort by timestamp of the normalised series with the live candle spliced in |
| Chart.MergedIsStableSort | components/CandlestickChart.tsx:156-172 | the merged series is time-ordered, a permutation of the spliced series, and keeps equal-time candles in their spliced order |
| Chart.MergeWithoutLive | components/CandlestickChart.tsx:168-172 | with no live candle an already ordered normalised series is shown exactly as it is |
| Chart.CandlestickChart.constructor | components/CandlestickChart.tsx:15-32 | the period defaults to "daily", the stored rows to [], and the length ref to the data's length |
| Chart.CandlestickChart.HandlePeriodChange | components/CandlestickChart.tsx:59-64 | choosing the active period changes nothing and fetches nothing; another period is stored and fetched once |
| Chart.CandlestickChart.ReceiveFetched | components/CandlestickChart.tsx:49-53 | an array result is stored as it is; a single value is wrapped as a one-element list |
| Chart.CandlestickChart.CreateChart | components/CandlestickChart.tsx:66-117 | the new chart shows the normalised series when there is one and is empty otherwise; with no stored rows and a coin id it fetches the current period; the stored rows are untouched |
| Chart.CandlestickChart.RemoveChart | components/CandlestickChart.tsx:128-133 | the chart and the series it showed are gone and the series reference is cleared |
| Chart.CandlestickChart.Refresh | components/CandlestickChart.tsx:136-188 | the stored rows never change; without a series or rows nothing happens; otherwise a non-empty merge is shown and the length ref then equals the stored length |
| Trending.ToItem | lib/coinmarketcap.actions.ts:700-714 | the entry's name, symbol, rank, price and change are the listing's |
| Trending.ItemSlugResolves | lib/coinmarketcap.actions.ts:703 | the entry's slug parses back to the listed coin's id and upper-cased symbol |
| Trending.Top | lib/coinmarketcap.actions.ts:695-697 | exactly min(7, n) listings are selected |
| Trending.LeftOut | lib/coinmarketcap.actions.ts:697 | the sorted listings are exactly the selected ones followed by the ones left out |
| Trending.TopPartitions | lib/coinmarketcap.actions.ts:695-697 | every input listing is either selected or left out, so the selection is drawn from the input |
| Trending.TopDescending | lib/coinmarketcap.actions.ts:695-696 | the selection is in descending order of 24h change |
| Trending.TopDominates | lib/coinmarketcap.actions.ts:695-697 | no listing left out changed more in 24h than any selected one |
| Trending.ItemsDescending | lib/coinmarketcap.actions.ts:695-716 | the entries made from the selection keep its descending order of 24h change |
| Trending.TopOfOrdered | lib/coinmarketcap.actions.ts:695-697 | listings already in descending order are cut, not reordered |
| Trending.GetTrendingCoins | lib/coinmarketcap.actions.ts:667-723 | at most seven coins, ordered by 24h change descending; entry i is the mapping of the i-th listing of `Top`; an error, a missing `data` or an empty list gives [] |
| Details.ChooseInfo | lib/coinmarketcap.actions.ts:207-262 | an info answer replaces the quote's fields; an empty answer or a 403/Forbidden error keeps the quote's id, name, symbol and slug with no extras; any other error is rethrown with its message |
| Details.ForbiddenInfoFallsBack | lib/coinmarketcap.actions.ts:256-262 | a 403 reply from the info endpoint never fails the details page: the quote's own fields are used |
| Polling.HookQuery | hooks/useCoinMarketCapPolling.ts:9-12 | lookup by id iff there is a dash and a numeric last part, which is then the id; otherwise the first dash part, upper-cased, is the symbol |
| Polling.HookQueryOfSlug | hooks/useCoinMarketCapPolling.ts:9-12 | on every slug `idToSlug` makes, the hook and the server ask for the same id |
| Polling.HookAgreesOnIds | hooks/useCoinMarketCapPolling.ts:10-11 | whenever the server looks a slug up by id, the hook sends the same id |
| Polling.HookSymbolOnSymbolQueries | hooks/useCoinMarketCapPolling.ts:9-12 | whenever the server looks a slug up by symbol, the hook asks for the upper-cased part before the first dash, except after a trailing dash, where it sends an empty id |
| Polling.HookKeepsFirstPart | hooks/useCoinMarketCapPolling.ts:11 | the hook asks for "usd-coin" by the symbol USD |
| Polling.ServerKeepsWholeSlug | lib/coinmarketcap.actions.ts:83 | the server asks for "usd-coin" by the symbol USD-COIN |
| Polling.HookSendsEmptyId | hooks/useCoinMarketCapPolling.ts:10 | "btc-" is asked for by the empty id by the hook and by the symbol BTC by the server |
| Polling.FetchCoinPrice | hooks/useCoinMarketCapPolling.ts:6-51 | a price exactly when the reply has a first coin with a USD quote; usd and price are the quote's price, coin the symbol, change, market cap and volume are the quote's when present and 0 when missing; every other outcome is null |
| Polling.EffectiveInterval | hooks/useCoinMarketCapPolling.ts:71 | "1s" becomes "1m", and every other interval is kept |
| Polling.PollInterval | hooks/useCoinMarketCapPolling.ts:72 | the poll period is 60 000 ms whatever the interval |
| Polling.CoinMarketCapPolling.constructor | hooks/useCoinMarketCapPolling.ts:53-63 | the interval defaults to "1m"; no price, no trades, no candle, not connected, no timer |
| Polling.CoinMarketCapPolling.Start | hooks/useCoinMarketCapPolling.ts:67-85 | connected, with the timer handle stored and a one-minute period |
| Polling.CoinMarketCapPolling.Poll | hooks/useCoinMarketCapPolling.ts:74-79 | a price replaces the stored one; a null result leaves it unchanged |
| Polling.CoinMarketCapPolling.Stop | hooks/useCoinMarketCapPolling.ts:87-93 | the timer handle is cleared and the hook is disconnected |
| Polling.CoinMarketCapPolling.ResetStreams | hooks/useCoinMarketCapPolling.ts:98-101 | trades become [] and the candle null |
| Polling.CoinMarketCapPolling.Rerender | hooks/useCoinMarketCapPolling.ts:65-101 | a new coin or interval restarts polling; a new coin or pool resets the streams; the price survives both |

## Left out

- HTTP (`fetch`, headers, `next.revalidate` caching) and console logging: providers and the quotes proxy are function parameters.
- `qs.stringifyUrl` query encoding is a foreign library. Requests are records of their parameters, and the URL is modelled only up to the path.
- The API-key presence check at module load, and the 403/429 log-level choices in `fetcher`: configuration and logging.
- Floating point: prices are `real` and carried untouched. `parseFloat` of Binance klines and the mapping of provider payloads to candles belong to the provider parameters.
- Date parsing (`new Date(...).getTime()`) and `Date.now()`: the quote's `last_updated` and now are integer parameters.
- One `nowMs` serves both `Date.now()` calls of `getCoinOHLCV`. In the source the Binance call (lib/coinmarketcap.actions.ts:450) reads the clock after several awaits, so later than the CoinMarketCap window (:518); the model does not capture that drift.
- The `days` parameter is a whole number (`Days.DaysNumber(n: int)`), while the source accepts any JavaScript number. Fractional day counts, and the fractional windows and counts they would give, are not modelled.
- `Number` edge cases beyond not-NaN, and a NaN quote value taken as falsy: only an absent value defaults to 0.
- Orchestrator.LookupTwice: both quote lookups in the first catch branch are assumed to get the same reply (the `quote` parameter is a function).
- Malformed payloads that make the mapping throw (a missing `data.quotes`, a listing without a USD quote) are represented by the thrown variants of the reply types, not derived.
- `getCoinMarkets`, `getCategories` and the field mapping of `getCoinDetails`: pass-through mapping with float arithmetic. Only its info-endpoint decision is modelled.
- Chart rendering: `createChart`, `ResizeObserver`, `fitContent`, `showTime`, the width choice and the button markup.
- `convertOHLCData` (lib/utils) is not part of this model. It is taken to pass the candles through unchanged.
- Chart.CandlestickChart.Refresh: whether `fitContent` is called in live mode is not recorded.
- A failed `fetchOHLCData` only logs and leaves the state alone, so it has no transition of its own.
- Which coin the chart asks for in `fetchOHLCData` (`PERIOD_CONFIG` lives in constants, which is not part of this model). The chart records only the period it fetched.
- React scheduling (transitions, effect ordering across components) and `setInterval` timing: the hook's timer is a handle, and each poll is an explicit `Poll` call.
- app/api/coinmarketcap/quotes/route.ts is a thin proxy. It answers 400 when both id and symbol are absent and otherwise prefers the id, so the hook's empty id is refused there.
- Unicode case mapping: `toUpperCase` and `toLowerCase` are ASCII-only here.
