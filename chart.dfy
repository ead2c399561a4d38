/**
 * The candlestick chart's data side: timestamp normalisation of the stored series, merging of the
 * polled live candle, and the component state its handlers and effects update.
 */
module Chart {
  import opened Wrappers
  import opened Candles
  import opened Sorting

  /** One stored entry: a falsy entry, or a row whose first field is the timestamp and whose
      remaining fields are prices (so the row has 1 + |prices| fields). */
  datatype RawRow = Missing | Row(time: int, prices: seq<Price>)

  /** 2000-01-01T00:00:00Z in milliseconds: larger timestamps are taken to be milliseconds. */
  const MillisThreshold: int := 946_684_800_000

  /** The filter: a present row with at least five fields and a positive timestamp. */
  predicate IsValidRow(r: RawRow) {
    r.Row? && 1 + |r.prices| >= 5 && r.time > 0
  }

  /** `isMs ? Math.floor(t / 1000) : t`. */
  function ToSeconds(t: int): (s: int)
    ensures t > MillisThreshold ==> s * 1000 <= t < s * 1000 + 1000
    ensures t <= MillisThreshold ==> s == t
    ensures t > 0 ==> 0 < s <= t
  {
    if t > MillisThreshold then t / 1000 else t
  }

  /** The row as a chart candle: timestamp in seconds, the four prices untouched. */
  function ToCandle(r: RawRow): (c: Candle)
    requires IsValidRow(r)
    ensures c.time == ToSeconds(r.time) && c.time > 0
    ensures [c.open, c.high, c.low, c.close] == r.prices[..4]
  {
    Candle(ToSeconds(r.time), r.prices[0], r.prices[1], r.prices[2], r.prices[3])
  }

  /** The filter/map pipeline over the stored series. */
  function Normalize(rows: seq<RawRow>): (out: seq<Candle>)
    ensures |out| <= |rows|
    ensures forall i :: 0 <= i < |out| ==> out[i].time > 0
  {
    if rows == [] then []
    else
      var last := rows[|rows| - 1];
      Normalize(rows[..|rows| - 1]) + (if IsValidRow(last) then [ToCandle(last)] else [])
  }

  /** Normalisation works row by row: it distributes over concatenation ... */
  lemma {:induction false} NormalizeAppend(a: seq<RawRow>, b: seq<RawRow>)
    ensures Normalize(a + b) == Normalize(a) + Normalize(b)
    decreases |b|
  {
    if b == [] {
      assert a + b == a;
    } else {
      var front := b[..|b| - 1];
      assert (a + b)[..|a + b| - 1] == a + front;
      assert (a + b)[|a + b| - 1] == b[|b| - 1];
      NormalizeAppend(a, front);
    }
  }

  /** ... and a single row is dropped when invalid and converted otherwise. */
  lemma NormalizeOne(r: RawRow)
    ensures Normalize([r]) == if IsValidRow(r) then [ToCandle(r)] else []
  {
    assert [r][..0] == [];
  }

  /** A series of valid rows loses nothing: each row becomes the candle at its own position. */
  lemma {:induction false} NormalizeAllValid(rows: seq<RawRow>)
    requires forall i :: 0 <= i < |rows| ==> IsValidRow(rows[i])
    ensures |Normalize(rows)| == |rows|
    ensures forall i :: 0 <= i < |rows| ==> Normalize(rows)[i] == ToCandle(rows[i])
  {
    if rows != [] {
      NormalizeAllValid(rows[..|rows| - 1]);
    }
  }

  /**
   * Replace-or-append: a live candle with the same timestamp as the last historical one replaces
   * it; any other live candle is appended; without one the history is kept as it is.
   */
  function Spliced(history: seq<Candle>, live: Option<Candle>): (merged: seq<Candle>)
    ensures live.None? ==> merged == history
    ensures live.Some? && history != [] && history[|history| - 1].time == live.value.time ==>
      && |merged| == |history|
      && merged[..|history| - 1] == history[..|history| - 1]
      && merged[|history| - 1] == live.value
    ensures live.Some? && (history == [] || history[|history| - 1].time != live.value.time) ==>
      && |merged| == |history| + 1
      && merged[..|history|] == history
      && merged[|history|] == live.value
  {
    match live
    case None => history
    case Some(tick) =>
      if history != [] && history[|history| - 1].time == tick.time
      then history[..|history| - 1] + [tick]
      else history + [tick]
  }

  /** The series the second effect shows: the spliced series stably sorted by timestamp. */
  ghost function Merged(ohlcData: seq<RawRow>, live: Option<Candle>): seq<Candle> {
    SortedOf(Spliced(Normalize(ohlcData), live), TimeKey)
  }

  /**
   * The second effect's series computation: normalise, splice in the live candle, copy into a
   * fresh array and sort it in place by timestamp. The stored rows are only read.
   */
  method MergeLive(ohlcData: seq<RawRow>, live: Option<Candle>) returns (merged: seq<Candle>)
    ensures merged == Merged(ohlcData, live)
  {
    var unsorted := Spliced(Normalize(ohlcData), live);
    var a := new Candle[|unsorted|](i requires 0 <= i < |unsorted| => unsorted[i]);
    assert a[..] == unsorted;
    SortInPlace(a, TimeKey);
    merged := a[..];
  }

  /** The merged series is time-ordered, a permutation of the spliced series, and keeps
      candles with equal timestamps in their spliced order. */
  lemma MergedIsStableSort(ohlcData: seq<RawRow>, live: Option<Candle>)
    ensures SortedBy(Merged(ohlcData, live), TimeKey)
    ensures multiset(Merged(ohlcData, live)) == multiset(Spliced(Normalize(ohlcData), live))
    ensures forall k: real :: WithKey(Merged(ohlcData, live), TimeKey, k) == WithKey(Spliced(Normalize(ohlcData), live), TimeKey, k)
  {
    var unsorted := Spliced(Normalize(ohlcData), live);
    SortedOfIsSorted(unsorted, TimeKey);
    SortedOfPermutes(unsorted, TimeKey);
    forall k: real
      ensures WithKey(Merged(ohlcData, live), TimeKey, k) == WithKey(unsorted, TimeKey, k)
    {
      SortedOfIsStable(unsorted, TimeKey, k);
    }
  }

  /** With no live candle, an already ordered normalised series is shown exactly as it is. */
  lemma MergeWithoutLive(ohlcData: seq<RawRow>)
    requires SortedBy(Normalize(ohlcData), TimeKey)
    ensures Merged(ohlcData, None) == Normalize(ohlcData)
  {
    SortedOfSorted(Normalize(ohlcData), TimeKey);
  }

  /** What `getCoinOHLCV` handed back: an array, or a single value to be wrapped in one. */
  datatype Fetched = Rows(rows: seq<RawRow>) | Single(row: RawRow)

  /** The component's state: the props it keeps, its state hooks and refs, and the effects' output. */
  class CandlestickChart {
    const coinId: string
    /** The selected period (`useState(initialPeriod)`). */
    var period: string
    /** The stored series (`useState(data ?? [])`). */
    var ohlcData: seq<RawRow>
    /** `prevOhlcDataLength.current`. */
    var prevOhlcDataLength: nat
    /** Whether `candleSeriesRef.current` holds a series. */
    var seriesAttached: bool
    /** The series last handed to the chart's candle series. */
    var displayed: seq<Candle>
    /** The periods for which `fetchOHLCData` was started, oldest first. */
    var fetches: seq<string>

    constructor (coinId: string, data: Option<seq<RawRow>>, initialPeriod: Option<string>)
      ensures this.coinId == coinId
      ensures period == initialPeriod.GetOr("daily")
      ensures ohlcData == data.GetOr([]) && prevOhlcDataLength == |data.GetOr([])|
      ensures !seriesAttached && displayed == [] && fetches == []
    {
      this.coinId := coinId;
      period := initialPeriod.GetOr("daily");
      ohlcData := data.GetOr([]);
      prevOhlcDataLength := |data.GetOr([])|;
      seriesAttached := false;
      displayed := [];
      fetches := [];
    }

    /** `handlePeriodChange`: choosing the active period does nothing. */
    method HandlePeriodChange(newPeriod: string)
      modifies this
      ensures newPeriod == old(period) ==> unchanged(this)
      ensures newPeriod != old(period) ==> period == newPeriod && fetches == old(fetches) + [newPeriod]
      ensures ohlcData == old(ohlcData) && displayed == old(displayed)
      ensures prevOhlcDataLength == old(prevOhlcDataLength) && seriesAttached == old(seriesAttached)
    {
      if newPeriod == period {
        return;
      }
      period := newPeriod;
      fetches := fetches + [newPeriod];
    }

    /** The transition at the end of `fetchOHLCData`: a non-array result becomes a one-row list. */
    method ReceiveFetched(result: Fetched)
      modifies this`ohlcData
      ensures ohlcData == match result case Rows(rows) => rows case Single(row) => [row]
    {
      ohlcData := match result case Rows(rows) => rows case Single(row) => [row];
    }

    /** The first effect: a new chart shows the normalised series unsorted; otherwise it starts
        empty and, with nothing stored and a coin to ask for, a fetch for the current period. */
    method CreateChart()
      modifies this
      ensures seriesAttached
      ensures Normalize(ohlcData) != [] ==> displayed == Normalize(ohlcData) && fetches == old(fetches)
      ensures Normalize(ohlcData) == [] ==>
        && displayed == []
        && fetches == old(fetches) + (if ohlcData == [] && coinId != [] then [period] else [])
      ensures ohlcData == old(ohlcData) && period == old(period)
      ensures prevOhlcDataLength == old(prevOhlcDataLength)
    {
      var converted := Normalize(ohlcData);
      displayed := [];
      if |converted| > 0 {
        displayed := converted;
      } else if |ohlcData| == 0 && coinId != [] {
        fetches := fetches + [period];
      }
      seriesAttached := true;
    }

    /** The first effect's cleanup: the chart, and the series it showed, are removed and the
        series ref cleared. */
    method RemoveChart()
      modifies this`seriesAttached, this`displayed
      ensures !seriesAttached && displayed == []
    {
      seriesAttached := false;
      displayed := [];
    }

    /** The second effect: merge the live candle into the stored series and show the result.
        Nothing happens without a series or without stored rows; the stored rows never change. */
    method Refresh(live: Option<Candle>, mode: string)
      modifies this`displayed, this`prevOhlcDataLength
      ensures ohlcData == old(ohlcData) && period == old(period) && fetches == old(fetches)
      ensures seriesAttached == old(seriesAttached)
      ensures !seriesAttached || ohlcData == [] ==> unchanged(this)
      ensures seriesAttached && ohlcData != [] ==>
        var merged := Merged(ohlcData, live);
        && (merged != [] ==> displayed == merged && prevOhlcDataLength == |ohlcData|)
        && (merged == [] ==> unchanged(this))
    {
      if !seriesAttached || |ohlcData| == 0 {
        return;
      }
      var rows := ohlcData;
      var merged := MergeLive(rows, live);
      if |merged| > 0 {
        displayed := merged;
        var dataChanged := prevOhlcDataLength != |rows|;
        if dataChanged || mode == "historical" {
          prevOhlcDataLength := |rows|;
        }
      }
    }
  }
}
