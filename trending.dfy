/**
 * `getTrendingCoins`: the top gainers of the latest listings, sorted in place by 24h change
 * (descending) and cut to seven.
 */
module Trending {
  import opened Wrappers
  import opened Text
  import opened Identifiers
  import opened Sorting

  /** One entry of the listings reply, with its USD quote. */
  datatype Listing = Listing(id: nat, name: string, symbol: string, cmcRank: int, price: real, change24h: real)

  /** The listings call: a thrown error, or a body whose `data` may be missing. */
  datatype ListingsReply = ListingsThrown(message: string) | ListingsBody(data: Option<seq<Listing>>)

  /** One trending entry as the dashboard receives it. */
  datatype TrendingItem = TrendingItem(
    slug: string, name: string, symbol: string, marketCapRank: int,
    thumb: string, large: string, price: real, change24h: real)

  const TrendingCount: nat := 7

  /** Ascending order of this key is descending order of the 24h change; ties keep their order. */
  function ChangeKey(l: Listing): real {
    -l.change24h
  }

  function ImageUrl(size: string, id: nat): string {
    "https://s2.coinmarketcap.com/static/img/coins/" + size + "/" + Decimal(id) + ".png"
  }

  /** The mapping of one listing to a trending entry; the slug is `idToSlug(id, symbol)`. */
  function ToItem(l: Listing): (item: TrendingItem)
    ensures item.name == l.name && item.symbol == l.symbol && item.marketCapRank == l.cmcRank
    ensures item.price == l.price && item.change24h == l.change24h
  {
    TrendingItem(IdToSlug(l.id, l.symbol), l.name, l.symbol, l.cmcRank,
                 ImageUrl("64x64", l.id), ImageUrl("200x200", l.id), l.price, l.change24h)
  }

  /** The page a trending entry links to resolves to the listed coin's id and symbol. */
  lemma ItemSlugResolves(l: Listing)
    ensures SlugToIdAndSymbol(ToItem(l).slug) == CoinRef(Some(Decimal(l.id)), Upper(l.symbol))
  {
    SlugRoundTrip(l.id, l.symbol);
  }

  /** The seven (or fewer) listings with the largest 24h change, largest first. */
  function Top(data: seq<Listing>): (top: seq<Listing>)
    ensures |top| == if |data| < TrendingCount then |data| else TrendingCount
  {
    var sorted := SortedOf(data, ChangeKey);
    sorted[..if |sorted| < TrendingCount then |sorted| else TrendingCount]
  }

  /** The listings the cut leaves out, in sorted order. */
  function LeftOut(data: seq<Listing>): (rest: seq<Listing>)
    ensures SortedOf(data, ChangeKey) == Top(data) + rest
  {
    var sorted := SortedOf(data, ChangeKey);
    assert sorted == sorted[..|Top(data)|] + sorted[|Top(data)|..];
    sorted[|Top(data)|..]
  }

  /** Every input listing is either selected or left out, and nothing else is selected. */
  lemma {:induction false} TopPartitions(data: seq<Listing>)
    ensures multiset(data) == multiset(Top(data)) + multiset(LeftOut(data))
    ensures multiset(Top(data)) <= multiset(data)
  {
    SortedOfPermutes(data, ChangeKey);
    assert multiset(SortedOf(data, ChangeKey)) == multiset(Top(data)) + multiset(LeftOut(data));
  }

  /** The selection is in descending order of 24h change. */
  lemma {:induction false} TopDescending(data: seq<Listing>)
    ensures forall i, j :: 0 <= i < j < |Top(data)| ==> Top(data)[i].change24h >= Top(data)[j].change24h
  {
    var sorted := SortedOf(data, ChangeKey);
    SortedOfIsSorted(data, ChangeKey);
    forall i, j | 0 <= i < j < |Top(data)|
      ensures Top(data)[i].change24h >= Top(data)[j].change24h
    {
      assert Top(data)[i] == sorted[i] && Top(data)[j] == sorted[j];
      assert ChangeKey(sorted[i]) <= ChangeKey(sorted[j]);
    }
  }

  /** No listing left out changed more than any selected one. */
  lemma {:induction false} TopDominates(data: seq<Listing>)
    ensures forall p, q :: 0 <= p < |LeftOut(data)| && 0 <= q < |Top(data)| ==>
                            LeftOut(data)[p].change24h <= Top(data)[q].change24h
  {
    var sorted, top, rest := SortedOf(data, ChangeKey), Top(data), LeftOut(data);
    assert sorted == top + rest;
    SortedOfIsSorted(data, ChangeKey);
    forall p, q | 0 <= p < |rest| && 0 <= q < |top|
      ensures rest[p].change24h <= top[q].change24h
    {
      assert sorted[q] == top[q] && sorted[|top| + p] == rest[p];
      assert ChangeKey(sorted[q]) <= ChangeKey(sorted[|top| + p]);
    }
  }

  /** Listings already in descending order of change: the first seven are taken as they are. */
  lemma TopOfOrdered(data: seq<Listing>)
    requires forall i, j :: 0 <= i < j < |data| ==> data[i].change24h >= data[j].change24h
    ensures Top(data) == data[..|Top(data)|]
  {
    SortedOfSorted(data, ChangeKey);
  }

  /** The entries made from the selection are in descending order of 24h change too. */
  lemma ItemsDescending(data: seq<Listing>, coins: seq<TrendingItem>)
    requires |coins| == |Top(data)| && forall i :: 0 <= i < |coins| ==> coins[i] == ToItem(Top(data)[i])
    ensures forall i, j :: 0 <= i < j < |coins| ==> coins[i].change24h >= coins[j].change24h
  {
    TopDescending(data);
    forall i, j | 0 <= i < j < |coins|
      ensures coins[i].change24h >= coins[j].change24h
    {
      assert coins[i].change24h == Top(data)[i].change24h && coins[j].change24h == Top(data)[j].change24h;
    }
  }

  /**
   * The whole call: any thrown error, a missing `data` or an empty list gives no coins; otherwise
   * the listings are copied, sorted in place by descending change and the first seven mapped.
   */
  method GetTrendingCoins(reply: ListingsReply) returns (coins: seq<TrendingItem>)
    ensures |coins| <= TrendingCount
    ensures reply.ListingsThrown? || reply.data.None? || reply.data.value == [] ==> coins == []
    ensures reply.ListingsBody? && reply.data.Some? ==>
      |coins| == |Top(reply.data.value)|
      && forall i :: 0 <= i < |coins| ==> coins[i] == ToItem(Top(reply.data.value)[i])
    ensures forall i, j :: 0 <= i < j < |coins| ==> coins[i].change24h >= coins[j].change24h
  {
    if reply.ListingsThrown? || reply.data.None? || |reply.data.value| == 0 {
      return [];
    }
    var data := reply.data.value;
    var a := new Listing[|data|](i requires 0 <= i < |data| => data[i]);
    assert a[..] == data;
    SortInPlace(a, ChangeKey);
    var n := if a.Length < TrendingCount then a.Length else TrendingCount;
    var top := a[..n];
    assert top == Top(data);
    coins := seq(n, i requires 0 <= i < n => ToItem(top[i]));
    ItemsDescending(data, coins);
  }
}
