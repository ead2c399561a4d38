/** The dashboard's composite coin id ("bitcoin-1") and the provider identifiers derived from it. */
module Identifiers {
  import opened Wrappers
  import opened Text
  import opened JsNumber

  /** `{ id?, symbol? }` as `slugToIdAndSymbol` returns it; the symbol is always present. */
  datatype CoinRef = CoinRef(id: Option<string>, symbol: string)

  /** How the primary provider's quote and OHLCV endpoints are asked for a coin. */
  datatype Query = ById(id: string) | BySymbol(symbol: string)

  /** The part of `slug` after its last dash (the whole slug when there is no dash). */
  function LastPart(slug: string): string {
    slug[LastIndexOf(slug, '-') + 1..]
  }

  /**
   * `slugToIdAndSymbol`: a numeric last dash part is the id and the rest, upper-cased, the symbol;
   * otherwise there is no id and the symbol is the whole slug upper-cased.
   */
  function SlugToIdAndSymbol(slug: string): (r: CoinRef)
    ensures r.id.Some? <==> '-' in slug && IsNumberString(LastPart(slug))
    ensures r.id.Some? ==> r.id.value == LastPart(slug)
    ensures r.id.Some? ==>
      var k := |slug| - |r.id.value| - 1;
      && 0 <= k && slug[k] == '-' && '-' !in r.id.value
      && slug[k + 1..] == r.id.value
      && r.symbol == Upper(slug[..k])
    ensures r.id.None? ==> r.symbol == Upper(slug)
  {
    var parts := Split(slug, '-');
    if |parts| >= 2 && IsNumberString(parts[|parts| - 1]) then
      var k := LastIndexOf(slug, '-');
      assert parts == Split(slug[..k], '-') + [slug[k + 1..]];
      assert parts[..|parts| - 1] == Split(slug[..k], '-');
      JoinSplit(slug[..k], '-');
      CoinRef(Some(parts[|parts| - 1]), Upper(Join(parts[..|parts| - 1], '-')))
    else
      CoinRef(None, Upper(slug))
  }

  /** `idToSlug`: the lower-cased symbol, a dash, and the numeric id. */
  function IdToSlug(id: nat, symbol: string): (slug: string)
    ensures LastIndexOf(slug, '-') == |symbol|
    ensures LastPart(slug) == Decimal(id)
    ensures slug[..|symbol|] == Lower(symbol)
  {
    var slug := Lower(symbol) + "-" + Decimal(id);
    assert slug[|symbol|] == '-' && slug[|symbol| + 1..] == Decimal(id);
    slug
  }

  /** A slug built by `idToSlug` parses back to its id and to the upper-cased symbol,
      also when the symbol itself holds dashes. */
  lemma {:induction false} SlugRoundTrip(id: nat, symbol: string)
    ensures SlugToIdAndSymbol(IdToSlug(id, symbol)) == CoinRef(Some(Decimal(id)), Upper(symbol))
  {
    var slug := IdToSlug(id, symbol);
    DecimalIsNumber(id);
    assert slug[|symbol|] == '-';
    var r := SlugToIdAndSymbol(slug);
    assert r.id == Some(Decimal(id));
    assert |slug| - |Decimal(id)| - 1 == |symbol|;
    assert slug[..|symbol|] == Lower(symbol);
    UpperOfLower(symbol);
  }

  /** `symbol || slug.toUpperCase()`: the symbol handed to the fallback providers. */
  function CoinSymbol(slug: string): (s: string)
    ensures slug != [] ==> s != []
    ensures |s| <= |slug|
    ensures '-' in slug && IsNumberString(LastPart(slug)) && LastIndexOf(slug, '-') > 0 ==>
      s == Upper(slug[..LastIndexOf(slug, '-')])
    ensures !('-' in slug && IsNumberString(LastPart(slug))) || LastIndexOf(slug, '-') == 0 ==>
      s == Upper(slug)
  {
    var ref := SlugToIdAndSymbol(slug);
    if ref.id.Some? then
      var k := LastIndexOf(slug, '-');
      assert k == |slug| - |ref.id.value| - 1;
      assert ref.symbol == Upper(slug[..k]) && |ref.symbol| == k;
      if ref.symbol != [] then ref.symbol else Upper(slug)
    else
      Upper(slug)
  }

  /** A slug ends with the character at `k` followed by everything after it. */
  lemma SuffixAfter(slug: string, k: nat)
    requires k < |slug|
    ensures EndsWith(slug, [slug[k]] + slug[k + 1..])
  {
    assert slug[k..] == [slug[k]] + slug[k + 1..];
  }

  /**
   * `[id ? 'id' : 'symbol']: id || symbol || slug`: an empty id counts as absent, so a slug
   * ending in a dash is asked for by the upper-cased part before that dash.
   */
  function PrimaryQuery(slug: string): (q: Query)
    ensures q.ById? <==> '-' in slug && LastPart(slug) != [] && IsNumberString(LastPart(slug))
    ensures q.ById? ==> q.id == LastPart(slug) && IsNumberString(q.id) && EndsWith(slug, "-" + q.id)
    ensures !('-' in slug && IsNumberString(LastPart(slug))) ==> q == BySymbol(Upper(slug))
    ensures '-' in slug && LastPart(slug) == [] ==>
      q == BySymbol(if |slug| > 1 then Upper(slug[..|slug| - 1]) else slug)
    ensures q.BySymbol? && slug != [] ==> q.symbol != []
  {
    var ref := SlugToIdAndSymbol(slug);
    if ref.id.Some? && ref.id.value != [] then
      SuffixAfter(slug, |slug| - |ref.id.value| - 1);
      ById(ref.id.value)
    else if ref.symbol != [] then
      EmptyIsNumber();
      BySymbol(ref.symbol)
    else BySymbol(slug)
  }

  /** A slug made by `idToSlug` is always looked up by its numeric id. */
  lemma PrimaryQueryOfSlug(id: nat, symbol: string)
    ensures PrimaryQuery(IdToSlug(id, symbol)) == ById(Decimal(id))
  {
    SlugRoundTrip(id, symbol);
  }
}
