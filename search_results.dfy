/** The result list view: which renderer each category uses, which grid class
    the list gets, and the keyed items it renders, one per result. */
module SearchResultsView {
  import opened Wrappers
  import opened Strings
  import opened SearchTypes

  /** The per-category result components. */
  datatype Renderer = WebResult | ImageResult | VideoResult | PlaceResult | NewsResult | ShoppingResult | ScholarResult

  /** The `ComponentBySource` table; a total match, so every category has a
      renderer. */
  function ComponentBySource(source: SearchSource): (r: Renderer)
    ensures r == ScholarResult <==> source in {Scholar, Patents}
  {
    match source
    case Search => WebResult
    case Images => ImageResult
    case Videos => VideoResult
    case Places => PlaceResult
    case News => NewsResult
    case Shopping => ShoppingResult
    case Scholar => ScholarResult
    case Patents => ScholarResult
  }

  /** Two categories share a renderer exactly when they are the same category
      or are `scholar` and `patents`, which both use `ScholarResult`. */
  lemma RendererSharing(a: SearchSource, b: SearchSource)
    ensures ComponentBySource(a) == ComponentBySource(b) <==>
      a == b || (a in {Scholar, Patents} && b in {Scholar, Patents})
  {
  }

  const ImagesGrid := "grid-cols-2 md:grid-cols-3 lg:grid-cols-4"
  const VideosGrid := "grid-cols-1 sm:grid-cols-2 lg:grid-cols-3 gap-8"
  const ShoppingGrid := "grid-cols-1 sm:grid-cols-2 lg:grid-cols-3"
  const SingleColumn := "grid-cols-1"

  /** The `gridClass` switch: a dedicated class for images, videos and
      shopping, and the single column for every other category. */
  function GridClass(source: SearchSource): (c: string)
    ensures source == Images <==> c == ImagesGrid
    ensures source == Videos <==> c == VideosGrid
    ensures source == Shopping <==> c == ShoppingGrid
    ensures source !in {Images, Videos, Shopping} <==> c == SingleColumn
  {
    match source
    case Images => ImagesGrid
    case Videos => VideosGrid
    case Shopping => ShoppingGrid
    case _ => SingleColumn
  }

  /** One rendered item: its React key, its renderer and the result it shows. */
  datatype Item = Item(key: string, renderer: Renderer, result: SearchResult)

  /** The key of the item at `index`, `${result.link}-${index}`. */
  function ItemKey(link: string, index: nat): (k: string)
    ensures |k| > |link| + 1 && k[..|link|] == link && k[|link|] == '-'
    ensures AllDigits(k[|link| + 1..]) && k[|link| + 1..] == NatToString(index)
  {
    link + "-" + NatToString(index)
  }

  /** Splits a key at its last `-` into the link and the index. */
  function SplitKey(key: string): Option<(string, nat)> {
    match LastDash(key)
    case None => None
    case Some(p) =>
      var digits := key[p + 1..];
      if AllDigits(digits) then Some((key[..p], ParseDigits(digits))) else None
  }

  /** A key splits back into the link and the index it was made from: the index
      text holds no `-`, so the last `-` of the key is the one put before it. */
  lemma SplitItemKey(link: string, index: nat)
    ensures SplitKey(ItemKey(link, index)) == Some((link, index))
  {
    var digits := NatToString(index);
    LastDashOfJoin(link, digits);
    var key := ItemKey(link, index);
    assert key[|link| + 1..] == digits;
    assert key[..|link|] == link;
    ParseNatToString(index);
  }

  /** Keys made at different indexes differ, whatever the links. */
  lemma ItemKeyInjective(link1: string, i: nat, link2: string, j: nat)
    requires ItemKey(link1, i) == ItemKey(link2, j)
    ensures i == j && link1 == link2
  {
    SplitItemKey(link1, i);
    SplitItemKey(link2, j);
  }

  /** `results.map((result, index) => ...)`: one item per result, in order,
      each drawn by the category's renderer. */
  function Items(results: seq<SearchResult>, source: SearchSource): (items: seq<Item>)
    ensures |items| == |results|
    ensures forall i :: 0 <= i < |items| ==> items[i].result == results[i]
    ensures forall i :: 0 <= i < |items| ==> items[i].renderer == ComponentBySource(source)
    ensures forall i :: 0 <= i < |items| ==> items[i].key == ItemKey(results[i].link, i)
  {
    seq(|results|, i requires 0 <= i < |results| => Item(ItemKey(results[i].link, i), ComponentBySource(source), results[i]))
  }

  /** The items' keys are pairwise distinct even when links repeat, so React
      can tell every item apart. */
  lemma ItemKeysDistinct(results: seq<SearchResult>, source: SearchSource)
    ensures forall i, j :: 0 <= i < j < |results| ==> Items(results, source)[i].key != Items(results, source)[j].key
  {
    var items := Items(results, source);
    forall i, j | 0 <= i < j < |results| ensures items[i].key != items[j].key {
      if items[i].key == items[j].key {
        ItemKeyInjective(results[i].link, i, results[j].link, j);
      }
    }
  }

  /** Each item's key names the result's link and its position. */
  lemma ItemKeyNamesPosition(results: seq<SearchResult>, source: SearchSource, i: nat)
    requires i < |results|
    ensures SplitKey(Items(results, source)[i].key) == Some((results[i].link, i))
  {
    SplitItemKey(results[i].link, i);
  }
}
