/**
 * The auction listing (`GET /`): a query built from the optional search,
 * status, category and price-range parameters, the documents that satisfy
 * it, and one of four orderings chosen by the `sort` parameter.
 */
module Listing {
  import opened Wrappers
  import opened Text
  import opened Schema

  /** The query-string parameters. An empty string, or `None` for a price
      bound, stands for a parameter that is absent or empty (falsy). */
  datatype ListingParams = ListingParams(
    search: string,
    minPrice: Option<int>,
    maxPrice: Option<int>,
    status: string,
    category: string,
    sort: string)

  /** The filter document handed to the database. */
  datatype Query = Query(
    textSearch: Option<string>,
    status: Option<string>,
    category: Option<string>,
    priceRange: Option<PriceRange>)

  datatype PriceRange = PriceRange(gte: Option<int>, lte: Option<int>)

  /** Builds the query one parameter at a time, as the route does. */
  function BuildQuery(p: ListingParams): (q: Query)
    ensures q.textSearch.Some? <==> p.search != ""
    ensures q.status.Some? <==> p.status != ""
    ensures q.category.Some? <==> p.category !in {"", "All"}
    ensures q.priceRange.Some? <==> p.minPrice.Some? || p.maxPrice.Some?
    ensures q.textSearch.Some? ==> q.textSearch.value == p.search
    ensures q.status.Some? ==> q.status.value == p.status
    ensures q.category.Some? ==> q.category.value == p.category
    ensures q.priceRange.Some? ==> q.priceRange.value == PriceRange(p.minPrice, p.maxPrice)
  {
    Query(
      if p.search != "" then Some(p.search) else None,
      if p.status != "" then Some(p.status) else None,
      if p.category != "" && p.category != "All" then Some(p.category) else None,
      if p.minPrice.Some? || p.maxPrice.Some? then Some(PriceRange(p.minPrice, p.maxPrice)) else None)
  }

  /** What the database does with the query: every present clause must hold.
      The search is a case-insensitive match in the title or the description. */
  predicate Satisfies(q: Query, a: Auction) {
    && (q.textSearch.Some? ==>
          ContainsIgnoreCase(a.title, q.textSearch.value) || ContainsIgnoreCase(a.description, q.textSearch.value))
    && (q.status.Some? ==> StatusName(a.status) == q.status.value)
    && (q.category.Some? ==> CategoryName(a.category) == q.category.value)
    && (q.priceRange.Some? ==>
          && (q.priceRange.value.gte.Some? ==> a.currentBid >= q.priceRange.value.gte.value)
          && (q.priceRange.value.lte.Some? ==> a.currentBid <= q.priceRange.value.lte.value))
  }

  /** The listing's meaning, parameter by parameter: each filter applies only when supplied. */
  predicate Wanted(p: ListingParams, a: Auction) {
    && (p.search != "" ==> ContainsIgnoreCase(a.title, p.search) || ContainsIgnoreCase(a.description, p.search))
    && (p.status != "" ==> StatusName(a.status) == p.status)
    && (p.category !in {"", "All"} ==> CategoryName(a.category) == p.category)
    && (p.minPrice.Some? ==> p.minPrice.value <= a.currentBid)
    && (p.maxPrice.Some? ==> a.currentBid <= p.maxPrice.value)
  }

  /** The query the route builds selects exactly the wanted auctions. */
  lemma BuildQueryExact(p: ListingParams, a: Auction)
    ensures Satisfies(BuildQuery(p), a) <==> Wanted(p, a)
  {
  }

  /** The documents that satisfy the query, in stored order. */
  function Find(q: Query, docs: seq<Auction>): (r: seq<Auction>)
    ensures forall a :: multiset(r)[a] == if Satisfies(q, a) then multiset(docs)[a] else 0
    decreases |docs|
  {
    if docs == [] then []
    else
      var rest := Find(q, docs[1..]);
      assert docs == [docs[0]] + docs[1..];
      if Satisfies(q, docs[0]) then [docs[0]] + rest else rest
  }

  datatype SortOrder = NewestFirst | PriceAscending | PriceDescending | EndingSoonest

  /** The sort option: one of three names, anything else (absent included) is newest first. */
  function SortOption(sort: string): (r: SortOrder)
    ensures r == EndingSoonest <==> sort == "ending_soon"
    ensures r == PriceDescending <==> sort == "price_desc"
    ensures r == PriceAscending <==> sort == "price_asc"
    ensures r == NewestFirst <==> sort !in {"ending_soon", "price_desc", "price_asc"}
  {
    if sort == "ending_soon" then EndingSoonest
    else if sort == "price_desc" then PriceDescending
    else if sort == "price_asc" then PriceAscending
    else NewestFirst
  }

  /** Descending on the creation time; a document without one sorts last. */
  predicate CreatedNoEarlier(x: Option<int>, y: Option<int>) {
    match (x, y)
    case (_, None) => true
    case (None, Some(_)) => false
    case (Some(u), Some(v)) => u >= v
  }

  /** `a` may be listed before `b` under order `o`. */
  predicate Before(o: SortOrder, a: Auction, b: Auction) {
    match o
    case NewestFirst => CreatedNoEarlier(a.createdAt, b.createdAt)
    case PriceAscending => a.currentBid <= b.currentBid
    case PriceDescending => a.currentBid >= b.currentBid
    case EndingSoonest => a.endTime <= b.endTime
  }

  lemma BeforeTotal(o: SortOrder, a: Auction, b: Auction)
    ensures Before(o, a, b) || Before(o, b, a)
  {
  }

  lemma BeforeTransitive(o: SortOrder, a: Auction, b: Auction, c: Auction)
    requires Before(o, a, b) && Before(o, b, c)
    ensures Before(o, a, c)
  {
  }

  predicate Sorted(o: SortOrder, s: seq<Auction>) {
    forall i, j :: 0 <= i < j < |s| ==> Before(o, s[i], s[j])
  }

  function Insert(o: SortOrder, x: Auction, s: seq<Auction>): (r: seq<Auction>)
    requires Sorted(o, s)
    ensures Sorted(o, r)
    ensures multiset(r) == multiset(s) + multiset{x}
    decreases |s|
  {
    if s == [] then [x]
    else if Before(o, x, s[0]) then
      assert forall j :: 0 <= j < |s| ==> Before(o, x, s[j]) by {
        forall j | 0 <= j < |s| ensures Before(o, x, s[j]) {
          if j > 0 { BeforeTransitive(o, x, s[0], s[j]); }
        }
      }
      [x] + s
    else
      var rest := Insert(o, x, s[1..]);
      assert s == [s[0]] + s[1..];
      assert forall y :: y in multiset(rest) ==> Before(o, s[0], y) by {
        forall y | y in multiset(rest) ensures Before(o, s[0], y) {
          BeforeTotal(o, x, s[0]);
          if y != x {
            assert y in s[1..];
          }
        }
      }
      assert forall j :: 0 <= j < |rest| ==> Before(o, s[0], rest[j]) by {
        forall j | 0 <= j < |rest| ensures Before(o, s[0], rest[j]) {
          assert rest[j] in multiset(rest);
        }
      }
      [s[0]] + rest
  }

  /** Orders a sequence by `o` (ties keep no particular order). */
  function SortBy(o: SortOrder, s: seq<Auction>): (r: seq<Auction>)
    ensures Sorted(o, r)
    ensures multiset(r) == multiset(s)
    decreases |s|
  {
    if s == [] then []
    else
      assert s == [s[0]] + s[1..];
      Insert(o, s[0], SortBy(o, s[1..]))
  }

  /** The response of `GET /`. */
  function ListAuctions(p: ListingParams, docs: seq<Auction>): (r: seq<Auction>)
    ensures Sorted(SortOption(p.sort), r)
    ensures multiset(r) <= multiset(docs)
    ensures forall a :: a in r ==> Wanted(p, a)
  {
    var r := SortBy(SortOption(p.sort), Find(BuildQuery(p), docs));
    assert forall a :: a in r ==> Wanted(p, a) by {
      forall a | a in r
        ensures Wanted(p, a)
      {
        assert multiset(r)[a] > 0;
        BuildQueryExact(p, a);
      }
    }
    r
  }

  /** The listing holds exactly the stored auctions that satisfy every supplied
      filter, each as many times as it is stored. */
  lemma ListingContents(p: ListingParams, docs: seq<Auction>, a: Auction)
    ensures multiset(ListAuctions(p, docs))[a] == if Wanted(p, a) then multiset(docs)[a] else 0
    ensures a in ListAuctions(p, docs) <==> a in docs && Wanted(p, a)
  {
    BuildQueryExact(p, a);
    var r := ListAuctions(p, docs);
    assert a in r <==> a in multiset(r);
    assert a in docs <==> a in multiset(docs);
  }

  /** The listing is ordered as the `sort` parameter asks: by current bid up or
      down, by end time up, and by creation time down for anything else. */
  lemma ListingOrder(p: ListingParams, docs: seq<Auction>, i: int, j: int)
    requires 0 <= i < j < |ListAuctions(p, docs)|
    ensures var r := ListAuctions(p, docs);
      && (p.sort == "price_asc" ==> r[i].currentBid <= r[j].currentBid)
      && (p.sort == "price_desc" ==> r[i].currentBid >= r[j].currentBid)
      && (p.sort == "ending_soon" ==> r[i].endTime <= r[j].endTime)
      && (p.sort !in {"price_asc", "price_desc", "ending_soon"} ==>
            CreatedNoEarlier(r[i].createdAt, r[j].createdAt))
  {
  }
}
