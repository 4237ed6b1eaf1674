/** The advanced search screen: a query and a category sent to the server,
    then a price range and a sort order applied to what comes back. */
module AdvancedSearch {
  import opened Common
  import opened Catalog
  import opened Sorting

  /** The sort chips: `relevance`, `price-low`, `price-high`, `name`, `newest`. */
  datatype SortOrder = Relevance | PriceLow | PriceHigh | Name | Newest

  /** A price box as `parseFloat` reads it: empty (no filter), a number, or
      text that parses to NaN, against which every comparison is false. */
  datatype PriceBound = Blank | Bound(value: real) | Unparsable

  /** `p.price >= parseFloat(min)`. */
  predicate AtLeast(price: real, min: PriceBound) {
    match min
    case Blank => true
    case Bound(v) => price >= v
    case Unparsable => false
  }

  /** `p.price <= parseFloat(max)`. */
  predicate AtMost(price: real, max: PriceBound) {
    match max
    case Blank => true
    case Bound(v) => price <= v
    case Unparsable => false
  }

  function MinFilter(min: PriceBound): Product -> bool {
    (p: Product) => AtLeast(p.price, min)
  }

  function MaxFilter(max: PriceBound): Product -> bool {
    (p: Product) => AtMost(p.price, max)
  }

  /** The price filter: the minimum applied when its box is not empty, then
      the maximum likewise. */
  function PriceFiltered(products: seq<Product>, min: PriceBound, max: PriceBound): (r: seq<Product>)
    ensures forall i :: 0 <= i < |r| ==> r[i] in products
    ensures forall i :: 0 <= i < |r| ==> (min.Bound? ==> r[i].price >= min.value) &&
                                         (max.Bound? ==> r[i].price <= max.value)
    ensures min.Unparsable? || max.Unparsable? ==> r == []
    ensures forall i :: 0 <= i < |products| &&
                        AtLeast(products[i].price, min) && AtMost(products[i].price, max)
                        ==> products[i] in r
  {
    var afterMin := if min.Blank? then products else Filter(products, MinFilter(min));
    assert forall i :: 0 <= i < |afterMin| ==> AtLeast(afterMin[i].price, min);
    var afterMax := if max.Blank? then afterMin else Filter(afterMin, MaxFilter(max));
    assert forall i :: 0 <= i < |afterMax| ==> afterMax[i] in afterMin && AtMost(afterMax[i].price, max);
    assert |afterMax| > 0 ==> afterMax[0] in afterMin && AtLeast(afterMax[0].price, min);
    afterMax
  }

  /** Without bounds nothing is filtered out. */
  lemma NoBoundsNoFilter(products: seq<Product>)
    ensures PriceFiltered(products, Blank, Blank) == products
  {
  }

  /** The filtered products keep the fetched order. */
  lemma PriceFilteredInOrder(products: seq<Product>, min: PriceBound, max: PriceBound)
    ensures IsSubsequence(PriceFiltered(products, min, max), products)
  {
    var afterMin := if min.Blank? then products else Filter(products, MinFilter(min));
    if min.Blank? {
      SubsequenceReflexive(products);
    } else {
      FilterIsSubsequence(products, MinFilter(min));
    }
    if !max.Blank? {
      FilterIsSubsequence(afterMin, MaxFilter(max));
      SubsequenceTransitive(Filter(afterMin, MaxFilter(max)), afterMin, products);
    }
  }

  /** The comparator of each sort chip, as "the comparator's value is at
      most 0". `titleLe` stands for `a.title.localeCompare(b.title) <= 0`. */
  function Comparator(order: SortOrder, titleLe: (string, string) -> bool): (Product, Product) -> bool {
    match order
    case Relevance => (a: Product, b: Product) => true
    case PriceLow => (a: Product, b: Product) => a.price <= b.price
    case PriceHigh => (a: Product, b: Product) => b.price <= a.price
    case Name => (a: Product, b: Product) => titleLe(a.title, b.title)
    case Newest => (a: Product, b: Product) => b.createdAt <= a.createdAt
  }

  /** `filteredProducts.sort(...)` under the chosen order. */
  function SortedResults(products: seq<Product>, order: SortOrder, titleLe: (string, string) -> bool): (r: seq<Product>)
    ensures multiset(r) == multiset(products)
  {
    SortBy(products, Comparator(order, titleLe))
  }

  /** `price-low` gives non-decreasing prices. */
  lemma PriceLowAscending(products: seq<Product>, titleLe: (string, string) -> bool)
    ensures var r := SortedResults(products, PriceLow, titleLe);
            forall i, j :: 0 <= i < j < |r| ==> r[i].price <= r[j].price
  {
    SortBySorted(products, Comparator(PriceLow, titleLe));
  }

  /** `price-high` gives non-increasing prices. */
  lemma PriceHighDescending(products: seq<Product>, titleLe: (string, string) -> bool)
    ensures var r := SortedResults(products, PriceHigh, titleLe);
            forall i, j :: 0 <= i < j < |r| ==> r[i].price >= r[j].price
  {
    SortBySorted(products, Comparator(PriceHigh, titleLe));
  }

  /** `newest` puts later creation times first. */
  lemma NewestFirst(products: seq<Product>, titleLe: (string, string) -> bool)
    ensures var r := SortedResults(products, Newest, titleLe);
            forall i, j :: 0 <= i < j < |r| ==> r[i].createdAt >= r[j].createdAt
  {
    SortBySorted(products, Comparator(Newest, titleLe));
  }

  /** `name` orders by title whenever the title order is a total preorder. */
  lemma NameOrdered(products: seq<Product>, titleLe: (string, string) -> bool)
    requires forall a, b :: titleLe(a, b) || titleLe(b, a)
    requires forall a, b, c :: titleLe(a, b) && titleLe(b, c) ==> titleLe(a, c)
    ensures var r := SortedResults(products, Name, titleLe);
            forall i, j :: 0 <= i < j < |r| ==> titleLe(r[i].title, r[j].title)
  {
    var le := Comparator(Name, titleLe);
    assert Total(le) by {
      forall a: Product, b: Product ensures le(a, b) || le(b, a) {
        assert titleLe(a.title, b.title) || titleLe(b.title, a.title);
      }
    }
    assert Transitive(le) by {
      forall a: Product, b: Product, c: Product | le(a, b) && le(b, c) ensures le(a, c) {
        assert le(a, b) == titleLe(a.title, b.title) && le(b, c) == titleLe(b.title, c.title);
        assert le(a, c) == titleLe(a.title, c.title);
      }
    }
    SortBySorted(products, le);
  }

  /** The products of one price. */
  function PricedAt(price: real): Product -> bool {
    (p: Product) => p.price == price
  }

  /** The products created at one instant. */
  function CreatedAt(t: int): Product -> bool {
    (p: Product) => p.createdAt == t
  }

  /** The products of one title. */
  function Titled(title: string): Product -> bool {
    (p: Product) => p.title == title
  }

  /** Under `price-low` and `price-high`, products of equal price keep the
      fetched order. */
  lemma EqualPricesKeepOrder(products: seq<Product>, order: SortOrder, titleLe: (string, string) -> bool, price: real)
    requires order == PriceLow || order == PriceHigh
    ensures Filter(SortedResults(products, order, titleLe), PricedAt(price)) == Filter(products, PricedAt(price))
  {
    SortByStable(products, Comparator(order, titleLe), PricedAt(price));
  }

  /** Under `newest`, products created at the same instant keep the fetched
      order. */
  lemma EqualDatesKeepOrder(products: seq<Product>, titleLe: (string, string) -> bool, t: int)
    ensures Filter(SortedResults(products, Newest, titleLe), CreatedAt(t)) == Filter(products, CreatedAt(t))
  {
    SortByStable(products, Comparator(Newest, titleLe), CreatedAt(t));
  }

  /** Under `name`, products of the same title keep the fetched order, as
      `localeCompare` gives 0 for equal titles. */
  lemma EqualTitlesKeepOrder(products: seq<Product>, titleLe: (string, string) -> bool, title: string)
    requires titleLe(title, title)
    ensures Filter(SortedResults(products, Name, titleLe), Titled(title)) == Filter(products, Titled(title))
  {
    SortByStable(products, Comparator(Name, titleLe), Titled(title));
  }

  /** `relevance` (a comparator that is always 0) keeps the fetched order. */
  lemma RelevanceKeepsOrder(products: seq<Product>, titleLe: (string, string) -> bool)
    ensures SortedResults(products, Relevance, titleLe) == products
  {
    SortByAllTies(products, Comparator(Relevance, titleLe));
  }

  /** A search runs only for a query with some non-white-space character,
      or a selected category. */
  predicate ShouldSearch(searchQuery: string, selectedCategory: string): (b: bool)
    ensures b <==> (exists i :: 0 <= i < |searchQuery| && !IsSpace(searchQuery[i])) || selectedCategory != ""
  {
    BlankIffAllSpace(searchQuery);
    !IsBlank(searchQuery) || selectedCategory != ""
  }

  /** `hasActiveFilters`: the query, the category or either price box is
      non-empty; the sort order is not considered. */
  predicate HasActiveFilters(searchQuery: string, selectedCategory: string, min: PriceBound, max: PriceBound): (b: bool)
    ensures !b <==> searchQuery == "" && selectedCategory == "" && min == Blank && max == Blank
  {
    searchQuery != "" || selectedCategory != "" || !min.Blank? || !max.Blank?
  }

  /** Whenever a search runs, the active-filter badge shows. */
  lemma SearchImpliesActiveFilters(searchQuery: string, selectedCategory: string, min: PriceBound, max: PriceBound)
    requires ShouldSearch(searchQuery, selectedCategory)
    ensures HasActiveFilters(searchQuery, selectedCategory, min, max)
  {
    if searchQuery == "" {
      assert Trim(searchQuery) == "";
    }
  }

  /** The screen's state. A network request is replaced by its outcome,
      passed in as a parameter (`None` for a failed request). */
  class AdvancedSearchState {
    var searchQuery: string
    var selectedCategory: string
    var minPrice: PriceBound
    var maxPrice: PriceBound
    var sortBy: SortOrder
    var products: seq<Product>

    constructor()
      ensures searchQuery == "" && selectedCategory == "" && minPrice == Blank && maxPrice == Blank
      ensures sortBy == Relevance && products == []
    {
      searchQuery, selectedCategory, minPrice, maxPrice := "", "", Blank, Blank;
      sortBy, products := Relevance, [];
    }

    /** `performSearch()`: sends the query, then filters by price and sorts
        what came back; a failed request leaves no results. */
    method PerformSearch(response: Option<seq<Product>>, titleLe: (string, string) -> bool)
      returns (params: ProductQuery)
      modifies this`products
      ensures params.search == TrimmedParam(searchQuery)
      ensures params.category == if selectedCategory == "" then None else Some(selectedCategory)
      ensures products == match response
                          case None => []
                          case Some(fetched) => SortedResults(PriceFiltered(fetched, minPrice, maxPrice), sortBy, titleLe)
    {
      params := ProductQuery(None, None);
      if Trim(searchQuery) != "" {
        params := params.(search := Some(Trim(searchQuery)));
      }
      if selectedCategory != "" {
        params := params.(category := Some(selectedCategory));
      }
      match response {
        case None =>
          products := [];
        case Some(fetched) =>
          var filteredProducts := PriceFiltered(fetched, minPrice, maxPrice);
          filteredProducts := SortedResults(filteredProducts, sortBy, titleLe);
          products := filteredProducts;
      }
    }

    /** The effect run whenever the query, category, price range or sort
        changes: a search when there is something to search for, otherwise
        the results are cleared. */
    method OnCriteriaChanged(response: Option<seq<Product>>, titleLe: (string, string) -> bool)
      returns (request: Option<ProductQuery>)
      modifies this`products
      ensures request.Some? <==> ShouldSearch(searchQuery, selectedCategory)
      ensures !ShouldSearch(searchQuery, selectedCategory) ==> products == []
      ensures ShouldSearch(searchQuery, selectedCategory) && response.Some? ==>
        products == SortedResults(PriceFiltered(response.value, minPrice, maxPrice), sortBy, titleLe)
      ensures response.None? ==> products == []
    {
      if Trim(searchQuery) != "" || selectedCategory != "" {
        var params := PerformSearch(response, titleLe);
        request := Some(params);
      } else {
        products := [];
        request := None;
      }
    }

    /** `clearFilters()`: every criterion back to its default, no results. */
    method ClearFilters()
      modifies this
      ensures searchQuery == "" && selectedCategory == "" && minPrice == Blank && maxPrice == Blank
      ensures sortBy == Relevance && products == []
      ensures !HasActiveFilters(searchQuery, selectedCategory, minPrice, maxPrice)
    {
      searchQuery := "";
      selectedCategory := "";
      minPrice, maxPrice := Blank, Blank;
      sortBy := Relevance;
      products := [];
    }
  }
}
