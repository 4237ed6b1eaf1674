/** The home screen: the product query built from the search box and the
    selected category, the category suggestions under the search box, and
    the wishlist hearts. */
module HomeScreen {
  import opened Common
  import opened Catalog

  /** The cap on the number of category suggestions. */
  const MaxSuggestions: nat := 5

  /** Some category equals the text, ignoring case. */
  ghost predicate MatchesSomeCategory(categories: seq<string>, text: string) {
    exists i :: 0 <= i < |categories| && Lower(categories[i]) == Lower(text)
  }

  /** `categories.find(cat => cat.toLowerCase() === text.toLowerCase())`:
      the first category equal to `text` ignoring case, in the list's spelling. */
  function ExactCategoryMatch(categories: seq<string>, text: string): (r: Option<string>)
    ensures r.None? <==> !MatchesSomeCategory(categories, text)
    ensures r.Some? ==> exists i :: 0 <= i < |categories| && categories[i] == r.value &&
                                    Lower(r.value) == Lower(text) &&
                                    forall j :: 0 <= j < i ==> Lower(categories[j]) != Lower(text)
  {
    if categories == [] then None
    else if Lower(categories[0]) == Lower(text) then Some(categories[0])
    else
      var r := ExactCategoryMatch(categories[1..], text);
      assert MatchesSomeCategory(categories, text) ==> MatchesSomeCategory(categories[1..], text) by {
        if MatchesSomeCategory(categories, text) {
          var i :| 0 <= i < |categories| && Lower(categories[i]) == Lower(text);
          assert categories[1..][i - 1] == categories[i];
        }
      }
      if r.Some? then
        var i :| 0 <= i < |categories[1..]| && categories[1..][i] == r.value &&
                 Lower(r.value) == Lower(text) &&
                 forall j :: 0 <= j < i ==> Lower(categories[1..][j]) != Lower(text);
        assert categories[i + 1] == r.value;
        r
      else r
  }

  /** The parameters `fetchProducts(searchText, categoryFilter)` sends with
      `GET /products`, assigned step by step as the screen does. */
  method ProductQueryFor(searchText: string, categoryFilter: string, categories: seq<string>)
    returns (params: ProductQuery)
    // a blank search: only the trimmed category, if any
    ensures IsBlank(searchText) ==> params == ProductQuery(None, TrimmedParam(categoryFilter))
    // a search naming a known category: the first such category alone, in the list's spelling
    ensures !IsBlank(searchText) && MatchesSomeCategory(categories, Trim(searchText)) ==>
      params == ProductQuery(None, ExactCategoryMatch(categories, Trim(searchText)))
    ensures !IsBlank(searchText) && MatchesSomeCategory(categories, Trim(searchText)) ==>
      params.search.None? && params.category.Some? && params.category.value in categories &&
      Lower(params.category.value) == Lower(Trim(searchText))
    // any other search: the trimmed text, plus the trimmed category if any
    ensures !IsBlank(searchText) && !MatchesSomeCategory(categories, Trim(searchText)) ==>
      params == ProductQuery(Some(Trim(searchText)), TrimmedParam(categoryFilter))
  {
    params := ProductQuery(None, None);
    var trimmedSearch := Trim(searchText);
    var trimmedCategory := Trim(categoryFilter);
    if trimmedSearch != "" {
      var exactCategoryMatch := ExactCategoryMatch(categories, trimmedSearch);
      if exactCategoryMatch.Some? {
        params := params.(category := exactCategoryMatch);
      } else {
        params := params.(search := Some(trimmedSearch));
        if trimmedCategory != "" {
          params := params.(category := Some(trimmedCategory));
        }
      }
    } else if trimmedCategory != "" {
      params := params.(category := Some(trimmedCategory));
    }
  }

  /** A category is suggested for a search when, both lower-cased, the
      category contains the trimmed search. */
  predicate Suggests(search: string, cat: string) {
    Contains(Lower(cat), Lower(Trim(search)))
  }

  function SuggestsFor(search: string): string -> bool {
    (cat: string) => Suggests(search, cat)
  }

  /** `getCategorySuggestions()`: up to five categories containing the
      trimmed search ignoring case, in list order; none for a blank search. */
  function CategorySuggestions(search: string, categories: seq<string>): (r: seq<string>)
    ensures |r| <= MaxSuggestions
    ensures IsBlank(search) || categories == [] ==> r == []
    ensures forall i :: 0 <= i < |r| ==> r[i] in categories && Suggests(search, r[i])
  {
    if IsBlank(search) || |categories| == 0 then []
    else Take(Filter(categories, SuggestsFor(search)), MaxSuggestions)
  }

  /** Suggestions follow the category list's order, and every matching
      category is suggested unless five already are. */
  lemma SuggestionsInOrder(search: string, categories: seq<string>)
    ensures IsSubsequence(CategorySuggestions(search, categories), categories)
    ensures !IsBlank(search) && |CategorySuggestions(search, categories)| < MaxSuggestions ==>
      forall i :: 0 <= i < |categories| && Suggests(search, categories[i]) ==>
        categories[i] in CategorySuggestions(search, categories)
  {
    if !IsBlank(search) && |categories| != 0 {
      var keep := SuggestsFor(search);
      TakeFilterIsSubsequence(categories, keep, MaxSuggestions);
      forall i | 0 <= i < |categories| && Suggests(search, categories[i])
        ensures keep(categories[i])
      {
      }
    }
  }

  /** When the cap bites, the suggestions are the first matching categories:
      they are the matches within some prefix of the list, and there are as
      many as the matches allow, up to five. */
  lemma SuggestionsAreFirstMatches(search: string, categories: seq<string>)
    requires !IsBlank(search)
    ensures var keep := SuggestsFor(search);
            var r := CategorySuggestions(search, categories);
            MatchesOfPrefix(r, categories, keep) &&
            |r| == if |Filter(categories, keep)| <= MaxSuggestions then |Filter(categories, keep)| else MaxSuggestions
  {
    TakeFilterIsFirstMatches(categories, SuggestsFor(search), MaxSuggestions);
    if categories == [] {
      assert CategorySuggestions(search, categories) == Filter(categories[..0], SuggestsFor(search));
    }
  }

  /** The wishlist ids after toggling `id`. */
  function Toggled(ids: set<string>, id: string): (r: set<string>)
    ensures id in r <==> id !in ids
    ensures r - {id} == ids - {id}
  {
    if id in ids then ids - {id} else ids + {id}
  }

  /** Toggling twice restores the wishlist. */
  lemma ToggleTwice(ids: set<string>, id: string)
    ensures Toggled(Toggled(ids, id), id) == ids
  {
    var once := Toggled(ids, id);
    var twice := Toggled(once, id);
    assert twice - {id} == ids - {id};
    assert id in twice <==> id in ids;
    forall x ensures x in twice <==> x in ids {
      if x != id {
        assert x in twice <==> x in twice - {id};
        assert x in ids <==> x in ids - {id};
      }
    }
  }

  /** The request a wishlist toggle sends. */
  datatype WishlistCall = DeleteFromWishlist(productId: string) | PostToWishlist(productId: string)

  /** The ids of a product list. */
  function IdSet(products: seq<Product>): (r: set<string>)
    ensures forall i :: 0 <= i < |products| ==> products[i].id in r
    ensures forall id :: id in r ==> exists i :: 0 <= i < |products| && products[i].id == id
  {
    set i | 0 <= i < |products| :: products[i].id
  }

  /** The screen's state. A network request is replaced by its outcome,
      passed in as a parameter (`None` for a failed request). */
  class HomeScreenState {
    var products: seq<Product>
    var search: string
    var category: string
    var categories: seq<string>
    var wishlistIds: set<string>
    var showCategorySuggestions: bool

    constructor()
      ensures products == [] && search == "" && category == "" && categories == []
      ensures wishlistIds == {} && !showCategorySuggestions
    {
      products, search, category, categories := [], "", "", [];
      wishlistIds, showCategorySuggestions := {}, false;
    }

    /** `fetchProducts(searchText, categoryFilter)`: sends the query and
        shows what came back, or nothing when the request failed. */
    method FetchProducts(searchText: string, categoryFilter: string, response: Option<seq<Product>>)
      returns (params: ProductQuery)
      modifies this`products
      ensures IsBlank(searchText) ==> params == ProductQuery(None, TrimmedParam(categoryFilter))
      ensures !IsBlank(searchText) && !MatchesSomeCategory(categories, Trim(searchText)) ==>
        params == ProductQuery(Some(Trim(searchText)), TrimmedParam(categoryFilter))
      ensures !IsBlank(searchText) && MatchesSomeCategory(categories, Trim(searchText)) ==>
        params == ProductQuery(None, ExactCategoryMatch(categories, Trim(searchText)))
      ensures products == response.GetOr([])
    {
      params := ProductQueryFor(searchText, categoryFilter, categories);
      products := response.GetOr([]);
    }

    /** `fetchWishlist()`: the ids of the wishlisted products, or none when
        the request failed. */
    method FetchWishlist(response: Option<seq<Product>>)
      modifies this`wishlistIds
      ensures wishlistIds == IdSet(response.GetOr([]))
    {
      wishlistIds := IdSet(response.GetOr([]));
    }

    /** `toggleWishlist(product)`: removes a wishlisted id or adds a new
        one, only once the request succeeded. */
    method ToggleWishlist(productId: string, requestSucceeded: bool) returns (call: WishlistCall)
      modifies this`wishlistIds
      ensures call == if productId in old(wishlistIds) then DeleteFromWishlist(productId)
                      else PostToWishlist(productId)
      ensures wishlistIds == if requestSucceeded then Toggled(old(wishlistIds), productId)
                             else old(wishlistIds)
    {
      var isIn := productId in wishlistIds;
      if isIn {
        call := DeleteFromWishlist(productId);
        if requestSucceeded {
          wishlistIds := wishlistIds - {productId};
        }
      } else {
        call := PostToWishlist(productId);
        if requestSucceeded {
          wishlistIds := wishlistIds + {productId};
        }
      }
    }

    /** `handleSearchChange(text)`: suggestions show for a non-blank text. */
    method HandleSearchChange(text: string)
      modifies this`search, this`showCategorySuggestions
      ensures search == text
      ensures showCategorySuggestions <==> !IsBlank(text)
    {
      search := text;
      if text != "" && Trim(text) != "" {
        showCategorySuggestions := true;
      } else {
        showCategorySuggestions := false;
      }
    }

    /** `handleCategorySuggestionPress(cat)`: the suggestion becomes both the
        category and the search text, and the suggestions close. */
    method HandleCategorySuggestionPress(cat: string)
      modifies this`category, this`search, this`showCategorySuggestions
      ensures category == cat && search == cat && !showCategorySuggestions
    {
      category := cat;
      search := cat;
      showCategorySuggestions := false;
    }

    function GetCategorySuggestions(): seq<string>
      reads this
    {
      CategorySuggestions(search, categories)
    }
  }
}
