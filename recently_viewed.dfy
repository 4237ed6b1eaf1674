/** The recently-viewed list: a most-recently-used list of products, newest
    first, without two entries for one product id, capped at `MaxItems`.
    Viewing a product again moves it to the front. Recommendations are read
    from the same list. */
module RecentlyViewed {
  import opened Common
  import opened Catalog

  /** The cap on the number of remembered products. */
  const MaxItems: nat := 20

  /** The cap on the number of recommendations. */
  const MaxRecommendations: nat := 4

  /** The list after viewing `p`: `p` in front, its older entries removed,
      cut to `MaxItems`. */
  function WithViewed(list: seq<Product>, p: Product): (r: seq<Product>)
    ensures 1 <= |r| <= MaxItems
    ensures r[0] == p
    ensures forall i :: 1 <= i < |r| ==> r[i].id != p.id && r[i] in list
  {
    Take([p] + Filter(list, DifferentId(p.id)), MaxItems)
  }

  /** Viewing keeps the list free of duplicate ids. */
  lemma ViewedKeepsUnique(list: seq<Product>, p: Product)
    requires UniqueIds(list)
    ensures UniqueIds(WithViewed(list, p))
  {
    FilterKeepsUnique(list, DifferentId(p.id));
    var r := WithViewed(list, p);
    var u := [p] + Filter(list, DifferentId(p.id));
    assert r == u[..|r|];
    forall i, j | 0 <= i < j < |r| ensures r[i].id != r[j].id {
      if i > 0 {
        assert r[i] == Filter(list, DifferentId(p.id))[i - 1];
        assert r[j] == Filter(list, DifferentId(p.id))[j - 1];
      }
    }
  }

  /** The other entries keep their relative order, and none of them is lost
      unless the cap forces it out. */
  lemma ViewedKeepsOrder(list: seq<Product>, p: Product)
    ensures IsSubsequence(WithViewed(list, p)[1..], list)
    ensures |WithViewed(list, p)| < MaxItems ==>
      forall i :: 0 <= i < |list| && list[i].id != p.id ==> list[i] in WithViewed(list, p)
  {
    var f := Filter(list, DifferentId(p.id));
    var r := WithViewed(list, p);
    assert r[1..] == Take(f, |r| - 1);
    TakeFilterIsSubsequence(list, DifferentId(p.id), |r| - 1);
    if |r| < MaxItems {
      assert r == [p] + f;
      forall i | 0 <= i < |list| && list[i].id != p.id ensures list[i] in r {
        assert DifferentId(p.id)(list[i]);
        assert list[i] in f;
      }
    }
  }

  /** Viewing a new product when the list is full drops exactly the last
      (oldest) entry. */
  lemma FullListDropsOldest(list: seq<Product>, p: Product)
    requires |list| == MaxItems && !HasId(list, p.id)
    ensures WithViewed(list, p) == [p] + list[..MaxItems - 1]
  {
    FilterAll(list, DifferentId(p.id));
  }

  /** Viewing a new product when there is room adds one entry. */
  lemma NewProductGrowsList(list: seq<Product>, p: Product)
    requires |list| < MaxItems && !HasId(list, p.id)
    ensures WithViewed(list, p) == [p] + list
  {
    FilterAll(list, DifferentId(p.id));
  }

  /** Viewing a product that is already listed leaves the length unchanged. */
  lemma ReViewKeepsLength(list: seq<Product>, p: Product)
    requires UniqueIds(list) && |list| <= MaxItems && HasId(list, p.id)
    ensures |WithViewed(list, p)| == |list|
  {
    var k :| 0 <= k < |list| && list[k].id == p.id;
    FilterDropsOne(list, k);
  }

  /** `recentlyViewed.find(p => p._id === id)`. */
  function FindById(list: seq<Product>, id: string): (r: Option<Product>)
    ensures r.None? <==> !HasId(list, id)
    ensures r.Some? ==> exists i :: 0 <= i < |list| && list[i] == r.value && r.value.id == id &&
                                    forall j :: 0 <= j < i ==> list[j].id != id
  {
    if list == [] then None
    else if list[0].id == id then Some(list[0])
    else
      var r := FindById(list[1..], id);
      assert HasId(list, id) ==> HasId(list[1..], id) by {
        if HasId(list, id) {
          var i :| 0 <= i < |list| && list[i].id == id;
          assert list[1..][i - 1] == list[i];
        }
      }
      if r.Some? then
        var i :| 0 <= i < |list[1..]| && list[1..][i] == r.value && r.value.id == id &&
                 forall j :: 0 <= j < i ==> list[1..][j].id != id;
        assert list[i + 1] == r.value;
        r
      else r
  }

  /** The filter for recommendations: same category, different product. */
  function SameCategoryOther(id: string, category: string): Product -> bool {
    (q: Product) => q.id != id && q.category == category
  }

  /** `getRecommendations(currentProductId)`: up to four other listed
      products of the current product's category, in list order; nothing when
      the current product is not listed. */
  function Recommendations(list: seq<Product>, currentId: string): (r: seq<Product>)
    ensures |r| <= MaxRecommendations
    ensures !HasId(list, currentId) ==> r == []
    ensures forall i :: 0 <= i < |r| ==> r[i] in list && r[i].id != currentId
    ensures FindById(list, currentId).Some? ==>
      forall i :: 0 <= i < |r| ==> r[i].category == FindById(list, currentId).value.category
  {
    match FindById(list, currentId)
    case None => []
    case Some(current) => Take(Filter(list, SameCategoryOther(currentId, current.category)), MaxRecommendations)
  }

  /** Recommendations follow the list order, and every other listed product
      of the category is recommended unless four already are. */
  lemma RecommendationsInOrder(list: seq<Product>, currentId: string)
    ensures IsSubsequence(Recommendations(list, currentId), list)
    ensures FindById(list, currentId).Some? && |Recommendations(list, currentId)| < MaxRecommendations ==>
      forall i :: 0 <= i < |list| && list[i].id != currentId &&
                  list[i].category == FindById(list, currentId).value.category ==>
                  list[i] in Recommendations(list, currentId)
  {
    match FindById(list, currentId)
    case None =>
    case Some(current) =>
      var keep := SameCategoryOther(currentId, current.category);
      TakeFilterIsSubsequence(list, keep, MaxRecommendations);
      forall i | 0 <= i < |list| && list[i].id != currentId && list[i].category == current.category
        ensures keep(list[i])
      {
      }
  }

  /** When the cap bites, the recommendations are the first matching
      products of the list: they are the matches within some prefix of the
      list, and there are as many as the matches allow, up to four. */
  lemma RecommendationsAreFirstMatches(list: seq<Product>, currentId: string)
    requires HasId(list, currentId)
    ensures var keep := SameCategoryOther(currentId, FindById(list, currentId).value.category);
            var r := Recommendations(list, currentId);
            MatchesOfPrefix(r, list, keep) &&
            |r| == if |Filter(list, keep)| <= MaxRecommendations then |Filter(list, keep)| else MaxRecommendations
  {
    var current := FindById(list, currentId).value;
    TakeFilterIsFirstMatches(list, SameCategoryOther(currentId, current.category), MaxRecommendations);
  }

  /** The provider's state: the `recentlyViewed` list. Loading it from and
      saving it to the device store are not part of this model. */
  class RecentlyViewedProvider {
    var recentlyViewed: seq<Product>

    ghost predicate Valid()
      reads this
    {
      |recentlyViewed| <= MaxItems && UniqueIds(recentlyViewed)
    }

    constructor()
      ensures recentlyViewed == [] && Valid()
    {
      recentlyViewed := [];
    }

    /** `addToRecentlyViewed(product)`: ignores a missing product or one
        without an id; otherwise moves it to the front. */
    method AddToRecentlyViewed(product: Option<Product>)
      modifies this
      ensures product.None? || product.value.id == "" ==> recentlyViewed == old(recentlyViewed)
      ensures product.Some? && product.value.id != "" ==>
        recentlyViewed == WithViewed(old(recentlyViewed), product.value)
      ensures old(Valid()) ==> Valid()
    {
      if product.None? || product.value.id == "" {
        return;
      }
      var p := product.value;
      if UniqueIds(recentlyViewed) {
        ViewedKeepsUnique(recentlyViewed, p);
      }
      recentlyViewed := WithViewed(recentlyViewed, p);
    }

    /** `clearRecentlyViewed()`: empties the list only when deleting the
        stored copy succeeded. */
    method ClearRecentlyViewed(deleteSucceeded: bool)
      modifies this
      ensures recentlyViewed == if deleteSucceeded then [] else old(recentlyViewed)
      ensures old(Valid()) ==> Valid()
    {
      if deleteSucceeded {
        recentlyViewed := [];
      }
    }

    function GetRecommendations(currentId: string): seq<Product>
      reads this
    {
      Recommendations(recentlyViewed, currentId)
    }
  }
}
