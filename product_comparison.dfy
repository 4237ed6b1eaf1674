/** The product comparison screen: up to four products side by side. Products
    arrive with the navigation route, or the first two fetched products are
    shown; more are picked through the search screen and any can be removed. */
module ProductComparison {
  import opened Common
  import opened Catalog

  /** The most products the screen compares. */
  const MaxCompared: nat := 4

  /** How many fetched products are shown when none came with the route. */
  const DefaultCount: nat := 2

  /** The guard of the search screen's `onSelect`: room for one more and the
      product not already compared. */
  predicate CanAdd(list: seq<Product>, p: Product): (b: bool)
    ensures b <==> |list| < MaxCompared && forall i :: 0 <= i < |list| ==> list[i].id != p.id
    ensures b ==> |list + [p]| <= MaxCompared
  {
    |list| < MaxCompared && !HasId(list, p.id)
  }

  /** The list after `removeProduct(id)`: every entry with that id removed. */
  function WithoutProduct(list: seq<Product>, id: string): (r: seq<Product>)
    ensures !HasId(r, id)
    ensures forall i :: 0 <= i < |r| ==> r[i] in list
    ensures forall i :: 0 <= i < |list| && list[i].id != id ==> list[i] in r
  {
    Filter(list, DifferentId(id))
  }

  /** Removing keeps the order of the remaining products, and removing an id
      that is not compared changes nothing. */
  lemma WithoutProductKeepsOrder(list: seq<Product>, id: string)
    ensures IsSubsequence(WithoutProduct(list, id), list)
    ensures !HasId(list, id) ==> WithoutProduct(list, id) == list
  {
    FilterIsSubsequence(list, DifferentId(id));
    if !HasId(list, id) {
      FilterAll(list, DifferentId(id));
    }
  }

  /** Adding a product and then removing it restores the list. */
  lemma AddThenRemove(list: seq<Product>, p: Product)
    requires CanAdd(list, p)
    ensures WithoutProduct(list + [p], p.id) == list
  {
    FilterAppend(list, [p], DifferentId(p.id));
    FilterAll(list, DifferentId(p.id));
    assert Filter([p], DifferentId(p.id)) == [];
  }

  /** At most four products, no two with one id. */
  ghost predicate WellFormed(list: seq<Product>) {
    |list| <= MaxCompared && UniqueIds(list)
  }

  /** An accepted addition keeps the list well formed. */
  lemma AddKeepsWellFormed(list: seq<Product>, p: Product)
    requires WellFormed(list) && CanAdd(list, p)
    ensures WellFormed(list + [p])
  {
    var r := list + [p];
    forall i, j | 0 <= i < j < |r| ensures r[i].id != r[j].id {
      if j == |list| {
        assert r[i] == list[i];
      }
    }
  }

  /** A removal keeps the list well formed. */
  lemma RemoveKeepsWellFormed(list: seq<Product>, id: string)
    requires WellFormed(list)
    ensures WellFormed(WithoutProduct(list, id))
  {
    FilterKeepsUnique(list, DifferentId(id));
  }

  /** The screen's state. A network request is replaced by its outcome,
      passed in as a parameter (`None` for a failed request). */
  class ProductComparisonState {
    var comparisonProducts: seq<Product>

    ghost predicate Valid()
      reads this
    {
      WellFormed(comparisonProducts)
    }

    constructor()
      ensures comparisonProducts == [] && Valid()
    {
      comparisonProducts := [];
    }

    /** The mount effect: the route's products as given, otherwise the first
        two fetched products; a failed fetch leaves the list as it was. */
    method Initialize(routeProducts: Option<seq<Product>>, response: Option<seq<Product>>)
      returns (fetched: bool)
      modifies this
      ensures fetched <==> routeProducts.None?
      ensures routeProducts.Some? ==> comparisonProducts == routeProducts.value
      ensures routeProducts.None? && response.Some? ==>
        comparisonProducts == Take(response.value, DefaultCount)
      ensures routeProducts.None? && response.None? ==> comparisonProducts == old(comparisonProducts)
    {
      if routeProducts.Some? {
        comparisonProducts := routeProducts.value;
        fetched := false;
      } else {
        fetched := true;
        if response.Some? {
          comparisonProducts := Take(response.value, DefaultCount);
        }
      }
    }

    /** The `onSelect` callback handed to the search screen: appends the
        picked product when the guard allows it, otherwise shows the
        "Maximum 4 products" error and changes nothing. */
    method OnSelect(product: Product) returns (accepted: bool)
      modifies this
      ensures accepted <==> CanAdd(old(comparisonProducts), product)
      ensures comparisonProducts == if accepted then old(comparisonProducts) + [product]
                                    else old(comparisonProducts)
      ensures old(Valid()) ==> Valid()
    {
      accepted := CanAdd(comparisonProducts, product);
      if accepted {
        if Valid() {
          AddKeepsWellFormed(comparisonProducts, product);
        }
        comparisonProducts := comparisonProducts + [product];
      }
    }

    /** `removeProduct(productId)`. */
    method RemoveProduct(productId: string)
      modifies this
      ensures comparisonProducts == WithoutProduct(old(comparisonProducts), productId)
      ensures old(Valid()) ==> Valid()
    {
      if Valid() {
        RemoveKeepsWellFormed(comparisonProducts, productId);
      }
      comparisonProducts := WithoutProduct(comparisonProducts, productId);
    }
  }
}
