/** The buyer's search (mini-marketplace/src/components/BuyerDashboard.jsx):
    products whose name or description contains the query, ignoring case.
    The filter reads `name.toLowerCase()` without a null check, so a product
    without a name, or without a description when its name does not match,
    makes the whole filter throw; the result is then `None`. */
module BuyerDashboard {
  import opened Wrappers
  import opened Text
  import opened Lists
  import opened Listings

  /** The filter's test on one product: `None` when it throws, otherwise
      whether the product is kept. The description is read only when the
      name does not match. */
  function Keep(p: Listing, query: string): (k: Option<bool>)
    ensures k.None? <==> p.name.None? || (!Contains(Lower(p.name.value), Lower(query)) && p.description.None?)
    ensures k == Some(true) <==>
      p.name.Some? && (Contains(Lower(p.name.value), Lower(query))
                       || (p.description.Some? && Contains(Lower(p.description.value), Lower(query))))
  {
    if p.name.None? then None
    else if Contains(Lower(p.name.value), Lower(query)) then Some(true)
    else if p.description.None? then None
    else Some(Contains(Lower(p.description.value), Lower(query)))
  }

  /** The filter does not throw on this product. */
  predicate Total(p: Listing, query: string) {
    Keep(p, query).Some?
  }

  /** The kept products, in order, or `None` when the filter throws on one. */
  function Search(products: seq<Listing>, query: string): (r: Option<seq<Listing>>)
    ensures r.Some? ==> |r.value| <= |products|
    ensures r.Some? ==> forall k :: 0 <= k < |r.value| ==> r.value[k] in products && Keep(r.value[k], query) == Some(true)
  {
    if products == [] then Some([])
    else match (Keep(products[0], query), Search(products[1..], query))
      case (Some(k), Some(rest)) => Some((if k then [products[0]] else []) + rest)
      case _ => None
  }

  /** `filteredProducts`, with a missing list taken as empty. */
  function FilteredProducts(products: Option<seq<Listing>>, query: string): (r: Option<seq<Listing>>)
    ensures products.None? ==> r == Some([])
    ensures r.Some? && products.Some? ==>
      forall k :: 0 <= k < |r.value| ==> r.value[k] in products.value && Keep(r.value[k], query) == Some(true)
  {
    Search(products.GetOr([]), query)
  }

  /** The count shown above the grid. */
  function ItemCount(products: Option<seq<Listing>>, query: string): (n: Option<nat>)
    ensures n.Some? <==> FilteredProducts(products, query).Some?
    ensures n.Some? ==> n.value == |FilteredProducts(products, query).value|
  {
    match FilteredProducts(products, query)
    case Some(r) => Some(|r|)
    case None => None
  }

  /** The search throws exactly when the test throws on some product, and
      otherwise keeps the order-preserving sub-list of the products the
      test keeps. */
  lemma {:induction false} SearchIsFilter(products: seq<Listing>, query: string)
    ensures Search(products, query).Some? <==> forall i :: 0 <= i < |products| ==> Total(products[i], query)
    ensures Search(products, query).Some? ==>
      Search(products, query).value == Filter(products, p => Keep(p, query) == Some(true))
  {
    if products != [] {
      SearchIsFilter(products[1..], query);
      assert forall i :: 1 <= i < |products| ==> products[1..][i - 1] == products[i];
    }
  }

  /** An empty query keeps every product that has a name, without reading a
      single description. */
  lemma EmptyQueryKeepsAll(products: seq<Listing>)
    requires forall i :: 0 <= i < |products| ==> products[i].name.Some?
    ensures FilteredProducts(Some(products), "") == Some(products)
  {
    forall i | 0 <= i < |products|
      ensures Keep(products[i], "") == Some(true)
    {
      ContainsEmpty(Lower(products[i].name.value));
    }
    SearchIsFilter(products, "");
    FilterKeepsAll(products, p => Keep(p, "") == Some(true));
  }

  /** The search ignores the case of the query. */
  lemma QueryCaseIgnored(products: seq<Listing>, query: string)
    ensures Search(products, query) == Search(products, Lower(query))
  {
    LowerIdempotent(query);
    assert forall p :: Keep(p, query) == Keep(p, Lower(query));
    SearchSameTest(products, query, Lower(query));
  }

  /** Two queries the test treats alike give the same search. */
  lemma {:induction false} SearchSameTest(products: seq<Listing>, q1: string, q2: string)
    requires forall p :: Keep(p, q1) == Keep(p, q2)
    ensures Search(products, q1) == Search(products, q2)
  {
    if products != [] {
      SearchSameTest(products[1..], q1, q2);
    }
  }
}
