/** The product list (Products.js): which query parameter a fetch uses, the
    comparator it sorts the fetched array with, the in-place stable sort itself,
    and the category list. */
module Catalog {
  import opened Common

  /** The `sortBy` values the comparator distinguishes; "DEFAULT" and every
      unrecognised key compare all products as equal. */
  datatype SortOrder = PriceHighToLow | PriceLowToHigh | Newest | Unsorted

  function SortOrderOf(key: string): (o: SortOrder)
    ensures o == Unsorted <==> key != "PRICE_HIGH_TO_LOW" && key != "PRICE_LOW_TO_HIGH" && key != "NEWEST"
  {
    if key == "PRICE_HIGH_TO_LOW" then PriceHighToLow
    else if key == "PRICE_LOW_TO_HIGH" then PriceLowToHigh
    else if key == "NEWEST" then Newest
    else Unsorted
  }

  /** The query parameters a fetch builds (`params.name`, `params.category`). */
  datatype Params = Params(name: Option<string>, category: Option<string>)

  /** A search wins over a category; "ALL" sends no category. */
  function QueryParams(searchQuery: string, selectedCategory: string): (p: Params)
    ensures !(p.name.Some? && p.category.Some?)
    ensures p.name.Some? <==> searchQuery != ""
    ensures p.name.Some? ==> p.name.value == searchQuery
    ensures p.category.Some? <==> searchQuery == "" && selectedCategory != "ALL"
    ensures p.category.Some? ==> p.category.value == selectedCategory
  {
    if searchQuery != "" then Params(Some(searchQuery), None)
    else if selectedCategory != "ALL" then Params(None, Some(selectedCategory))
    else Params(None, None)
  }

  /** The key each order sorts ascending by. */
  function Rank(order: SortOrder, p: Product): real {
    match order
    case PriceHighToLow => -p.price
    case PriceLowToHigh => p.price
    case Newest => -(p.createdAt as real)
    case Unsorted => 0.0
  }

  /** The comparator passed to `sort`: negative puts `a` first. It is the
      difference of the two products' ranks, so it is a consistent ordering. */
  function Compare(order: SortOrder, a: Product, b: Product): (c: real)
    ensures c == Rank(order, a) - Rank(order, b)
  {
    match order
    case PriceHighToLow => b.price - a.price
    case PriceLowToHigh => a.price - b.price
    case Newest => (b.createdAt - a.createdAt) as real
    case Unsorted => 0.0
  }

  /** `x` must be placed before `y`. */
  predicate Precedes(order: SortOrder, x: Product, y: Product) {
    Compare(order, x, y) < 0.0
  }

  /** Places `x` after every element it does not strictly precede, scanning
      from the end: equal elements keep `x` behind them. */
  function Insert(s: seq<Product>, x: Product, order: SortOrder): (r: seq<Product>)
    ensures |r| == |s| + 1
  {
    if s == [] || !Precedes(order, x, s[|s| - 1]) then s + [x]
    else Insert(s[..|s| - 1], x, order) + [s[|s| - 1]]
  }

  /** The stable sort `Array.prototype.sort` performs with `Compare`. */
  function SortBy(s: seq<Product>, order: SortOrder): (r: seq<Product>)
    ensures |r| == |s|
  {
    if s == [] then [] else Insert(SortBy(s[..|s| - 1], order), s[|s| - 1], order)
  }

  ghost predicate Ordered(s: seq<Product>, order: SortOrder) {
    forall i, j :: 0 <= i < j < |s| ==> Rank(order, s[i]) <= Rank(order, s[j])
  }

  /** The elements of `s` whose rank is `k`, in their order in `s`. */
  function WithRank(s: seq<Product>, order: SortOrder, k: real): seq<Product> {
    if s == [] then []
    else WithRank(s[..|s| - 1], order, k) + (if Rank(order, s[|s| - 1]) == k then [s[|s| - 1]] else [])
  }

  lemma {:induction false} InsertPermutes(s: seq<Product>, x: Product, order: SortOrder)
    ensures multiset(Insert(s, x, order)) == multiset(s) + multiset{x}
  {
    if s != [] && Precedes(order, x, s[|s| - 1]) {
      var front, last := s[..|s| - 1], s[|s| - 1];
      InsertPermutes(front, x, order);
      assert s == front + [last];
    }
  }

  /** Inserting under a bound keeps every rank under it. */
  lemma {:induction false} InsertBounded(s: seq<Product>, x: Product, order: SortOrder, b: real)
    requires forall i :: 0 <= i < |s| ==> Rank(order, s[i]) <= b
    requires Rank(order, x) <= b
    ensures forall i :: 0 <= i < |Insert(s, x, order)| ==> Rank(order, Insert(s, x, order)[i]) <= b
  {
    if s != [] && Precedes(order, x, s[|s| - 1]) {
      var front := s[..|s| - 1];
      assert forall i :: 0 <= i < |front| ==> front[i] == s[i];
      InsertBounded(front, x, order, b);
    }
  }

  lemma {:induction false} InsertOrdered(s: seq<Product>, x: Product, order: SortOrder)
    requires Ordered(s, order)
    ensures Ordered(Insert(s, x, order), order)
  {
    if s != [] && Precedes(order, x, s[|s| - 1]) {
      var front, last := s[..|s| - 1], s[|s| - 1];
      assert forall i :: 0 <= i < |front| ==> front[i] == s[i];
      InsertOrdered(front, x, order);
      InsertBounded(front, x, order, Rank(order, last));
      var r := Insert(front, x, order);
      assert Insert(s, x, order) == r + [last];
    }
  }

  lemma {:induction false} InsertStable(s: seq<Product>, x: Product, order: SortOrder, k: real)
    ensures WithRank(Insert(s, x, order), order, k) ==
            WithRank(s, order, k) + (if Rank(order, x) == k then [x] else [])
  {
    if s == [] || !Precedes(order, x, s[|s| - 1]) {
      assert (s + [x])[..|s|] == s;
    } else {
      var front, last := s[..|s| - 1], s[|s| - 1];
      var r := Insert(front, x, order);
      InsertStable(front, x, order, k);
      assert (r + [last])[..|r|] == r;
    }
  }

  /** The result of the sort is ordered by rank. */
  lemma {:induction false} SortByOrdered(s: seq<Product>, order: SortOrder)
    ensures Ordered(SortBy(s, order), order)
  {
    if s != [] {
      SortByOrdered(s[..|s| - 1], order);
      InsertOrdered(SortBy(s[..|s| - 1], order), s[|s| - 1], order);
    }
  }

  /** The result of the sort is a permutation of the fetched list. */
  lemma {:induction false} SortByPermutes(s: seq<Product>, order: SortOrder)
    ensures multiset(SortBy(s, order)) == multiset(s)
  {
    if s != [] {
      var front, last := s[..|s| - 1], s[|s| - 1];
      SortByPermutes(front, order);
      InsertPermutes(SortBy(front, order), last, order);
      assert s == front + [last];
    }
  }

  /** The sort is stable: products that compare equal keep their relative order. */
  lemma {:induction false} SortByStable(s: seq<Product>, order: SortOrder, k: real)
    ensures WithRank(SortBy(s, order), order, k) == WithRank(s, order, k)
  {
    if s != [] {
      var front, last := s[..|s| - 1], s[|s| - 1];
      SortByStable(front, order, k);
      InsertStable(SortBy(front, order), last, order, k);
    }
  }

  /** With "DEFAULT" (or an unknown key) the comparator returns 0 and the
      fetched order is kept. */
  lemma {:induction false} UnsortedKeepsOrder(s: seq<Product>)
    ensures SortBy(s, Unsorted) == s
  {
    if s != [] {
      UnsortedKeepsOrder(s[..|s| - 1]);
      assert s[..|s| - 1] + [s[|s| - 1]] == s;
    }
  }

  /** What each sort key promises about the list the page shows. */
  lemma SortedAsRequested(s: seq<Product>, order: SortOrder)
    ensures var r := SortBy(s, order);
            && (order == PriceHighToLow ==> forall i, j :: 0 <= i < j < |r| ==> r[i].price >= r[j].price)
            && (order == PriceLowToHigh ==> forall i, j :: 0 <= i < j < |r| ==> r[i].price <= r[j].price)
            && (order == Newest ==> forall i, j :: 0 <= i < j < |r| ==> r[i].createdAt >= r[j].createdAt)
            && (order == Unsorted ==> r == s)
  {
    SortByOrdered(s, order);
    if order == Unsorted {
      UnsortedKeepsOrder(s);
    }
  }

  /** Inserting `x` into `s` at a position `j` past every element `x` does not
      precede, and before every element it does, is what `Insert` computes. */
  lemma {:induction false} InsertAt(s: seq<Product>, x: Product, order: SortOrder, j: nat)
    requires j <= |s|
    requires j > 0 ==> !Precedes(order, x, s[j - 1])
    requires forall k :: j <= k < |s| ==> Precedes(order, x, s[k])
    ensures Insert(s, x, order) == s[..j] + [x] + s[j..]
  {
    if j < |s| {
      var front := s[..|s| - 1];
      InsertAt(front, x, order, j);
      assert s[j..] == front[j..] + [s[|s| - 1]];
      assert front[..j] == s[..j];
    } else {
      assert s[..j] == s;
    }
  }

  /** One pass of the sort: `a[i]` moves left past every element of the
      already sorted prefix `a[..i]` that it strictly precedes. */
  method InsertInPlace(a: array<Product>, i: nat, order: SortOrder)
    requires i < a.Length
    modifies a
    ensures a[..i + 1] == Insert(old(a[..i]), old(a[i]), order)
    ensures forall k :: i < k < a.Length ==> a[k] == old(a[k])
  {
    ghost var sorted := a[..i];
    var x := a[i];
    var j := i;
    while j > 0 && Precedes(order, x, a[j - 1])
      invariant 0 <= j <= i
      invariant forall k :: 0 <= k < j ==> a[k] == sorted[k]
      invariant forall k :: j < k <= i ==> a[k] == sorted[k - 1]
      invariant forall k :: i < k < a.Length ==> a[k] == old(a[k])
      invariant forall k :: j <= k < i ==> Precedes(order, x, sorted[k])
    {
      a[j] := a[j - 1];
      j := j - 1;
    }
    a[j] := x;
    InsertAt(sorted, x, order, j);
    assert a[..i + 1] == sorted[..j] + [x] + sorted[j..];
  }

  /** Sorting one more element of a list inserts it into the sorted prefix. */
  lemma SortByStep(s: seq<Product>, i: nat, order: SortOrder)
    requires i < |s|
    ensures SortBy(s[..i + 1], order) == Insert(SortBy(s[..i], order), s[i], order)
  {
    assert s[..i + 1][..i] == s[..i];
  }

  /** `fetchedProducts.sort(comparator)` on the fetched array, in place. */
  method SortListings(a: array<Product>, order: SortOrder)
    modifies a
    ensures a[..] == SortBy(old(a[..]), order)
  {
    ghost var input := a[..];
    var i := 0;
    while i < a.Length
      invariant 0 <= i <= a.Length
      invariant a[..i] == SortBy(input[..i], order)
      invariant forall k :: i <= k < a.Length ==> a[k] == input[k]
    {
      InsertInPlace(a, i, order);
      SortByStep(input, i, order);
      i := i + 1;
    }
    assert input[..a.Length] == input;
  }

  /** The set of arrays a fetch result lets the page reorder. */
  function Footprint(fetched: Option<array<Product>>): set<array<Product>> {
    if fetched.Some? then {fetched.value} else {}
  }

  const ProductsFailedMessage := "Failed to load products. Please try again."

  /** The state of the product list page. */
  class Catalog {
    var searchQuery: string
    var selectedCategory: string
    var sortBy: string
    var products: seq<Product>
    var categories: seq<string>
    var loading: bool
    var error: string

    /** The page as first rendered for the URL's `?search=` value. */
    constructor (searchQuery: string)
      ensures this.searchQuery == searchQuery && selectedCategory == "ALL" && sortBy == "DEFAULT"
      ensures products == [] && categories == [] && loading && error == ""
    {
      this.searchQuery := searchQuery;
      selectedCategory := "ALL";
      sortBy := "DEFAULT";
      products := [];
      categories := [];
      loading := true;
      error := "";
    }

    /** The sort menu's `onChange`. */
    method HandleSortChange(key: string)
      modifies this`sortBy
      ensures sortBy == key
    {
      sortBy := key;
    }

    /** A category tab: selects it and navigates to the list without a search. */
    method HandleCategoryChange(category: string)
      modifies this`selectedCategory, this`searchQuery
      ensures selectedCategory == category && searchQuery == ""
    {
      selectedCategory := category;
      searchQuery := "";
    }

    /** `fetchProducts` up to the request: the parameters it builds. */
    method BeginFetchProducts() returns (params: Params)
      modifies this`loading, this`error
      ensures loading && error == ""
      ensures params == QueryParams(searchQuery, selectedCategory)
    {
      loading := true;
      error := "";
      params := QueryParams(searchQuery, selectedCategory);
    }

    /** The end of `fetchProducts`: the fetched array is sorted in place unless
        a search is active, then shown; a failure keeps the current list. */
    method CompleteFetchProducts(fetched: Option<array<Product>>)
      modifies this`products, this`loading, this`error, Footprint(fetched)
      ensures !loading
      ensures fetched.Some? ==>
                && products == fetched.value[..]
                && products == (if searchQuery == "" then SortBy(old(fetched.value[..]), SortOrderOf(sortBy))
                                else old(fetched.value[..]))
                && error == old(error)
      ensures fetched.None? ==> products == old(products) && error == ProductsFailedMessage
    {
      match fetched {
        case Some(data) =>
          if searchQuery == "" {
            SortListings(data, SortOrderOf(sortBy));
          }
          products := data[..];
        case None =>
          error := ProductsFailedMessage;
      }
      loading := false;
    }

    /** The end of `fetchCategories`: "ALL" first, then the server's list; a
        failure changes nothing and sets no error. */
    method CompleteFetchCategories(result: Outcome<seq<string>>)
      modifies this`categories
      ensures result.Delivered? ==> categories == ["ALL"] + result.body
      ensures result.Rejected? ==> categories == old(categories)
    {
      if result.Delivered? {
        categories := ["ALL"] + result.body;
      }
    }
  }
}
