/**
 * The product list (app/products/page.tsx): a text search on name and
 * description, a category filter and one of four orders. The list is built
 * from a copy of the catalogue and sorted with `Array.prototype.sort`, which
 * ECMAScript requires to be stable; `Sort` below is the stable sort that
 * comparator defines, written as an insertion sort.
 */
module ProductsPage {
  import opened Wrappers
  import opened Types
  import opened JsString
  import opened JsArray

  /** The category entry that means "no category filter". */
  const AllCategories: string := "전체"

  datatype SortBy = PriceAsc | PriceDesc | Rating | Newest

  /** `searchParams.get('search') || ''`. */
  function SearchQuery(param: Option<string>): (q: string)
    ensures param.Some? ==> q == param.value
    ensures param.None? ==> q == ""
  {
    if param.Some? then param.value else ""
  }

  /** The category after the URL effect: a non-empty `category` parameter replaces the current one. */
  function CategoryAfterParam(current: string, param: Option<string>): (c: string)
    ensures param.Some? && param.value != "" ==> c == param.value
    ensures param.None? || param.value == "" ==> c == current
  {
    if param.Some? && param.value != "" then param.value else current
  }

  /** The search test: the lower-cased query inside the lower-cased name or description. */
  predicate MatchesQuery(p: Product, query: string) {
    || Includes(ToLowerCase(p.name), ToLowerCase(query))
    || Includes(ToLowerCase(p.description), ToLowerCase(query))
  }

  /** The empty query matches everything, so skipping the search when it is empty changes nothing. */
  lemma EmptyQueryMatchesAll(p: Product)
    ensures MatchesQuery(p, "")
  {
    IncludesEmpty(ToLowerCase(p.name));
  }

  /** Whether the list shows a product. */
  predicate Keeps(p: Product, query: string, category: string) {
    (query == "" || MatchesQuery(p, query)) && (category == AllCategories || p.category == category)
  }

  /** The search step: skipped for an empty query, otherwise the matching products. */
  function SearchFilter(products: seq<Product>, query: string): (r: seq<Product>)
    ensures forall p :: p in r <==> p in products && (query == "" || MatchesQuery(p, query))
    ensures forall p :: multiset(r)[p] == if query == "" || MatchesQuery(p, query) then multiset(products)[p] else 0
    ensures IsSubsequence(r, products)
  {
    var matches := (p: Product) => MatchesQuery(p, query);
    FilterContents(products, matches);
    FilterSubsequence(products, matches);
    SubsequenceReflexive(products);
    if query != "" then Filter(products, matches) else products
  }

  /** The category step: skipped for the all-categories entry, otherwise the products of that category. */
  function CategoryFilter(products: seq<Product>, category: string): (r: seq<Product>)
    ensures forall p :: p in r <==> p in products && (category == AllCategories || p.category == category)
    ensures forall p :: multiset(r)[p] == if category == AllCategories || p.category == category then multiset(products)[p] else 0
    ensures IsSubsequence(r, products)
  {
    var inCategory := (p: Product) => p.category == category;
    FilterContents(products, inCategory);
    FilterSubsequence(products, inCategory);
    SubsequenceReflexive(products);
    if category != AllCategories then Filter(products, inCategory) else products
  }

  /** The two filters, applied as the page applies them. */
  function FilterProducts(products: seq<Product>, query: string, category: string): (r: seq<Product>)
    ensures forall p :: p in r <==> p in products && Keeps(p, query, category)
    ensures forall p :: multiset(r)[p] == if Keeps(p, query, category) then multiset(products)[p] else 0
    ensures IsSubsequence(r, products)
  {
    var searched := SearchFilter(products, query);
    var r := CategoryFilter(searched, category);
    SubsequenceTransitive(r, searched, products);
    r
  }

  /** With no query and every category the list holds the whole catalogue, in catalogue order. */
  lemma NoFilterKeepsAll(products: seq<Product>)
    ensures FilterProducts(products, "", AllCategories) == products
  {
  }

  /** The comparator's `switch`. */
  function Compare(sortBy: SortBy, a: Product, b: Product): int {
    match sortBy
    case PriceAsc => a.price - b.price
    case PriceDesc => b.price - a.price
    case Rating => b.rating - a.rating
    case Newest => 0
  }

  /** The value each order sorts ascending by. */
  function Key(sortBy: SortBy, p: Product): int {
    match sortBy
    case PriceAsc => p.price
    case PriceDesc => -p.price
    case Rating => -p.rating
    case Newest => 0
  }

  /** Every comparator is a difference of keys, so it is a consistent comparator. */
  lemma CompareIsKeyDifference(sortBy: SortBy, a: Product, b: Product)
    ensures Compare(sortBy, a, b) == Key(sortBy, a) - Key(sortBy, b)
  {
  }

  /** `x` placed into `t` after every element that does not compare greater than it. */
  function Insert(sortBy: SortBy, t: seq<Product>, x: Product): seq<Product> {
    if t == [] then [x]
    else
      var init, last := t[..|t| - 1], t[|t| - 1];
      if Compare(sortBy, last, x) > 0 then Insert(sortBy, init, x) + [last] else t + [x]
  }

  /** The stable sort of `s` by the comparator, inserting the elements in list order. */
  function Sort(sortBy: SortBy, s: seq<Product>): seq<Product> {
    if s == [] then []
    else Insert(sortBy, Sort(sortBy, s[..|s| - 1]), s[|s| - 1])
  }

  lemma {:induction false} InsertPermutes(sortBy: SortBy, t: seq<Product>, x: Product)
    ensures multiset(Insert(sortBy, t, x)) == multiset(t) + multiset{x}
  {
    if t != [] {
      var init, last := t[..|t| - 1], t[|t| - 1];
      assert t == init + [last];
      InsertPermutes(sortBy, init, x);
    }
  }

  /** The sorted list holds exactly the products of the unsorted one, each as often. */
  lemma {:induction false} SortPermutes(sortBy: SortBy, s: seq<Product>)
    ensures multiset(Sort(sortBy, s)) == multiset(s)
  {
    if s != [] {
      var init, last := s[..|s| - 1], s[|s| - 1];
      assert s == init + [last];
      SortPermutes(sortBy, init);
      InsertPermutes(sortBy, Sort(sortBy, init), last);
    }
  }

  predicate SortedBy(sortBy: SortBy, s: seq<Product>) {
    forall i, j :: 0 <= i < j < |s| ==> Key(sortBy, s[i]) <= Key(sortBy, s[j])
  }

  function KeyIs(sortBy: SortBy, k: int): Product -> bool {
    (p: Product) => Key(sortBy, p) == k
  }

  lemma SortedSnoc(sortBy: SortBy, s: seq<Product>, x: Product)
    requires SortedBy(sortBy, s)
    requires forall i :: 0 <= i < |s| ==> Key(sortBy, s[i]) <= Key(sortBy, x)
    ensures SortedBy(sortBy, s + [x])
  {
    var r := s + [x];
    forall i, j | 0 <= i < j < |r| ensures Key(sortBy, r[i]) <= Key(sortBy, r[j]) {
      if j < |s| {
        assert r[i] == s[i] && r[j] == s[j];
      }
    }
  }

  lemma {:induction false} InsertSorted(sortBy: SortBy, t: seq<Product>, x: Product)
    requires SortedBy(sortBy, t)
    ensures SortedBy(sortBy, Insert(sortBy, t, x))
    decreases |t|
  {
    if t == [] {
      assert Insert(sortBy, t, x) == [x];
    } else {
      var init, last := t[..|t| - 1], t[|t| - 1];
      assert t == init + [last];
      CompareIsKeyDifference(sortBy, last, x);
      assert forall i :: 0 <= i < |init| ==> init[i] == t[i];
      if Compare(sortBy, last, x) > 0 {
        assert SortedBy(sortBy, init);
        InsertSorted(sortBy, init, x);
        InsertPermutes(sortBy, init, x);
        var u := Insert(sortBy, init, x);
        forall i | 0 <= i < |u| ensures Key(sortBy, u[i]) <= Key(sortBy, last) {
          var y := u[i];
          assert y in multiset(u);
          if y != x {
            assert y in multiset(init);
            var m :| 0 <= m < |init| && init[m] == y;
          }
        }
        SortedSnoc(sortBy, u, last);
      } else {
        SortedSnoc(sortBy, t, x);
      }
    }
  }

  /** The sorted list is ordered by the key: ascending price, descending price or descending rating. */
  lemma {:induction false} SortSorted(sortBy: SortBy, s: seq<Product>)
    ensures SortedBy(sortBy, Sort(sortBy, s))
  {
    if s != [] {
      SortSorted(sortBy, s[..|s| - 1]);
      InsertSorted(sortBy, Sort(sortBy, s[..|s| - 1]), s[|s| - 1]);
    }
  }

  lemma {:induction false} InsertStable(sortBy: SortBy, t: seq<Product>, x: Product, k: int)
    ensures Filter(Insert(sortBy, t, x), KeyIs(sortBy, k)) == Filter(t, KeyIs(sortBy, k)) + if Key(sortBy, x) == k then [x] else []
    decreases |t|
  {
    var p := KeyIs(sortBy, k);
    var tail := if p(x) then [x] else [];
    if t == [] {
      FilterSnoc([], x, p);
    } else {
      var init, last := t[..|t| - 1], t[|t| - 1];
      assert t == init + [last];
      var mid := if p(last) then [last] else [];
      if Compare(sortBy, last, x) > 0 {
        var u := Insert(sortBy, init, x);
        assert Insert(sortBy, t, x) == u + [last];
        InsertStable(sortBy, init, x, k);
        assert Filter(u, p) == Filter(init, p) + tail;
        FilterSnoc(u, last, p);
        assert Filter(u + [last], p) == Filter(u, p) + mid;
        FilterSnoc(init, last, p);
        assert Filter(t, p) == Filter(init, p) + mid;
        assert tail == [] || mid == [];
      } else {
        assert Insert(sortBy, t, x) == t + [x];
        FilterSnoc(t, x, p);
      }
    }
  }

  /**
   * Stability: the products sharing one key value keep their relative order
   * (the order the filtered catalogue had).
   */
  lemma {:induction false} SortStable(sortBy: SortBy, s: seq<Product>, k: int)
    ensures Filter(Sort(sortBy, s), KeyIs(sortBy, k)) == Filter(s, KeyIs(sortBy, k))
  {
    if s != [] {
      var init, last := s[..|s| - 1], s[|s| - 1];
      SortStable(sortBy, init, k);
      InsertStable(sortBy, Sort(sortBy, init), last, k);
      assert s == init + [last];
      FilterSnoc(init, last, KeyIs(sortBy, k));
    }
  }

  /** 'newest' compares every pair as equal, so the list keeps the catalogue's order. */
  lemma NewestKeepsOrder(s: seq<Product>)
    ensures Sort(Newest, s) == s
  {
    var r := Sort(Newest, s);
    SortStable(Newest, s, 0);
    FilterAll(s, KeyIs(Newest, 0));
    FilterAll(r, KeyIs(Newest, 0));
  }

  /** `filteredAndSortedProducts`: the kept products, each as often as in the catalogue, in the chosen order. */
  function FilteredAndSorted(products: seq<Product>, query: string, category: string, sortBy: SortBy): (r: seq<Product>)
    ensures forall p :: p in r <==> p in products && Keeps(p, query, category)
    ensures forall p :: multiset(r)[p] == if Keeps(p, query, category) then multiset(products)[p] else 0
    ensures SortedBy(sortBy, r)
  {
    var filtered := FilterProducts(products, query, category);
    SortSorted(sortBy, filtered);
    SortPermutes(sortBy, filtered);
    assert forall p :: p in Sort(sortBy, filtered) <==> p in multiset(filtered);
    Sort(sortBy, filtered)
  }
}
