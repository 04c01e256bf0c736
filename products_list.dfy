/**
 * The catalogue screen: the category options and the filtered product list derived
 * from the cached products, the search text and the selected category, and the
 * screen's own state (search text, category, and which product dialog is open).
 */
module ProductsList {
  import opened Products
  import opened Sequences
  import opened Text
  import QueryCache

  const ALL := "all"

  /** `products.map(p => p.category)`. */
  function CategoryList(products: seq<Product>): (cs: seq<string>)
    ensures |cs| == |products|
    ensures forall i :: 0 <= i < |products| ==> cs[i] == products[i].category
  {
    if products == [] then [] else [products[0].category] + CategoryList(products[1..])
  }

  /** The set of categories that occur in `products`. */
  ghost function CategorySet(products: seq<Product>): set<string> {
    set p | p in products :: p.category
  }

  /**
   * The category options: "all" followed by the distinct categories in first-seen order.
   * Before the first fetch there are no products, so only "all" is offered.
   */
  function Categories(products: Option<seq<Product>>): (r: seq<string>)
    ensures |r| >= 1 && r[0] == ALL
  {
    match products
    case None => [ALL]
    case Some(xs) => [ALL] + Distinct(CategoryList(xs))
  }

  /** With no products, or none fetched yet, the only option is "all". */
  lemma CategoriesOfNothing()
    ensures Categories(None) == [ALL]
    ensures Categories(Some([])) == [ALL]
  {
  }

  /**
   * After "all" come the categories of `products`, each exactly once, in the order in
   * which they first occur.
   */
  lemma CategoriesTail(products: seq<Product>)
    ensures var tail := Categories(Some(products))[1..];
      && NoDuplicates(tail)
      && (forall c :: c in tail <==> c in CategorySet(products))
      && (forall i, j :: 0 <= i < j < |tail| ==>
            FirstIndex(CategoryList(products), tail[i]) < FirstIndex(CategoryList(products), tail[j]))
  {
    var cs := CategoryList(products);
    var tail := Categories(Some(products))[1..];
    assert tail == Distinct(cs);
    DistinctFirstSeenOrder(cs);
    forall c
      ensures c in tail <==> c in CategorySet(products)
    {
      if c in tail {
        var k := FirstIndex(cs, c);
        assert products[k] in products;
      }
      if c in CategorySet(products) {
        var p :| p in products && p.category == c;
        var k :| 0 <= k < |products| && products[k] == p;
        assert cs[k] == c;
      }
    }
  }

  /**
   * "all" is not merged with a product category of the same name, so the list has one
   * entry more than there are distinct categories.
   */
  lemma CategoriesLength(products: seq<Product>)
    ensures |Categories(Some(products))| == 1 + |CategorySet(products)|
  {
    var tail := Categories(Some(products))[1..];
    CategoriesTail(products);
    NoDuplicatesCardinality(tail);
    assert (set x | x in tail) == CategorySet(products);
  }

  /** A product whose category is literally "all" makes "all" appear a second time. */
  lemma CategoriesRepeatAll(products: seq<Product>)
    requires exists p :: p in products && p.category == ALL
    ensures var r := Categories(Some(products));
      exists i :: 0 < i < |r| && r[i] == ALL
  {
    var r := Categories(Some(products));
    CategoriesTail(products);
    assert ALL in CategorySet(products);
    var k :| 0 <= k < |r[1..]| && r[1..][k] == ALL;
    assert r[k + 1] == ALL;
  }

  /** `category === "all" || product.category === category`. */
  predicate MatchesCategory(p: Product, category: string) {
    category == ALL || p.category == category
  }

  /** Case-insensitive search on the title or the category. */
  predicate MatchesSearch(p: Product, search: string) {
    Includes(Lower(p.title), Lower(search)) || Includes(Lower(p.category), Lower(search))
  }

  predicate Matches(p: Product, search: string, category: string) {
    MatchesCategory(p, category) && MatchesSearch(p, search)
  }

  /** `products.filter(...)`: the products that match both the category and the search. */
  function Filter(products: seq<Product>, search: string, category: string): (r: seq<Product>)
    ensures |r| <= |products|
    ensures forall i :: 0 <= i < |r| ==> r[i] in products && Matches(r[i], search, category)
    ensures forall i :: 0 <= i < |products| && Matches(products[i], search, category) ==> products[i] in r
  {
    if products == [] then []
    else
      var rest := Filter(products[1..], search, category);
      assert forall i :: 0 < i < |products| ==> products[i] == products[1..][i - 1];
      if Matches(products[0], search, category) then [products[0]] + rest else rest
  }

  /** The filtered view is undefined exactly while the products are. */
  function FilteredProducts(products: Option<seq<Product>>, search: string, category: string)
    : (r: Option<seq<Product>>)
    ensures r.None? <==> products.None?
  {
    match products
    case None => None
    case Some(xs) => Some(Filter(xs, search, category))
  }

  /** The filter keeps the order of the products it keeps. */
  lemma {:induction false} FilterIsSubsequence(products: seq<Product>, search: string, category: string)
    ensures IsSubsequence(Filter(products, search, category), products)
  {
    if products != [] {
      FilterIsSubsequence(products[1..], search, category);
      var r := Filter(products, search, category);
      if Matches(products[0], search, category) {
        assert r[1..] == Filter(products[1..], search, category);
      }
    }
  }

  /** Each product is kept as often as it occurs when it matches, and dropped otherwise. */
  lemma {:induction false} FilterCounts(products: seq<Product>, search: string, category: string, p: Product)
    ensures multiset(Filter(products, search, category))[p] ==
            if Matches(p, search, category) then multiset(products)[p] else 0
  {
    if products != [] {
      FilterCounts(products[1..], search, category, p);
      assert products == [products[0]] + products[1..];
    }
  }

  /** The initial state (empty search, category "all") shows every product. */
  lemma {:induction false} FilterEverything(products: seq<Product>)
    ensures Filter(products, "", ALL) == products
  {
    if products != [] {
      FilterEverything(products[1..]);
      assert Matches(products[0], "", ALL) by {
        IncludesEmpty(Lower(products[0].title));
      }
    }
  }

  /** A selected category that is neither "all" nor any product's category shows nothing. */
  lemma {:induction false} FilterUnknownCategory(products: seq<Product>, search: string, category: string)
    requires category != ALL && category !in CategorySet(products)
    ensures Filter(products, search, category) == []
  {
    if products != [] {
      assert products[0] in products;
      assert CategorySet(products[1..]) <= CategorySet(products) by {
        forall c | c in CategorySet(products[1..]) ensures c in CategorySet(products) {
          var p :| p in products[1..] && p.category == c;
          assert p in products;
        }
      }
      FilterUnknownCategory(products[1..], search, category);
    }
  }

  /** Searching for `Lower(search)` finds the same products as searching for `search`. */
  lemma {:induction false} FilterCaseInsensitive(products: seq<Product>, search: string, category: string)
    ensures Filter(products, Lower(search), category) == Filter(products, search, category)
  {
    LowerIdempotent(search);
    if products != [] {
      FilterCaseInsensitive(products[1..], search, category);
    }
  }

  /** Which product dialog is open (`open` is "", "edit" or "delete") and for which product. */
  datatype DialogState = DialogState(open: string, data: Option<Product>)

  const CLOSED := DialogState("", None)

  /** The screen's own state: the search box, the category picker and the dialog state. */
  class ProductsView {
    var search: string
    var category: string
    var dialog: DialogState

    /** The screen opens with an empty search, category "all" and no dialog. */
    constructor ()
      ensures search == "" && category == ALL && dialog == CLOSED
    {
      search := "";
      category := ALL;
      dialog := CLOSED;
    }

    method SetSearch(s: string)
      modifies this
      ensures search == s && category == old(category) && dialog == old(dialog)
    {
      search := s;
    }

    method SetCategory(c: string)
      modifies this
      ensures category == c && search == old(search) && dialog == old(dialog)
    {
      category := c;
    }

    /** The setter handed to the edit and delete dialogs. */
    method SetDialog(d: DialogState)
      modifies this
      ensures dialog == d && search == old(search) && category == old(category)
    {
      dialog := d;
    }

    /** The products the screen lists for the current search and category. */
    function Shown(cache: QueryCache.ProductsQuery): (r: Option<seq<Product>>)
      reads this, cache
      ensures search == "" && category == ALL ==> r == cache.data
    {
      if cache.data.Some? then
        FilterEverything(cache.data.value);
        FilteredProducts(cache.data, search, category)
      else
        None
    }
  }
}
