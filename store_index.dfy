/** The storefront's product list: a free-text search over name and
    description, ignoring letter case, combined with an exact category
    selection where "All" selects every product. */
module StoreIndex {
  import opened Common
  import opened Text
  import opened Catalog

  const AllCategories: string := "All"

  /** The name or the description contains the search, ignoring letter case. */
  predicate MatchesSearch(p: Product, search: string) {
    Contains(ToLower(p.name), ToLower(search)) || Contains(ToLower(p.description), ToLower(search))
  }

  /** "All", or exactly the product's category (letter case counts). */
  predicate MatchesCategory(p: Product, category: string) {
    category == AllCategories || p.category == category
  }

  function Keep(search: string, category: string): Product -> bool {
    (p: Product) => MatchesSearch(p, search) && MatchesCategory(p, category)
  }

  /** `filteredProducts`: the products passing both tests, in catalog order. */
  function FilteredProducts(products: seq<Product>, search: string, category: string): (r: seq<Product>)
    ensures forall i :: 0 <= i < |r| ==> r[i] in products && MatchesSearch(r[i], search) && MatchesCategory(r[i], category)
    ensures forall i :: 0 <= i < |products| && MatchesSearch(products[i], search) && MatchesCategory(products[i], category) ==>
      products[i] in r
  {
    FilterSeq(Keep(search, category), products)
  }

  /** The result keeps catalog order. */
  lemma FilteredKeepsOrder(products: seq<Product>, search: string, category: string)
    ensures IsSubsequence(FilteredProducts(products, search, category), products)
  {
    FilterIsSubsequence(Keep(search, category), products);
  }

  /** Filtering the result again changes nothing. */
  lemma FilteredIdempotent(products: seq<Product>, search: string, category: string)
    ensures FilteredProducts(FilteredProducts(products, search, category), search, category)
         == FilteredProducts(products, search, category)
  {
    FilterIdempotent(Keep(search, category), products);
  }

  /** The initial state, an empty search with "All" selected, shows the whole catalog. */
  lemma EmptySearchAllShowsEverything(products: seq<Product>)
    ensures FilteredProducts(products, "", AllCategories) == products
  {
    forall i | 0 <= i < |products| ensures Keep("", AllCategories)(products[i]) {
      ContainsEmpty(ToLower(products[i].name));
    }
    FilterAll(Keep("", AllCategories), products);
  }

  /** The search ignores letter case: a search and its lower-cased form select the same products. */
  lemma SearchIgnoresCase(products: seq<Product>, search: string, category: string)
    ensures FilteredProducts(products, search, category) == FilteredProducts(products, ToLower(search), category)
  {
    ToLowerIdempotent(search);
    FilterCongruent(Keep(search, category), Keep(ToLower(search), category), products);
  }

  /** The search never looks at the category field. */
  lemma SearchIgnoresCategoryField(p: Product, search: string, otherCategory: string)
    ensures MatchesSearch(p, search) == MatchesSearch(p.(category := otherCategory), search)
  {
  }

  /** Category selection does not ignore case while the search does: the
      first catalog product is not in category "tees" but is in "Tees", and
      the search "CLASSIC" finds it. */
  lemma CategoryIsCaseSensitive()
    ensures !MatchesCategory(Products[0], "tees") && MatchesCategory(Products[0], "Tees")
    ensures MatchesSearch(Products[0], "CLASSIC")
  {
    var name := ToLower(Products[0].name);
    assert ToLower("CLASSIC") == "classic";
    assert name[..7] == "classic";
    assert StartsWith(name, "classic");
  }
}
