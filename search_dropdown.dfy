/** The header's search box: hidden behind sign-in, it lists the catalog
    products whose name, description or category contains the typed text,
    ignoring letter case. A blank entry closes and clears the list; a
    non-blank one opens it in a loading state until the debounce timer fires. */
module SearchDropdown {
  import opened Common
  import opened Text
  import opened Catalog

  /** The lower-cased name, description or category contains the lower-cased search. */
  predicate MatchesQuery(p: Product, search: string) {
    var q := ToLower(search);
    Contains(ToLower(p.name), q) || Contains(ToLower(p.description), q) || Contains(ToLower(p.category), q)
  }

  function KeepMatching(search: string): Product -> bool {
    (p: Product) => MatchesQuery(p, search)
  }

  /** The list the timer computes: matching products in catalog order. */
  function SearchResults(products: seq<Product>, search: string): (r: seq<Product>)
    ensures forall i :: 0 <= i < |r| ==> r[i] in products && MatchesQuery(r[i], search)
    ensures forall i :: 0 <= i < |products| && MatchesQuery(products[i], search) ==> products[i] in r
  {
    FilterSeq(KeepMatching(search), products)
  }

  /** The results keep catalog order. */
  lemma SearchResultsKeepOrder(products: seq<Product>, search: string)
    ensures IsSubsequence(SearchResults(products, search), products)
  {
    FilterIsSubsequence(KeepMatching(search), products);
  }

  /** Matching uses the text as typed: trailing blanks are not trimmed away, so
      "cap" finds a product called "Cap" while "cap " does not. */
  lemma SearchIsNotTrimmed()
    ensures var p := Product("x", "Cap", "", 1, "", 1, "Caps");
      MatchesQuery(p, "cap") && !MatchesQuery(p, "cap ")
  {
    var p := Product("x", "Cap", "", 1, "", 1, "Caps");
    assert ToLower("cap ") == "cap ";
    assert ToLower(p.name) == "cap";
    assert ToLower(p.category) == "caps";
    assert StartsWith(ToLower(p.name), "cap");
    ContainsNotLonger(ToLower(p.name), "cap ");
    ContainsNotLonger(ToLower(p.description), "cap ");
    ContainsNotLonger(ToLower(p.category)[1..], "cap ");
    assert !StartsWith(ToLower(p.category), "cap ") by {
      assert ToLower(p.category)[3] != "cap "[3];
    }
  }

  /** The "N product(s) found" label's noun. */
  function ResultNoun(count: nat): (noun: string)
    ensures noun == "product" <==> count == 1
    ensures noun == "products" <==> count != 1
  {
    if count != 1 then "products" else "product"
  }

  /** The dropdown's state. */
  class Dropdown {
    /** The product list the component searches: the catalog. */
    const catalog: seq<Product>
    var search: string
    var isOpen: bool
    var isLoading: bool
    var results: seq<Product>
    var hasSearched: bool

    constructor ()
      ensures catalog == Products
      ensures search == "" && !isOpen && !isLoading && results == [] && !hasSearched
    {
      catalog := Products;
      search, isOpen, isLoading, results, hasSearched := "", false, false, [], false;
    }

    /** A blank search has an empty, closed list and no search on record;
        any other search has been searched for. */
    ghost predicate Valid()
      reads this
    {
      (IsBlank(search) ==> results == [] && !isOpen && !hasSearched) &&
      (!IsBlank(search) ==> hasSearched)
    }

    /** Typing: the input's new value, then the search effect's synchronous part. */
    method SetSearch(text: string)
      modifies this
      ensures search == text && Valid()
      ensures IsBlank(text) ==> results == [] && !isOpen && !hasSearched && isLoading == old(isLoading)
      ensures !IsBlank(text) ==> isLoading && isOpen && hasSearched && results == old(results)
    {
      search := text;
      if IsBlank(search) {
        results := [];
        isOpen := false;
        hasSearched := false;
        return;
      }
      isLoading := true;
      isOpen := true;
      hasSearched := true;
    }

    /** The debounce timer fires (it exists only for a non-blank search). */
    method TimerFires()
      requires Valid() && !IsBlank(search)
      modifies this
      ensures Valid()
      ensures results == SearchResults(catalog, search) && !isLoading
      ensures search == old(search) && isOpen == old(isOpen) && hasSearched == old(hasSearched)
    {
      results := SearchResults(catalog, search);
      isLoading := false;
    }

    /** Focusing the input reopens the list for a non-blank search. */
    method Focus()
      requires Valid()
      modifies this
      ensures Valid()
      ensures isOpen == (old(isOpen) || !IsBlank(search))
      ensures search == old(search) && results == old(results) && isLoading == old(isLoading)
    {
      if !IsBlank(search) {
        isOpen := true;
      }
    }

    /** A mouse press outside the component closes the list. */
    method ClickOutside()
      requires Valid()
      modifies this
      ensures Valid() && !isOpen
      ensures search == old(search) && results == old(results) && isLoading == old(isLoading)
    {
      isOpen := false;
    }

    /** Following a result link closes the list and clears the search. */
    method PickResult()
      modifies this
      ensures Valid() && search == "" && !isOpen && results == [] && !hasSearched
      ensures isLoading == old(isLoading)
    {
      isOpen := false;
      SetSearch("");
    }

    /** The list is rendered only when open and signed in. */
    function DropdownShown(isAuthenticated: bool): (shown: bool)
      reads this
      ensures shown <==> isOpen && isAuthenticated
    {
      isOpen && isAuthenticated
    }
  }

  /** The input is disabled exactly when no one is signed in. */
  function InputDisabled(isAuthenticated: bool): (disabled: bool)
    ensures disabled <==> !isAuthenticated
  {
    !isAuthenticated
  }
}
