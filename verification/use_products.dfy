/**
 * The decision logic of app/hooks/useProducts.ts: which thunks and actions each
 * user intent dispatches, read off a snapshot of the catalog state, and the
 * derived `hasActiveFilters` and `displayProducts`. The hook's three local
 * `useState` fields live in `ProductsScreen`, whose handlers set them.
 */
module UseProducts {
  import opened Wrappers
  import opened Seqs
  import opened Products
  import opened FilterSort
  import ProductsSlice

  const PageSize := 10

  /** The `{slug, name}` object the category picker passes to the hook. */
  datatype Category = Category(slug: string, name: string)

  /**
   * What the hook dispatches. `SetSelectedCategory` carries the slug string the
   * slice's state declares (see `SelectedSlug` for why this is not the picker's object).
   */
  datatype Dispatch =
    | FetchProducts(limit: int, skip: int, append: bool)
    | FetchProductsByCategory(category: string, limit: int, skip: int, append: bool)
    | SearchProducts(query: string)
    | SetSelectedCategory(selected: Option<string>)
    | SetSortOption(sortOption: SortOption)
    | ClearFilters
    | LoadCachedProducts
    | FetchCategories

  /** The unscoped first page: `fetchProducts({limit: 10, skip: 0, append: false})`. */
  const FirstPage := FetchProducts(PageSize, 0, false)

  // ---------------------------------------------------------------------------
  // String.prototype.trim

  /** The characters `trim` removes: ECMAScript's WhiteSpace and LineTerminator. */
  predicate IsJsWhitespace(c: char) {
    c in {'\t', '\n', '\U{000B}', '\U{000C}', '\r', ' ', '\U{00A0}', '\U{1680}',
          '\U{2028}', '\U{2029}', '\U{202F}', '\U{205F}', '\U{3000}', '\U{FEFF}'}
    || '\U{2000}' <= c <= '\U{200A}'
  }

  predicate AllWhitespace(s: string) {
    forall i :: 0 <= i < |s| ==> IsJsWhitespace(s[i])
  }

  /** The length of the whitespace run at the start of `s`. */
  function LeadingWhitespace(s: string): (n: nat)
    ensures n <= |s|
    ensures AllWhitespace(s[..n])
    ensures n < |s| ==> !IsJsWhitespace(s[n])
  {
    if s == [] || !IsJsWhitespace(s[0]) then 0
    else
      var m := LeadingWhitespace(s[1..]);
      assert s[..m + 1] == [s[0]] + s[1..][..m];
      m + 1
  }

  /** The length of the whitespace run at the end of `s`. */
  function TrailingWhitespace(s: string): (n: nat)
    ensures n <= |s|
    ensures AllWhitespace(s[|s| - n..])
    ensures n < |s| ==> !IsJsWhitespace(s[|s| - n - 1])
  {
    if s == [] || !IsJsWhitespace(s[|s| - 1]) then 0
    else
      var init := s[..|s| - 1];
      var m := TrailingWhitespace(init);
      assert s[|s| - (m + 1)..] == init[|init| - m..] + [s[|s| - 1]];
      m + 1
  }

  /** `s.trim()`: neither end of the result is whitespace. */
  function Trim(s: string): (r: string)
    ensures |r| <= |s|
    ensures r != [] ==> !IsJsWhitespace(r[0]) && !IsJsWhitespace(r[|r| - 1])
  {
    var front := LeadingWhitespace(s);
    var rest := s[front..];
    var back := TrailingWhitespace(rest);
    assert back < |rest| ==> rest[0] == s[front];
    rest[..|rest| - back]
  }

  /** Trimming removes a whitespace prefix and a whitespace suffix, and nothing else. */
  lemma TrimIsSlice(s: string) returns (i: nat, j: nat)
    ensures i <= j <= |s| && Trim(s) == s[i..j]
    ensures AllWhitespace(s[..i]) && AllWhitespace(s[j..])
  {
    i := LeadingWhitespace(s);
    var rest := s[i..];
    var back := TrailingWhitespace(rest);
    j := i + |rest| - back;
    assert Trim(s) == rest[..|rest| - back] == s[i..j];
    assert s[j..] == rest[|rest| - back..];
  }

  /** Only a string made of whitespace trims to the empty string. */
  lemma TrimIsEmptyIffBlank(s: string)
    ensures Trim(s) == [] <==> AllWhitespace(s)
  {
    var i, j := TrimIsSlice(s);
    if Trim(s) == [] {
      forall k | 0 <= k < |s| ensures IsJsWhitespace(s[k]) {
        if k < i {
          assert s[k] == s[..i][k];
        } else {
          assert s[k] == s[j..][k - j];
        }
      }
    } else {
      assert Trim(s)[0] == s[i] && !IsJsWhitespace(s[i]);
    }
  }

  // ---------------------------------------------------------------------------
  // Handlers that only dispatch

  /**
   * The mount effect, in the order its requests reach the store: an idle
   * screen asks for the cached list first; the categories are requested in the
   * same synchronous pass when none are held and none are loading; the first
   * page is requested only once the cache request has settled, whether it
   * resolved or rejected, and so comes last.
   */
  function MountEffect(s: ProductsSlice.ProductsState): (r: seq<Dispatch>)
    ensures |r| <= 3
    ensures LoadCachedProducts in r <==> s.status == ProductsSlice.Idle
    ensures FirstPage in r <==> s.status == ProductsSlice.Idle
    ensures FetchCategories in r <==> s.categories == [] && !s.categoriesLoading
    ensures s.status == ProductsSlice.Idle ==> r[0] == LoadCachedProducts && r[|r| - 1] == FirstPage
    ensures s.status != ProductsSlice.Idle ==> forall d :: d in r ==> d == FetchCategories
    ensures |r| == (if s.status == ProductsSlice.Idle then 2 else 0)
                   + (if s.categories == [] && !s.categoriesLoading then 1 else 0)
  {
    var categories := if s.categories == [] && !s.categoriesLoading then [FetchCategories] else [];
    if s.status == ProductsSlice.Idle then [LoadCachedProducts] + categories + [FirstPage] else categories
  }

  /** The debounced-search effect: search for the trimmed query, or do nothing when it is blank. */
  function SearchEffect(debouncedSearchQuery: string): (r: seq<Dispatch>)
    ensures r == [] <==> AllWhitespace(debouncedSearchQuery)
    ensures r != [] ==> |r| == 1 && r[0].SearchProducts?
                        && r[0].query == Trim(debouncedSearchQuery) && r[0].query != ""
  {
    var trimmedQuery := Trim(debouncedSearchQuery);
    TrimIsEmptyIffBlank(debouncedSearchQuery);
    if |trimmedQuery| > 0 then [SearchProducts(trimmedQuery)] else []
  }

  /** handleRefresh: one request for the first unscoped page, replacing the list. */
  function HandleRefresh(): (r: seq<Dispatch>)
    ensures |r| == 1 && r[0].FetchProducts?
    ensures r[0].limit == 10 && r[0].skip == 0 && !r[0].append
  {
    [FirstPage]
  }

  /** handleRetry: the same request as handleRefresh. */
  function HandleRetry(): (r: seq<Dispatch>)
    ensures r == HandleRefresh()
  {
    [FirstPage]
  }

  /**
   * handleRetryLoadMore: the next unscoped page whenever nothing is loading and
   * more is expected. It does not look at the status or the error.
   */
  function HandleRetryLoadMore(s: ProductsSlice.ProductsState): (r: seq<Dispatch>)
    ensures r != [] <==> !s.loadingMore && s.hasMore
    ensures r != [] ==> r == [FetchProducts(PageSize, |s.products|, true)]
  {
    if !s.loadingMore && s.hasMore then [FetchProducts(PageSize, |s.products|, true)] else []
  }

  /** The guard of handleLoadMore; `!error` also lets an empty message through. */
  function CanLoadMore(s: ProductsSlice.ProductsState): (r: bool)
    ensures r <==> !s.loadingMore && s.hasMore && s.status == ProductsSlice.Success
                   && (s.error == None || s.error == Some(""))
  {
    !s.loadingMore && s.hasMore && s.status == ProductsSlice.Success && !Truthy(s.error)
  }

  /**
   * handleLoadMore: one appending page request starting at the current length,
   * scoped to the selected category when one is set, and nothing when the guard fails.
   */
  function HandleLoadMore(s: ProductsSlice.ProductsState): (r: seq<Dispatch>)
    ensures r != [] <==> CanLoadMore(s)
    ensures r != [] ==> |r| == 1 && (r[0].FetchProducts? || r[0].FetchProductsByCategory?)
                        && r[0].limit == PageSize && r[0].skip == |s.products| && r[0].append
    ensures r != [] ==> (r[0].FetchProductsByCategory? <==> Truthy(s.selectedCategory))
    ensures r != [] && r[0].FetchProductsByCategory? ==> r[0].category == s.selectedCategory.value
  {
    if CanLoadMore(s) then
      var nextSkip := |s.products|;
      if Truthy(s.selectedCategory) then [FetchProductsByCategory(s.selectedCategory.value, PageSize, nextSkip, true)]
      else [FetchProducts(PageSize, nextSkip, true)]
    else []
  }

  /** hasActiveFilters: a category (compared with `!== null`) or a sort is set. */
  function HasActiveFilters(s: ProductsSlice.ProductsState): (r: bool)
    ensures r <==> s.selectedCategory.Some? || s.sortOption != NoSort
  {
    s.selectedCategory != None || s.sortOption != NoSort
  }

  /** displayProducts: the derived list when it is non-empty or a filter is active, else the raw list. */
  function DisplayProducts(s: ProductsSlice.ProductsState): (r: seq<Product>)
    ensures |s.filteredProducts| > 0 || HasActiveFilters(s) ==> r == s.filteredProducts
    ensures !(|s.filteredProducts| > 0 || HasActiveFilters(s)) ==> r == s.products
  {
    if |s.filteredProducts| > 0 || HasActiveFilters(s) then s.filteredProducts else s.products
  }

  // ---------------------------------------------------------------------------
  // The picked category as the slice sees it

  /** What `selectedCategory` can hold at run time: nothing, a string, or the picker's object. */
  datatype StoredCategory = NoCategory | SlugString(slug: string) | CategoryObject(category: Category)

  /** `product.category === value`: a string is never strictly equal to an object. */
  function StrictEqualsStored(productCategory: string, value: StoredCategory): bool {
    match value
    case SlugString(slug) => productCategory == slug
    case _ => false
  }

  /** JavaScript truthiness of the stored value: every object is truthy, a string when non-empty. */
  predicate StoredTruthy(value: StoredCategory) {
    value.CategoryObject? || (value.SlugString? && value.slug != "")
  }

  /** The category step of applyFiltersAndSort, run on whatever value is stored. */
  function SelectStored(products: seq<Product>, value: StoredCategory): seq<Product> {
    if StoredTruthy(value) then Filter(products, (p: Product) => StrictEqualsStored(p.category, value))
    else products
  }

  /** As written, handleCategorySelect hands the picker's object itself to `setSelectedCategory`. */
  function StoredAsWritten(category: Option<Category>): StoredCategory {
    if category.Some? then CategoryObject(category.value) else NoCategory
  }

  /** The value the state's type declares and the filter expects: the picked category's slug. */
  function SelectedSlug(category: Option<Category>): (r: Option<string>)
    ensures r.Some? <==> category.Some?
    ensures r.Some? ==> r.value == category.value.slug
  {
    if category.Some? then Some(category.value.slug) else None
  }

  /**
   * As written, picking any category selects no product at all, even when every
   * product belongs to it, so the screen shows an empty list.
   */
  lemma PickedObjectSelectsNothing(products: seq<Product>, category: Category)
    ensures SelectStored(products, StoredAsWritten(Some(category))) == []
  {
    FilterNone(products, (p: Product) => StrictEqualsStored(p.category, CategoryObject(category)));
  }

  /** A stored slug string behaves exactly like the selection the slice model uses. */
  lemma StoredSlugIsModelSelection(products: seq<Product>, slug: string)
    ensures SelectStored(products, SlugString(slug)) == SelectCategory(products, Some(slug))
  {
    if slug != "" {
      FilterCongruent(products, (p: Product) => StrictEqualsStored(p.category, SlugString(slug)),
                      (p: Product) => p.category == slug);
    }
  }

  /** Storing the slug makes the derived list hold exactly the products of the picked category. */
  lemma SelectedSlugShowsItsCategory(s: ProductsSlice.SliceState, category: Category)
    requires category.slug != ""
    ensures var r := ProductsSlice.Reduce(s, ProductsSlice.SetSelectedCategory(SelectedSlug(Some(category)))).products;
            forall p :: p in r.filteredProducts <==> p in r.products && p.category == category.slug
  {
    var selected := SelectedSlug(Some(category));
    assert selected == Some(category.slug);
    var r := ProductsSlice.Reduce(s, ProductsSlice.SetSelectedCategory(selected)).products;
    assert r.products == s.products.products;
    assert r.filteredProducts == ApplyFiltersAndSort(s.products.products, selected, s.products.sortOption);
    ApplySelectsCategory(s.products.products, selected, s.products.sortOption);
  }

  // ---------------------------------------------------------------------------
  // Properties that combine the hook with the slice

  /** In a consistent state the fallback to `products` never changes what is shown. */
  lemma DisplayIsFilteredWhenConsistent(s: ProductsSlice.ProductsState)
    requires ProductsSlice.Consistent(s)
    ensures DisplayProducts(s) == s.filteredProducts
  {
    if !HasActiveFilters(s) {
      ApplyUnfilteredIsCopy(s.products, s.selectedCategory);
    }
  }

  /** In a reachable state an error is never the empty string, so `!error` means no error. */
  lemma LoadMoreGuardInReachableStates(actions: seq<ProductsSlice.Action>)
    ensures var s := ProductsSlice.Run(ProductsSlice.InitialState, actions).products;
            CanLoadMore(s) <==> !s.loadingMore && s.hasMore && s.status == ProductsSlice.Success && s.error == None
  {
    ProductsSlice.RunKeepsErrorsNonEmpty(ProductsSlice.InitialState, actions);
  }

  /**
   * On the initial state, mounting requests the cache, the categories and then
   * the first page; load-more does nothing while the status is idle, but
   * retry-load-more would already request an appending page at offset 0.
   */
  lemma MountFromInitialState()
    ensures MountEffect(ProductsSlice.InitialState.products) == [LoadCachedProducts, FetchCategories, FirstPage]
    ensures HandleLoadMore(ProductsSlice.InitialState.products) == []
    ensures HandleRetryLoadMore(ProductsSlice.InitialState.products) == [FetchProducts(PageSize, 0, true)]
  {
  }

  /** Search results are never paginated: after one arrives, neither load-more handler dispatches. */
  lemma SearchResultsDoNotPaginate(s: ProductsSlice.SliceState, result: ProductsSlice.SearchPayload)
    ensures var r := ProductsSlice.Reduce(s, ProductsSlice.SearchProductsFulfilled(result)).products;
            HandleLoadMore(r) == [] && HandleRetryLoadMore(r) == []
  {
  }

  /** The state after a fetch for `request` is started and then answered with `page` of `total`. */
  function FetchRound(s: ProductsSlice.SliceState, request: Dispatch, page: seq<Product>, total: int): ProductsSlice.SliceState
    requires request.FetchProducts?
  {
    var started := ProductsSlice.Reduce(s, ProductsSlice.FetchProductsPending(request.append));
    ProductsSlice.Reduce(started, ProductsSlice.FetchProductsFulfilled(
      ProductsSlice.FetchPayload(page, total, request.skip, request.limit, request.append)))
  }

  /**
   * One unscoped round in which the server echoes the request's skip and limit:
   * the page lands after the held list (or replaces it), the status is success
   * with no error, nothing is loading, and `hasMore` says fewer than `total` are held.
   */
  lemma FetchRoundEffect(s: ProductsSlice.SliceState, request: Dispatch, page: seq<Product>, total: int)
    requires request.FetchProducts?
    requires !s.products.loadingMore
    requires request.append ==> request.skip == |s.products.products|
    requires !request.append ==> request.skip == 0
    requires request.append ==> s.products.status == ProductsSlice.Success
    ensures var r := FetchRound(s, request, page, total).products;
            && r.products == (if request.append then s.products.products + page else page)
            && r.status == ProductsSlice.Success && r.error == None && !r.loadingMore
            && (r.hasMore <==> |r.products| < total)
            && r.selectedCategory == s.products.selectedCategory
  {
    var started := ProductsSlice.Reduce(s, ProductsSlice.FetchProductsPending(request.append));
    var payload := ProductsSlice.FetchPayload(page, total, request.skip, request.limit, request.append);
    ProductsSlice.FetchPendingEffect(s, request.append);
    assert started.products.products == s.products.products;
    assert started.products.selectedCategory == s.products.selectedCategory;
    assert !started.products.loadingMore ==> !request.append;
    ProductsSlice.FetchHasMoreAtConsistentSkip(started, payload);
    ProductsSlice.FetchFulfilledBookkeeping(started, payload);
    if request.append {
      ProductsSlice.FetchFulfilledAppend(started, payload);
      var r := ProductsSlice.Reduce(started, ProductsSlice.FetchProductsFulfilled(payload)).products;
      assert r.products == r.products[..|s.products.products|] + r.products[|s.products.products|..];
    } else {
      ProductsSlice.FetchFulfilledReplace(started, payload);
    }
  }

  /**
   * Paging through 30 unscoped products ten at a time: the first page and two
   * load-more rounds hold all 30 in order, after which load-more is a no-op.
   */
  lemma PagingThroughThirty(s: ProductsSlice.SliceState, p1: seq<Product>, p2: seq<Product>, p3: seq<Product>)
    requires s.products.selectedCategory == None && !s.products.loadingMore
    requires |p1| == 10 && |p2| == 10 && |p3| == 10
    ensures var s1 := FetchRound(s, FirstPage, p1, 30);
            && s1.products.hasMore
            && HandleLoadMore(s1.products) == [FetchProducts(10, 10, true)]
            && var s2 := FetchRound(s1, FetchProducts(10, 10, true), p2, 30);
            && HandleLoadMore(s2.products) == [FetchProducts(10, 20, true)]
            && var s3 := FetchRound(s2, FetchProducts(10, 20, true), p3, 30);
            && s3.products.products == p1 + p2 + p3
            && !s3.products.hasMore
            && HandleLoadMore(s3.products) == []
  {
    var s1 := FetchRound(s, FirstPage, p1, 30);
    FetchRoundEffect(s, FirstPage, p1, 30);
    var s2 := FetchRound(s1, FetchProducts(10, 10, true), p2, 30);
    FetchRoundEffect(s1, FetchProducts(10, 10, true), p2, 30);
    var s3 := FetchRound(s2, FetchProducts(10, 20, true), p3, 30);
    FetchRoundEffect(s2, FetchProducts(10, 20, true), p3, 30);
  }

  // ---------------------------------------------------------------------------
  // The hook's local state

  /** The three `useState` fields of the hook, set by its handlers. */
  class ProductsScreen {
    var localSearchQuery: string
    var showCategoryModal: bool
    var showSortModal: bool

    constructor ()
      ensures localSearchQuery == "" && !showCategoryModal && !showSortModal
    {
      localSearchQuery := "";
      showCategoryModal := false;
      showSortModal := false;
    }

    method SetLocalSearchQuery(query: string)
      modifies this
      ensures localSearchQuery == query
      ensures showCategoryModal == old(showCategoryModal) && showSortModal == old(showSortModal)
    {
      localSearchQuery := query;
    }

    method SetShowCategoryModal(show: bool)
      modifies this
      ensures showCategoryModal == show
      ensures localSearchQuery == old(localSearchQuery) && showSortModal == old(showSortModal)
    {
      showCategoryModal := show;
    }

    method SetShowSortModal(show: bool)
      modifies this
      ensures showSortModal == show
      ensures localSearchQuery == old(localSearchQuery) && showCategoryModal == old(showCategoryModal)
    {
      showSortModal := show;
    }

    /**
     * handleCategorySelect: records the picked category's slug, closes the picker
     * and reloads the first page, scoped to the slug or unscoped for "all".
     */
    method HandleCategorySelect(category: Option<Category>) returns (dispatched: seq<Dispatch>)
      modifies this
      ensures |dispatched| == 2 && dispatched[0] == SetSelectedCategory(SelectedSlug(category))
      ensures category.Some? ==> dispatched[1] == FetchProductsByCategory(category.value.slug, PageSize, 0, false)
      ensures category.None? ==> dispatched[1] == FirstPage
      ensures !showCategoryModal
      ensures localSearchQuery == old(localSearchQuery) && showSortModal == old(showSortModal)
    {
      dispatched := [SetSelectedCategory(SelectedSlug(category))];
      showCategoryModal := false;
      if category.Some? {
        dispatched := dispatched + [FetchProductsByCategory(category.value.slug, PageSize, 0, false)];
      } else {
        dispatched := dispatched + [FetchProducts(PageSize, 0, false)];
      }
    }

    /** handleSortSelect: sorting is local, so it only records the option and closes the picker. */
    method HandleSortSelect(sortOption: SortOption) returns (dispatched: seq<Dispatch>)
      modifies this
      ensures dispatched == [SetSortOption(sortOption)]
      ensures !showSortModal
      ensures localSearchQuery == old(localSearchQuery) && showCategoryModal == old(showCategoryModal)
    {
      dispatched := [SetSortOption(sortOption)];
      showSortModal := false;
    }

    /** handleClearFilters: empties the search box, clears the slice's filters and reloads the first page. */
    method HandleClearFilters() returns (dispatched: seq<Dispatch>)
      modifies this
      ensures dispatched == [ClearFilters, FirstPage]
      ensures localSearchQuery == ""
      ensures showCategoryModal == old(showCategoryModal) && showSortModal == old(showSortModal)
    {
      localSearchQuery := "";
      dispatched := [ClearFilters];
      dispatched := dispatched + [FetchProducts(PageSize, 0, false)];
    }
  }
}
