/**
 * The products slice of app/store/productsSlice.ts: the catalog state, its
 * synchronous reducers and the pending/fulfilled/rejected cases of its thunks.
 *
 * `Reduce` is the reducer as a function from state and action to the next
 * state; `ProductsStore` is the mutable draft the reducers assign field by
 * field, and each of its methods is proved to end in the state `Reduce` gives.
 * Thunk payloads are inputs: the HTTP calls behind them are not modelled.
 */
module ProductsSlice {
  import opened Wrappers
  import opened Seqs
  import opened Products
  import opened FilterSort

  datatype Status = Idle | Loading | Success | Failed

  /** `state.products`: the catalog list, its pagination and its filters. */
  datatype ProductsState = ProductsState(
    status: Status,
    loadingMore: bool,
    hasMore: bool,
    products: seq<Product>,
    filteredProducts: seq<Product>,
    total: int,
    skip: int,
    limit: int,
    error: Option<string>,
    searchQuery: string,
    selectedCategory: Option<string>,
    sortOption: SortOption,
    categories: seq<string>,
    categoriesLoading: bool)

  /** `state.productDetail`: the one product shown on the detail screen. */
  datatype ProductDetailState = ProductDetailState(status: Status, product: Option<Product>, error: Option<string>)

  datatype SliceState = SliceState(products: ProductsState, productDetail: ProductDetailState)

  const IdleDetail := ProductDetailState(Idle, None, None)

  const InitialState := SliceState(
    ProductsState(Idle, false, true, [], [], 0, 0, 10, None, "", None, NoSort, [], false),
    IdleDetail)

  const FetchProductsError := "Failed to fetch products"
  const FetchProductDetailError := "Failed to fetch product details"
  const SearchProductsError := "Failed to search products"

  /** fetchProducts' fulfilled payload `{...response.data, append}`. */
  datatype FetchPayload = FetchPayload(products: seq<Product>, total: int, skip: int, limit: int, append: bool)

  /** searchProducts' fulfilled payload; the reducer falls back on `[]` and `0` for missing fields. */
  datatype SearchPayload = SearchPayload(products: Option<seq<Product>>, total: Option<int>)

  /**
   * fetchCategories' fulfilled payload: an array whose items may be anything
   * (`None` stands for an item that is not a string), or not an array at all.
   */
  datatype CategoriesPayload = CategoryArray(items: seq<Option<string>>) | NotAnArray

  /**
   * The actions the slice handles. `append` on a pending or rejected fetch is
   * `action.meta.arg?.append || false`: an absent argument counts as false.
   */
  datatype Action =
    | ClearProductDetail
    | SetSearchQuery(query: string)
    | SetSelectedCategory(category: Option<string>)
    | SetSortOption(sortOption: SortOption)
    | ClearFilters
    | FetchProductsPending(append: bool)
    | FetchProductsFulfilled(payload: FetchPayload)
    | FetchProductsRejected(append: bool, message: Option<string>)
    | FetchProductByIdPending
    | FetchProductByIdFulfilled(product: Product)
    | FetchProductByIdRejected(message: Option<string>)
    | SearchProductsPending
    | SearchProductsFulfilled(result: SearchPayload)
    | SearchProductsRejected(message: Option<string>)
    | FetchCategoriesPending
    | FetchCategoriesFulfilled(categoryList: CategoriesPayload)
    | FetchCategoriesRejected

  /** The slice's invariant: the derived list is always recomputed from its three inputs. */
  predicate Consistent(p: ProductsState) {
    p.filteredProducts == ApplyFiltersAndSort(p.products, p.selectedCategory, p.sortOption)
  }

  /** An entry of a category array that the slice keeps: a non-empty string. */
  predicate IsCategoryName(entry: Option<string>) {
    entry.Some? && entry.value != ""
  }

  /** Strings seen again as entries of a category array. */
  function AsEntries(names: seq<string>): (r: seq<Option<string>>)
    ensures |r| == |names|
  {
    if names == [] then [] else [Some(names[0])] + AsEntries(names[1..])
  }

  /**
   * The non-empty strings of a category array, in order and with their
   * repetitions: exactly what filtering the array for non-empty strings keeps.
   * A non-array payload gives none.
   */
  function ValidCategories(payload: CategoriesPayload): (r: seq<string>)
    ensures payload.NotAnArray? ==> r == []
    ensures payload.CategoryArray? ==> AsEntries(r) == Filter(payload.items, IsCategoryName)
    ensures payload.CategoryArray? ==> |r| <= |payload.items|
    ensures payload.CategoryArray? ==>
              forall c :: c in r <==> Some(c) in payload.items && c != ""
    decreases if payload.CategoryArray? then |payload.items| else 0
  {
    match payload
    case NotAnArray => []
    case CategoryArray(items) =>
      if items == [] then []
      else
        var rest := ValidCategories(CategoryArray(items[1..]));
        assert forall c :: Some(c) in items <==> Some(c) == items[0] || Some(c) in items[1..];
        if IsCategoryName(items[0]) then
          var r := [items[0].value] + rest;
          assert r[0] == items[0].value && r[1..] == rest;
          r
        else rest
  }

  /** The kept names appear in the payload's order, each as often as in the payload. */
  lemma CategoriesKeepOrderAndCopies(items: seq<Option<string>>)
    ensures IsSubsequence(AsEntries(ValidCategories(CategoryArray(items))), items)
    ensures forall c :: c != "" ==>
              multiset(AsEntries(ValidCategories(CategoryArray(items))))[Some(c)] == multiset(items)[Some(c)]
  {
    FilterIsSubsequence(items, IsCategoryName);
    forall c | c != ""
      ensures multiset(AsEntries(ValidCategories(CategoryArray(items))))[Some(c)] == multiset(items)[Some(c)]
    {
      FilterCounts(items, IsCategoryName, Some(c));
    }
  }

  /** The reducer: the state after `a` has been dispatched in state `s`. */
  function Reduce(s: SliceState, a: Action): (r: SliceState)
    ensures Consistent(s.products) ==> Consistent(r.products)
  {
    var p := s.products;
    match a
    case ClearProductDetail =>
      s.(productDetail := IdleDetail)
    case SetSearchQuery(query) =>
      s.(products := p.(searchQuery := query))
    case SetSelectedCategory(category) =>
      s.(products := p.(selectedCategory := category,
                        filteredProducts := ApplyFiltersAndSort(p.products, category, p.sortOption)))
    case SetSortOption(sortOption) =>
      s.(products := p.(sortOption := sortOption,
                        filteredProducts := ApplyFiltersAndSort(p.products, p.selectedCategory, sortOption)))
    case ClearFilters =>
      s.(products := p.(searchQuery := "", selectedCategory := None, sortOption := NoSort,
                        filteredProducts := p.products))
    case FetchProductsPending(append) =>
      if append then s.(products := p.(loadingMore := true))
      else s.(products := p.(status := Loading, error := None))
    case FetchProductsFulfilled(payload) =>
      var list := if payload.append then p.products + payload.products else payload.products;
      s.(products := p.(
        error := None,
        products := list,
        loadingMore := if payload.append then false else p.loadingMore,
        status := if payload.append then p.status else Success,
        total := payload.total,
        skip := payload.skip,
        limit := payload.limit,
        hasMore := |list| < payload.total && payload.skip + |payload.products| < payload.total,
        filteredProducts := ApplyFiltersAndSort(list, p.selectedCategory, p.sortOption)))
    case FetchProductsRejected(append, message) =>
      var q := if append then p.(loadingMore := false) else p.(status := Failed);
      s.(products := q.(error := Some(StringOr(message, FetchProductsError))))
    case FetchProductByIdPending =>
      s.(productDetail := s.productDetail.(status := Loading, error := None))
    case FetchProductByIdFulfilled(product) =>
      s.(productDetail := s.productDetail.(status := Success, product := Some(product)))
    case FetchProductByIdRejected(message) =>
      s.(productDetail := s.productDetail.(status := Failed,
                                           error := Some(StringOr(message, FetchProductDetailError))))
    case SearchProductsPending =>
      s.(products := p.(status := Loading, error := None))
    case SearchProductsFulfilled(result) =>
      var list := result.products.GetOr([]);
      s.(products := p.(status := Success, products := list, total := result.total.GetOr(0),
                        hasMore := false,
                        filteredProducts := ApplyFiltersAndSort(list, p.selectedCategory, p.sortOption)))
    case SearchProductsRejected(message) =>
      s.(products := p.(status := Failed, error := Some(StringOr(message, SearchProductsError))))
    case FetchCategoriesPending =>
      s.(products := p.(categoriesLoading := true))
    case FetchCategoriesFulfilled(payload) =>
      s.(products := p.(categories := ValidCategories(payload), categoriesLoading := false))
    case FetchCategoriesRejected =>
      s.(products := p.(categoriesLoading := false))
  }

  /** The state after dispatching `actions` in order. */
  function Run(s: SliceState, actions: seq<Action>): SliceState
    decreases |actions|
  {
    if actions == [] then s else Run(Reduce(s, actions[0]), actions[1..])
  }

  // ---------------------------------------------------------------------------
  // Properties of the reducer

  /** Every reachable state keeps `filteredProducts` equal to its recomputation. */
  lemma {:induction false} RunKeepsConsistent(s: SliceState, actions: seq<Action>)
    requires Consistent(s.products)
    ensures Consistent(Run(s, actions).products)
    decreases |actions|
  {
    if actions != [] {
      RunKeepsConsistent(Reduce(s, actions[0]), actions[1..]);
    }
  }

  lemma InitialStateIsConsistent()
    ensures Consistent(InitialState.products)
  {
  }

  /** No reducer stores an empty error message: a rejection with none stores the default. */
  predicate ErrorsNonEmpty(s: SliceState) {
    (s.products.error.Some? ==> s.products.error.value != "")
    && (s.productDetail.error.Some? ==> s.productDetail.error.value != "")
  }

  lemma ReduceKeepsErrorsNonEmpty(s: SliceState, a: Action)
    requires ErrorsNonEmpty(s)
    ensures ErrorsNonEmpty(Reduce(s, a))
  {
    match a
    case FetchProductsRejected(_, message) =>
      assert StringOr(message, FetchProductsError) != "";
    case FetchProductByIdRejected(message) =>
      assert StringOr(message, FetchProductDetailError) != "";
    case SearchProductsRejected(message) =>
      assert StringOr(message, SearchProductsError) != "";
    case _ =>
  }

  lemma {:induction false} RunKeepsErrorsNonEmpty(s: SliceState, actions: seq<Action>)
    requires ErrorsNonEmpty(s)
    ensures ErrorsNonEmpty(Run(s, actions))
    decreases |actions|
  {
    if actions != [] {
      ReduceKeepsErrorsNonEmpty(s, actions[0]);
      RunKeepsErrorsNonEmpty(Reduce(s, actions[0]), actions[1..]);
    }
  }

  /** A pending fetch sets `loadingMore` when appending, or `loading` with no error otherwise; the list stays. */
  lemma FetchPendingEffect(s: SliceState, append: bool)
    ensures var r := Reduce(s, FetchProductsPending(append)).products;
            && r.products == s.products.products
            && r.filteredProducts == s.products.filteredProducts
            && (append ==> r == s.products.(loadingMore := true))
            && (!append ==> r == s.products.(status := Loading, error := None))
  {
  }

  /**
   * An appending fetch keeps the old list as a prefix in the same order, adds
   * the page after it, clears `loadingMore` and leaves the status alone.
   */
  lemma FetchFulfilledAppend(s: SliceState, payload: FetchPayload)
    requires payload.append
    ensures var r := Reduce(s, FetchProductsFulfilled(payload)).products;
            && |r.products| == |s.products.products| + |payload.products|
            && r.products[..|s.products.products|] == s.products.products
            && r.products[|s.products.products|..] == payload.products
            && !r.loadingMore
            && r.status == s.products.status
  {
  }

  /** A first-page fetch replaces the list and reports success. */
  lemma FetchFulfilledReplace(s: SliceState, payload: FetchPayload)
    requires !payload.append
    ensures var r := Reduce(s, FetchProductsFulfilled(payload)).products;
            && r.products == payload.products
            && r.status == Success
            && r.loadingMore == s.products.loadingMore
  {
  }

  /**
   * Either way the error is cleared, the page descriptor is copied from the
   * payload and `hasMore` says the server still has items past this page.
   */
  lemma FetchFulfilledBookkeeping(s: SliceState, payload: FetchPayload)
    ensures var r := Reduce(s, FetchProductsFulfilled(payload)).products;
            && r.error == None
            && r.total == payload.total && r.skip == payload.skip && r.limit == payload.limit
            && (r.hasMore <==> |r.products| < payload.total && payload.skip + |payload.products| < payload.total)
            && r.selectedCategory == s.products.selectedCategory
            && r.sortOption == s.products.sortOption
  {
  }

  /**
   * When the server echoes a skip that matches the request the hook makes
   * (zero for a first page, the current length for an appended one), `hasMore`
   * is exactly "fewer products are held than the server has".
   */
  lemma FetchHasMoreAtConsistentSkip(s: SliceState, payload: FetchPayload)
    requires payload.append ==> payload.skip == |s.products.products|
    requires !payload.append ==> payload.skip == 0
    ensures var r := Reduce(s, FetchProductsFulfilled(payload)).products;
            r.hasMore <==> |r.products| < payload.total
  {
  }

  /** Search results replace the list, report success and never paginate. */
  lemma SearchFulfilledEffect(s: SliceState, result: SearchPayload)
    ensures var r := Reduce(s, SearchProductsFulfilled(result)).products;
            && r.status == Success
            && !r.hasMore
            && r.products == (if result.products.Some? then result.products.value else [])
            && r.total == (if result.total.Some? then result.total.value else 0)
            && r.skip == s.products.skip && r.limit == s.products.limit
  {
  }

  /**
   * A rejected fetch or search never touches the list. A rejected append only
   * clears `loadingMore`; any other rejection fails the status. The error is the
   * reported message, or the fixed default when there is none.
   */
  lemma RejectedKeepsProducts(s: SliceState, a: Action)
    requires a.FetchProductsRejected? || a.SearchProductsRejected?
    ensures var r := Reduce(s, a).products;
            && r.products == s.products.products
            && r.filteredProducts == s.products.filteredProducts
            && r.hasMore == s.products.hasMore
            && (a.FetchProductsRejected? && a.append ==> !r.loadingMore && r.status == s.products.status)
            && (a.SearchProductsRejected? || !a.append ==> r.status == Failed && r.loadingMore == s.products.loadingMore)
            && r.error == Some(if a.message.Some? && a.message.value != "" then a.message.value
                               else if a.FetchProductsRejected? then FetchProductsError
                               else SearchProductsError)
  {
  }

  /** `clearFilters` restores the default search, category and sort; the derived list is the full list. */
  lemma ClearFiltersResets(s: SliceState)
    ensures var r := Reduce(s, ClearFilters).products;
            && r.searchQuery == "" && r.selectedCategory == None && r.sortOption == NoSort
            && r.filteredProducts == r.products == s.products.products
            && r.status == s.products.status
  {
  }

  /** Changing the sort never reorders or changes `products`, only the derived list. */
  lemma SortIsLocal(s: SliceState, sortOption: SortOption)
    ensures var r := Reduce(s, SetSortOption(sortOption)).products;
            && r.products == s.products.products
            && r.status == s.products.status
            && r.filteredProducts == ApplyFiltersAndSort(s.products.products, s.products.selectedCategory, sortOption)
  {
  }

  /** A first load that fails leaves the list empty and the status failed, with a non-empty error. */
  lemma InitialLoadFailure(message: Option<string>)
    ensures var r := Run(InitialState, [FetchProductsPending(false), FetchProductsRejected(false, message)]).products;
            && r.status == Failed && r.products == [] && r.filteredProducts == []
            && r.error.Some? && r.error.value != "" && !r.loadingMore
  {
    var a := [FetchProductsPending(false), FetchProductsRejected(false, message)];
    var started := Reduce(InitialState, a[0]);
    var failed := Reduce(started, a[1]);
    assert a[1..] == [a[1]] && [a[1]][1..] == [];
    assert Run(InitialState, a) == Run(started, [a[1]]) == Run(failed, []) == failed;
    assert StringOr(message, FetchProductsError) != "";
  }

  /**
   * `loadingMore` is not confined to the `success` status: an appending fetch
   * started after a failed load sets it while the status stays `failed`.
   */
  lemma LoadingMoreWhileFailed()
    ensures var r := Run(InitialState, [FetchProductsPending(false), FetchProductsRejected(false, None),
                                        FetchProductsPending(true)]).products;
            r.status == Failed && r.loadingMore
  {
    var a := [FetchProductsPending(false), FetchProductsRejected(false, None), FetchProductsPending(true)];
    assert a[1..] == [FetchProductsRejected(false, None), FetchProductsPending(true)];
    assert a[1..][1..] == [FetchProductsPending(true)];
  }

  // ---------------------------------------------------------------------------
  // The mutable draft

  /** The store's slice, updated in place by one method per reducer case. */
  class ProductsStore {
    var products: ProductsState
    var productDetail: ProductDetailState

    function State(): SliceState
      reads this
    {
      SliceState(products, productDetail)
    }

    ghost predicate Valid()
      reads this
    {
      Consistent(products)
    }

    constructor ()
      ensures Valid() && State() == InitialState
    {
      products := InitialState.products;
      productDetail := InitialState.productDetail;
    }

    method ClearProductDetail()
      requires Valid()
      modifies this
      ensures Valid() && State() == Reduce(old(State()), Action.ClearProductDetail)
    {
      productDetail := ProductDetailState(Idle, None, None);
    }

    method SetSearchQuery(query: string)
      requires Valid()
      modifies this
      ensures Valid() && State() == Reduce(old(State()), Action.SetSearchQuery(query))
    {
      products := products.(searchQuery := query);
    }

    method SetSelectedCategory(category: Option<string>)
      requires Valid()
      modifies this
      ensures Valid() && State() == Reduce(old(State()), Action.SetSelectedCategory(category))
    {
      products := products.(selectedCategory := category);
      products := products.(filteredProducts := ApplyFiltersAndSort(products.products, category, products.sortOption));
    }

    method SetSortOption(sortOption: SortOption)
      requires Valid()
      modifies this
      ensures Valid() && State() == Reduce(old(State()), Action.SetSortOption(sortOption))
    {
      products := products.(sortOption := sortOption);
      products := products.(filteredProducts := ApplyFiltersAndSort(products.products, products.selectedCategory, sortOption));
    }

    method ClearFilters()
      requires Valid()
      modifies this
      ensures Valid() && State() == Reduce(old(State()), Action.ClearFilters)
    {
      products := products.(searchQuery := "");
      products := products.(selectedCategory := None);
      products := products.(sortOption := NoSort);
      products := products.(filteredProducts := products.products);
    }

    method FetchProductsPending(append: bool)
      requires Valid()
      modifies this
      ensures Valid() && State() == Reduce(old(State()), Action.FetchProductsPending(append))
    {
      if append {
        products := products.(loadingMore := true);
      } else {
        products := products.(status := Loading);
        products := products.(error := None);
      }
    }

    method FetchProductsFulfilled(payload: FetchPayload)
      requires Valid()
      modifies this
      ensures Valid() && State() == Reduce(old(State()), Action.FetchProductsFulfilled(payload))
    {
      var isAppend := payload.append;
      var newProducts := payload.products;
      products := products.(error := None);
      if isAppend {
        products := products.(products := products.products + newProducts);
        products := products.(loadingMore := false);
      } else {
        products := products.(products := newProducts);
        products := products.(status := Success);
      }
      products := products.(total := payload.total);
      products := products.(skip := payload.skip);
      products := products.(limit := payload.limit);
      products := products.(hasMore := |products.products| < payload.total
                                       && payload.skip + |newProducts| < payload.total);
      products := products.(filteredProducts :=
        ApplyFiltersAndSort(products.products, products.selectedCategory, products.sortOption));
    }

    method FetchProductsRejected(append: bool, message: Option<string>)
      requires Valid()
      modifies this
      ensures Valid() && State() == Reduce(old(State()), Action.FetchProductsRejected(append, message))
    {
      if append {
        products := products.(loadingMore := false);
      } else {
        products := products.(status := Failed);
      }
      products := products.(error := Some(StringOr(message, FetchProductsError)));
    }

    method FetchProductByIdPending()
      requires Valid()
      modifies this
      ensures Valid() && State() == Reduce(old(State()), Action.FetchProductByIdPending)
    {
      productDetail := productDetail.(status := Loading);
      productDetail := productDetail.(error := None);
    }

    method FetchProductByIdFulfilled(product: Product)
      requires Valid()
      modifies this
      ensures Valid() && State() == Reduce(old(State()), Action.FetchProductByIdFulfilled(product))
    {
      productDetail := productDetail.(status := Success);
      productDetail := productDetail.(product := Some(product));
    }

    method FetchProductByIdRejected(message: Option<string>)
      requires Valid()
      modifies this
      ensures Valid() && State() == Reduce(old(State()), Action.FetchProductByIdRejected(message))
    {
      productDetail := productDetail.(status := Failed);
      productDetail := productDetail.(error := Some(StringOr(message, FetchProductDetailError)));
    }

    method SearchProductsPending()
      requires Valid()
      modifies this
      ensures Valid() && State() == Reduce(old(State()), Action.SearchProductsPending)
    {
      products := products.(status := Loading);
      products := products.(error := None);
    }

    method SearchProductsFulfilled(result: SearchPayload)
      requires Valid()
      modifies this
      ensures Valid() && State() == Reduce(old(State()), Action.SearchProductsFulfilled(result))
    {
      products := products.(status := Success);
      products := products.(products := result.products.GetOr([]));
      products := products.(total := result.total.GetOr(0));
      products := products.(hasMore := false);
      products := products.(filteredProducts :=
        ApplyFiltersAndSort(result.products.GetOr([]), products.selectedCategory, products.sortOption));
    }

    method SearchProductsRejected(message: Option<string>)
      requires Valid()
      modifies this
      ensures Valid() && State() == Reduce(old(State()), Action.SearchProductsRejected(message))
    {
      products := products.(status := Failed);
      products := products.(error := Some(StringOr(message, SearchProductsError)));
    }

    method FetchCategoriesPending()
      requires Valid()
      modifies this
      ensures Valid() && State() == Reduce(old(State()), Action.FetchCategoriesPending)
    {
      products := products.(categoriesLoading := true);
    }

    method FetchCategoriesFulfilled(payload: CategoriesPayload)
      requires Valid()
      modifies this
      ensures Valid() && State() == Reduce(old(State()), Action.FetchCategoriesFulfilled(payload))
    {
      products := products.(categories := ValidCategories(payload));
      products := products.(categoriesLoading := false);
    }

    method FetchCategoriesRejected()
      requires Valid()
      modifies this
      ensures Valid() && State() == Reduce(old(State()), Action.FetchCategoriesRejected)
    {
      products := products.(categoriesLoading := false);
    }
  }
}
