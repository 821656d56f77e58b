# Product catalog state, modelled in Dafny

This project models the state core of the mini product catalog app, a React
Native client for the dummyjson product API. It covers these parts:

- the Redux `products` slice (`app/store/productsSlice.ts`). This is the
  catalog list with its pagination bookkeeping (`total`, `skip`, `limit`,
  `hasMore`, `loadingMore`), the status of the list and of the product
  detail, the category list, and the derived `filteredProducts`. The derived
  list is recomputed by `applyFiltersAndSort` from the list, the selected
  category and the sort option.
- the `favorites` slice (`app/store/favoritesSlice.ts`): a list of product ids
  that the reducers change in place.
- the `useProducts` hook (`app/hooks/useProducts.ts`). It decides which
  thunks and actions each user intent dispatches: refresh, retry, load more,
  retry load more, search, category and sort selection, and clearing filters.
  It also derives `hasActiveFilters` and `displayProducts`.
- the `useFavoriteProducts` hook, which joins favorite ids against the
  loaded products.
- the products cache on the device key-value store (`app/utils/productsCache.ts`).
- the classification of HTTP errors into exceptions (`app/api/errors.ts`).

Layout, one module per file:

- `wrappers.dfy`: `Option`, plus JavaScript's `a || b` on strings and string
  truthiness.
- `seqs.dfy`: `Filter`, which is `Array.prototype.filter`, and its lemmas.
- `products.dfy`: the `Product`, `ProductsResponse` and `SortOption` types.
- `filter_sort.dfy`: `applyFiltersAndSort`.
- `products_slice.dfy`: the slice.
  - The reducer is the pure function `Reduce` over a state value.
  - The class `ProductsStore` holds the state in fields that its methods
    update step by step, the way the reducers update an Immer draft.
  - Each method is proved to produce `Reduce` of the old state.
- `favorites_slice.dfy`: the favorites slice.
  - The class `FavoritesStore` holds the `favoriteIds` sequence.
  - Its methods run the `indexOf`/`splice`/`push` steps of the source.
  - Each method is proved against a recursive reference definition.
- `use_products.dfy`: the `useProducts` hook.
  - Its handlers are functions that take a snapshot of the slice state and
    return the list of dispatches.
  - The hook's three `useState` fields are the class `ProductsScreen`.
- `use_favorite_products.dfy`: the `useFavoriteProducts` hook.
- `products_cache.dfy`: the products cache.
  - The key-value store is the class `KeyValueStore` over a `map`.
  - A storage failure is an explicit parameter.
- `api_errors.dfy`: `parseApiError` and `handleApiError`, as pure
  functions.

`Array.prototype.sort` has been stable since the 2019 edition of the
ECMAScript standard. The model sorts with a stable insertion sort that uses
the comparators of the source. `FilterSort.ApplyIsAnyStableSort` proves that
every stable arrangement by those comparators equals this one, so the result
does not depend on which sort algorithm the JavaScript engine uses.

JavaScript truthiness is modelled exactly where the code relies on it:

- `if (category)` treats `""` like `null`.
- `message || default` treats `""` like a missing message.
- `!error` in `handleLoadMore` also lets an empty error through.
  `UseProducts.LoadMoreGuardInReachableStates` shows that no reachable state
  stores an empty error.
- A default parameter value only replaces `undefined`, so
  `new NetworkException("")` keeps the empty message.

### Where the design description and the code differ (the model follows the code)

- The design says `hasMore` is `len(products) < total` after every successful
  fetch. The code also requires `skip + |page| < total`
  (app/store/productsSlice.ts:235-237). The two agree whenever the server
  echoes a skip consistent with the request.
  `ProductsSlice.FetchHasMoreAtConsistentSkip` proves this.
- The design says `loadingMore` is only ever true while the status is
  `success`. In the code, `handleRetryLoadMore` does not look at the status,
  so an appending fetch can start while the status is `failed`.
  `ProductsSlice.LoadingMoreWhileFailed` shows such a state.
- The design describes an offline fallback: a failed first page is replaced
  by the cached snapshot and flagged `isOffline`. No code in the slice does
  this. The slice state has no `isOffline` field, and the cache functions are
  never called from the reducers. A failed first load simply fails
  (`ProductsSlice.InitialLoadFailure`).
- The design says clearing the search returns to the previous scope. The
  search effect does nothing for a blank query
  (app/hooks/useProducts.ts:73-75).

## Model

| member | source | states |
|---|---|---|
| Wrappers.StringOr | app/store/productsSlice.ts:253 | the logical-or default: the message when it is a non-empty string, otherwise the fallback |
| Seqs.Filter | app/store/productsSlice.ts:133 | `filter` keeps exactly the elements that pass the test and never lengthens the list |
| FilterSort.Compare | app/store/productsSlice.ts:139-145 | the comparator is negative exactly when the first product goes strictly first (lower price, higher price, higher rating), and zero exactly on a tie or with no sort |
| FilterSort.CompareIsRankDifference | app/store/productsSlice.ts:137-150 | each comparator of the three sort options is the difference of a numeric key (price, minus price, minus rating) |
| FilterSort.InsertPermutes | app/store/productsSlice.ts:137-150 | inserting one product into the sorted tail adds exactly that product |
| FilterSort.InsertSorted | app/store/productsSlice.ts:137-150 | inserting into a sorted list keeps it sorted by the comparator |
| FilterSort.StableSort | app/store/productsSlice.ts:137-150 | the sort returns a permutation of its input that is ordered by the comparator |
| FilterSort.SelectCategory | app/store/productsSlice.ts:131-134 | a truthy category keeps the products of that category; `null` or `""` keeps the list as it is |
| FilterSort.InsertSameRank | app/store/productsSlice.ts:137-150 | inserting a product puts it ahead of the products with an equal key and leaves every other key class as it was |
| FilterSort.StableSortIsStable | app/store/productsSlice.ts:137-150 | products with equal keys keep their input order (stable sort) |
| FilterSort.StableSortIsUnique | app/store/productsSlice.ts:137-150 | two sorted lists with the same key classes, each in the same order, are equal |
| FilterSort.ApplyUnfilteredIsCopy | app/store/productsSlice.ts:129-153 | with no category and no sort, the result is a copy equal to the input |
| FilterSort.ApplySelectsCategory | app/store/productsSlice.ts:129-134 | with a category, the result holds exactly that category's products, with the same multiplicities; unsorted, it keeps their order |
| FilterSort.ApplyPermutesSelection | app/store/productsSlice.ts:124-153 | `applyFiltersAndSort`: the result is always a rearrangement of the category selection |
| FilterSort.ApplyOrdersByKey | app/store/productsSlice.ts:137-146 | price ascending is nondecreasing in price; price descending and rating descending are nonincreasing |
| FilterSort.ApplyIsStable | app/store/productsSlice.ts:137-150 | ties keep the order they had in the selection |
| FilterSort.ApplyIsAnyStableSort | app/store/productsSlice.ts:137-150 | any sorted and stable arrangement of the selection is the result, whatever the engine's algorithm |
| FilterSort.ApplyIsIdempotent | app/store/productsSlice.ts:124-153 | applying the same category and sort to the derived list changes nothing |
| FilterSort.PriceDescKeepsTiesInOrder | app/store/productsSlice.ts:141-143 | price descending on prices 5, 1, 5 gives the first 5, then the second 5, then 1 |
| ProductsSlice.ValidCategories | app/store/productsSlice.ts:297-302 | the category list is what filtering an array payload for non-empty strings keeps, in order and with repetitions; a non-array payload gives none |
| ProductsSlice.CategoriesKeepOrderAndCopies | app/store/productsSlice.ts:297-302 | the kept names follow the payload's order, and each appears as often as in the payload |
| ProductsSlice.Reduce | app/store/productsSlice.ts:159-309 | every reducer case keeps `filteredProducts` equal to `applyFiltersAndSort` of the list, category and sort |
| ProductsSlice.RunKeepsConsistent | app/store/productsSlice.ts:159-309 | the derived list stays a recomputation over any sequence of actions |
| ProductsSlice.InitialStateIsConsistent | app/store/productsSlice.ts:56-78 | the initial state (`InitialState`) already satisfies that invariant |
| ProductsSlice.ReduceKeepsErrorsNonEmpty | app/store/productsSlice.ts:246-290 | no reducer stores an empty error message, because a rejection without a message stores the fixed default |
| ProductsSlice.RunKeepsErrorsNonEmpty | app/store/productsSlice.ts:246-290 | the same over any sequence of actions |
| ProductsSlice.FetchPendingEffect | app/store/productsSlice.ts:199-207 | a pending append only sets `loadingMore`; a pending first page sets `loading` and clears the error; the list stays |
| ProductsSlice.FetchFulfilledAppend | app/store/productsSlice.ts:218-224 | an appended page lands after the old list, which is kept as a prefix; `loadingMore` is cleared and the status is unchanged |
| ProductsSlice.FetchFulfilledReplace | app/store/productsSlice.ts:225-229 | a first page replaces the list and sets `success` |
| ProductsSlice.FetchFulfilledBookkeeping | app/store/productsSlice.ts:215-237 | a fulfilled fetch clears the error and copies total, skip and limit; `hasMore` holds iff the list is shorter than total and skip plus the page length is below total |
| ProductsSlice.FetchHasMoreAtConsistentSkip | app/store/productsSlice.ts:234-237 | when skip is 0 for a first page, or the current length for an append, `hasMore` holds iff fewer than `total` products are held |
| ProductsSlice.SearchFulfilledEffect | app/store/productsSlice.ts:274-285 | search results replace the list, a missing total becomes 0, the status is `success` and `hasMore` is false |
| ProductsSlice.RejectedKeepsProducts | app/store/productsSlice.ts:246-290 | a rejected fetch or search keeps the list. A rejected append only clears `loadingMore`; any other rejection sets `failed`. The error is the message, or the default |
| ProductsSlice.ClearFiltersResets | app/store/productsSlice.ts:188-194 | `clearFilters` empties the query, category and sort, and the derived list equals the full list |
| ProductsSlice.SortIsLocal | app/store/productsSlice.ts:179-187 | changing the sort touches only the derived list, not `products` or the status |
| ProductsSlice.InitialLoadFailure | app/store/productsSlice.ts:199-254 | a failed first load from the initial state: status `failed`, empty lists, a non-empty error |
| ProductsSlice.LoadingMoreWhileFailed | app/store/productsSlice.ts:199-254 | failed first load, then an append: the status is `failed` and `loadingMore` is true |
| ProductsSlice.ProductsStore.constructor | app/store/productsSlice.ts:56-78 | the store starts in the initial state, which is consistent |
| ProductsSlice.ProductsStore.ClearProductDetail | app/store/productsSlice.ts:160-166 | the detail goes back to idle with no product and no error |
| ProductsSlice.ProductsStore.SetSearchQuery | app/store/productsSlice.ts:167-169 | only the query changes |
| ProductsSlice.ProductsStore.SetSelectedCategory | app/store/productsSlice.ts:170-178 | sets the category and recomputes the derived list |
| ProductsSlice.ProductsStore.SetSortOption | app/store/productsSlice.ts:179-187 | sets the sort and recomputes the derived list |
| ProductsSlice.ProductsStore.ClearFilters | app/store/productsSlice.ts:188-194 | resets query, category and sort; the derived list is a copy of the list |
| ProductsSlice.ProductsStore.FetchProductsPending | app/store/productsSlice.ts:199-207 | the draft update equals the reducer case and keeps the invariant |
| ProductsSlice.ProductsStore.FetchProductsFulfilled | app/store/productsSlice.ts:208-245 | the step-by-step draft update (error, list, loading flag or status, page fields, `hasMore`, derived list) equals the reducer case and keeps the invariant |
| ProductsSlice.ProductsStore.FetchProductsRejected | app/store/productsSlice.ts:246-254 | as the reducer case: `loadingMore` or status, then the error message or its default |
| ProductsSlice.ProductsStore.FetchProductByIdPending | app/store/productsSlice.ts:256-259 | detail loading, error cleared |
| ProductsSlice.ProductsStore.FetchProductByIdFulfilled | app/store/productsSlice.ts:260-263 | detail success with the product |
| ProductsSlice.ProductsStore.FetchProductByIdRejected | app/store/productsSlice.ts:264-268 | detail failed with the message or its default |
| ProductsSlice.ProductsStore.SearchProductsPending | app/store/productsSlice.ts:270-273 | status loading, error cleared |
| ProductsSlice.ProductsStore.SearchProductsFulfilled | app/store/productsSlice.ts:274-285 | as the reducer case, keeping the invariant |
| ProductsSlice.ProductsStore.SearchProductsRejected | app/store/productsSlice.ts:286-290 | status failed with the message or its default |
| ProductsSlice.ProductsStore.FetchCategoriesPending | app/store/productsSlice.ts:292-294 | categories loading |
| ProductsSlice.ProductsStore.FetchCategoriesFulfilled | app/store/productsSlice.ts:295-305 | the valid categories, loading cleared |
| ProductsSlice.ProductsStore.FetchCategoriesRejected | app/store/productsSlice.ts:306-309 | loading cleared, categories kept |
| FavoritesSlice.IndexOf | app/store/favoritesSlice.ts:17 | `indexOf` is -1 exactly when the id is absent, and otherwise the first position holding it |
| FavoritesSlice.RemoveFirst | app/store/favoritesSlice.ts:32-38 | removing is one shorter exactly when the id is present, and every other id stays present or absent as it was |
| FavoritesSlice.Toggled | app/store/favoritesSlice.ts:15-25 | toggling an absent id makes it present and lengthens the list by one; toggling a present one shortens it by one; every other id keeps its membership |
| FavoritesSlice.Added | app/store/favoritesSlice.ts:26-31 | after adding, the id is present and the ids present are the old ones plus it; the list grows only when the id was absent |
| FavoritesSlice.SpliceIsRemoveFirst | app/store/favoritesSlice.ts:17-20 | `splice(indexOf(id), 1)` deletes exactly the first occurrence |
| FavoritesSlice.RemoveFirstEffect | app/store/favoritesSlice.ts:32-38 | removing takes away one copy of a present id, changes nothing for an absent one, and keeps the other ids in order |
| FavoritesSlice.ToggleEffect | app/store/favoritesSlice.ts:15-25 | toggling appends an absent id at the end, drops one copy of a present one, and keeps the other ids in order |
| FavoritesSlice.RemoveFirstFromDistinct | app/store/favoritesSlice.ts:32-38 | on a list without duplicates, removing leaves the id absent |
| FavoritesSlice.OperationsKeepNoDuplicates | app/store/favoritesSlice.ts:15-38 | toggle, add and remove keep a list without duplicates free of them |
| FavoritesSlice.ToggleTwice | app/store/favoritesSlice.ts:15-25 | on a list without duplicates, toggling twice restores the set of favorites |
| FavoritesSlice.ToggleTwiceFromAbsent | app/store/favoritesSlice.ts:15-25 | on any list, toggling an absent id twice restores the exact list |
| FavoritesSlice.ToggleTwiceKeepsOtherIds | app/store/favoritesSlice.ts:15-25 | on any list, even one with duplicates, toggling an id twice leaves every other id's membership as it was |
| FavoritesSlice.RemoveAppended | app/store/favoritesSlice.ts:15-25 | removing an id just appended gives the old list back |
| FavoritesSlice.AddIsIdempotent | app/store/favoritesSlice.ts:26-31 | adding a present id changes nothing; adding twice is adding once |
| FavoritesSlice.RemoveIsIdempotent | app/store/favoritesSlice.ts:32-38 | removing an absent id changes nothing; without duplicates, removing twice is removing once |
| FavoritesSlice.FavoritesStore.constructor | app/store/favoritesSlice.ts:7-9 | no favorites at first |
| FavoritesSlice.FavoritesStore.ToggleFavorite | app/store/favoritesSlice.ts:15-25 | the `indexOf` then `splice` or `push` update gives the toggled list and keeps it free of duplicates |
| FavoritesSlice.FavoritesStore.AddFavorite | app/store/favoritesSlice.ts:26-31 | appends only an absent id and keeps the list free of duplicates |
| FavoritesSlice.FavoritesStore.RemoveFavorite | app/store/favoritesSlice.ts:32-38 | deletes the first occurrence, if any |
| FavoritesSlice.FavoritesStore.ClearFavorites | app/store/favoritesSlice.ts:39-41 | empties the list |
| UseFavoriteProducts.UseFavoriteProducts | app/hooks/useFavoriteProducts.ts:20-29 | the joined list holds exactly the loaded products whose id is a favorite; the ids are returned unchanged |
| UseFavoriteProducts.JoinKeepsCatalogOrder | app/hooks/useFavoriteProducts.ts:20-24 | the join keeps catalog order and each product's multiplicity |
| UseFavoriteProducts.UnloadedFavoriteContributesNothing | app/hooks/useFavoriteProducts.ts:20-24 | a favorite id with no loaded product adds nothing |
| UseFavoriteProducts.JoinDependsOnlyOnIdSet | app/hooks/useFavoriteProducts.ts:20-24 | only the set of favorite ids matters, not their order or repetition |
| UseFavoriteProducts.ToggleTwiceKeepsJoin | app/hooks/useFavoriteProducts.ts:20-24 | toggling a favorite twice leaves the favorites screen unchanged |
| UseProducts.MountEffect | app/hooks/useProducts.ts:47-64 | an idle screen requests the cache first and the first page last, after the cache request settles; categories are requested, in between, iff none are held and none are loading; a screen that is not idle requests nothing but the categories; each request appears at most once |
| UseProducts.Trim | app/hooks/useProducts.ts:69 | `trim` leaves no ECMAScript whitespace at either end |
| UseProducts.TrimIsSlice | app/hooks/useProducts.ts:69 | `trim` removes only a whitespace prefix and a whitespace suffix |
| UseProducts.TrimIsEmptyIffBlank | app/hooks/useProducts.ts:69-71 | the trimmed query is empty iff the query is all whitespace |
| UseProducts.SearchEffect | app/hooks/useProducts.ts:68-77 | a blank query dispatches nothing; otherwise one search for the trimmed, non-empty query |
| UseProducts.HandleRefresh | app/hooks/useProducts.ts:79-82 | refresh requests exactly one unscoped page: 10 products from offset 0, replacing the list |
| UseProducts.HandleRetry | app/hooks/useProducts.ts:116-118 | retry sends the same request as refresh |
| UseProducts.HandleRetryLoadMore | app/hooks/useProducts.ts:84-90 | dispatches the next unscoped page from the current length iff nothing is loading and more is expected |
| UseProducts.CanLoadMore | app/hooks/useProducts.ts:94-100 | the load-more guard holds iff nothing is loading, more is expected, the status is `success` and the error is absent or the empty string |
| UseProducts.HandleLoadMore | app/hooks/useProducts.ts:92-114 | dispatches one appending page of 10 at the current length iff the guard holds, scoped iff the category is truthy |
| UseProducts.HasActiveFilters | app/hooks/useProducts.ts:151-153 | active iff a category (even `""`) or a sort is set |
| UseProducts.DisplayProducts | app/hooks/useProducts.ts:157-160 | the derived list when it is non-empty or a filter is active, otherwise the raw list |
| UseProducts.SelectedSlug | app/hooks/useProducts.ts:120-127 | the corrected behaviour (see Findings): the value stored for a pick is its slug, and `null` for "all categories". As written, line 122 stores the picked object itself (`UseProducts.StoredAsWritten`) |
| UseProducts.PickedObjectSelectsNothing | app/hooks/useProducts.ts:122 | as written, storing the picked object makes the category filter select no product |
| UseProducts.StoredSlugIsModelSelection | app/store/productsSlice.ts:132-133 | a stored slug string filters exactly like the slice model's selection |
| UseProducts.SelectedSlugShowsItsCategory | app/hooks/useProducts.ts:120-127 | storing the slug makes the derived list hold exactly the picked category's products |
| UseProducts.DisplayIsFilteredWhenConsistent | app/hooks/useProducts.ts:155-160 | in a consistent state, the fallback to the raw list shows the same list as the derived one |
| UseProducts.LoadMoreGuardInReachableStates | app/hooks/useProducts.ts:94-100 | in every reachable state, `!error` means that no error is stored |
| UseProducts.MountFromInitialState | app/hooks/useProducts.ts:47-64 | on the initial state (app/store/productsSlice.ts:56-78), mounting requests the cache, the categories and the first page in that order; load-more does nothing, while retry-load-more would request an appending page at offset 0 |
| UseProducts.SearchResultsDoNotPaginate | app/hooks/useProducts.ts:92-114 | once search results arrive, neither load-more handler dispatches anything |
| UseProducts.FetchRoundEffect | app/store/productsSlice.ts:199-245 | one fetch round whose skip is consistent: the page is appended or replaces the list, status `success`, no error, and `hasMore` iff fewer than total are held |
| UseProducts.PagingThroughThirty | app/hooks/useProducts.ts:92-114 | first page plus two load-mores of 10 out of 30 hold all 30 in order; then `hasMore` is false and load-more does nothing |
| UseProducts.ProductsScreen.constructor | app/hooks/useProducts.ts:42-44 | empty search box, both pickers closed |
| UseProducts.ProductsScreen.SetLocalSearchQuery | app/hooks/useProducts.ts:42 | sets only the search box |
| UseProducts.ProductsScreen.SetShowCategoryModal | app/hooks/useProducts.ts:43 | sets only the category picker flag |
| UseProducts.ProductsScreen.SetShowSortModal | app/hooks/useProducts.ts:44 | sets only the sort picker flag |
| UseProducts.ProductsScreen.HandleCategorySelect | app/hooks/useProducts.ts:120-134 | stores the pick's slug (see Findings), closes the picker, and requests the first page scoped to the slug, or unscoped for "all" |
| UseProducts.ProductsScreen.HandleSortSelect | app/hooks/useProducts.ts:136-142 | only records the sort and closes the picker; no fetch |
| UseProducts.ProductsScreen.HandleClearFilters | app/hooks/useProducts.ts:144-149 | empties the search box, then dispatches `clearFilters` and the unscoped first page |
| ProductsCache.Saved | app/utils/productsCache.ts:16-28 | a save writes `{data, timestamp}` under the cache key only; a failed save leaves the store as it was |
| ProductsCache.Loaded | app/utils/productsCache.ts:33-44 | a load gives the stored record iff the key is present and the read succeeds; otherwise `null` |
| ProductsCache.Cleared | app/utils/productsCache.ts:49-56 | a clear removes the cache key and the timestamp key and keeps every other key and value; a throwing removal stops the removals after it, so a failing first removal changes nothing and a failing second one keeps the timestamp key |
| ProductsCache.SaveThenLoad | app/utils/productsCache.ts:16-44 | a load after a successful save returns the saved data and its save time |
| ProductsCache.ClearThenLoad | app/utils/productsCache.ts:33-56 | after a clear whose first removal succeeded, a load returns `null` |
| ProductsCache.SaveLeavesTimestampKey | app/utils/productsCache.ts:16-28 | saving never writes the separate timestamp key |
| ProductsCache.LoadSeesLastSave | app/utils/productsCache.ts:16-56 | after any sequence of saves and clears, a load returns the last surviving save |
| ProductsCache.KeyValueStore.SaveProductsToCache | app/utils/productsCache.ts:16-28 | the store after the call is `Saved` of the old one |
| ProductsCache.KeyValueStore.LoadProductsFromCache | app/utils/productsCache.ts:33-44 | returns `Loaded` of the store; it never throws |
| ProductsCache.KeyValueStore.ClearProductsCache | app/utils/productsCache.ts:49-56 | the store after the call is `Cleared` of the old one |
| ApiErrors.NewNetworkException | app/api/errors.ts:24-33 | a network exception keeping the original error; the default message replaces only a missing message, not an empty one |
| ApiErrors.NewUnauthorizedException | app/api/errors.ts:35-40 | an unauthorized exception with the given message, status 401, no field errors and the original error |
| ApiErrors.ParseApiError | app/api/errors.ts:45-61 | the message is never empty. With a response: the body's message if non-empty, else the client's message if non-empty, else the generic text; the status and field errors are carried over. Without one: the client's message if non-empty, else the network default |
| ApiErrors.ParsedMessagePrecedence | app/api/errors.ts:45-61 | a non-empty body message decides the message whatever the client says; two empty or missing client messages give the same result |
| ApiErrors.HandleApiError | app/api/errors.ts:66-92 | always throws. Network exception iff there is no response; unauthorized iff the status is 401, and only then is a token refresh attempted. Any response status is kept |
| ApiErrors.NoResponseIsNetwork | app/api/errors.ts:67-70 | no response: a network exception with the client's message, or the default when there is none |
| ApiErrors.UnauthorizedAfterRefresh | app/api/errors.ts:75-78 | 401: refresh first, then an unauthorized exception with status 401 and no field errors |
| ApiErrors.FixedMessageStatuses | app/api/errors.ts:79-87 | 403, 404 and 500 get their fixed messages and no field errors |
| ApiErrors.ValidationKeepsFieldErrors | app/api/errors.ts:83-85 | 422 passes on the body's field errors |
| ApiErrors.OtherStatusesUseParsedError | app/api/errors.ts:88-90 | any other status uses `parseApiError`'s message, status and field errors |
| ApiErrors.ThrownMessages | app/api/errors.ts:45-70 | with a response, the thrown message is never empty. With none, an empty client message is thrown as it is, though `parseApiError` would give the default |

## Findings

| source | as written | input that shows it | evidently intended | confidence | as-written member | corrected member |
|---|---|---|---|---|---|---|
| app/hooks/useProducts.ts:122 | `handleCategorySelect` dispatches `setSelectedCategory(category)` with the picker's `{slug, name}` object. The slice stores it as `selectedCategory`, and `applyFiltersAndSort` compares each product's category string with it using `===` (app/store/productsSlice.ts:132-133) | pick `{slug: "beauty", name: "Beauty"}` while beauty products are loaded: `filteredProducts` becomes empty, and because a category is set, the screen shows no products | store `category.slug`, as the state's declared type (a string or null) and the filter expect | high (not executed) | UseProducts.PickedObjectSelectsNothing | UseProducts.SelectedSlugShowsItsCategory |

`UseProducts.ProductsScreen.HandleCategorySelect` uses the corrected
behaviour: it dispatches the slug (`UseProducts.SelectedSlug`).

## Left out

- The bodies of the thunks `fetchProducts`, `searchProducts`,
  `fetchCategories` and `fetchProductById` (app/store/productsSlice.ts:81-121)
  are HTTP calls. Their results enter the model as the payloads of the
  fulfilled actions, and their failures as the optional message of the
  rejected actions.
- `fetchProductsByCategory` and `loadCachedProducts` are imported by the hook
  but defined nowhere in app/store/productsSlice.ts. The model records the
  hook's request as a `Dispatch` value, and no reducer handles it.
- `isOffline` and `selectedCategoryName` are read by the hook but are not
  fields of the slice state, so they are always their defaults (`false`,
  `null`). The model leaves them out.
- The offline fallback to the cached snapshot is described by the design but
  is not in the code (see above), so it is not modelled.
- The 400 ms debounce (`useDebounce`) is a timer. `SearchEffect` takes the
  debounced value as its input.
- Concurrency: the model applies actions in the order given. Responses that
  arrive out of order, and a stale append landing after a refresh, are not
  modelled.
- The `|| []` fallbacks on `state.products.products` in the reducers are left
  out: the model's list is always present. A fulfilled fetch always has a
  `products` array, because the reducer reads `newProducts.length` without a
  guard.
- Prices and ratings are real numbers. NaN and infinities, for which a
  comparator is not consistent, are not modelled.
- Numbers are unbounded integers and reals; JavaScript's 64-bit floating
  point is not modelled.
- `handleUnauthorized`'s token refresh (app/utils/token) is not part of this
  model. Only the fact that a refresh
  is attempted is modelled, as `refreshAttempted`. Its failure is logged and
  swallowed in the source, so it never changes the thrown exception.
- The value under the cache's timestamp key is a string in the source, which
  these functions never write or read. The model's store holds records only,
  so that value is left abstract; only whether the key is present is tracked.
- The cache's `JSON.stringify`/`JSON.parse` round trip is taken to be the
  identity on the cached record. `Date.now()` is a parameter. `console.error`
  logging is omitted.
- redux-persist, the store setup, navigation and every screen and component
  are outside this model.
