/**
 * The `favoriteProducts` join of app/hooks/useFavoriteProducts.ts: the loaded
 * products whose id is among the favorite ids, in catalog order.
 */
module UseFavoriteProducts {
  import opened Seqs
  import opened Products
  import FavoritesSlice

  /** What the hook returns: the joined list and the ids it read. */
  datatype FavoriteProducts = FavoriteProducts(favoriteProducts: seq<Product>, favoriteIds: seq<int>)

  /** The test `favoriteIds.includes(product.id)`. */
  function IsFavorite(favoriteIds: seq<int>): Product -> bool {
    (p: Product) => p.id in favoriteIds
  }

  function UseFavoriteProducts(favoriteIds: seq<int>, allProducts: seq<Product>): (r: FavoriteProducts)
    ensures r.favoriteIds == favoriteIds
    ensures forall p :: p in r.favoriteProducts <==> p in allProducts && p.id in favoriteIds
    ensures favoriteIds == [] ==> r.favoriteProducts == []
  {
    var favoriteProducts := Filter(allProducts, IsFavorite(favoriteIds));
    assert favoriteProducts != [] ==> favoriteProducts[0] in favoriteProducts;
    FavoriteProducts(favoriteProducts, favoriteIds)
  }

  /**
   * The join is a subsequence of the loaded list (order preserved) and holds
   * every favorited product exactly as often as the loaded list does.
   */
  lemma JoinKeepsCatalogOrder(favoriteIds: seq<int>, allProducts: seq<Product>)
    ensures IsSubsequence(UseFavoriteProducts(favoriteIds, allProducts).favoriteProducts, allProducts)
    ensures forall p :: multiset(UseFavoriteProducts(favoriteIds, allProducts).favoriteProducts)[p]
                        == if p.id in favoriteIds then multiset(allProducts)[p] else 0
  {
    FilterIsSubsequence(allProducts, IsFavorite(favoriteIds));
    forall p ensures multiset(UseFavoriteProducts(favoriteIds, allProducts).favoriteProducts)[p]
                     == if p.id in favoriteIds then multiset(allProducts)[p] else 0 {
      FilterCounts(allProducts, IsFavorite(favoriteIds), p);
    }
  }

  /** A favorited id with no loaded product contributes nothing. */
  lemma UnloadedFavoriteContributesNothing(favoriteIds: seq<int>, allProducts: seq<Product>, id: int)
    requires forall p :: p in allProducts ==> p.id != id
    ensures UseFavoriteProducts(favoriteIds + [id], allProducts).favoriteProducts
         == UseFavoriteProducts(favoriteIds, allProducts).favoriteProducts
  {
    FilterCongruent(allProducts, IsFavorite(favoriteIds + [id]), IsFavorite(favoriteIds));
  }

  /** Only the set of ids matters, not their order or repetition. */
  lemma JoinDependsOnlyOnIdSet(ids1: seq<int>, ids2: seq<int>, allProducts: seq<Product>)
    requires forall id :: id in ids1 <==> id in ids2
    ensures UseFavoriteProducts(ids1, allProducts).favoriteProducts
         == UseFavoriteProducts(ids2, allProducts).favoriteProducts
  {
    FilterCongruent(allProducts, IsFavorite(ids1), IsFavorite(ids2));
  }

  /**
   * Toggling a product off and on again moves its id to the end of the
   * favorites list, but the joined list is the same as before.
   */
  lemma ToggleTwiceKeepsJoin(favoriteIds: seq<int>, allProducts: seq<Product>, id: int)
    requires FavoritesSlice.NoDuplicates(favoriteIds)
    ensures UseFavoriteProducts(FavoritesSlice.Toggled(FavoritesSlice.Toggled(favoriteIds, id), id), allProducts).favoriteProducts
         == UseFavoriteProducts(favoriteIds, allProducts).favoriteProducts
  {
    var twice := FavoritesSlice.Toggled(FavoritesSlice.Toggled(favoriteIds, id), id);
    FavoritesSlice.ToggleTwice(favoriteIds, id);
    JoinDependsOnlyOnIdSet(twice, favoriteIds, allProducts);
  }
}
