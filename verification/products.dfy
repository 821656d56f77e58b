/** The catalog's value types, as declared at the top of app/store/productsSlice.ts. */
module Products {

  /**
   * A catalog item. JavaScript numbers become `real` where the source does
   * arithmetic on fractions (price, discount, rating) and `int` for counts and ids.
   */
  datatype Product = Product(
    id: int,
    title: string,
    description: string,
    price: real,
    discountPercentage: real,
    rating: real,
    stock: int,
    brand: string,
    category: string,
    thumbnail: string,
    images: seq<string>)

  /** One page of the remote listing: `{products, total, skip, limit}`. */
  datatype ProductsResponse = ProductsResponse(products: seq<Product>, total: int, skip: int, limit: int)

  /** The slice's `sortOption` union `'none' | 'price-asc' | 'price-desc' | 'rating-desc'`. */
  datatype SortOption = NoSort | PriceAsc | PriceDesc | RatingDesc
}
