/** The product record the front end renders and keeps in its state (src/components/ProductCard.tsx). */
module ShopProducts {
  import opened Wrappers

  datatype ShopProduct = ShopProduct(
    id: string,
    name: string,
    price: int,
    originalPrice: Option<int>,
    image: string,
    rating: real,
    reviews: int,
    category: string,
    isOnSale: Option<bool>)
}
