/**
 * The Product document (backend/models/Product.js): schema bounds, the stock
 * counter clamped at zero, the availability and discount virtuals, and the
 * catalog statics that only ever return active products.
 *
 * Money is in integer cents. A document method that assigns `this.stock` and
 * saves is a function from the old document to the new one; the store writes
 * the result back (see module Store).
 */
module ProductModel {
  import opened Wrappers
  import opened Seqs
  import opened Text

  type ProductId = string
  type UserId = string

  datatype Category = Electronics | Fashion | Home | Lifestyle | Sports | Books | Toys | Other

  /** The enum value as the API spells it. */
  function CategoryName(c: Category): string
  {
    match c
    case Electronics => "Electronics"
    case Fashion => "Fashion"
    case Home => "Home"
    case Lifestyle => "Lifestyle"
    case Sports => "Sports"
    case Books => "Books"
    case Toys => "Toys"
    case Other => "Other"
  }

  datatype Product = Product(
    id: ProductId,
    name: string,
    description: string,
    price: int,
    originalPrice: Option<int>,
    image: string,
    rating: real,
    reviews: int,
    category: Category,
    sku: Option<string>,
    tags: seq<string>,
    stock: int,
    isOnSale: bool,
    isActive: bool,
    isFeatured: bool,
    createdBy: UserId,
    createdAt: int)

  /** The bounds the schema enforces when a product is saved. */
  predicate SchemaValid(p: Product)
  {
    && p.name != "" && |p.name| <= 100
    && p.description != "" && |p.description| <= 1000
    && p.image != ""
    && p.price >= 0
    && (p.originalPrice.Some? ==> p.originalPrice.value >= 0)
    && 0.0 <= p.rating <= 5.0
    && p.reviews >= 0
    && p.stock >= 0
  }

  /** `updateStock(quantity)`: add a signed delta to the stock, clamped at zero. */
  function UpdateStock(p: Product, quantity: int): (r: Product)
    ensures r.stock >= 0
    ensures r.stock >= p.stock + quantity && (r.stock == 0 || r.stock == p.stock + quantity)
    ensures r == p.(stock := r.stock)
  {
    p.(stock := ClampAtZero(p.stock + quantity))
  }

  /** `isInStock(quantity)`: enough stock and the product is active. */
  predicate IsInStock(p: Product, quantity: int)
  {
    p.stock >= quantity && p.isActive
  }

  /** `isInStock()` with its default quantity of 1. */
  predicate IsInStockDefault(p: Product)
  {
    IsInStock(p, 1)
  }

  /** The `isAvailable` virtual. */
  predicate IsAvailable(p: Product)
  {
    p.stock > 0 && p.isActive
  }

  /**
   * The `discountPercentage` virtual: the saving relative to originalPrice,
   * rounded half up like `Math.round`, computed exactly on rationals.
   * A missing or zero originalPrice (falsy in JavaScript) gives 0.
   */
  function DiscountPercentage(p: Product): (r: int)
    ensures r != 0 ==> p.originalPrice.Some? && p.originalPrice.value > p.price
  {
    match p.originalPrice
    case Some(orig) =>
      if orig != 0 && orig > p.price
      then ((orig - p.price) as real * 100.0 / orig as real + 0.5).Floor
      else 0
    case None => 0
  }

  /** For prices the schema allows, the discount is a percentage between 0 and 100. */
  lemma DiscountBounds(p: Product)
    requires SchemaValid(p)
    ensures 0 <= DiscountPercentage(p) <= 100
  {
    if p.originalPrice.Some? && p.originalPrice.value != 0 && p.originalPrice.value > p.price {
      var o := p.originalPrice.value as real;
      var x := (p.originalPrice.value - p.price) as real * 100.0 / o;
      assert 0.0 < x <= 100.0 by {
        assert (p.originalPrice.value - p.price) as real <= o;
      }
    }
  }

  /** After any stock update the stock is non-negative, so a valid product stays valid. */
  lemma UpdateStockKeepsSchema(p: Product, quantity: int)
    requires SchemaValid(p)
    ensures SchemaValid(UpdateStock(p, quantity))
  {
  }

  /** When `isInStock(q)` held, taking q away is exact: the clamp never engages. */
  lemma InStockDecrementIsExact(p: Product, q: int)
    requires IsInStock(p, q)
    ensures UpdateStock(p, -q).stock == p.stock - q
  {
  }

  /** An inactive product is never available, and never in stock for any quantity. */
  lemma InactiveNeverSold(p: Product, q: int)
    requires !p.isActive
    ensures !IsAvailable(p) && !IsInStock(p, q)
  {
  }

  /** With integer stock, `isInStock()` (quantity 1) and `isAvailable` agree. */
  lemma InStockDefaultIsAvailable(p: Product)
    ensures IsInStockDefault(p) <==> IsAvailable(p)
  {
  }

  /** `getByCategory(category)`: the active products of that category. */
  function GetByCategory(all: seq<Product>, c: Category): (r: seq<Product>)
    ensures forall i :: 0 <= i < |r| ==> r[i].isActive && r[i].category == c && r[i] in all
    ensures forall i :: 0 <= i < |all| && all[i].isActive && all[i].category == c ==> all[i] in r
  {
    Filter(all, (p: Product) => p.isActive && p.category == c)
  }

  /** `getFeatured()`: the active featured products. */
  function GetFeatured(all: seq<Product>): (r: seq<Product>)
    ensures forall i :: 0 <= i < |r| ==> r[i].isActive && r[i].isFeatured && r[i] in all
    ensures forall i :: 0 <= i < |all| && all[i].isActive && all[i].isFeatured ==> all[i] in r
  {
    Filter(all, (p: Product) => p.isFeatured && p.isActive)
  }

  /** `getOnSale()`: the active products on sale. */
  function GetOnSale(all: seq<Product>): (r: seq<Product>)
    ensures forall i :: 0 <= i < |r| ==> r[i].isActive && r[i].isOnSale && r[i] in all
    ensures forall i :: 0 <= i < |all| && all[i].isActive && all[i].isOnSale ==> all[i] in r
  {
    Filter(all, (p: Product) => p.isOnSale && p.isActive)
  }

  /** Case-insensitive match of a search term, as the `$regex ... 'i'` filters test it. */
  predicate MatchesIgnoringCase(field: string, term: string)
  {
    Contains(ToLower(field), ToLower(term))
  }

  /** The `$or` of the search: name, description or any tag matches the term. */
  predicate MatchesSearch(p: Product, term: string)
  {
    || MatchesIgnoringCase(p.name, term)
    || MatchesIgnoringCase(p.description, term)
    || exists i :: 0 <= i < |p.tags| && MatchesIgnoringCase(p.tags[i], term)
  }

  /** `search(query)`: the active products whose name, description or a tag matches. */
  function Search(all: seq<Product>, term: string): (r: seq<Product>)
    ensures forall i :: 0 <= i < |r| ==> r[i].isActive && MatchesSearch(r[i], term) && r[i] in all
    ensures forall i :: 0 <= i < |all| && all[i].isActive && MatchesSearch(all[i], term) ==> all[i] in r
  {
    Filter(all, (p: Product) => p.isActive && MatchesSearch(p, term))
  }
}
