/**
 * The product endpoints (backend/controllers/productController.js): the
 * listing's query, sort and pagination construction, the soft delete and the
 * stock adjustment.
 *
 * MongoDB's `find(query).sort(sort)` is represented by the collection handed
 * in already in the order of the requested sort (`ordered`); the listing then
 * keeps the matching products and cuts one page out of them.
 */
module ProductController {
  import opened Wrappers
  import opened Seqs
  import opened ProductModel
  import opened OrderModel
  import opened Store

  /**
   * The query string of `GET /api/products`. A parameter that is absent or
   * empty is None; page and limit are the result of `parseInt` (None for NaN);
   * minPrice and maxPrice the result of `parseFloat`, in cents.
   */
  datatype ListingParams = ListingParams(
    page: Option<int>,
    limit: Option<int>,
    category: Option<string>,
    minPrice: Option<int>,
    maxPrice: Option<int>,
    onSale: Option<string>,
    featured: Option<string>,
    search: Option<string>,
    sort: Option<string>)

  /** The MongoDB filter the listing builds; `isActive: true` is always part of it. */
  datatype Query = Query(
    category: Option<string>,
    minPrice: Option<int>,
    maxPrice: Option<int>,
    onSale: bool,
    featured: bool,
    search: Option<string>)

  datatype SortKey = ByPrice | ByRating | ByCreatedAt

  datatype SortSpec = SortSpec(key: SortKey, ascending: bool)

  datatype PageLink = PageLink(page: int, limit: int)

  datatype Pagination = Pagination(next: Option<PageLink>, prev: Option<PageLink>)

  datatype Listing = Listing(count: nat, pagination: Pagination, total: nat, data: seq<Product>)

  /** Each filter is added only when its parameter is present; the two flags only for the string "true". */
  function QueryFor(params: ListingParams): (q: Query)
    ensures q.category == params.category && q.search == params.search
    ensures q.minPrice == params.minPrice && q.maxPrice == params.maxPrice
    ensures q.onSale <==> params.onSale == Some("true")
    ensures q.featured <==> params.featured == Some("true")
  {
    Query(params.category, params.minPrice, params.maxPrice,
          params.onSale == Some("true"), params.featured == Some("true"), params.search)
  }

  /** Whether a product satisfies the listing's filter. */
  predicate Matches(p: Product, q: Query)
  {
    && p.isActive
    && (q.category.Some? ==> CategoryName(p.category) == q.category.value)
    && (q.minPrice.Some? ==> p.price >= q.minPrice.value)
    && (q.maxPrice.Some? ==> p.price <= q.maxPrice.value)
    && (q.onSale ==> p.isOnSale)
    && (q.featured ==> p.isFeatured)
    && (q.search.Some? ==> MatchesSearch(p, q.search.value))
  }

  /** The sort the `sort` parameter selects; anything unrecognised, or nothing, is newest first. */
  function SortFor(sort: Option<string>): (spec: SortSpec)
    ensures sort == Some("price_asc") ==> spec == SortSpec(ByPrice, true)
    ensures sort == Some("price_desc") ==> spec == SortSpec(ByPrice, false)
    ensures sort == Some("rating") ==> spec == SortSpec(ByRating, false)
    ensures sort == Some("oldest") ==> spec == SortSpec(ByCreatedAt, true)
    ensures sort !in {Some("price_asc"), Some("price_desc"), Some("rating"), Some("oldest")} ==>
      spec == SortSpec(ByCreatedAt, false)
  {
    match sort
    case None => SortSpec(ByCreatedAt, false)
    case Some(s) =>
      if s == "price_asc" then SortSpec(ByPrice, true)
      else if s == "price_desc" then SortSpec(ByPrice, false)
      else if s == "rating" then SortSpec(ByRating, false)
      else if s == "newest" then SortSpec(ByCreatedAt, false)
      else if s == "oldest" then SortSpec(ByCreatedAt, true)
      else SortSpec(ByCreatedAt, false)
  }

  /** `a` may come before `b` under the sort. */
  predicate InOrder(spec: SortSpec, a: Product, b: Product)
  {
    match spec.key
    case ByPrice => if spec.ascending then a.price <= b.price else a.price >= b.price
    case ByRating => if spec.ascending then a.rating <= b.rating else a.rating >= b.rating
    case ByCreatedAt => if spec.ascending then a.createdAt <= b.createdAt else a.createdAt >= b.createdAt
  }

  predicate SortedBy(s: seq<Product>, spec: SortSpec)
  {
    Pairwise(s, (a, b) => InOrder(spec, a, b))
  }

  /** The links of the response: next iff endIndex < total, prev iff startIndex > 0. */
  function PaginationFor(page: int, limit: int, total: int): (r: Pagination)
    ensures r.next.Some? <==> page * limit < total
    ensures r.next.Some? ==> r.next.value == PageLink(page + 1, limit)
    ensures r.prev.Some? <==> Skip(page, limit) > 0
    ensures r.prev.Some? ==> r.prev.value == PageLink(page - 1, limit)
  {
    var startIndex := (page - 1) * limit;
    var endIndex := page * limit;
    Pagination(if endIndex < total then Some(PageLink(page + 1, limit)) else None,
               if startIndex > 0 then Some(PageLink(page - 1, limit)) else None)
  }

  /**
   * `getProducts` as written: page and limit default to 1 and 12, `total`
   * counts every active product whatever the filters, and the links are
   * computed from that total. A negative skip is rejected by MongoDB.
   */
  function GetProducts(ordered: seq<Product>, params: ListingParams): (r: Reply<Listing>)
  {
    var page := ParamOr(params.page, 1);
    var limit := ParamOr(params.limit, 12);
    var total := Count(ordered, (p: Product) => p.isActive);
    var q := QueryFor(params);
    var matches := Filter(ordered, (p: Product) => Matches(p, q));
    match PageOf(matches, page, limit)
    case None => Thrown("negative skip")
    case Some(data) => Success(200, Listing(|data|, PaginationFor(page, limit, total), total, data))
  }

  /**
   * What a listing answers: only active products that pass every filter
   * present, at most `limit` of them, in the order of the requested sort;
   * `total` is the number of active products.
   */
  lemma GetProductsContract(ordered: seq<Product>, params: ListingParams)
    ensures var r := GetProducts(ordered, params);
      var page := ParamOr(params.page, 1);
      var limit := ParamOr(params.limit, 12);
      && (r.Success? <==> Skip(page, limit) >= 0)
      && (r.Success? || r.Thrown?)
      && (r.Success? ==>
            && r.body.count == |r.body.data|
            && (limit > 0 ==> r.body.count <= limit)
            && r.body.total == Count(ordered, (p: Product) => p.isActive)
            && r.body.pagination == PaginationFor(page, limit, r.body.total)
            && (forall i :: 0 <= i < |r.body.data| ==>
                  r.body.data[i] in ordered && r.body.data[i].isActive && Matches(r.body.data[i], QueryFor(params)))
            && (SortedBy(ordered, SortFor(params.sort)) ==> SortedBy(r.body.data, SortFor(params.sort)))
            && r.body.data == Window(Filter(ordered, (p: Product) => Matches(p, QueryFor(params))), Skip(page, limit), limit))
  {
    var page := ParamOr(params.page, 1);
    var limit := ParamOr(params.limit, 12);
    var q := QueryFor(params);
    var keep := (p: Product) => Matches(p, q);
    var matches := Filter(ordered, keep);
    var r := GetProducts(ordered, params);
    if r.Success? {
      var skip := Skip(page, limit);
      assert r.body.data == Window(matches, skip, limit);
      var before := (a, b) => InOrder(SortFor(params.sort), a, b);
      if SortedBy(ordered, SortFor(params.sort)) {
        FilterKeepsPairwise(ordered, keep, before);
        WindowKeepsPairwise(matches, skip, limit, before);
      }
    }
  }

  // ----- Finding: the links count products the filters exclude -----------------

  /** A product for the example below. */
  function Sample(id: ProductId, c: Category): Product
  {
    Product(id, "Item", "An item", 1000, None, "item.jpg", 0.0, 0, c, None, [], 5, false, true, false, "admin", 0)
  }

  /**
   * With one Books product and one Electronics product, listing Books one per
   * page offers a next page although the second page of Books is empty.
   */
  lemma NextLinkCountsUnfilteredProducts()
    ensures var all := [Sample("a", Books), Sample("b", Electronics)];
      var params := ListingParams(Some(1), Some(1), Some("Books"), None, None, None, None, None, None);
      var next := params.(page := Some(2));
      && GetProducts(all, params).Success?
      && GetProducts(all, params).body.pagination.next == Some(PageLink(2, 1))
      && GetProducts(all, next).Success?
      && GetProducts(all, next).body.data == []
  {
    var all := [Sample("a", Books), Sample("b", Electronics)];
    var params := ListingParams(Some(1), Some(1), Some("Books"), None, None, None, None, None, None);
    assert Count(all, (p: Product) => p.isActive) == 2;
    var q := QueryFor(params);
    assert Filter(all, (p: Product) => Matches(p, q)) == [Sample("a", Books)];
    var q2 := QueryFor(params.(page := Some(2)));
    assert Filter(all, (p: Product) => Matches(p, q2)) == [Sample("a", Books)];
  }

  /** The listing with `total` counting the products the query matches. */
  function GetProductsCounted(ordered: seq<Product>, params: ListingParams): (r: Reply<Listing>)
  {
    var page := ParamOr(params.page, 1);
    var limit := ParamOr(params.limit, 12);
    var q := QueryFor(params);
    var matches := Filter(ordered, (p: Product) => Matches(p, q));
    match PageOf(matches, page, limit)
    case None => Thrown("negative skip")
    case Some(data) => Success(200, Listing(|data|, PaginationFor(page, limit, |matches|), |matches|, data))
  }

  /**
   * With the matching count, and a positive limit, a next link is offered
   * exactly when the next page has products, and the page itself is the
   * same one the listing as written returns.
   */
  lemma CountedNextLinkIsExact(ordered: seq<Product>, params: ListingParams)
    requires ParamOr(params.limit, 12) > 0
    ensures var r := GetProductsCounted(ordered, params);
      var page := ParamOr(params.page, 1);
      r.Success? ==>
        && r.body.data == GetProducts(ordered, params).body.data
        && (r.body.pagination.next.Some? <==>
              GetProductsCounted(ordered, params.(page := Some(page + 1))).body.data != [])
  {
    var page := ParamOr(params.page, 1);
    var limit := ParamOr(params.limit, 12);
    var r := GetProductsCounted(ordered, params);
    if r.Success? {
      var q := QueryFor(params);
      var next := params.(page := Some(page + 1));
      assert QueryFor(next) == q;
      assert Skip(page + 1, limit) == Skip(page, limit) + limit;
      assert ParamOr(next.page, 1) == page + 1;
    }
  }

  // ----- deleteProduct / updateStock ------------------------------------------------

  /** `deleteProduct`: 404, or the product kept in the collection with isActive false. */
  method DeleteProduct(db: Database, id: ProductId) returns (r: Reply<string>)
    requires db.Valid()
    modifies db
    ensures db.Valid()
    ensures id !in old(db.products) ==> r == Failure(404, "Product not found") && unchanged(db)
    ensures id in old(db.products) ==>
      && r == Success(200, "Product deleted successfully")
      && db.products == old(db.products)[id := old(db.products)[id].(isActive := false)]
      && db.orders == old(db.orders)
  {
    if id !in db.products {
      return Failure(404, "Product not found");
    }
    var product := db.products[id];
    product := product.(isActive := false);
    db.products := db.products[id := product];
    r := Success(200, "Product deleted successfully");
  }

  /**
   * After a soft delete the product is still stored, but it is no longer
   * available, can no longer be bought, and no listing returns it.
   */
  lemma SoftDeleteHides(products: map<ProductId, Product>, id: ProductId, q: int)
    requires id in products
    ensures var p := products[id].(isActive := false);
      && id in products[id := p]
      && !IsAvailable(p) && !IsInStock(p, q)
      && (forall ordered: seq<Product>, params: ListingParams ::
            GetProducts(ordered, params).Success? ==> p !in GetProducts(ordered, params).body.data)
  {
    var p := products[id].(isActive := false);
    InactiveNeverSold(p, q);
    forall ordered: seq<Product>, params: ListingParams | GetProducts(ordered, params).Success?
      ensures p !in GetProducts(ordered, params).body.data
    {
      GetProductsContract(ordered, params);
    }
  }

  /**
   * `updateStock`: 404, or the body's quantity applied as a signed delta
   * through `product.updateStock`, clamped at zero; it is not an absolute value.
   */
  method UpdateStockEndpoint(db: Database, id: ProductId, quantity: int) returns (r: Reply<Product>)
    requires db.Valid()
    modifies db
    ensures db.Valid()
    ensures id !in old(db.products) ==> r == Failure(404, "Product not found") && unchanged(db)
    ensures id in old(db.products) ==>
      var p := old(db.products)[id];
      && r == Success(200, p.(stock := if p.stock + quantity < 0 then 0 else p.stock + quantity))
      && db.products == old(db.products)[id := r.body]
      && db.orders == old(db.orders)
  {
    if id !in db.products {
      return Failure(404, "Product not found");
    }
    var product := db.products[id];
    UpdateStockKeepsSchema(product, quantity);
    product := UpdateStock(product, quantity);
    db.products := db.products[id := product];
    r := Success(200, product);
  }
}
