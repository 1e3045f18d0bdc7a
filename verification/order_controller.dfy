/**
 * The order endpoints (backend/controllers/orderController.js).
 *
 * Checkout walks the requested items one at a time against the product
 * collection: each item is looked up, checked with `isInStock`, snapshotted
 * into an order line and taken out of stock before the next one is looked at.
 * A failure part-way answers an error and keeps the decrements already made;
 * there is no rollback. The loop is specified by `Assemble`, a left fold of
 * `Step` over the requested items, and `RestoreStock` specifies the loop of a
 * cancellation.
 */
module OrderController {
  import opened Wrappers
  import opened Seqs
  import opened ProductModel
  import opened OrderModel
  import opened Store

  /** One entry of the request body's `items`. */
  datatype RequestItem = RequestItem(product: ProductId, quantity: int)

  /** `shippingAddress` as the client sent it; an absent string field is "". */
  datatype AddressInput = AddressInput(
    firstName: string, lastName: string, address: string, city: string,
    state: string, zipCode: string, country: Option<string>, phone: string)

  /** The body of `POST /api/orders`. */
  datatype OrderRequest = OrderRequest(
    items: Option<seq<RequestItem>>,
    shippingAddress: AddressInput,
    paymentMethod: PaymentMethod,
    taxPrice: Option<int>,
    shippingPrice: Option<int>)

  datatype CheckoutError = ProductNotFound(id: ProductId) | InsufficientStock(name: string)

  /** The state of the checkout loop: the catalog as it now stands, the lines so far, their sum. */
  datatype Assembly = Assembly(
    catalog: map<ProductId, Product>,
    lines: seq<OrderItem>,
    itemsPrice: int,
    failure: Option<CheckoutError>)

  /** The order line for a requested item: name, unit price, image and sku copied from the product. */
  function Snapshot(it: RequestItem, p: Product): (line: OrderItem)
    ensures line.product == it.product && line.quantity == it.quantity
    ensures line.name == p.name && line.price == p.price && line.image == p.image && line.sku == p.sku
  {
    OrderItem(it.product, p.name, p.price, it.quantity, p.image, p.sku)
  }

  /** One iteration of the checkout loop. Once something has failed, nothing more happens. */
  function Step(a: Assembly, it: RequestItem): Assembly
  {
    if a.failure.Some? then a
    else if it.product !in a.catalog then a.(failure := Some(ProductNotFound(it.product)))
    else
      var p := a.catalog[it.product];
      if !IsInStock(p, it.quantity) then a.(failure := Some(InsufficientStock(p.name)))
      else Assembly(a.catalog[it.product := UpdateStock(p, -it.quantity)],
                    a.lines + [Snapshot(it, p)],
                    a.itemsPrice + p.price * it.quantity,
                    None)
  }

  /** The checkout loop run over `items`, starting from catalog `c`. */
  function Assemble(c: map<ProductId, Product>, items: seq<RequestItem>): Assembly
    decreases |items|
  {
    if items == [] then Assembly(c, [], 0, None)
    else Step(Assemble(c, items[..|items| - 1]), items[|items| - 1])
  }

  /** The total quantity of product `id` that `items` ask for. */
  function Requested(items: seq<RequestItem>, id: ProductId): int
  {
    if items == [] then 0
    else Requested(items[..|items| - 1], id)
         + (if items[|items| - 1].product == id then items[|items| - 1].quantity else 0)
  }

  /** The total quantity of product `id` on the order lines `lines`. */
  function Ordered(lines: seq<OrderItem>, id: ProductId): int
  {
    if lines == [] then 0
    else Ordered(lines[..|lines| - 1], id)
         + (if lines[|lines| - 1].product == id then lines[|lines| - 1].quantity else 0)
  }

  /**
   * Item k passes the loop's checks: its product exists, is active, and has
   * enough stock left after the items before it took theirs.
   */
  predicate ItemFits(c: map<ProductId, Product>, items: seq<RequestItem>, k: int)
    requires 0 <= k < |items|
  {
    var id := items[k].product;
    id in c && c[id].isActive && c[id].stock - Requested(items[..k], id) >= items[k].quantity
  }

  /** `cat` is `c` with the quantities `done` asks for taken out of stock, and nothing else changed. */
  predicate CatalogAfter(c: map<ProductId, Product>, cat: map<ProductId, Product>, done: seq<RequestItem>)
  {
    && cat.Keys == c.Keys
    && forall id :: id in c ==> cat[id] == c[id].(stock := c[id].stock - Requested(done, id))
  }

  /** `lines` are the snapshots of the items `done`, in request order, taken from the products of `c`. */
  predicate LinesFor(c: map<ProductId, Product>, lines: seq<OrderItem>, done: seq<RequestItem>)
  {
    && |lines| == |done|
    && forall i :: 0 <= i < |done| ==> done[i].product in c && lines[i] == Snapshot(done[i], c[done[i].product])
  }

  /**
   * What the loop has done after running over `items`: it got through the first
   * n of them (all of them unless it failed), took exactly their quantities out
   * of stock, and holds their snapshots summed into itemsPrice.
   */
  predicate Tracks(c: map<ProductId, Product>, items: seq<RequestItem>, a: Assembly)
  {
    var n := |a.lines|;
    && n <= |items|
    && (a.failure.None? ==> n == |items|)
    && CatalogAfter(c, a.catalog, items[..n])
    && LinesFor(c, a.lines, items[..n])
    && a.itemsPrice == ItemsPrice(a.lines)
  }

  /** An item whose product is in stock is taken: stock lowered, line appended, price added. */
  lemma StepOnStock(a: Assembly, it: RequestItem)
    requires a.failure.None? && it.product in a.catalog && IsInStock(a.catalog[it.product], it.quantity)
    ensures var p := a.catalog[it.product];
      Step(a, it) == Assembly(a.catalog[it.product := UpdateStock(p, -it.quantity)], a.lines + [Snapshot(it, p)],
                              a.itemsPrice + p.price * it.quantity, None)
  {
  }

  /** Taking the last item out of stock keeps the catalog in step with the items taken. */
  lemma CatalogStep(c: map<ProductId, Product>, items: seq<RequestItem>, cat: map<ProductId, Product>)
    requires items != [] && CatalogAfter(c, cat, items[..|items| - 1])
    requires items[|items| - 1].product in cat && IsInStock(cat[items[|items| - 1].product], items[|items| - 1].quantity)
    ensures var last := items[|items| - 1];
      CatalogAfter(c, cat[last.product := UpdateStock(cat[last.product], -last.quantity)], items)
  {
  }

  /** Appending the snapshot of the last item keeps the lines in step with the items taken. */
  lemma LinesStep(c: map<ProductId, Product>, items: seq<RequestItem>, lines: seq<OrderItem>, line: OrderItem)
    requires items != [] && LinesFor(c, lines, items[..|items| - 1])
    requires items[|items| - 1].product in c && line == Snapshot(items[|items| - 1], c[items[|items| - 1].product])
    ensures LinesFor(c, lines + [line], items)
  {
  }

  /** A successful step extends the tracked prefix by the item it took. */
  lemma StepTakesItem(c: map<ProductId, Product>, items: seq<RequestItem>, a: Assembly)
    requires items != []
    requires a.failure.None? && Tracks(c, items[..|items| - 1], a)
    requires items[|items| - 1].product in a.catalog && IsInStock(a.catalog[items[|items| - 1].product], items[|items| - 1].quantity)
    ensures Tracks(c, items, Step(a, items[|items| - 1]))
  {
    var m := |items| - 1;
    var last := items[m];
    var p := a.catalog[last.product];
    assert items[..m][..m] == items[..m];
    CatalogStep(c, items, a.catalog);
    assert Snapshot(last, p) == Snapshot(last, c[last.product]);
    var line := Snapshot(last, p);
    LinesStep(c, items, a.lines, line);
    var lines := a.lines + [line];
    assert lines[..m] == a.lines;
    assert items[..|lines|] == items;
    StepOnStock(a, last);
  }

  /** One more iteration keeps the loop's record accurate. */
  lemma StepTracks(c: map<ProductId, Product>, items: seq<RequestItem>, a: Assembly)
    requires items != []
    requires Tracks(c, items[..|items| - 1], a)
    ensures Tracks(c, items, Step(a, items[|items| - 1]))
  {
    var m := |items| - 1;
    var pre := items[..m];
    var last := items[m];
    var n := |a.lines|;
    assert items[..n] == pre[..n];
    if a.failure.None? && last.product in a.catalog && IsInStock(a.catalog[last.product], last.quantity) {
      StepTakesItem(c, items, a);
    }
  }

  /** The loop's record is accurate after any number of items. */
  lemma {:induction false} AssembleInvariant(c: map<ProductId, Product>, items: seq<RequestItem>)
    ensures Tracks(c, items, Assemble(c, items))
    decreases |items|
  {
    if items != [] {
      AssembleInvariant(c, items[..|items| - 1]);
      StepTracks(c, items, Assemble(c, items[..|items| - 1]));
    }
  }

  /** Checkout never breaks a product's schema bounds: stock stays non-negative. */
  lemma {:induction false} AssembleKeepsProductsValid(c: map<ProductId, Product>, items: seq<RequestItem>)
    requires ProductsValid(c)
    ensures ProductsValid(Assemble(c, items).catalog)
    decreases |items|
  {
    if items != [] {
      var a := Assemble(c, items[..|items| - 1]);
      var it := items[|items| - 1];
      AssembleKeepsProductsValid(c, items[..|items| - 1]);
      if a.failure.None? && it.product in a.catalog {
        UpdateStockKeepsSchema(a.catalog[it.product], -it.quantity);
      }
    }
  }

  /** k < m: item k of a prefix is checked against the same earlier items as in the whole. */
  lemma ItemFitsOfPrefix(c: map<ProductId, Product>, items: seq<RequestItem>, m: int, k: int)
    requires 0 <= k < m <= |items|
    ensures ItemFits(c, items[..m], k) == ItemFits(c, items, k)
  {
    assert items[..m][..k] == items[..k];
  }

  /** With the prefix done, the last item passes the step's checks exactly when it fits. */
  lemma LastStepFits(c: map<ProductId, Product>, items: seq<RequestItem>)
    requires items != []
    requires Assemble(c, items[..|items| - 1]).failure.None?
    ensures var a := Assemble(c, items[..|items| - 1]); var it := items[|items| - 1];
      (it.product in a.catalog && IsInStock(a.catalog[it.product], it.quantity)) <==> ItemFits(c, items, |items| - 1)
  {
    var m := |items| - 1;
    AssembleInvariant(c, items[..m]);
    assert items[..m][..m] == items[..m];
  }

  /**
   * Checkout gets through every item exactly when every item fits; so a
   * repeated product is checked against the stock the earlier items left.
   */
  lemma {:induction false} AssembleSucceedsIff(c: map<ProductId, Product>, items: seq<RequestItem>)
    ensures Assemble(c, items).failure.None? <==> forall k :: 0 <= k < |items| ==> ItemFits(c, items, k)
    decreases |items|
  {
    if items != [] {
      var m := |items| - 1;
      var pre := items[..m];
      AssembleSucceedsIff(c, pre);
      forall k | 0 <= k < m
        ensures ItemFits(c, pre, k) == ItemFits(c, items, k)
      {
        ItemFitsOfPrefix(c, items, m, k);
      }
      if Assemble(c, pre).failure.None? {
        LastStepFits(c, items);
      }
    }
  }

  /**
   * A failure is final: once the loop has failed at item k, the rest of the
   * items change nothing, so the whole run equals the run up to item k.
   */
  lemma {:induction false} FailureIsFinal(c: map<ProductId, Product>, items: seq<RequestItem>, k: int)
    requires 0 <= k < |items|
    requires Assemble(c, items[..k + 1]).failure.Some?
    ensures Assemble(c, items) == Assemble(c, items[..k + 1])
    decreases |items|
  {
    if |items| == k + 1 {
      assert items[..k + 1] == items;
    } else {
      var pre := items[..|items| - 1];
      assert pre[..k + 1] == items[..k + 1];
      FailureIsFinal(c, pre, k);
    }
  }

  /** The error a step reports for an item that does not fit. */
  function ErrorFor(c: map<ProductId, Product>, it: RequestItem): CheckoutError
  {
    if it.product in c then InsufficientStock(c[it.product].name) else ProductNotFound(it.product)
  }

  /**
   * A failed checkout stops at the first item that does not fit and reports
   * it (404 for an unknown product, 400 for one out of stock or inactive);
   * the stock taken by the items before it stays taken.
   */
  lemma {:induction false} FailureKeepsEarlierDecrements(c: map<ProductId, Product>, items: seq<RequestItem>)
    requires Assemble(c, items).failure.Some?
    ensures var a := Assemble(c, items); var n := |a.lines|;
      && n < |items|
      && (forall k :: 0 <= k < n ==> ItemFits(c, items, k))
      && !ItemFits(c, items, n)
      && a.failure == Some(ErrorFor(c, items[n]))
      && CatalogAfter(c, a.catalog, items[..n])
    decreases |items|
  {
    var m := |items| - 1;
    var pre := items[..m];
    AssembleInvariant(c, items);
    var a0 := Assemble(c, pre);
    var n := |Assemble(c, items).lines|;
    if a0.failure.Some? {
      FailureKeepsEarlierDecrements(c, pre);
      assert items[n] == pre[n];
      forall k | 0 <= k <= n
        ensures ItemFits(c, pre, k) == ItemFits(c, items, k)
      {
        ItemFitsOfPrefix(c, items, m, k);
      }
    } else {
      AssembleInvariant(c, pre);
      AssembleSucceedsIff(c, pre);
      LastStepFits(c, items);
      forall k | 0 <= k < m
        ensures ItemFits(c, items, k)
      {
        ItemFitsOfPrefix(c, items, m, k);
      }
      assert a0.catalog.Keys == c.Keys;
      assert items[m].product in a0.catalog ==> a0.catalog[items[m].product].name == c[items[m].product].name;
    }
  }

  /** The order-line totals per product agree with the request's when the lines mirror the items. */
  lemma {:induction false} OrderedMatchesRequested(lines: seq<OrderItem>, items: seq<RequestItem>, id: ProductId)
    requires |lines| == |items|
    requires forall i :: 0 <= i < |lines| ==> lines[i].product == items[i].product && lines[i].quantity == items[i].quantity
    ensures Ordered(lines, id) == Requested(items, id)
    decreases |lines|
  {
    if lines != [] {
      OrderedMatchesRequested(lines[..|lines| - 1], items[..|items| - 1], id);
    }
  }

  /** The restore loop of `cancelOrder`: each line's quantity goes back to its product, if it still exists. */
  function RestoreStock(c: map<ProductId, Product>, lines: seq<OrderItem>): map<ProductId, Product>
  {
    if lines == [] then c
    else
      var before := RestoreStock(c, lines[..|lines| - 1]);
      var it := lines[|lines| - 1];
      if it.product in before then before[it.product := UpdateStock(before[it.product], it.quantity)]
      else before
  }

  /**
   * With non-negative stock and quantities, restoring adds back exactly each
   * product's ordered quantity; products that no longer exist are skipped and
   * no product appears.
   */
  lemma {:induction false} RestoreAccounting(c: map<ProductId, Product>, lines: seq<OrderItem>)
    requires forall id :: id in c ==> c[id].stock >= 0
    requires forall i :: 0 <= i < |lines| ==> lines[i].quantity >= 0
    ensures forall id :: Ordered(lines, id) >= 0
    ensures RestoreStock(c, lines).Keys == c.Keys
    ensures forall id :: id in c ==> RestoreStock(c, lines)[id] == c[id].(stock := c[id].stock + Ordered(lines, id))
    decreases |lines|
  {
    if lines != [] {
      RestoreAccounting(c, lines[..|lines| - 1]);
    }
  }

  /**
   * Cancelling the order a successful checkout produced gives the catalog
   * back exactly as it was before the checkout.
   */
  lemma CancelUndoesCheckout(c: map<ProductId, Product>, items: seq<RequestItem>)
    requires ProductsValid(c)
    requires forall i :: 0 <= i < |items| ==> items[i].quantity >= 0
    requires Assemble(c, items).failure.None?
    ensures RestoreStock(Assemble(c, items).catalog, Assemble(c, items).lines) == c
  {
    var a := Assemble(c, items);
    SuccessfulCheckout(c, items);
    AssembleKeepsProductsValid(c, items);
    RestoreAccounting(a.catalog, a.lines);
    var r := RestoreStock(a.catalog, a.lines);
    forall id | id in c
      ensures r[id] == c[id]
    {
      assert r[id] == a.catalog[id].(stock := a.catalog[id].stock + Ordered(a.lines, id));
    }
  }

  /**
   * A successful checkout holds a line for every requested item, each
   * product's stock went down by the total requested for it, and the lines
   * carry the same per-product totals as the request.
   */
  lemma SuccessfulCheckout(c: map<ProductId, Product>, items: seq<RequestItem>)
    requires Assemble(c, items).failure.None?
    ensures var a := Assemble(c, items);
      && LinesFor(c, a.lines, items)
      && CatalogAfter(c, a.catalog, items)
      && a.itemsPrice == ItemsPrice(a.lines)
      && (forall id :: Ordered(a.lines, id) == Requested(items, id))
  {
    var a := Assemble(c, items);
    AssembleInvariant(c, items);
    assert items[..|a.lines|] == items;
    forall id
      ensures Ordered(a.lines, id) == Requested(items, id)
    {
      OrderedMatchesRequested(a.lines, items, id);
    }
  }

  // ----- createOrder ------------------------------------------------------------

  /** The address stored on the order: missing names and phone get placeholders, country defaults to US. */
  function ShippingFor(a: AddressInput): (s: ShippingAddress)
    ensures s.firstName == if a.firstName == "" then "Test" else a.firstName
    ensures s.lastName == if a.lastName == "" then "User" else a.lastName
    ensures s.phone == if a.phone == "" then "123-456-7890" else a.phone
    ensures s.country == if a.country.Some? then a.country.value else "US"
    ensures s.address == a.address && s.city == a.city && s.state == a.state && s.zipCode == a.zipCode
  {
    ShippingAddress(
      if a.firstName == "" then "Test" else a.firstName,
      if a.lastName == "" then "User" else a.lastName,
      a.address, a.city, a.state, a.zipCode,
      if a.country.Some? then a.country.value else "US",
      if a.phone == "" then "123-456-7890" else a.phone)
  }

  /** `x = 0` in a destructuring: only an absent value takes the default. */
  function OrZero(x: Option<int>): int
  {
    if x.Some? then x.value else 0
  }

  /** The document handed to `Order.create`, before validation and the pre-save hooks. */
  function Draft(id: OrderId, user: UserId, req: OrderRequest, lines: seq<OrderItem>, itemsPrice: int, now: Time): (o: Order)
    ensures o.items == lines && o.itemsPrice == itemsPrice
    ensures o.totalPrice == itemsPrice + OrZero(req.taxPrice) + OrZero(req.shippingPrice)
    ensures o.status == Pending && !o.isPaid && !o.isDelivered && o.orderNumber.None?
  {
    var tax := OrZero(req.taxPrice);
    var shipping := OrZero(req.shippingPrice);
    Order(id, None, user, lines, ShippingFor(req.shippingAddress), req.paymentMethod, None,
          itemsPrice, tax, shipping, itemsPrice + tax + shipping,
          Pending, false, None, false, None, None, None, now)
  }

  /** The reply for a checkout that stopped at an item. */
  function CheckoutFailure(e: CheckoutError): (r: Reply<Order>)
    ensures e.ProductNotFound? ==> r == Failure(404, "Product not found: " + e.id)
    ensures e.InsufficientStock? ==> r == Failure(400, "Insufficient stock for " + e.name)
  {
    match e
    case ProductNotFound(id) => Failure(404, "Product not found: " + id)
    case InsufficientStock(name) => Failure(400, "Insufficient stock for " + name)
  }

  /**
   * A draft built from a successful checkout of a valid catalog passes
   * validation iff the payment method is in the enum, the address is complete
   * and every quantity is at least 1.
   */
  lemma DraftValidity(c: map<ProductId, Product>, items: seq<RequestItem>, id: OrderId, user: UserId, req: OrderRequest, now: Time)
    requires ProductsValid(c)
    requires Assemble(c, items).failure.None?
    ensures var a := Assemble(c, items);
      OrderSchemaValid(Draft(id, user, req, a.lines, a.itemsPrice, now))
      <==> && InMethodEnum(req.paymentMethod)
           && AddressComplete(ShippingFor(req.shippingAddress))
           && forall i :: 0 <= i < |items| ==> items[i].quantity >= 1
  {
    var a := Assemble(c, items);
    AssembleInvariant(c, items);
    assert forall i :: 0 <= i < |items| ==> a.lines[i].quantity == items[i].quantity;
  }

  /**
   * A missing or unlisted payment method fails validation only after the item
   * loop has run: the stock it took stays taken, with no order to show for it.
   */
  lemma UnlistedMethodKeepsTakenStock(c: map<ProductId, Product>, items: seq<RequestItem>, id: OrderId, user: UserId,
                                      req: OrderRequest, now: Time)
    requires Assemble(c, items).failure.None?
    requires !InMethodEnum(req.paymentMethod)
    ensures var a := Assemble(c, items);
      && !OrderSchemaValid(Draft(id, user, req, a.lines, a.itemsPrice, now))
      && a.catalog.Keys == c.Keys
      && forall pid :: pid in c ==> a.catalog[pid].stock == c[pid].stock - Requested(items, pid)
  {
    SuccessfulCheckout(c, items);
  }

  /**
   * The item loop of `createOrder`: each item is looked up, checked with
   * `isInStock`, snapshotted, summed and taken out of stock, one saved
   * product at a time; the loop stops at the first item that fails.
   */
  method TakeItems(db: Database, items: seq<RequestItem>) returns (a: Assembly)
    requires ProductsValid(db.products)
    modifies db
    ensures a == Assemble(old(db.products), items)
    ensures db.products == a.catalog && ProductsValid(db.products)
    ensures db.orders == old(db.orders)
  {
    ghost var c0 := db.products;
    var lines: seq<OrderItem> := [];
    var itemsPrice := 0;
    var i := 0;
    while i < |items|
      invariant 0 <= i <= |items|
      invariant Assemble(c0, items[..i]) == Assembly(db.products, lines, itemsPrice, None)
      invariant ProductsValid(db.products)
      invariant db.orders == old(db.orders)
    {
      var item := items[i];
      assert items[..i + 1][..i] == items[..i];
      assert Assemble(c0, items[..i + 1]) == Step(Assemble(c0, items[..i]), item);
      if item.product !in db.products {
        FailureIsFinal(c0, items, i);
        return Assembly(db.products, lines, itemsPrice, Some(ProductNotFound(item.product)));
      }
      var product := db.products[item.product];
      if !IsInStock(product, item.quantity) {
        FailureIsFinal(c0, items, i);
        return Assembly(db.products, lines, itemsPrice, Some(InsufficientStock(product.name)));
      }
      StepOnStock(Assembly(db.products, lines, itemsPrice, None), item);
      var itemPrice := product.price;
      itemsPrice := itemsPrice + itemPrice * item.quantity;
      lines := lines + [Snapshot(item, product)];
      UpdateStockKeepsSchema(product, -item.quantity);
      db.products := db.products[item.product := UpdateStock(product, -item.quantity)];
      i := i + 1;
    }
    assert items[..i] == items;
    a := Assembly(db.products, lines, itemsPrice, None);
  }

  /**
   * `createOrder` for an authenticated user. The clock gives `now`, today's
   * date and today's window [dayStart, dayEnd); `newId` is the id the store
   * assigns.
   */
  method CreateOrder(db: Database, userId: UserId, req: OrderRequest, newId: OrderId,
                     now: Time, today: Date, dayStart: Time, dayEnd: Time) returns (r: Reply<Order>)
    requires db.Valid()
    requires newId !in db.orders
    modifies db
    ensures db.Valid()
    ensures req.items.None? || req.items.value == [] ==>
      r == Failure(400, "No order items") && db.products == old(db.products) && db.orders == old(db.orders)
    ensures req.items.Some? && req.items.value != [] ==>
      var a := Assemble(old(db.products), req.items.value);
      var draft := Draft(newId, userId, req, a.lines, a.itemsPrice, now);
      && db.products == a.catalog
      && (a.failure.Some? ==> r == CheckoutFailure(a.failure.value) && db.orders == old(db.orders))
      && (a.failure.None? && !OrderSchemaValid(draft) ==> r.Thrown? && db.orders == old(db.orders))
      && (a.failure.None? && OrderSchemaValid(draft) ==>
            var saved := PreSave(draft, true, today, |CreatedBetween(old(db.orders), dayStart, dayEnd)|);
            r == Success(201, saved) && db.orders == old(db.orders)[newId := saved])
  {
    if req.items.None? || |req.items.value| == 0 {
      return Failure(400, "No order items");
    }
    var a := TakeItems(db, req.items.value);
    if a.failure.Some? {
      return CheckoutFailure(a.failure.value);
    }
    var draft := Draft(newId, userId, req, a.lines, a.itemsPrice, now);
    if !OrderSchemaValid(draft) {
      return Thrown("order validation failed");
    }
    var count := |CreatedBetween(db.orders, dayStart, dayEnd)|;
    var saved := PreSave(draft, true, today, count);
    PreSaveKeepsSchema(draft, true, today, count);
    StoreOrder(db.orders, saved);
    db.orders := db.orders[newId := saved];
    r := Success(201, saved);
  }

  /**
   * A worked checkout: two units of a 10.00 product with 5 in stock, tax 1.00
   * and shipping 5.99, come to 20.00 for the items and 26.99 in all, and
   * leave 3 in stock.
   */
  lemma CheckoutExample(p: Product, orderId: OrderId, user: UserId, req: OrderRequest, now: Time)
    requires p.isActive && p.price == 1000 && p.stock == 5
    requires req.taxPrice == Some(100) && req.shippingPrice == Some(599)
    ensures var a := Assemble(map[p.id := p], [RequestItem(p.id, 2)]);
      && a.failure.None?
      && a.itemsPrice == 2000
      && a.catalog[p.id].stock == 3
      && Draft(orderId, user, req, a.lines, a.itemsPrice, now).totalPrice == 2699
  {
    var c := map[p.id := p];
    var items := [RequestItem(p.id, 2)];
    assert items[..|items| - 1] == [];
    var a0 := Assemble(c, []);
    assert a0 == Assembly(c, [], 0, None);
    assert Assemble(c, items) == Step(a0, items[0]);
  }

  // ----- Negative quantities ------------------------------------------------------

  /** Items with no negative quantity never ask for a negative total of any product. */
  lemma {:induction false} RequestedNonNegative(items: seq<RequestItem>, id: ProductId)
    requires forall i :: 0 <= i < |items| ==> items[i].quantity >= 0
    ensures Requested(items, id) >= 0
    decreases |items|
  {
    if items != [] {
      RequestedNonNegative(items[..|items| - 1], id);
    }
  }

  /**
   * As written, `isInStock` accepts any quantity up to the stock, negative
   * ones included, and `updateStock(-quantity)` then adds to the stock. The
   * order itself is refused afterwards by the schema's `min: 1` on
   * quantities, so `createOrder` answers with the validation error while the
   * raised stock stays saved.
   */
  lemma NegativeQuantityRaisesStock(c: map<ProductId, Product>, id: ProductId, q: int,
                                    orderId: OrderId, user: UserId, req: OrderRequest, now: Time)
    requires ProductsValid(c)
    requires id in c && c[id].isActive && q < 0
    ensures var a := Assemble(c, [RequestItem(id, q)]);
      && a.failure.None?
      && id in a.catalog && a.catalog[id].stock == c[id].stock - q > c[id].stock
      && !OrderSchemaValid(Draft(orderId, user, req, a.lines, a.itemsPrice, now))
  {
    var items := [RequestItem(id, q)];
    assert items[..|items| - 1] == [];
    var a0 := Assemble(c, []);
    assert a0 == Assembly(c, [], 0, None);
    var a := Assemble(c, items);
    assert a == Step(a0, items[0]);
    assert IsInStock(c[id], q);
    assert a.lines == [Snapshot(items[0], c[id])];
    assert !ItemValid(a.lines[0]);
  }

  /** The concrete case: 3 in stock, a request for -5 units, and 8 in stock afterwards. */
  lemma NegativeQuantityExample(p: Product, orderId: OrderId, user: UserId, req: OrderRequest, now: Time)
    requires SchemaValid(p) && p.isActive && p.stock == 3
    ensures var a := Assemble(map[p.id := p], [RequestItem(p.id, -5)]);
      a.failure.None? && a.catalog[p.id].stock == 8
      && !OrderSchemaValid(Draft(orderId, user, req, a.lines, a.itemsPrice, now))
  {
    NegativeQuantityRaisesStock(map[p.id := p], p.id, -5, orderId, user, req, now);
  }

  /** With no negative quantity, a checkout, successful or not, never raises any product's stock. */
  lemma CheckoutNeverRaisesStock(c: map<ProductId, Product>, items: seq<RequestItem>)
    requires forall i :: 0 <= i < |items| ==> items[i].quantity >= 0
    ensures Assemble(c, items).catalog.Keys == c.Keys
    ensures forall id :: id in c ==> Assemble(c, items).catalog[id].stock <= c[id].stock
  {
    var a := Assemble(c, items);
    AssembleInvariant(c, items);
    var done := items[..|a.lines|];
    forall id | id in c
      ensures a.catalog[id].stock <= c[id].stock
    {
      RequestedNonNegative(done, id);
    }
  }

  /** True when some requested quantity is below the schema's minimum of one. */
  predicate HasBadQuantity(items: seq<RequestItem>)
  {
    exists i :: 0 <= i < |items| && items[i].quantity < 1
  }

  /**
   * `createOrder` with the quantities checked before any stock is touched:
   * a quantity below one is answered 400 and changes nothing, and no request
   * can raise a product's stock.
   */
  method CreateOrderChecked(db: Database, userId: UserId, req: OrderRequest, newId: OrderId,
                            now: Time, today: Date, dayStart: Time, dayEnd: Time) returns (r: Reply<Order>)
    requires db.Valid()
    requires newId !in db.orders
    modifies db
    ensures db.Valid()
    ensures req.items.Some? && HasBadQuantity(req.items.value) ==>
      r == Failure(400, "Invalid quantity") && db.products == old(db.products) && db.orders == old(db.orders)
    ensures req.items.Some? && !HasBadQuantity(req.items.value) && req.items.value != [] ==>
      db.products == Assemble(old(db.products), req.items.value).catalog
    ensures db.products.Keys == old(db.products).Keys
    ensures forall id :: id in old(db.products) ==> db.products[id].stock <= old(db.products)[id].stock
  {
    if req.items.Some? && exists i :: 0 <= i < |req.items.value| && req.items.value[i].quantity < 1 {
      return Failure(400, "Invalid quantity");
    }
    if req.items.Some? {
      CheckoutNeverRaisesStock(db.products, req.items.value);
    }
    r := CreateOrder(db, userId, req, newId, now, today, dayStart, dayEnd);
  }

  // ----- cancelOrder --------------------------------------------------------------

  /** Owner or admin: who may cancel (and read) an order. */
  predicate MayAccess(o: Order, caller: User)
  {
    o.user == caller.id || caller.role == AdminRole
  }

  /**
   * `cancelOrder`: 404, then 401, then 400 unless the order is still pending;
   * otherwise the stock comes back and the order is saved as cancelled.
   */
  method CancelOrder(db: Database, orderId: OrderId, caller: User) returns (r: Reply<Order>)
    requires db.Valid()
    modifies db
    ensures db.Valid()
    ensures orderId !in old(db.orders) ==>
      r == Failure(404, "Order not found") && unchanged(db)
    ensures orderId in old(db.orders) && !MayAccess(old(db.orders)[orderId], caller) ==>
      r == Failure(401, "Not authorized to cancel this order") && unchanged(db)
    ensures orderId in old(db.orders) && MayAccess(old(db.orders)[orderId], caller)
            && old(db.orders)[orderId].status != Pending ==>
      r == Failure(400, "Order cannot be cancelled at this stage") && unchanged(db)
    ensures orderId in old(db.orders) && MayAccess(old(db.orders)[orderId], caller)
            && old(db.orders)[orderId].status == Pending ==>
      var o := old(db.orders)[orderId];
      && db.products == RestoreStock(old(db.products), o.items)
      && db.orders == old(db.orders)[orderId := o.(status := Cancelled)]
      && r == Success(200, o.(status := Cancelled))
  {
    if orderId !in db.orders {
      return Failure(404, "Order not found");
    }
    var order := db.orders[orderId];
    if order.user != caller.id && caller.role != AdminRole {
      return Failure(401, "Not authorized to cancel this order");
    }
    if order.status != Pending {
      return Failure(400, "Order cannot be cancelled at this stage");
    }
    ReturnItems(db, order.items);
    var cancelled := order.(status := Cancelled);
    if |cancelled.items| > 0 {
      ComputeTotalsKeepsConsistent(cancelled);
    }
    var saved := SaveOrder(db, cancelled);
    r := Success(200, saved);
  }

  /**
   * The item loop of `cancelOrder`: each line's quantity goes back to its
   * product, when the product still exists, one saved product at a time.
   */
  method ReturnItems(db: Database, items: seq<OrderItem>)
    requires ProductsValid(db.products)
    modifies db
    ensures db.products == RestoreStock(old(db.products), items) && ProductsValid(db.products)
    ensures db.orders == old(db.orders)
  {
    var i := 0;
    while i < |items|
      invariant 0 <= i <= |items|
      invariant db.products == RestoreStock(old(db.products), items[..i])
      invariant ProductsValid(db.products)
      invariant db.orders == old(db.orders)
    {
      var item := items[i];
      assert items[..i + 1][..i] == items[..i];
      if item.product in db.products {
        var product := db.products[item.product];
        UpdateStockKeepsSchema(product, item.quantity);
        db.products := db.products[item.product := UpdateStock(product, item.quantity)];
      }
      i := i + 1;
    }
    assert items[..i] == items;
  }

  /**
   * `order.save()` on a stored document that passes validation: the pre-save
   * hook recomputes the totals (numbering applies to new documents only) and
   * the result replaces the stored document; products are untouched.
   */
  method SaveOrder(db: Database, o: Order) returns (saved: Order)
    requires db.Valid() && OrderSchemaValid(o)
    modifies db
    ensures db.Valid()
    ensures saved == ComputeTotals(o)
    ensures db.orders == old(db.orders)[o.id := saved] && db.products == old(db.products)
  {
    saved := ComputeTotals(o);
    StoreOrder(db.orders, saved);
    db.orders := db.orders[o.id := saved];
  }

  // ----- updateOrderToDelivered / updateOrderStatus ---------------------------------

  /**
   * `updateOrderToDelivered`: 404, or the order saved as delivered now, which is
   * the same document `updateStatus('delivered')` produces.
   */
  method UpdateOrderToDelivered(db: Database, orderId: OrderId, now: Time) returns (r: Reply<Order>)
    requires db.Valid()
    modifies db
    ensures db.Valid()
    ensures orderId !in old(db.orders) ==> r == Failure(404, "Order not found") && unchanged(db)
    ensures orderId in old(db.orders) ==>
      var o := old(db.orders)[orderId];
      && r == Success(200, UpdateStatus(o, Delivered, now))
      && db.orders == old(db.orders)[orderId := UpdateStatus(o, Delivered, now)]
      && db.products == old(db.products)
  {
    if orderId !in db.orders {
      return Failure(404, "Order not found");
    }
    var order := db.orders[orderId];
    var delivered := order.(isDelivered := true, deliveredAt := Some(now), status := Delivered);
    assert delivered == UpdateStatus(order, Delivered, now);
    if |delivered.items| > 0 {
      ComputeTotalsKeepsConsistent(delivered);
    }
    var saved := SaveOrder(db, delivered);
    r := Success(200, saved);
  }

  /** A truthy optional string: present and non-empty. */
  predicate Truthy(s: Option<string>)
  {
    s.Some? && s.value != ""
  }

  /** The optional follow-up of a status change: a truthy tracking number and notes replace the stored ones. */
  function FollowUp(o: Order, trackingNumber: Option<string>, notes: Option<string>): (r: Order)
    ensures r.trackingNumber == if Truthy(trackingNumber) then trackingNumber else o.trackingNumber
    ensures r.notes == if Truthy(notes) then notes else o.notes
    ensures r.(trackingNumber := o.trackingNumber, notes := o.notes) == o
  {
    var o1 := if Truthy(trackingNumber) then o.(trackingNumber := trackingNumber) else o;
    if Truthy(notes) then o1.(notes := notes) else o1
  }

  /** Tracking number and notes are outside every validator and every total. */
  lemma FollowUpKeepsSaved(o: Order, trackingNumber: Option<string>, notes: Option<string>)
    ensures var r := FollowUp(o, trackingNumber, notes);
      && r.id == o.id && r.items == o.items
      && (OrderSchemaValid(r) <==> OrderSchemaValid(o))
      && (TotalsConsistent(r) <==> TotalsConsistent(o))
  {
  }

  /**
   * A stored order given a status from the enum passes validation after the
   * status change and after the follow-up, and neither save alters its totals.
   */
  lemma StatusChangeSaves(o: Order, status: OrderStatus, trackingNumber: Option<string>,
                          notes: Option<string>, now: Time)
    requires OrderSchemaValid(o) && (|o.items| > 0 ==> TotalsConsistent(o))
    requires InStatusEnum(status)
    ensures var u := UpdateStatus(o, status, now);
      var f := FollowUp(u, trackingNumber, notes);
      && OrderSchemaValid(u) && ComputeTotals(u) == u
      && OrderSchemaValid(f) && ComputeTotals(f) == f && f.id == o.id
  {
    var u := UpdateStatus(o, status, now);
    UpdateStatusValidity(o, status, now);
    FollowUpKeepsSaved(u, trackingNumber, notes);
    var f := FollowUp(u, trackingNumber, notes);
    if |o.items| > 0 {
      ComputeTotalsKeepsConsistent(u);
      ComputeTotalsKeepsConsistent(f);
    }
  }

  /**
   * `updateOrderStatus`: 404; a status outside the enum makes the save inside
   * `updateStatus` throw with nothing stored; otherwise the new status is
   * saved, then a truthy tracking number and notes are set and saved again.
   */
  method UpdateOrderStatus(db: Database, orderId: OrderId, status: OrderStatus,
                           trackingNumber: Option<string>, notes: Option<string>, now: Time)
    returns (r: Reply<Order>)
    requires db.Valid()
    modifies db
    ensures db.Valid()
    ensures orderId !in old(db.orders) ==> r == Failure(404, "Order not found") && unchanged(db)
    ensures orderId in old(db.orders) && !InStatusEnum(status) ==> r.Thrown? && unchanged(db)
    ensures orderId in old(db.orders) && InStatusEnum(status) ==>
      var o := FollowUp(UpdateStatus(old(db.orders)[orderId], status, now), trackingNumber, notes);
      && r == Success(200, o)
      && db.orders == old(db.orders)[orderId := o]
      && db.products == old(db.products)
  {
    if orderId !in db.orders {
      return Failure(404, "Order not found");
    }
    var order := db.orders[orderId];
    UpdateStatusValidity(order, status, now);
    var updated := UpdateStatus(order, status, now);
    if !OrderSchemaValid(updated) {
      return Thrown("order validation failed");
    }
    StatusChangeSaves(order, status, trackingNumber, notes, now);
    updated := SaveOrder(db, updated);
    var followed := SaveOrder(db, FollowUp(updated, trackingNumber, notes));
    r := Success(200, followed);
  }

  // ----- getOrders ------------------------------------------------------------------

  datatype OrderList = OrderList(count: nat, total: nat, data: seq<Order>)

  /** `if (status) query.status = status`: an absent or empty status sets no condition. */
  function StatusQuery(status: Option<OrderStatus>): (q: Option<OrderStatus>)
    ensures q.Some? <==> status.Some? && status.value != Unlisted("")
    ensures q.Some? ==> q == status
  {
    if status.Some? && status.value != Unlisted("") then status else None
  }

  /** The orders a query matches, in the given order. */
  function Matching(sorted: seq<Order>, q: Option<OrderStatus>): (m: seq<Order>)
    ensures q.None? ==> m == sorted
    ensures q.Some? ==> forall i :: 0 <= i < |m| ==> m[i].status == q.value
    ensures q.Some? ==> forall i :: 0 <= i < |sorted| && sorted[i].status == q.value ==> sorted[i] in m
  {
    if q.Some? then Filter(sorted, (o: Order) => o.status == q.value) else sorted
  }

  /**
   * `getOrders` over all orders in the query's sort order (newest first):
   * page and limit default to 1 and 10, a truthy status filters (an empty
   * `?status=` is falsy and filters nothing), `total` is the number of orders
   * the query matches and `data` is the page of them that skip and limit select.
   */
  function GetOrders(sorted: seq<Order>, page: Option<int>, limit: Option<int>, status: Option<OrderStatus>): (r: Reply<OrderList>)
    ensures r.Success? || r.Thrown?
    ensures r.Success? <==> Skip(ParamOr(page, 1), ParamOr(limit, 10)) >= 0
    ensures r.Success? ==> r.body.count == |r.body.data| && r.body.count <= r.body.total
    ensures r.Success? && StatusQuery(status).Some? ==>
      forall i :: 0 <= i < |r.body.data| ==> r.body.data[i].status == status.value
    ensures var m := Matching(sorted, StatusQuery(status));
      var skip := Skip(ParamOr(page, 1), ParamOr(limit, 10));
      skip >= 0 ==> r.Success? && r.body.total == |m| && r.body.data == Window(m, skip, ParamOr(limit, 10))
  {
    var matches := Matching(sorted, StatusQuery(status));
    var p := ParamOr(page, 1);
    var l := ParamOr(limit, 10);
    match PageOf(matches, p, l)
    case None => Thrown("negative skip")
    case Some(data) => Success(200, OrderList(|data|, |matches|, data))
  }
}
