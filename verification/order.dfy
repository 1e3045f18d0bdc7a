/**
 * The Order document (backend/models/Order.js): the schema's enum and
 * required-field rules, the two pre-save hooks (order number, totals), the
 * `orderSummary` virtual, the `updateStatus` and `markAsPaid` methods and the
 * skip arithmetic of the list statics.
 */
module OrderModel {
  import opened Wrappers
  import opened Seqs
  import opened Text
  import opened ProductModel

  type OrderId = string
  /** Milliseconds since the epoch, as `Date.now()` gives them. */
  type Time = int

  /** The calendar date of `new Date()` in the server's time zone. */
  datatype Date = Date(year: nat, month: nat, day: nat)

  predicate ValidDate(d: Date)
  {
    10 <= d.year && 1 <= d.month <= 12 && 1 <= d.day <= 31
  }

  /**
   * The status enum. Code can assign any string; `Unlisted` stands for a
   * string outside the enum (the schema's validator rejects it on save) and
   * never carries one of the six enum spellings: `StatusOf` reads a string.
   */
  datatype OrderStatus = Pending | Processing | Shipped | Delivered | Cancelled | Refunded
                       | Unlisted(name: string)

  predicate InStatusEnum(s: OrderStatus)
  {
    !s.Unlisted?
  }

  const StatusNames: set<string> := {"pending", "processing", "shipped", "delivered", "cancelled", "refunded"}

  /** The status a string denotes. */
  function StatusOf(name: string): (s: OrderStatus)
    ensures InStatusEnum(s) <==> name in StatusNames
    ensures s.Unlisted? ==> s.name == name
  {
    if name == "pending" then Pending
    else if name == "processing" then Processing
    else if name == "shipped" then Shipped
    else if name == "delivered" then Delivered
    else if name == "cancelled" then Cancelled
    else if name == "refunded" then Refunded
    else Unlisted(name)
  }

  /**
   * The payment-method enum. A request's string is passed on unchecked;
   * `UnlistedMethod` stands for any string outside the enum, and for an
   * absent one (name ""), both of which the schema's `required` and `enum`
   * validators reject on save.
   */
  datatype PaymentMethod = CreditCard | PayPal | StripeCard | CashOnDelivery | UnlistedMethod(name: string)

  predicate InMethodEnum(m: PaymentMethod)
  {
    !m.UnlistedMethod?
  }

  const MethodNames: set<string> := {"credit_card", "paypal", "stripe", "cash_on_delivery"}

  /** The method a request's optional `paymentMethod` string denotes. */
  function MethodOf(raw: Option<string>): (m: PaymentMethod)
    ensures InMethodEnum(m) <==> raw.Some? && raw.value in MethodNames
    ensures m.UnlistedMethod? ==> m.name == if raw.Some? then raw.value else ""
  {
    if raw.None? then UnlistedMethod("")
    else if raw.value == "credit_card" then CreditCard
    else if raw.value == "paypal" then PayPal
    else if raw.value == "stripe" then StripeCard
    else if raw.value == "cash_on_delivery" then CashOnDelivery
    else UnlistedMethod(raw.value)
  }

  datatype PaymentResult = PaymentResult(id: string, status: string, updateTime: string, emailAddress: Option<string>)

  datatype OrderItem = OrderItem(product: ProductId, name: string, price: int, quantity: int, image: string, sku: Option<string>)

  datatype ShippingAddress = ShippingAddress(
    firstName: string, lastName: string, address: string, city: string,
    state: string, zipCode: string, country: string, phone: string)

  datatype Order = Order(
    id: OrderId,
    orderNumber: Option<string>,
    user: UserId,
    items: seq<OrderItem>,
    shippingAddress: ShippingAddress,
    paymentMethod: PaymentMethod,
    paymentResult: Option<PaymentResult>,
    itemsPrice: int,
    taxPrice: int,
    shippingPrice: int,
    totalPrice: int,
    status: OrderStatus,
    isPaid: bool,
    paidAt: Option<Time>,
    isDelivered: bool,
    deliveredAt: Option<Time>,
    trackingNumber: Option<string>,
    notes: Option<string>,
    createdAt: Time)

  /** Required strings: Mongoose's `required` rejects a missing or empty string. */
  predicate AddressComplete(a: ShippingAddress)
  {
    a.firstName != "" && a.lastName != "" && a.address != "" && a.city != "" &&
    a.state != "" && a.zipCode != "" && a.country != "" && a.phone != ""
  }

  predicate ItemValid(it: OrderItem)
  {
    it.quantity >= 1 && it.name != "" && it.image != ""
  }

  /** What the schema's validators check before a save is allowed. */
  predicate OrderSchemaValid(o: Order)
  {
    && InStatusEnum(o.status)
    && InMethodEnum(o.paymentMethod)
    && (forall i :: 0 <= i < |o.items| ==> ItemValid(o.items[i]))
    && AddressComplete(o.shippingAddress)
  }

  // ----- Order number ---------------------------------------------------------

  /** `SS` + YY + MM + DD + (count + 1) zero-padded to four digits. */
  function OrderNumber(d: Date, count: nat): string
  {
    DatePrefix(d) + PadStart(Digits(count + 1), 4, '0')
  }

  /** The date part of an order number: "SS", two-digit year, month and day. */
  function DatePrefix(d: Date): string
  {
    "SS" + TakeLast(Digits(d.year), 2) + PadStart(Digits(d.month), 2, '0') + PadStart(Digits(d.day), 2, '0')
  }

  /** For a real date the prefix is 8 characters: "SS" and two digits each for year, month and day. */
  lemma DatePrefixLength(d: Date)
    requires ValidDate(d)
    ensures |DatePrefix(d)| == 8
  {
    DigitsLength(d.month, 2);
    DigitsLength(d.day, 2);
    DigitsAtLeastTwo(d.year);
  }

  /** For a real date the prefix is 8 characters and the rest is the counter. */
  lemma OrderNumberShape(d: Date, count: nat)
    requires ValidDate(d)
    ensures |DatePrefix(d)| == 8
    ensures OrderNumber(d, count) == DatePrefix(d) + PadStart(Digits(count + 1), 4, '0')
    ensures OrderNumber(d, count)[..8] == DatePrefix(d)
    ensures AllDigits(OrderNumber(d, count)[8..])
    ensures Value(OrderNumber(d, count)[8..]) == count + 1
  {
    DatePrefixLength(d);
    var n := OrderNumber(d, count);
    assert n == DatePrefix(d) + PadStart(Digits(count + 1), 4, '0');
    assert n[8..] == PadStart(Digits(count + 1), 4, '0');
    ValueOfPadded(count + 1, 4);
  }

  /** An order number is 12 characters exactly when the counter fits in four digits. */
  lemma OrderNumberLength(d: Date, count: nat)
    requires ValidDate(d)
    ensures |OrderNumber(d, count)| == 12 <==> count + 1 <= 9999
  {
    DatePrefixLength(d);
    var counter := PadStart(Digits(count + 1), 4, '0');
    assert OrderNumber(d, count) == DatePrefix(d) + counter;
    DigitsLength(count + 1, 4);
    assert Pow10(1) == 10 && Pow10(2) == 100 && Pow10(3) == 1000 && Pow10(4) == 10000;
  }

  /** On one day, different counts give different order numbers. */
  lemma OrderNumberInjective(d: Date, c1: nat, c2: nat)
    requires ValidDate(d)
    requires OrderNumber(d, c1) == OrderNumber(d, c2)
    ensures c1 == c2
  {
    OrderNumberShape(d, c1);
    OrderNumberShape(d, c2);
  }

  /** The first two orders of a day get the suffixes 0001 and 0002. */
  lemma SameDaySequence(d: Date)
    requires ValidDate(d)
    ensures OrderNumber(d, 0) == DatePrefix(d) + "0001"
    ensures OrderNumber(d, 1) == DatePrefix(d) + "0002"
  {
    assert Digits(1) == "1" && Digits(2) == "2";
    assert PadStart("1", 4, '0') == "0001";
    assert PadStart("2", 4, '0') == "0002";
    assert OrderNumber(d, 0) == DatePrefix(d) + PadStart(Digits(1), 4, '0');
    assert OrderNumber(d, 1) == DatePrefix(d) + PadStart(Digits(2), 4, '0');
  }

  /** The prefix for 7 March 2025. */
  lemma DatePrefixExample()
    ensures DatePrefix(Date(2025, 3, 7)) == "SS250307"
  {
    assert 2025 / 10 == 202 && 2025 % 10 == 5;
    assert 202 / 10 == 20 && 202 % 10 == 2;
    assert 20 / 10 == 2 && 20 % 10 == 0;
    assert Digits(2025) == Digits(202) + "5";
    assert Digits(202) == Digits(20) + "2";
    assert Digits(20) == "20";
    assert TakeLast("2025", 2) == "25";
    assert PadStart(Digits(3), 2, '0') == "03";
    assert PadStart(Digits(7), 2, '0') == "07";
  }

  /** A worked example: the first two orders on 7 March 2025. */
  lemma OrderNumberExample()
    ensures OrderNumber(Date(2025, 3, 7), 0) == "SS2503070001"
    ensures OrderNumber(Date(2025, 3, 7), 1) == "SS2503070002"
  {
    DatePrefixExample();
    CounterExample();
    assert OrderNumber(Date(2025, 3, 7), 0) == "SS250307" + "0001";
    assert OrderNumber(Date(2025, 3, 7), 1) == "SS250307" + "0002";
  }

  /** The counters of the first two orders of a day. */
  lemma CounterExample()
    ensures PadStart(Digits(1), 4, '0') == "0001"
    ensures PadStart(Digits(2), 4, '0') == "0002"
  {
    assert Digits(1) == "1" && Digits(2) == "2";
  }

  predicate HasOrderNumber(o: Order)
  {
    o.orderNumber.Some? && o.orderNumber.value != ""
  }

  /**
   * The first pre-save hook: a new order without an order number gets one built
   * from today's date and the number of orders already created today.
   */
  function AssignOrderNumber(o: Order, isNew: bool, today: Date, countToday: nat): (r: Order)
    ensures HasOrderNumber(o) || !isNew ==> r == o
    ensures isNew && !HasOrderNumber(o) ==> r == o.(orderNumber := Some(OrderNumber(today, countToday)))
  {
    if isNew && !HasOrderNumber(o) then o.(orderNumber := Some(OrderNumber(today, countToday))) else o
  }

  // ----- Totals ---------------------------------------------------------------

  /** Σ price × quantity, accumulated left to right like `items.reduce`. */
  function ItemsPrice(items: seq<OrderItem>): int
  {
    if items == [] then 0
    else ItemsPrice(items[..|items| - 1]) + items[|items| - 1].price * items[|items| - 1].quantity
  }

  /** Σ quantity, the `totalItems` of `orderSummary`. */
  function TotalQuantity(items: seq<OrderItem>): int
  {
    if items == [] then 0 else TotalQuantity(items[..|items| - 1]) + items[|items| - 1].quantity
  }

  /** The totals invariant the second pre-save hook establishes. */
  predicate TotalsConsistent(o: Order)
  {
    o.itemsPrice == ItemsPrice(o.items) && o.totalPrice == o.itemsPrice + o.taxPrice + o.shippingPrice
  }

  /**
   * The second pre-save hook: with items present, itemsPrice and totalPrice are
   * recomputed, overriding whatever the caller stored; with no items nothing changes.
   */
  function ComputeTotals(o: Order): (r: Order)
    ensures |o.items| > 0 ==> TotalsConsistent(r)
    ensures |o.items| > 0 ==> r == o.(itemsPrice := r.itemsPrice, totalPrice := r.totalPrice)
    ensures |o.items| == 0 ==> r == o
  {
    if |o.items| > 0 then
      var itemsPrice := ItemsPrice(o.items);
      o.(itemsPrice := itemsPrice, totalPrice := itemsPrice + o.taxPrice + o.shippingPrice)
    else o
  }

  /** Both pre-save hooks, in registration order. */
  function PreSave(o: Order, isNew: bool, today: Date, countToday: nat): Order
  {
    ComputeTotals(AssignOrderNumber(o, isNew, today, countToday))
  }

  /**
   * The hooks touch only the order number and the totals: a document that
   * passed validation still would, and with items its totals are consistent.
   */
  lemma PreSaveKeepsSchema(o: Order, isNew: bool, today: Date, countToday: nat)
    requires OrderSchemaValid(o)
    ensures var r := PreSave(o, isNew, today, countToday);
      && OrderSchemaValid(r)
      && r.id == o.id && r.user == o.user && r.items == o.items && r.status == o.status
      && (|o.items| > 0 ==> TotalsConsistent(r))
  {
  }

  /** Saving twice computes the same totals as saving once. */
  lemma ComputeTotalsIdempotent(o: Order)
    ensures ComputeTotals(ComputeTotals(o)) == ComputeTotals(o)
  {
  }

  /** A document whose totals are already consistent is not changed by the hook. */
  lemma ComputeTotalsKeepsConsistent(o: Order)
    requires TotalsConsistent(o)
    ensures ComputeTotals(o) == o
  {
  }

  /** The item sum splits over a concatenation of item lists. */
  lemma {:induction false} ItemsPriceAppend(a: seq<OrderItem>, b: seq<OrderItem>)
    ensures ItemsPrice(a + b) == ItemsPrice(a) + ItemsPrice(b)
    decreases |b|
  {
    if b == [] {
      assert a + b == a;
    } else {
      var ab := a + b;
      assert ab[..|ab| - 1] == a + b[..|b| - 1];
      assert ab[|ab| - 1] == b[|b| - 1];
      ItemsPriceAppend(a, b[..|b| - 1]);
    }
  }

  /** With non-negative prices and quantities of at least one, the item sum is non-negative. */
  lemma {:induction false} ItemsPriceNonNegative(items: seq<OrderItem>)
    requires forall i :: 0 <= i < |items| ==> items[i].price >= 0 && items[i].quantity >= 1
    ensures ItemsPrice(items) >= 0
  {
    if items != [] {
      ItemsPriceNonNegative(items[..|items| - 1]);
      var last := items[|items| - 1];
      assert last.price * last.quantity >= 0;
    }
  }

  datatype OrderSummary = OrderSummary(orderNumber: Option<string>, totalItems: int, totalPrice: int, status: OrderStatus, createdAt: Time)

  /** The `orderSummary` virtual. */
  function Summary(o: Order): (r: OrderSummary)
    ensures r.totalItems == TotalQuantity(o.items) && r.totalPrice == o.totalPrice
    ensures r.orderNumber == o.orderNumber && r.status == o.status && r.createdAt == o.createdAt
  {
    OrderSummary(o.orderNumber, TotalQuantity(o.items), o.totalPrice, o.status, o.createdAt)
  }

  /** When every quantity is at least one, an order has at least as many units as lines. */
  lemma {:induction false} TotalQuantityAtLeastLines(items: seq<OrderItem>)
    requires forall i :: 0 <= i < |items| ==> items[i].quantity >= 1
    ensures TotalQuantity(items) >= |items|
  {
    if items != [] {
      TotalQuantityAtLeastLines(items[..|items| - 1]);
    }
  }

  // ----- Document methods -----------------------------------------------------

  /**
   * `updateStatus(newStatus)`: sets the status; only 'delivered' also sets
   * isDelivered and deliveredAt. Nothing else changes.
   */
  function UpdateStatus(o: Order, s: OrderStatus, now: Time): (r: Order)
    ensures r.status == s
    ensures r.isDelivered == (o.isDelivered || s == Delivered)
    ensures r.deliveredAt == if s == Delivered then Some(now) else o.deliveredAt
    ensures r.(status := o.status, isDelivered := o.isDelivered, deliveredAt := o.deliveredAt) == o
  {
    if s == Delivered then o.(status := s, isDelivered := true, deliveredAt := Some(now))
    else o.(status := s)
  }

  /**
   * `markAsPaid(paymentResult)`: sets isPaid and paidAt; the payment result is
   * replaced only when one is supplied. Nothing else changes.
   */
  function MarkAsPaid(o: Order, result: Option<PaymentResult>, now: Time): (r: Order)
    ensures r.isPaid && r.paidAt == Some(now)
    ensures result.Some? ==> r.paymentResult == result
    ensures result.None? ==> r.paymentResult == o.paymentResult
    ensures r.(isPaid := o.isPaid, paidAt := o.paidAt, paymentResult := o.paymentResult) == o
  {
    var paid := o.(isPaid := true, paidAt := Some(now));
    if result.Some? then paid.(paymentResult := result) else paid
  }

  /** A status update keeps a valid document valid exactly when the new status is in the enum. */
  lemma UpdateStatusValidity(o: Order, s: OrderStatus, now: Time)
    requires OrderSchemaValid(o)
    ensures OrderSchemaValid(UpdateStatus(o, s, now)) <==> InStatusEnum(s)
    ensures UpdateStatus(o, s, now).items == o.items && UpdateStatus(o, s, now).id == o.id
    ensures TotalsConsistent(UpdateStatus(o, s, now)) <==> TotalsConsistent(o)
  {
  }

  // ----- List statics ---------------------------------------------------------

  /** `parseInt(raw, 10) || fallback`: NaN (None) and 0 fall back to the default. */
  function ParamOr(raw: Option<int>, fallback: int): (r: int)
    ensures raw.Some? && raw.value != 0 ==> r == raw.value
    ensures raw.None? || raw.value == 0 ==> r == fallback
  {
    if raw.Some? && raw.value != 0 then raw.value else fallback
  }

  /** The `(page - 1) * limit` records a page skips. */
  function Skip(page: int, limit: int): int
  {
    (page - 1) * limit
  }

  /**
   * One page of a query's results (given in the order the query's sort produces),
   * or None when the skip is negative, which MongoDB rejects.
   */
  function PageOf<T>(results: seq<T>, page: int, limit: int): (r: Option<seq<T>>)
    ensures r.Some? <==> Skip(page, limit) >= 0
    ensures r.Some? ==> |r.value| <= |results|
    ensures r.Some? ==> forall i :: 0 <= i < |r.value| ==> r.value[i] in results
    ensures r.Some? ==> r.value == Window(results, Skip(page, limit), limit)
  {
    var skip := Skip(page, limit);
    if skip < 0 then None else Some(Window(results, skip, limit))
  }

  /**
   * Pages 1, 2, ..., n of a positive size are consecutive: page n is exactly
   * what follows pages 1..n-1, and together they are the first n × limit results.
   */
  lemma {:induction false} PagesAreConsecutive<T>(results: seq<T>, n: nat, limit: int)
    requires n >= 1 && limit > 0
    ensures PageOf(results, n, limit).Some?
    ensures PagesUpTo(results, n, limit) == PagesUpTo(results, n - 1, limit) + PageOf(results, n, limit).value
    ensures PagesUpTo(results, n, limit) == results[..if n * limit < |results| then n * limit else |results|]
  {
    MultiplyStep(n, limit);
    PagesTile(results, n, limit);
  }

  /** `getUserOrders(userId, page, limit)`: that user's orders, one page of them. */
  function GetUserOrders(sorted: seq<Order>, userId: UserId, page: int, limit: int): (r: Option<seq<Order>>)
    ensures r.Some? ==> forall i :: 0 <= i < |r.value| ==> r.value[i].user == userId
    ensures r.Some? <==> Skip(page, limit) >= 0
    ensures Skip(page, limit) >= 0 ==> r == Some(Window(Filter(sorted, (o: Order) => o.user == userId), Skip(page, limit), limit))
  {
    PageOf(Filter(sorted, (o: Order) => o.user == userId), page, limit)
  }

  /** `getByStatus(status, page, limit)`: the orders with that status, one page of them. */
  function GetByStatus(sorted: seq<Order>, s: OrderStatus, page: int, limit: int): (r: Option<seq<Order>>)
    ensures r.Some? ==> forall i :: 0 <= i < |r.value| ==> r.value[i].status == s
    ensures r.Some? <==> Skip(page, limit) >= 0
    ensures Skip(page, limit) >= 0 ==> r == Some(Window(Filter(sorted, (o: Order) => o.status == s), Skip(page, limit), limit))
  {
    PageOf(Filter(sorted, (o: Order) => o.status == s), page, limit)
  }
}
