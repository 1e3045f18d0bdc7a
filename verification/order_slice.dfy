/**
 * The order slice (src/store/slices/orderSlice.ts): the orders the client has
 * loaded, the one on display, and the loading flags. Orders arrive as JSON,
 * so dates are strings here.
 */
module OrderSlice {
  import opened Wrappers

  datatype ClientStatus = Pending | Processing | Shipped | Delivered | Cancelled | Refunded

  datatype ClientItem = ClientItem(product: string, name: string, price: int, quantity: int, image: string, sku: Option<string>)

  datatype ClientAddress = ClientAddress(address: string, city: string, state: string, zipCode: string, country: string)

  datatype ClientOrder = ClientOrder(
    id: string,
    orderNumber: string,
    user: string,
    items: seq<ClientItem>,
    shippingAddress: ClientAddress,
    paymentMethod: string,
    itemsPrice: int,
    taxPrice: int,
    shippingPrice: int,
    totalPrice: int,
    status: ClientStatus,
    isPaid: bool,
    paidAt: Option<string>,
    isDelivered: bool,
    deliveredAt: Option<string>,
    createdAt: string,
    updatedAt: string)

  /** The position `orders.find` stops at for `id`, or -1. */
  function FirstWithId(orders: seq<ClientOrder>, id: string): (k: int)
    ensures -1 <= k < |orders|
    ensures k >= 0 ==> orders[k].id == id && forall i :: 0 <= i < k ==> orders[i].id != id
    ensures k == -1 ==> forall i :: 0 <= i < |orders| ==> orders[i].id != id
    decreases |orders|
  {
    if orders == [] then -1
    else if orders[0].id == id then 0
    else
      var k := FirstWithId(orders[1..], id);
      if k == -1 then -1 else k + 1
  }

  /** The list after `updateOrderStatus`: the first order with the id takes the status. */
  function WithStatus(orders: seq<ClientOrder>, id: string, status: ClientStatus): seq<ClientOrder>
  {
    var k := FirstWithId(orders, id);
    if k < 0 then orders else orders[k := orders[k].(status := status)]
  }

  /** The order on display after `updateOrderStatus`: changed only if it carries the id. */
  function CurrentWithStatus(current: Option<ClientOrder>, id: string, status: ClientStatus): Option<ClientOrder>
  {
    if current.Some? && current.value.id == id then Some(current.value.(status := status)) else current
  }

  /**
   * Exactly one order changes, the first with the id, and only in its status;
   * with no such order nothing changes.
   */
  lemma WithStatusContract(orders: seq<ClientOrder>, id: string, status: ClientStatus)
    ensures |WithStatus(orders, id, status)| == |orders|
    ensures forall i :: 0 <= i < |orders| ==> WithStatus(orders, id, status)[i].id == orders[i].id
    ensures FirstWithId(orders, id) < 0 ==> WithStatus(orders, id, status) == orders
    ensures forall i :: 0 <= i < |orders| && i != FirstWithId(orders, id) ==> WithStatus(orders, id, status)[i] == orders[i]
    ensures FirstWithId(orders, id) >= 0 ==>
      WithStatus(orders, id, status)[FirstWithId(orders, id)] == orders[FirstWithId(orders, id)].(status := status)
  {
  }

  /** Setting the same status twice is the same as setting it once. */
  lemma WithStatusIdempotent(orders: seq<ClientOrder>, current: Option<ClientOrder>, id: string, status: ClientStatus)
    ensures WithStatus(WithStatus(orders, id, status), id, status) == WithStatus(orders, id, status)
    ensures CurrentWithStatus(CurrentWithStatus(current, id, status), id, status) == CurrentWithStatus(current, id, status)
  {
    var k := FirstWithId(orders, id);
    if k >= 0 {
      var w := WithStatus(orders, id, status);
      assert w[k].id == id;
      assert forall i :: 0 <= i < k ==> w[i] == orders[i];
      var k' := FirstWithId(w, id);
      assert k' == k;
    }
  }

  /**
   * A newly added order shadows an older one with the same id: a status
   * update reaches the new order and leaves the older list untouched.
   */
  lemma AddedOrderShadowsOlder(orders: seq<ClientOrder>, o: ClientOrder, status: ClientStatus)
    ensures WithStatus([o] + orders, o.id, status) == [o.(status := status)] + orders
  {
  }

  /** The order state. */
  class OrderState {
    var orders: seq<ClientOrder>
    var currentOrder: Option<ClientOrder>
    var isLoading: bool
    var error: Option<string>

    constructor()
      ensures orders == [] && currentOrder == None && !isLoading && error == None
    {
      orders := [];
      currentOrder := None;
      isLoading := false;
      error := None;
    }

    method SetOrders(payload: seq<ClientOrder>)
      modifies this
      ensures orders == payload
      ensures currentOrder == old(currentOrder) && isLoading == old(isLoading) && error == old(error)
    {
      orders := payload;
    }

    /** `unshift`: the new order goes first. */
    method AddOrder(o: ClientOrder)
      modifies this
      ensures orders == [o] + old(orders)
      ensures currentOrder == old(currentOrder) && isLoading == old(isLoading) && error == old(error)
    {
      orders := [o] + orders;
    }

    method SetCurrentOrder(o: Option<ClientOrder>)
      modifies this
      ensures currentOrder == o
      ensures orders == old(orders) && isLoading == old(isLoading) && error == old(error)
    {
      currentOrder := o;
    }

    method UpdateOrderStatus(orderId: string, status: ClientStatus)
      modifies this
      ensures orders == WithStatus(old(orders), orderId, status)
      ensures currentOrder == CurrentWithStatus(old(currentOrder), orderId, status)
      ensures isLoading == old(isLoading) && error == old(error)
    {
      var k := FirstWithId(orders, orderId);
      if k >= 0 {
        orders := orders[k := orders[k].(status := status)];
      }
      if currentOrder.Some? && currentOrder.value.id == orderId {
        currentOrder := Some(currentOrder.value.(status := status));
      }
    }

    method SetLoading(loading: bool)
      modifies this
      ensures isLoading == loading
      ensures orders == old(orders) && currentOrder == old(currentOrder) && error == old(error)
    {
      isLoading := loading;
    }

    method SetError(e: Option<string>)
      modifies this
      ensures error == e
      ensures orders == old(orders) && currentOrder == old(currentOrder) && isLoading == old(isLoading)
    {
      error := e;
    }

    method ClearError()
      modifies this
      ensures error == None
      ensures orders == old(orders) && currentOrder == old(currentOrder) && isLoading == old(isLoading)
    {
      error := None;
    }
  }
}
