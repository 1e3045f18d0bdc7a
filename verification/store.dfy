/**
 * The document store the controllers work against: the products and orders
 * collections as maps from id to document, and the user accounts the auth
 * middleware looks up. Each `await` on the store is one assignment to a field.
 */
module Store {
  import opened ProductModel
  import opened OrderModel

  datatype Role = UserRole | AdminRole

  /** The part of a user account the backend consults. */
  datatype User = User(id: UserId, role: Role)

  /** Every stored product is keyed by its id and within the schema's bounds. */
  predicate ProductsValid(products: map<ProductId, Product>)
  {
    forall id :: id in products ==> products[id].id == id && SchemaValid(products[id])
  }

  /**
   * Every stored order is keyed by its id, passed the schema's validators, and
   * carries the totals the pre-save hook computed.
   */
  predicate OrdersValid(orders: map<OrderId, Order>)
  {
    forall id :: id in orders ==>
      && orders[id].id == id
      && OrderSchemaValid(orders[id])
      && (|orders[id].items| > 0 ==> TotalsConsistent(orders[id]))
  }

  /** The orders whose creation time lies in [start, end), e.g. today. */
  function CreatedBetween(orders: map<OrderId, Order>, start: Time, end: Time): (ids: set<OrderId>)
    ensures forall id :: id in ids <==> id in orders && start <= orders[id].createdAt < end
  {
    set id | id in orders && start <= orders[id].createdAt < end
  }

  /** Storing a new order created inside the window raises the window's count by one. */
  lemma CreatedBetweenGrows(orders: map<OrderId, Order>, o: Order, start: Time, end: Time)
    requires o.id !in orders && start <= o.createdAt < end
    ensures |CreatedBetween(orders[o.id := o], start, end)| == |CreatedBetween(orders, start, end)| + 1
  {
    var before := CreatedBetween(orders, start, end);
    var after := CreatedBetween(orders[o.id := o], start, end);
    forall id
      ensures id in after <==> id in before + {o.id}
    {
      if id != o.id {
        assert id in orders[o.id := o] <==> id in orders;
      }
    }
    assert after == before + {o.id};
    assert o.id !in before;
  }

  /** Saving a validated order with consistent totals under its own id keeps the collection valid. */
  lemma StoreOrder(orders: map<OrderId, Order>, o: Order)
    requires OrdersValid(orders)
    requires OrderSchemaValid(o) && (|o.items| > 0 ==> TotalsConsistent(o))
    ensures OrdersValid(orders[o.id := o])
  {
  }

  class Database {
    var products: map<ProductId, Product>
    var orders: map<OrderId, Order>

    ghost predicate Valid()
      reads this
    {
      ProductsValid(products) && OrdersValid(orders)
    }

    constructor()
      ensures Valid()
      ensures products == map[] && orders == map[]
    {
      products := map[];
      orders := map[];
    }
  }
}
