/**
 * The cart slice (src/store/slices/cartSlice.ts): a list of entries keyed by
 * product id, and whether the cart panel is open. The reducers mutate the
 * state in place, Immer-style; here the state is an object whose fields they
 * assign, and each reducer is proved against a function on the list.
 */
module CartSlice {
  import opened Seqs
  import opened ShopProducts

  datatype CartItem = CartItem(product: ShopProduct, quantity: int)

  /** No product id appears in two entries. */
  predicate DistinctIds(items: seq<CartItem>)
  {
    Pairwise(items, (a: CartItem, b: CartItem) => a.product.id != b.product.id)
  }

  /** The cart's invariant: one entry per product, each with at least one unit. */
  predicate WellFormed(items: seq<CartItem>)
  {
    DistinctIds(items) && forall i :: 0 <= i < |items| ==> items[i].quantity >= 1
  }

  /** The position of the entry for `id`, as `items.find` would reach it, or -1. */
  function IndexOf(items: seq<CartItem>, id: string): (k: int)
    ensures -1 <= k < |items|
    ensures k >= 0 ==> items[k].product.id == id && forall i :: 0 <= i < k ==> items[i].product.id != id
    ensures k == -1 ==> forall i :: 0 <= i < |items| ==> items[i].product.id != id
    decreases |items|
  {
    if items == [] then -1
    else if items[0].product.id == id then 0
    else
      var k := IndexOf(items[1..], id);
      if k == -1 then -1 else k + 1
  }

  /** `addToCart`: one more unit of an entry already there, else a new entry of one unit at the end. */
  function Added(items: seq<CartItem>, p: ShopProduct): seq<CartItem>
  {
    var k := IndexOf(items, p.id);
    if k >= 0 then items[k := items[k].(quantity := items[k].quantity + 1)]
    else items + [CartItem(p, 1)]
  }

  /** The entries not for `id`, in their order. */
  function Without(items: seq<CartItem>, id: string): (r: seq<CartItem>)
    ensures forall i :: 0 <= i < |r| ==> r[i].product.id != id && r[i] in items
    ensures forall i :: 0 <= i < |items| && items[i].product.id != id ==> items[i] in r
  {
    Filter(items, (it: CartItem) => it.product.id != id)
  }

  /** `updateQuantity`: unknown id, nothing; quantity <= 0, the entry goes; otherwise it is set. */
  function WithQuantity(items: seq<CartItem>, id: string, quantity: int): seq<CartItem>
  {
    var k := IndexOf(items, id);
    if k < 0 then items
    else if quantity <= 0 then Without(items, id)
    else items[k := items[k].(quantity := quantity)]
  }

  /** Removing keeps the invariant: what is left is a subsequence of a well-formed list. */
  lemma WithoutKeepsWellFormed(items: seq<CartItem>, id: string)
    requires WellFormed(items)
    ensures WellFormed(Without(items, id))
    ensures IsSubsequence(Without(items, id), items)
  {
    FilterKeepsPairwise(items, (it: CartItem) => it.product.id != id, (a: CartItem, b: CartItem) => a.product.id != b.product.id);
    FilterIsSubsequence(items, (it: CartItem) => it.product.id != id);
    var r := Without(items, id);
    forall i | 0 <= i < |r|
      ensures r[i].quantity >= 1
    {
      var j :| 0 <= j < |items| && items[j] == r[i];
    }
  }

  /**
   * Adding a product keeps one entry per product: an existing entry grows by
   * one unit and stays where it is, otherwise the new entry comes last.
   */
  lemma AddedContract(items: seq<CartItem>, p: ShopProduct)
    requires WellFormed(items)
    ensures WellFormed(Added(items, p))
    ensures IndexOf(items, p.id) >= 0 ==>
      var k := IndexOf(items, p.id);
      |Added(items, p)| == |items| && Added(items, p)[k].quantity == items[k].quantity + 1
      && Added(items, p)[k].product == items[k].product
      && forall i :: 0 <= i < |items| && i != k ==> Added(items, p)[i] == items[i]
    ensures IndexOf(items, p.id) < 0 ==> Added(items, p) == items + [CartItem(p, 1)]
  {
    var k := IndexOf(items, p.id);
    var r := Added(items, p);
    if k < 0 {
      forall i, j | 0 <= i < j < |r|
        ensures r[i].product.id != r[j].product.id
      {
        if j == |items| {
          assert r[i] == items[i];
        } else {
          assert r[i] == items[i] && r[j] == items[j];
        }
      }
    } else {
      forall i, j | 0 <= i < j < |r|
        ensures r[i].product.id != r[j].product.id
      {
        assert r[i].product.id == items[i].product.id && r[j].product.id == items[j].product.id;
      }
    }
  }

  /** Adding a product the cart did not hold and then removing it gives the cart back. */
  lemma {:induction false} AddThenRemove(items: seq<CartItem>, p: ShopProduct)
    requires IndexOf(items, p.id) < 0
    ensures Without(Added(items, p), p.id) == items
    decreases |items|
  {
    if items == [] {
      assert Added(items, p) == [CartItem(p, 1)];
    } else {
      assert IndexOf(items[1..], p.id) < 0;
      AddThenRemove(items[1..], p);
      var a := Added(items, p);
      assert a == items + [CartItem(p, 1)];
      assert a[1..] == Added(items[1..], p);
      assert [items[0]] + items[1..] == items;
    }
  }

  /**
   * Setting a quantity keeps the invariant; a positive one is stored exactly,
   * with the entry in place; zero or less removes just that entry, keeping the
   * others in order.
   */
  lemma WithQuantityContract(items: seq<CartItem>, id: string, quantity: int)
    requires WellFormed(items)
    ensures WellFormed(WithQuantity(items, id, quantity))
    ensures IndexOf(items, id) < 0 ==> WithQuantity(items, id, quantity) == items
    ensures IndexOf(items, id) >= 0 && quantity <= 0 ==>
      && WithQuantity(items, id, quantity) == Without(items, id)
      && IsSubsequence(WithQuantity(items, id, quantity), items)
      && forall i :: 0 <= i < |WithQuantity(items, id, quantity)| ==> WithQuantity(items, id, quantity)[i].product.id != id
    ensures IndexOf(items, id) >= 0 && quantity > 0 ==>
      var k := IndexOf(items, id);
      && |WithQuantity(items, id, quantity)| == |items|
      && WithQuantity(items, id, quantity)[k] == items[k].(quantity := quantity)
      && forall i :: 0 <= i < |items| && i != k ==> WithQuantity(items, id, quantity)[i] == items[i]
  {
    var k := IndexOf(items, id);
    if k >= 0 && quantity <= 0 {
      WithoutKeepsWellFormed(items, id);
    } else if k >= 0 {
      var r := WithQuantity(items, id, quantity);
      forall i, j | 0 <= i < j < |r|
        ensures r[i].product.id != r[j].product.id
      {
        assert r[i].product.id == items[i].product.id && r[j].product.id == items[j].product.id;
      }
    }
  }

  /** The cart state. */
  class CartState {
    var items: seq<CartItem>
    var isOpen: bool

    ghost predicate Valid()
      reads this
    {
      WellFormed(items)
    }

    /** The initial state: empty and closed. */
    constructor()
      ensures Valid()
      ensures items == [] && !isOpen
    {
      items := [];
      isOpen := false;
    }

    method AddToCart(p: ShopProduct)
      requires Valid()
      modifies this
      ensures Valid()
      ensures items == Added(old(items), p) && isOpen == old(isOpen)
    {
      AddedContract(items, p);
      var k := IndexOf(items, p.id);
      if k >= 0 {
        items := items[k := items[k].(quantity := items[k].quantity + 1)];
      } else {
        items := items + [CartItem(p, 1)];
      }
    }

    method RemoveFromCart(id: string)
      requires Valid()
      modifies this
      ensures Valid()
      ensures items == Without(old(items), id) && isOpen == old(isOpen)
    {
      WithoutKeepsWellFormed(items, id);
      items := Filter(items, (it: CartItem) => it.product.id != id);
    }

    method UpdateQuantity(productId: string, quantity: int)
      requires Valid()
      modifies this
      ensures Valid()
      ensures items == WithQuantity(old(items), productId, quantity) && isOpen == old(isOpen)
    {
      WithQuantityContract(items, productId, quantity);
      var k := IndexOf(items, productId);
      if k >= 0 {
        if quantity <= 0 {
          items := Filter(items, (it: CartItem) => it.product.id != productId);
        } else {
          items := items[k := items[k].(quantity := quantity)];
        }
      }
    }

    method ClearCart()
      modifies this
      ensures Valid()
      ensures items == [] && isOpen == old(isOpen)
    {
      items := [];
    }

    method SetCartOpen(open: bool)
      modifies this
      ensures isOpen == open && items == old(items)
    {
      isOpen := open;
    }
  }
}
