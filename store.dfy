/** The storefront's state controller: the state slots the component holds and
    the handlers that assign them. The add, remove and accepted-update handlers
    store, through SaveCart, the cart the corresponding ShopCart function
    computes; placing an order stores the empty cart. */
module Storefront {
  import opened ShopCart
  import opened ShopCartProperties

  class Store {
    var products: seq<Product>
    var cart: seq<Item>
    var selected: Option<Product>
    var view: View
    var orders: seq<Order>
    /** The cart as last written to browser storage. */
    ghost var persisted: seq<Item>

    /** The cart keeps one line per id with positive quantities, and storage mirrors it. */
    ghost predicate Valid()
      reads this
    {
      WellFormed(cart) && persisted == cart
    }

    /** The initial state: the given catalog, an empty cart and history, nothing selected,
        the home view. */
    constructor (products: seq<Product>)
      ensures Valid()
      ensures this.products == products && cart == [] && persisted == []
      ensures selected == None && view == Home && orders == []
    {
      this.products := products;
      cart := [];
      persisted := [];
      selected := None;
      view := Home;
      orders := [];
    }

    /** Stores a new cart in the cart slot and in browser storage; nothing else changes. */
    method SaveCart(newCart: seq<Item>)
      modifies this
      ensures cart == newCart && persisted == newCart
      ensures products == old(products) && selected == old(selected)
      ensures view == old(view) && orders == old(orders)
    {
      cart := newCart;
      persisted := newCart;
    }

    /** The `addToCart` handler. */
    method AddToCart(id: int)
      requires Valid()
      modifies this
      ensures Valid()
      ensures cart == ShopCart.AddToCart(old(products), old(cart), id)
      ensures CartCount(cart) ==
        CartCount(old(cart)) + (if FindProduct(old(products), id).Some? then 1 else 0)
      ensures products == old(products) && selected == old(selected)
      ensures view == old(view) && orders == old(orders)
    {
      var newCart := ShopCart.AddToCart(products, cart, id);
      AddPreservesWellFormed(products, cart, id);
      if FindProduct(products, id).Some? {
        AddCount(products, cart, id);
      }
      SaveCart(newCart);
    }

    /** The `removeFromCart` handler. */
    method RemoveFromCart(id: int)
      requires Valid()
      modifies this
      ensures Valid()
      ensures cart == ShopCart.RemoveFromCart(old(cart), id)
      ensures !Contains(cart, id)
      ensures CartCount(cart) == CartCount(old(cart)) - QtyOf(old(cart), id)
      ensures products == old(products) && selected == old(selected)
      ensures view == old(view) && orders == old(orders)
    {
      var newCart := ShopCart.RemoveFromCart(cart, id);
      RemovePreservesWellFormed(cart, id);
      RemoveGone(cart, id);
      RemoveCount(cart, id);
      SaveCart(newCart);
    }

    /** The `updateQty` handler: a quantity below 1 returns before anything is stored. */
    method UpdateQty(id: int, qty: int)
      requires Valid()
      modifies this
      ensures Valid()
      ensures qty < 1 ==> cart == old(cart) && persisted == old(persisted)
      ensures cart == ShopCart.UpdateQty(old(cart), id, qty)
      ensures products == old(products) && selected == old(selected)
      ensures view == old(view) && orders == old(orders)
    {
      if qty < 1 {
        return;
      }
      var newCart := ShopCart.UpdateQty(cart, id, qty);
      UpdatePreservesWellFormed(cart, id, qty);
      SaveCart(newCart);
    }

    /** The `placeOrder` handler: records the cart and its total as a new order, empties
        the cart and shows the order history. */
    method PlaceOrder()
      requires Valid()
      modifies this
      ensures Valid()
      ensures orders == old(orders) + [Order(old(cart), Total(old(cart)))]
      ensures old(cart) == [] ==> orders[|orders| - 1].total == 0
      ensures cart == [] && view == Orders
      ensures products == old(products) && selected == old(selected)
    {
      var total := Total(cart);
      orders := orders + [Order(cart, total)];
      SaveCart([]);
      view := Orders;
    }

    /** The `showDetails` handler: selects the first product with the id, if any, and
        shows the details view. */
    method ShowDetails(id: int)
      requires Valid()
      modifies this
      ensures Valid()
      ensures selected == FindProduct(old(products), id) && view == Details
      ensures selected.Some? ==> selected.value in products && selected.value.id == id
      ensures products == old(products) && cart == old(cart) && persisted == old(persisted)
      ensures orders == old(orders)
    {
      selected := FindProduct(products, id);
      view := Details;
    }

    /** The `goHome` handler. */
    method GoHome()
      requires Valid()
      modifies this
      ensures Valid()
      ensures view == Home
      ensures products == old(products) && cart == old(cart) && persisted == old(persisted)
      ensures selected == old(selected) && orders == old(orders)
    {
      view := Home;
    }

    /** The `goCatalog` handler. */
    method GoCatalog()
      requires Valid()
      modifies this
      ensures Valid()
      ensures view == Catalog
      ensures products == old(products) && cart == old(cart) && persisted == old(persisted)
      ensures selected == old(selected) && orders == old(orders)
    {
      view := Catalog;
    }

    /** The `goCart` handler. */
    method GoCart()
      requires Valid()
      modifies this
      ensures Valid()
      ensures view == Cart
      ensures products == old(products) && cart == old(cart) && persisted == old(persisted)
      ensures selected == old(selected) && orders == old(orders)
    {
      view := Cart;
    }

    /** The `goCheckout` handler. */
    method GoCheckout()
      requires Valid()
      modifies this
      ensures Valid()
      ensures view == Checkout
      ensures products == old(products) && cart == old(cart) && persisted == old(persisted)
      ensures selected == old(selected) && orders == old(orders)
    {
      view := Checkout;
    }

    /** The `goOrders` handler. */
    method GoOrders()
      requires Valid()
      modifies this
      ensures Valid()
      ensures view == Orders
      ensures products == old(products) && cart == old(cart) && persisted == old(persisted)
      ensures selected == old(selected) && orders == old(orders)
    {
      view := Orders;
    }
  }

  /** The carts of a session with two perfumes, Rose (id 1, price 10) and Musk (id 2,
      price 20): two adds of Rose, one of Musk; and the total of the resulting cart. */
  lemma SessionCarts()
    ensures ShopCart.AddToCart([Product(1, "Rose", 10), Product(2, "Musk", 20)], [], 1) ==
      [Item(1, "Rose", 10, 1)]
    ensures ShopCart.AddToCart([Product(1, "Rose", 10), Product(2, "Musk", 20)], [Item(1, "Rose", 10, 1)], 1) ==
      [Item(1, "Rose", 10, 2)]
    ensures ShopCart.AddToCart([Product(1, "Rose", 10), Product(2, "Musk", 20)], [Item(1, "Rose", 10, 2)], 2) ==
      [Item(1, "Rose", 10, 2), Item(2, "Musk", 20, 1)]
    ensures Total([Item(1, "Rose", 10, 2), Item(2, "Musk", 20, 1)]) == 40
  {
    var rose, musk := Product(1, "Rose", 10), Product(2, "Musk", 20);
    assert FindProduct([rose, musk], 2) == Some(musk) by {
      assert [rose, musk][1..] == [musk];
    }
    assert Contains([Item(1, "Rose", 10, 1)], 1) by {
      assert [Item(1, "Rose", 10, 1)][0].id == 1;
    }
    assert !Contains([Item(1, "Rose", 10, 2)], 2);
    var c := [Item(1, "Rose", 10, 2), Item(2, "Musk", 20, 1)];
    assert c[..1] == [Item(1, "Rose", 10, 2)] && c[..1][..0] == [];
  }

  /** A session driven through the handlers: Rose is added twice and Musk once, a
      quantity update to 0 is refused, then two orders are placed; the second is empty. */
  method Session()
  {
    var rose := Product(1, "Rose", 10);
    var musk := Product(2, "Musk", 20);
    SessionCarts();
    var s := new Store([rose, musk]);
    s.AddToCart(1);
    s.AddToCart(1);
    s.AddToCart(2);
    s.UpdateQty(1, 0);
    assert s.cart == [Item(1, "Rose", 10, 2), Item(2, "Musk", 20, 1)];
    s.PlaceOrder();
    assert s.orders == [Order([Item(1, "Rose", 10, 2), Item(2, "Musk", 20, 1)], 40)];
    assert s.cart == [] && s.view == Orders;
    s.PlaceOrder();
    assert s.orders[1] == Order([], 0);
  }
}
