/** The value side of the storefront's cart controller: products, cart lines,
    orders and views, and the pure new-cart computations the handlers perform
    before they store the result. */
module ShopCart {

  datatype Option<T> = None | Some(value: T)

  /** A catalog entry. Display-only fields (the image and the like) are not modelled. */
  datatype Product = Product(id: int, name: string, price: nat)

  /** A cart line: the product's fields copied in when it was added, plus a quantity. */
  datatype Item = Item(id: int, name: string, price: nat, qty: nat)

  /** A placed order: a snapshot of the cart and the total computed from it. */
  datatype Order = Order(items: seq<Item>, total: nat)

  /** The screen that is shown; exactly one at a time. */
  datatype View = Home | Catalog | Details | Cart | Checkout | Orders

  /** The first product with the given id, as `Array.prototype.find` gives it. */
  function FindProduct(products: seq<Product>, id: int): (r: Option<Product>)
    ensures r.None? <==> forall k :: 0 <= k < |products| ==> products[k].id != id
    ensures r.Some? ==>
      exists k :: 0 <= k < |products| && products[k] == r.value && r.value.id == id &&
        forall j :: 0 <= j < k ==> products[j].id != id
  {
    if products == [] then None
    else if products[0].id == id then Some(products[0])
    else
      var r := FindProduct(products[1..], id);
      assert r.Some? ==> exists k :: (1 <= k < |products| && products[k] == r.value && r.value.id == id &&
                                      forall j :: 0 <= j < k ==> products[j].id != id)
      by {
        if r.Some? {
          var k :| 0 <= k < |products[1..]| && products[1..][k] == r.value && r.value.id == id &&
            forall j :: 0 <= j < k ==> products[1..][j].id != id;
          assert forall j :: 1 <= j < k + 1 ==> products[j] == products[1..][j - 1];
        }
      }
      r
  }

  /** True when some cart line has the given id. */
  predicate Contains(cart: seq<Item>, id: int) {
    exists k :: 0 <= k < |cart| && cart[k].id == id
  }

  /** The invariant the handlers keep: at most one line per id, every quantity at least 1. */
  predicate WellFormed(cart: seq<Item>) {
    (forall i, j :: 0 <= i < j < |cart| ==> cart[i].id != cart[j].id) &&
    (forall k :: 0 <= k < |cart| ==> cart[k].qty >= 1)
  }

  /** A fresh cart line for a product: its fields and quantity 1. */
  function NewItem(p: Product): Item {
    Item(p.id, p.name, p.price, 1)
  }

  /** Every line with the given id gets one more unit; the rest are kept as they are. */
  function Bump(cart: seq<Item>, id: int): (r: seq<Item>)
    ensures |r| == |cart|
    ensures forall k :: 0 <= k < |cart| ==>
      r[k] == if cart[k].id == id then cart[k].(qty := cart[k].qty + 1) else cart[k]
  {
    if cart == [] then []
    else [if cart[0].id == id then cart[0].(qty := cart[0].qty + 1) else cart[0]] + Bump(cart[1..], id)
  }

  /** Every line with the given id gets the given quantity; the rest are kept as they are. */
  function SetQty(cart: seq<Item>, id: int, qty: nat): (r: seq<Item>)
    ensures |r| == |cart|
    ensures forall k :: 0 <= k < |cart| ==>
      r[k] == if cart[k].id == id then cart[k].(qty := qty) else cart[k]
  {
    if cart == [] then []
    else [if cart[0].id == id then cart[0].(qty := qty) else cart[0]] + SetQty(cart[1..], id, qty)
  }

  /** The cart `addToCart(id)` stores: unchanged for an unknown product, merged by id
      for one already in the cart, otherwise the product appended with quantity 1. */
  function AddToCart(products: seq<Product>, cart: seq<Item>, id: int): (r: seq<Item>)
    ensures r == cart <==> FindProduct(products, id).None?
  {
    match FindProduct(products, id)
    case None => cart
    case Some(p) =>
      if Contains(cart, id) then
        var r := Bump(cart, id);
        assert exists k :: 0 <= k < |cart| && r[k].qty != cart[k].qty;
        r
      else cart + [NewItem(p)]
  }

  /** The cart `removeFromCart(id)` stores: the lines whose id differs, in their order. */
  function RemoveFromCart(cart: seq<Item>, id: int): (r: seq<Item>)
    ensures |r| <= |cart|
    ensures forall x :: x in r <==> x in cart && x.id != id
  {
    if cart == [] then []
    else if cart[0].id == id then RemoveFromCart(cart[1..], id)
    else [cart[0]] + RemoveFromCart(cart[1..], id)
  }

  /** The cart `updateQty(id, qty)` leaves: a quantity below 1 is refused. */
  function UpdateQty(cart: seq<Item>, id: int, qty: int): (r: seq<Item>)
    ensures |r| == |cart|
    ensures forall k :: 0 <= k < |cart| ==>
      r[k].id == cart[k].id && r[k].name == cart[k].name && r[k].price == cart[k].price
    ensures forall k :: 0 <= k < |cart| ==> r[k].qty >= 1 || r[k].qty == cart[k].qty
  {
    if qty < 1 then cart else SetQty(cart, id, qty)
  }

  /** The order total: price times quantity summed from the left, as the reduce does. */
  function Total(cart: seq<Item>): (r: nat)
    ensures forall k :: 0 <= k < |cart| ==> cart[k].price * cart[k].qty <= r
    ensures r == 0 <==> forall k :: 0 <= k < |cart| ==> cart[k].price * cart[k].qty == 0
  {
    if cart == [] then 0
    else Total(cart[..|cart| - 1]) + cart[|cart| - 1].price * cart[|cart| - 1].qty
  }

  /** The count shown on the cart button: quantities summed from the left. */
  function CartCount(cart: seq<Item>): (r: nat)
    ensures forall k :: 0 <= k < |cart| ==> cart[k].qty <= r
    ensures r == 0 <==> forall k :: 0 <= k < |cart| ==> cart[k].qty == 0
  {
    if cart == [] then 0
    else CartCount(cart[..|cart| - 1]) + cart[|cart| - 1].qty
  }

  /** The products shown on the home view: `products.slice(0, 2)`. */
  function Featured(products: seq<Product>): (r: seq<Product>)
    ensures |r| == if |products| < 2 then |products| else 2
    ensures forall k :: 0 <= k < |r| ==> r[k] == products[k]
  {
    if |products| < 2 then products else products[..2]
  }

  /** How many units of the given id the cart holds, over all its lines. */
  function QtyOf(cart: seq<Item>, id: int): nat {
    if cart == [] then 0
    else (if cart[0].id == id then cart[0].qty else 0) + QtyOf(cart[1..], id)
  }

  /** The cart after the user adds the given ids one after another. */
  function AddAll(products: seq<Product>, cart: seq<Item>, ids: seq<int>): seq<Item>
    decreases |ids|
  {
    if ids == [] then cart
    else AddAll(products, AddToCart(products, cart, ids[0]), ids[1..])
  }
}
