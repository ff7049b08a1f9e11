/** What the cart computations promise: the effect of each handler on the cart,
    the invariant they keep, and how the derived count and total follow them. */
module ShopCartProperties {
  import opened ShopCart

  // ---------------------------------------------------------------------------
  // Adding
  // ---------------------------------------------------------------------------

  /** Adding an id that matches no product leaves the cart as it was. */
  lemma AddUnknown(products: seq<Product>, cart: seq<Item>, id: int)
    requires forall k :: 0 <= k < |products| ==> products[k].id != id
    ensures AddToCart(products, cart, id) == cart
  {
  }

  /** Adding a product already in the cart raises the quantity of its lines by one;
      the length, the order and every other line are unchanged. */
  lemma AddExisting(products: seq<Product>, cart: seq<Item>, id: int)
    requires FindProduct(products, id).Some?
    requires Contains(cart, id)
    ensures var r := AddToCart(products, cart, id);
      |r| == |cart| &&
      forall k :: 0 <= k < |cart| ==>
        r[k].id == cart[k].id && r[k].name == cart[k].name && r[k].price == cart[k].price &&
        r[k].qty == (if cart[k].id == id then cart[k].qty + 1 else cart[k].qty)
  {
  }

  /** Adding a known product that is not in the cart appends one line with quantity 1
      holding the first matching product's fields; the existing lines stay in front. */
  lemma AddNew(products: seq<Product>, cart: seq<Item>, id: int)
    requires FindProduct(products, id).Some?
    requires !Contains(cart, id)
    ensures var r := AddToCart(products, cart, id);
      var p := FindProduct(products, id).value;
      |r| == |cart| + 1 && r[..|cart|] == cart &&
      r[|cart|] == Item(id, p.name, p.price, 1) && p in products
  {
  }

  /** Adding never breaks the cart invariant. */
  lemma AddPreservesWellFormed(products: seq<Product>, cart: seq<Item>, id: int)
    requires WellFormed(cart)
    ensures WellFormed(AddToCart(products, cart, id))
  {
  }

  /** Adding changes the cart's membership only by the added id, and only for a known product. */
  lemma AddContains(products: seq<Product>, cart: seq<Item>, id: int, x: int)
    ensures Contains(AddToCart(products, cart, id), x) <==>
      Contains(cart, x) || (x == id && FindProduct(products, id).Some?)
  {
    var r := AddToCart(products, cart, id);
    if FindProduct(products, id).Some? && !Contains(cart, id) {
      assert r == cart + [NewItem(FindProduct(products, id).value)];
      if Contains(r, x) {
        var k :| 0 <= k < |r| && r[k].id == x;
        if k < |cart| { assert cart[k].id == x; }
      }
      if x == id { assert r[|cart|].id == x; }
      if Contains(cart, x) {
        var k :| 0 <= k < |cart| && cart[k].id == x;
        assert r[k].id == x;
      }
    } else if FindProduct(products, id).Some? {
      if Contains(r, x) {
        var k :| 0 <= k < |r| && r[k].id == x;
        assert cart[k].id == x;
      }
      if Contains(cart, x) {
        var k :| 0 <= k < |cart| && cart[k].id == x;
        assert r[k].id == x;
      }
    }
  }

  // ---------------------------------------------------------------------------
  // Units held per id
  // ---------------------------------------------------------------------------

  /** Units per id distribute over concatenation. */
  lemma {:induction false} QtyOfAppend(a: seq<Item>, b: seq<Item>, x: int)
    ensures QtyOf(a + b, x) == QtyOf(a, x) + QtyOf(b, x)
  {
    if a == [] {
      assert a + b == b;
    } else {
      assert (a + b)[1..] == a[1..] + b;
      QtyOfAppend(a[1..], b, x);
    }
  }

  /** An id with no line holds no units. */
  lemma {:induction false} QtyOfAbsent(cart: seq<Item>, x: int)
    requires !Contains(cart, x)
    ensures QtyOf(cart, x) == 0
  {
    if cart != [] {
      assert cart[0].id != x;
      assert !Contains(cart[1..], x);
      QtyOfAbsent(cart[1..], x);
    }
  }

  /** In a well-formed cart the units held for an id are exactly the quantity of its one line. */
  lemma {:induction false} QtyOfLine(cart: seq<Item>, k: int)
    requires WellFormed(cart)
    requires 0 <= k < |cart|
    ensures QtyOf(cart, cart[k].id) == cart[k].qty
  {
    var x := cart[k].id;
    assert WellFormed(cart[1..]);
    if k == 0 {
      assert !Contains(cart[1..], x);
      QtyOfAbsent(cart[1..], x);
    } else {
      assert cart[0].id != x;
      assert cart[1..][k - 1] == cart[k];
      QtyOfLine(cart[1..], k - 1);
    }
  }

  /** In a well-formed cart an id is present exactly when it holds at least one unit. */
  lemma QtyOfPositive(cart: seq<Item>, x: int)
    requires WellFormed(cart)
    ensures Contains(cart, x) <==> QtyOf(cart, x) > 0
  {
  }

  /** A bump that matches no line changes nothing. */
  lemma BumpAbsent(cart: seq<Item>, id: int)
    requires !Contains(cart, id)
    ensures Bump(cart, id) == cart
  {
  }

  /** In a well-formed cart, bumping a present id adds one unit to that id and none to any other. */
  lemma {:induction false} BumpQtyOf(cart: seq<Item>, id: int, x: int)
    requires WellFormed(cart)
    requires Contains(cart, id)
    ensures QtyOf(Bump(cart, id), x) == QtyOf(cart, x) + (if x == id then 1 else 0)
  {
    var r := Bump(cart, id);
    assert r == [r[0]] + Bump(cart[1..], id);
    assert r[1..] == Bump(cart[1..], id);
    assert WellFormed(cart[1..]);
    if cart[0].id == id {
      assert !Contains(cart[1..], id);
      BumpAbsent(cart[1..], id);
    } else {
      assert Contains(cart[1..], id) by {
        var j :| 0 <= j < |cart| && cart[j].id == id;
        assert cart[1..][j - 1].id == id;
      }
      BumpQtyOf(cart[1..], id, x);
    }
  }

  /** In a well-formed cart, adding a known product adds exactly one unit of it and none
      of any other id; adding an unknown one adds nothing. */
  lemma AddQtyOf(products: seq<Product>, cart: seq<Item>, id: int, x: int)
    requires WellFormed(cart)
    ensures QtyOf(AddToCart(products, cart, id), x) ==
      QtyOf(cart, x) + (if x == id && FindProduct(products, id).Some? then 1 else 0)
  {
    match FindProduct(products, id)
    case None =>
    case Some(p) =>
      if Contains(cart, id) {
        BumpQtyOf(cart, id, x);
      } else {
        QtyOfAppend(cart, [NewItem(p)], x);
        assert QtyOf([NewItem(p)], x) == (if x == id then 1 else 0) by {
          assert [NewItem(p)][1..] == [];
        }
      }
  }

  /** The multiplicity of an id in a run of adds splits off the first add. */
  lemma MultiplicityCons(ids: seq<int>, x: int)
    requires ids != []
    ensures multiset(ids)[x] == multiset(ids[1..])[x] + (if x == ids[0] then 1 else 0)
  {
    assert ids == [ids[0]] + ids[1..];
  }

  /** Starting from a well-formed cart, a run of adds keeps the invariant and, for each id,
      adds as many units as the id was added, counting only ids that name a product. */
  lemma {:induction false} AddAllQtyOf(products: seq<Product>, cart: seq<Item>, ids: seq<int>, x: int)
    requires WellFormed(cart)
    ensures WellFormed(AddAll(products, cart, ids))
    ensures QtyOf(AddAll(products, cart, ids), x) ==
      QtyOf(cart, x) + (if FindProduct(products, x).Some? then multiset(ids)[x] else 0)
    decreases |ids|
  {
    if ids != [] {
      var next := AddToCart(products, cart, ids[0]);
      AddPreservesWellFormed(products, cart, ids[0]);
      AddQtyOf(products, cart, ids[0], x);
      AddAllQtyOf(products, next, ids[1..], x);
      assert AddAll(products, cart, ids) == AddAll(products, next, ids[1..]);
      MultiplicityCons(ids, x);
    }
  }

  /** From an empty cart, a run of adds yields one line per distinct known id added,
      holding as many units as that id was added. */
  lemma AddAllFromEmpty(products: seq<Product>, ids: seq<int>, x: int)
    ensures var r := AddAll(products, [], ids);
      WellFormed(r) &&
      (Contains(r, x) <==> x in ids && FindProduct(products, x).Some?) &&
      QtyOf(r, x) == (if FindProduct(products, x).Some? then multiset(ids)[x] else 0)
  {
    AddAllQtyOf(products, [], ids, x);
    QtyOfPositive(AddAll(products, [], ids), x);
  }

  // ---------------------------------------------------------------------------
  // Removing
  // ---------------------------------------------------------------------------

  /** After removing an id no line has it. */
  lemma RemoveGone(cart: seq<Item>, id: int)
    ensures !Contains(RemoveFromCart(cart, id), id)
  {
  }

  /** Removing distributes over concatenation, so the kept lines keep their relative order. */
  lemma {:induction false} RemoveAppend(a: seq<Item>, b: seq<Item>, id: int)
    ensures RemoveFromCart(a + b, id) == RemoveFromCart(a, id) + RemoveFromCart(b, id)
  {
    if a == [] {
      assert a + b == b;
    } else {
      assert (a + b)[0] == a[0];
      assert (a + b)[1..] == a[1..] + b;
      RemoveAppend(a[1..], b, id);
    }
  }

  /** Removing an id no line has changes nothing. */
  lemma {:induction false} RemoveAbsent(cart: seq<Item>, id: int)
    requires !Contains(cart, id)
    ensures RemoveFromCart(cart, id) == cart
  {
    if cart != [] {
      assert cart[0].id != id;
      assert !Contains(cart[1..], id);
      RemoveAbsent(cart[1..], id);
      assert cart == [cart[0]] + cart[1..];
    }
  }

  /** A second identical removal is a no-op. */
  lemma RemoveIdempotent(cart: seq<Item>, id: int)
    ensures RemoveFromCart(RemoveFromCart(cart, id), id) == RemoveFromCart(cart, id)
  {
  }

  /** Removing never introduces an id the cart did not have. */
  lemma RemoveKeepsAbsent(cart: seq<Item>, id: int, x: int)
    requires !Contains(cart, x)
    ensures !Contains(RemoveFromCart(cart, id), x)
  {
  }

  /** A line in front of a well-formed cart that lacks its id, with a positive quantity,
      gives a well-formed cart. */
  lemma ConsWellFormed(x: Item, s: seq<Item>)
    requires WellFormed(s) && !Contains(s, x.id) && x.qty >= 1
    ensures WellFormed([x] + s)
  {
  }

  /** Removing never breaks the cart invariant. */
  lemma {:induction false} RemovePreservesWellFormed(cart: seq<Item>, id: int)
    requires WellFormed(cart)
    ensures WellFormed(RemoveFromCart(cart, id))
  {
    if cart != [] {
      assert WellFormed(cart[1..]);
      RemovePreservesWellFormed(cart[1..], id);
      if cart[0].id != id {
        assert !Contains(cart[1..], cart[0].id);
        RemoveKeepsAbsent(cart[1..], id, cart[0].id);
        ConsWellFormed(cart[0], RemoveFromCart(cart[1..], id));
      }
    }
  }

  // ---------------------------------------------------------------------------
  // Updating a quantity
  // ---------------------------------------------------------------------------

  /** A quantity below 1 is refused and the cart is unchanged; otherwise every line with
      the id gets exactly that quantity and the length and the other lines are unchanged;
      an id no line has leaves the cart unchanged. */
  lemma UpdateQtyEffect(cart: seq<Item>, id: int, qty: int)
    ensures qty < 1 ==> UpdateQty(cart, id, qty) == cart
    ensures qty >= 1 ==>
      var r := UpdateQty(cart, id, qty);
      |r| == |cart| &&
      forall k :: 0 <= k < |cart| ==>
        r[k].id == cart[k].id && r[k].name == cart[k].name && r[k].price == cart[k].price &&
        r[k].qty == (if cart[k].id == id then qty else cart[k].qty)
    ensures !Contains(cart, id) ==> UpdateQty(cart, id, qty) == cart
  {
  }

  /** Updating never breaks the cart invariant. */
  lemma UpdatePreservesWellFormed(cart: seq<Item>, id: int, qty: int)
    requires WellFormed(cart)
    ensures WellFormed(UpdateQty(cart, id, qty))
  {
  }

  /** In a well-formed cart, an accepted update leaves the id holding exactly the given
      number of units, when it is present, and every other id as before. */
  lemma {:induction false} UpdateQtyOf(cart: seq<Item>, id: int, qty: int, x: int)
    requires WellFormed(cart)
    requires qty >= 1
    ensures QtyOf(UpdateQty(cart, id, qty), x) ==
      if x == id && Contains(cart, id) then qty else QtyOf(cart, x)
  {
    var r := UpdateQty(cart, id, qty);
    UpdatePreservesWellFormed(cart, id, qty);
    if x == id && Contains(cart, id) {
      var k :| 0 <= k < |cart| && cart[k].id == id;
      QtyOfLine(r, k);
    } else if x == id {
      UpdateQtyEffect(cart, id, qty);
    } else {
      SetQtyOther(cart, id, qty, x);
    }
  }

  /** Setting the quantity of one id does not change the units of another. */
  lemma {:induction false} SetQtyOther(cart: seq<Item>, id: int, qty: nat, x: int)
    requires x != id
    ensures QtyOf(SetQty(cart, id, qty), x) == QtyOf(cart, x)
  {
    if cart != [] {
      var r := SetQty(cart, id, qty);
      assert r[1..] == SetQty(cart[1..], id, qty);
      SetQtyOther(cart[1..], id, qty, x);
    }
  }

  // ---------------------------------------------------------------------------
  // The cart count and the order total
  // ---------------------------------------------------------------------------

  /** The count of a concatenation is the sum of the counts. */
  lemma {:induction false} CountAppend(a: seq<Item>, b: seq<Item>)
    ensures CartCount(a + b) == CartCount(a) + CartCount(b)
  {
    if b == [] {
      assert a + b == a;
    } else {
      var ab, front := a + b, b[..|b| - 1];
      assert ab[..|ab| - 1] == a + front;
      assert ab[|ab| - 1] == b[|b| - 1];
      assert CartCount(ab) == CartCount(a + front) + b[|b| - 1].qty;
      assert CartCount(b) == CartCount(front) + b[|b| - 1].qty;
      CountAppend(a, front);
    }
  }

  /** The total of a concatenation is the sum of the totals. */
  lemma {:induction false} TotalAppend(a: seq<Item>, b: seq<Item>)
    ensures Total(a + b) == Total(a) + Total(b)
  {
    if b == [] {
      assert a + b == a;
    } else {
      var ab, front := a + b, b[..|b| - 1];
      assert ab[..|ab| - 1] == a + front;
      assert ab[|ab| - 1] == b[|b| - 1];
      assert Total(ab) == Total(a + front) + b[|b| - 1].price * b[|b| - 1].qty;
      assert Total(b) == Total(front) + b[|b| - 1].price * b[|b| - 1].qty;
      TotalAppend(a, front);
    }
  }

  /** The count is the units of one id plus the count of what removing that id leaves. */
  lemma {:induction false} CountSplit(cart: seq<Item>, id: int)
    ensures CartCount(cart) == QtyOf(cart, id) + CartCount(RemoveFromCart(cart, id))
  {
    if cart != [] {
      assert cart == [cart[0]] + cart[1..];
      CountAppend([cart[0]], cart[1..]);
      CountSplit(cart[1..], id);
      if cart[0].id != id {
        CountAppend([cart[0]], RemoveFromCart(cart[1..], id));
      }
    }
  }

  /** Removing an id after a bump of it gives what removing it alone gives. */
  lemma {:induction false} RemoveBump(cart: seq<Item>, id: int)
    ensures RemoveFromCart(Bump(cart, id), id) == RemoveFromCart(cart, id)
  {
    if cart != [] {
      var r := Bump(cart, id);
      assert r == [r[0]] + Bump(cart[1..], id);
      assert r[1..] == Bump(cart[1..], id);
      RemoveBump(cart[1..], id);
    }
  }

  /** In a well-formed cart, adding a known product raises the count by exactly one. */
  lemma AddCount(products: seq<Product>, cart: seq<Item>, id: int)
    requires WellFormed(cart)
    requires FindProduct(products, id).Some?
    ensures CartCount(AddToCart(products, cart, id)) == CartCount(cart) + 1
  {
    var r := AddToCart(products, cart, id);
    AddQtyOf(products, cart, id, id);
    CountSplit(cart, id);
    CountSplit(r, id);
    if Contains(cart, id) {
      RemoveBump(cart, id);
    } else {
      var p := FindProduct(products, id).value;
      RemoveAppend(cart, [NewItem(p)], id);
      assert RemoveFromCart([NewItem(p)], id) == [] by {
        assert [NewItem(p)][1..] == [];
      }
      assert cart + [] == cart;
    }
  }

  /** Removing an id lowers the count by exactly the units that id held. */
  lemma RemoveCount(cart: seq<Item>, id: int)
    ensures CartCount(RemoveFromCart(cart, id)) == CartCount(cart) - QtyOf(cart, id)
  {
    CountSplit(cart, id);
  }

  /** One more unit on a line adds that line's price to its amount. */
  lemma BumpAmount(x: Item)
    ensures x.(qty := x.qty + 1).price * x.(qty := x.qty + 1).qty == x.price * x.qty + x.price
  {
  }

  /** Replacing one line changes the total by the difference of the two lines' amounts. */
  lemma TotalReplace(s: seq<Item>, k: int, y: Item)
    requires 0 <= k < |s|
    ensures Total(s[k := y]) + s[k].price * s[k].qty == Total(s) + y.price * y.qty
  {
    var front, back := s[..k], s[k + 1..];
    assert s == front + [s[k]] + back;
    assert s[k := y] == front + [y] + back;
    TotalAppend(front + [s[k]], back);
    TotalAppend(front + [y], back);
    TotalAppend(front, [s[k]]);
    TotalAppend(front, [y]);
    assert [y][..0] == [] && [s[k]][..0] == [];
  }

  /** In a well-formed cart, bumping the id of the line at k bumps that line alone. */
  lemma BumpOneLine(cart: seq<Item>, k: int)
    requires WellFormed(cart)
    requires 0 <= k < |cart|
    ensures Bump(cart, cart[k].id) == cart[k := cart[k].(qty := cart[k].qty + 1)]
  {
  }

  /** In a well-formed cart, bumping the line at k raises the total by that line's price. */
  lemma BumpTotal(cart: seq<Item>, k: int)
    requires WellFormed(cart)
    requires 0 <= k < |cart|
    ensures Total(Bump(cart, cart[k].id)) == Total(cart) + cart[k].price
  {
    BumpOneLine(cart, k);
    TotalBumpLine(cart, k);
  }

  /** One more unit on the line at k raises the total by that line's price. */
  lemma TotalBumpLine(s: seq<Item>, k: int)
    requires 0 <= k < |s|
    ensures Total(s[k := s[k].(qty := s[k].qty + 1)]) == Total(s) + s[k].price
  {
    TotalReplace(s, k, s[k].(qty := s[k].qty + 1));
    BumpAmount(s[k]);
  }

  /** In a well-formed cart, adding a known product raises the total by one unit's price:
      the price copied into its existing line, or the product's price for a new line. */
  lemma AddTotal(products: seq<Product>, cart: seq<Item>, id: int)
    requires WellFormed(cart)
    requires FindProduct(products, id).Some?
    ensures !Contains(cart, id) ==>
      Total(AddToCart(products, cart, id)) == Total(cart) + FindProduct(products, id).value.price
    ensures forall k :: 0 <= k < |cart| && cart[k].id == id ==>
      Total(AddToCart(products, cart, id)) == Total(cart) + cart[k].price
  {
    var p := FindProduct(products, id).value;
    if Contains(cart, id) {
      forall k | 0 <= k < |cart| && cart[k].id == id
        ensures Total(AddToCart(products, cart, id)) == Total(cart) + cart[k].price
      {
        assert AddToCart(products, cart, id) == Bump(cart, cart[k].id);
        BumpTotal(cart, k);
      }
    } else {
      assert AddToCart(products, cart, id) == cart + [NewItem(p)];
      TotalNewLine(cart, p);
    }
  }

  /** Appending a fresh line for a product raises the total by the product's price. */
  lemma TotalNewLine(cart: seq<Item>, p: Product)
    ensures Total(cart + [NewItem(p)]) == Total(cart) + p.price
  {
  }
}
