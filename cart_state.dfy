/**
 * The shopping-cart session state of the storefront's main page: the cart lines,
 * whether the cart panel is open, and the one-way promotional discount flag.
 * The line operations are functions on sequences; `Session` holds the state and
 * replaces it the way the page's state setters do.
 */
module CartState {
  import opened Wrappers
  import opened Catalog

  /** A cart line: the product as it was added, and its quantity. */
  datatype CartItem = CartItem(product: Product, quantity: int)

  /** Some line carries product id `id`. */
  predicate HasId(items: seq<CartItem>, id: int)
  {
    exists i :: 0 <= i < |items| && items[i].product.id == id
  }

  /** At most one line per product id. */
  predicate UniqueIds(items: seq<CartItem>)
  {
    forall i, j :: 0 <= i < j < |items| ==> items[i].product.id != items[j].product.id
  }

  /** Every line has a quantity of at least one. */
  predicate AllPositive(items: seq<CartItem>)
  {
    forall i :: 0 <= i < |items| ==> items[i].quantity >= 1
  }

  /** `cartItems.find(item => item.id === id)`: the first line with that id. */
  function Find(items: seq<CartItem>, id: int): (r: Option<CartItem>)
    ensures r.Some? <==> HasId(items, id)
    ensures r.Some? ==> exists i :: 0 <= i < |items| && items[i] == r.value && r.value.product.id == id &&
                                    forall j :: 0 <= j < i ==> items[j].product.id != id
  {
    if items == [] then None
    else if items[0].product.id == id then Some(items[0])
    else
      var r := Find(items[1..], id);
      assert forall i :: 0 < i < |items| ==> items[i] == items[1..][i - 1];
      r
  }

  /** The lines with id `id` have their quantity raised by one; the others are untouched. */
  function Incremented(items: seq<CartItem>, id: int): (r: seq<CartItem>)
    ensures |r| == |items|
    ensures forall i :: 0 <= i < |items| ==>
      r[i] == if items[i].product.id == id then items[i].(quantity := items[i].quantity + 1) else items[i]
  {
    if items == [] then []
    else
      var head := if items[0].product.id == id then items[0].(quantity := items[0].quantity + 1) else items[0];
      [head] + Incremented(items[1..], id)
  }

  /** The cart after `addToCart(p)`. */
  function Added(items: seq<CartItem>, p: Product): (r: seq<CartItem>)
    ensures HasId(items, p.id) ==> |r| == |items| && forall i :: 0 <= i < |items| ==>
      r[i] == if items[i].product.id == p.id then items[i].(quantity := items[i].quantity + 1) else items[i]
    ensures !HasId(items, p.id) ==> r == items + [CartItem(p, 1)]
  {
    if Find(items, p.id).Some? then Incremented(items, p.id) else items + [CartItem(p, 1)]
  }

  /** The cart after `removeFromCart(id)`: the lines with another id, in order. */
  function Without(items: seq<CartItem>, id: int): (r: seq<CartItem>)
    ensures forall x :: x in r <==> x in items && x.product.id != id
    ensures !HasId(r, id)
    ensures !HasId(items, id) ==> r == items
    ensures |r| <= |items|
  {
    if items == [] then []
    else
      var rest := Without(items[1..], id);
      assert forall x :: x in items <==> x == items[0] || x in items[1..];
      assert !HasId(items, id) ==> !HasId(items[1..], id) by {
        if HasId(items[1..], id) {
          var i :| 0 <= i < |items[1..]| && items[1..][i].product.id == id;
          assert items[i + 1].product.id == id;
        }
      }
      assert items == [items[0]] + items[1..];
      if items[0].product.id != id then [items[0]] + rest else rest
  }

  /** The cart after `updateQuantity(id, q)`: matching lines get exactly `q`, unclamped. */
  function WithQuantity(items: seq<CartItem>, id: int, q: int): (r: seq<CartItem>)
    ensures |r| == |items|
    ensures forall i :: 0 <= i < |items| ==>
      r[i] == if items[i].product.id == id then items[i].(quantity := q) else items[i]
  {
    if items == [] then []
    else
      var head := if items[0].product.id == id then items[0].(quantity := q) else items[0];
      [head] + WithQuantity(items[1..], id, q)
  }

  /** `totalItems`: the sum of the line quantities. */
  function TotalItems(items: seq<CartItem>): (r: int)
    ensures AllPositive(items) ==> r >= |items|
  {
    if items == [] then 0 else items[0].quantity + TotalItems(items[1..])
  }

  // ---------------------------------------------------------------------------
  // Lemmas about the line operations
  // ---------------------------------------------------------------------------

  lemma {:induction false} TotalItemsConcat(a: seq<CartItem>, b: seq<CartItem>)
    ensures TotalItems(a + b) == TotalItems(a) + TotalItems(b)
  {
    if a == [] {
      assert a + b == b;
    } else {
      assert (a + b)[1..] == a[1..] + b;
      TotalItemsConcat(a[1..], b);
    }
  }

  /** Raising the quantity of the one line with a given id adds one item. */
  lemma {:induction false} IncrementedTotal(items: seq<CartItem>, id: int)
    requires UniqueIds(items)
    ensures TotalItems(Incremented(items, id)) == TotalItems(items) + (if HasId(items, id) then 1 else 0)
  {
    if items != [] {
      var r := Incremented(items, id);
      assert r[1..] == Incremented(items[1..], id);
      IncrementedTotal(items[1..], id);
      if items[0].product.id == id {
        assert !HasId(items[1..], id) by {
          forall i | 0 <= i < |items[1..]| ensures items[1..][i].product.id != id {
            assert items[1..][i] == items[i + 1];
          }
        }
      } else {
        assert HasId(items, id) == HasId(items[1..], id) by {
          if HasId(items, id) {
            var i :| 0 <= i < |items| && items[i].product.id == id;
            assert items[1..][i - 1] == items[i];
          }
          if HasId(items[1..], id) {
            var i :| 0 <= i < |items[1..]| && items[1..][i].product.id == id;
            assert items[i + 1] == items[1..][i];
          }
        }
      }
    }
  }

  /** `addToCart` keeps at most one line per id. */
  lemma AddedKeepsUniqueIds(items: seq<CartItem>, p: Product)
    requires UniqueIds(items)
    ensures UniqueIds(Added(items, p))
  {
  }

  /** `addToCart` adds exactly one item to `totalItems`. */
  lemma AddedTotalItems(items: seq<CartItem>, p: Product)
    requires UniqueIds(items)
    ensures TotalItems(Added(items, p)) == TotalItems(items) + 1
  {
    if HasId(items, p.id) {
      IncrementedTotal(items, p.id);
    } else {
      TotalItemsConcat(items, [CartItem(p, 1)]);
    }
  }

  /** `addToCart` keeps every quantity at least one. */
  lemma AddedKeepsPositive(items: seq<CartItem>, p: Product)
    requires AllPositive(items)
    ensures AllPositive(Added(items, p))
  {
  }

  /** Adding a product that is not yet in the cart twice gives one line of quantity two. */
  lemma AddTwice(items: seq<CartItem>, p: Product)
    requires !HasId(items, p.id)
    ensures Added(Added(items, p), p) == items + [CartItem(p, 2)]
  {
    var once := Added(items, p);
    assert once[|items|].product.id == p.id;
    assert HasId(once, p.id);
    var twice := Added(once, p);
    assert twice == items + [CartItem(p, 2)] by {
      forall i | 0 <= i < |items| ensures twice[i] == items[i] {
        assert once[i] == items[i];
      }
    }
  }

  /** Uniqueness of a non-empty cart splits into head and tail. */
  lemma UniqueIdsCons(items: seq<CartItem>)
    requires items != []
    ensures UniqueIds(items) <==>
      (forall x :: x in items[1..] ==> x.product.id != items[0].product.id) && UniqueIds(items[1..])
  {
    if (forall x :: x in items[1..] ==> x.product.id != items[0].product.id) && UniqueIds(items[1..]) {
      forall i, j | 0 <= i < j < |items| ensures items[i].product.id != items[j].product.id {
        assert items[j] == items[1..][j - 1];
        if i > 0 {
          assert items[i] == items[1..][i - 1];
        }
      }
    }
  }

  /** `removeFromCart` keeps at most one line per id. */
  lemma {:induction false} WithoutKeepsUniqueIds(items: seq<CartItem>, id: int)
    requires UniqueIds(items)
    ensures UniqueIds(Without(items, id))
  {
    if items != [] {
      UniqueIdsCons(items);
      WithoutKeepsUniqueIds(items[1..], id);
      var rest := Without(items[1..], id);
      if items[0].product.id != id {
        assert Without(items, id) == [items[0]] + rest;
        assert ([items[0]] + rest)[1..] == rest;
        UniqueIdsCons([items[0]] + rest);
      }
    }
  }

  /** Removing the same id twice is removing it once. */
  lemma WithoutIdempotent(items: seq<CartItem>, id: int)
    ensures Without(Without(items, id), id) == Without(items, id)
  {
  }

  /** Removal keeps relative order: it distributes over concatenation. */
  lemma {:induction false} WithoutConcat(a: seq<CartItem>, b: seq<CartItem>, id: int)
    ensures Without(a + b, id) == Without(a, id) + Without(b, id)
  {
    if a == [] {
      assert a + b == b;
    } else {
      assert (a + b)[1..] == a[1..] + b;
      WithoutConcat(a[1..], b, id);
    }
  }

  /** `removeFromCart` keeps every quantity at least one. */
  lemma WithoutKeepsPositive(items: seq<CartItem>, id: int)
    requires AllPositive(items)
    ensures AllPositive(Without(items, id))
  {
    var r := Without(items, id);
    forall i | 0 <= i < |r| ensures r[i].quantity >= 1 {
      assert r[i] in items;
    }
  }

  /** `updateQuantity` keeps ids, so it keeps at most one line per id. */
  lemma WithQuantityKeepsUniqueIds(items: seq<CartItem>, id: int, q: int)
    requires UniqueIds(items)
    ensures UniqueIds(WithQuantity(items, id, q))
  {
  }

  /** `updateQuantity` with a quantity of at least one keeps every quantity at least one. */
  lemma WithQuantityKeepsPositive(items: seq<CartItem>, id: int, q: int)
    requires AllPositive(items) && q >= 1
    ensures AllPositive(WithQuantity(items, id, q))
  {
  }

  /** `updateQuantity` does not clamp: a quantity of zero is stored as zero. */
  lemma WithQuantityDoesNotClamp(p: Product)
    ensures WithQuantity([CartItem(p, 3)], p.id, 0) == [CartItem(p, 0)]
  {
  }

  // ---------------------------------------------------------------------------
  // The session state
  // ---------------------------------------------------------------------------

  /** The main page's cart-related state. */
  class Session {
    var cartItems: seq<CartItem>
    var isCartOpen: bool
    var discountActivated: bool

    /** The session invariant: at most one line per product id. */
    ghost predicate Valid()
      reads this
    {
      UniqueIds(cartItems)
    }

    constructor ()
      ensures Valid()
      ensures cartItems == [] && !isCartOpen && !discountActivated
    {
      cartItems := [];
      isCartOpen := false;
      discountActivated := false;
    }

    /** The percentage handed to the cart panel. */
    function DiscountPercent(): (r: int)
      reads this
      ensures r == 20 || r == 0
      ensures r == 20 <==> discountActivated
      ensures 0 <= r <= 100
    {
      if discountActivated then 20 else 0
    }

    method AddToCart(p: Product)
      requires Valid()
      modifies this
      ensures Valid()
      ensures cartItems == Added(old(cartItems), p)
      ensures isCartOpen
      ensures discountActivated == old(discountActivated)
      ensures TotalItems(cartItems) == TotalItems(old(cartItems)) + 1
      ensures AllPositive(old(cartItems)) ==> AllPositive(cartItems)
    {
      AddedKeepsUniqueIds(cartItems, p);
      if AllPositive(cartItems) {
        AddedKeepsPositive(cartItems, p);
      }
      AddedTotalItems(cartItems, p);
      cartItems := Added(cartItems, p);
      isCartOpen := true;
    }

    method RemoveFromCart(id: int)
      requires Valid()
      modifies this
      ensures Valid()
      ensures cartItems == Without(old(cartItems), id)
      ensures isCartOpen == old(isCartOpen) && discountActivated == old(discountActivated)
    {
      WithoutKeepsUniqueIds(cartItems, id);
      cartItems := Without(cartItems, id);
    }

    method UpdateQuantity(id: int, quantity: int)
      requires Valid()
      modifies this
      ensures Valid()
      ensures cartItems == WithQuantity(old(cartItems), id, quantity)
      ensures isCartOpen == old(isCartOpen) && discountActivated == old(discountActivated)
    {
      WithQuantityKeepsUniqueIds(cartItems, id, quantity);
      cartItems := WithQuantity(cartItems, id, quantity);
    }

    /** The promotional button; it is disabled once the discount is active, so the flag never resets. */
    method ActivateDiscount()
      modifies this
      ensures discountActivated
      ensures cartItems == old(cartItems) && isCartOpen == old(isCartOpen)
    {
      discountActivated := true;
    }

    /** The header's cart button. */
    method OpenCart()
      modifies this
      ensures isCartOpen
      ensures cartItems == old(cartItems) && discountActivated == old(discountActivated)
    {
      isCartOpen := true;
    }

    /** The cart panel's close handler. */
    method CloseCart()
      modifies this
      ensures !isCartOpen
      ensures cartItems == old(cartItems) && discountActivated == old(discountActivated)
    {
      isCartOpen := false;
    }
  }
}
