/**
 * The client-side cart of the storefront: the updaters the app hands to
 * its state slot (add, remove, clear), the reconciliation of the cart
 * against a catalogue snapshot with its subtotal, the cart badge and the
 * admin-route guard. All are old-cart to new-cart functions.
 */
module App {
  import opened Wrappers
  import opened Types
  import opened Inventory

  /** The cart invariant the updaters keep: one line per product, every quantity at least one. */
  predicate ValidCart(cart: seq<CartItem>)
  {
    DistinctIds(cart) && forall i :: 0 <= i < |cart| ==> cart[i].quantity >= 1
  }

  /** Some line of the cart is for product `id`. */
  predicate InCart(cart: seq<CartItem>, id: string)
  {
    exists i :: 0 <= i < |cart| && cart[i].productId == id
  }

  /** Every line for product `id` gains one unit; the other lines stay as they are. */
  function IncrementLines(cart: seq<CartItem>, id: string): (r: seq<CartItem>)
    ensures |r| == |cart|
    ensures forall i :: 0 <= i < |cart| ==>
      r[i] == (if cart[i].productId == id then cart[i].(quantity := cart[i].quantity + 1) else cart[i])
  {
    if cart == [] then []
    else
      [if cart[0].productId == id then cart[0].(quantity := cart[0].quantity + 1) else cart[0]]
      + IncrementLines(cart[1..], id)
  }

  /** Adding a product bumps its line, or appends a line of quantity one when there is none. */
  function AddToCart(cart: seq<CartItem>, product: Product): (r: seq<CartItem>)
    ensures InCart(r, product.id)
    ensures |r| == |cart| + (if InCart(cart, product.id) then 0 else 1)
    ensures forall i :: 0 <= i < |cart| ==> r[i].productId == cart[i].productId
    ensures forall i :: 0 <= i < |cart| && cart[i].productId != product.id ==> r[i] == cart[i]
  {
    if InCart(cart, product.id) then IncrementLines(cart, product.id)
    else
      var r := cart + [CartItem(product.id, 1)];
      assert r[|cart|].productId == product.id;
      r
  }

  /** The cart without the lines for product `id`. */
  function RemoveFromCart(cart: seq<CartItem>, id: string): (r: seq<CartItem>)
    ensures |r| <= |cart|
    ensures forall it :: it in r <==> it in cart && it.productId != id
  {
    if cart == [] then []
    else if cart[0].productId == id then RemoveFromCart(cart[1..], id)
    else [cart[0]] + RemoveFromCart(cart[1..], id)
  }

  /** The empty cart: valid, and holding no product. */
  function ClearCart(): (r: seq<CartItem>)
    ensures ValidCart(r)
    ensures forall id :: !InCart(r, id)
  {
    []
  }

  /** A cart line joined with the product it names. */
  datatype CartLine = CartLine(item: CartItem, product: Product)

  /**
   * The cart joined with a catalogue snapshot: each line is paired with the
   * product a lookup finds, and lines whose product is missing are dropped.
   */
  function Reconcile(cart: seq<CartItem>, snapshot: seq<Product>): (r: seq<CartLine>)
    ensures |r| <= |cart|
    ensures forall i :: 0 <= i < |r| ==>
      r[i].item in cart && FindProduct(snapshot, r[i].item.productId) == Some(r[i].product)
    ensures forall item :: item in cart && FindProduct(snapshot, item.productId).Some? ==>
      CartLine(item, FindProduct(snapshot, item.productId).value) in r
  {
    if cart == [] then []
    else
      var rest := Reconcile(cart[1..], snapshot);
      match FindProduct(snapshot, cart[0].productId)
      case None => rest
      case Some(p) => [CartLine(cart[0], p)] + rest
  }

  /** Sum of price times quantity over the reconciled lines. */
  function Subtotal(lines: seq<CartLine>): (r: int)
    ensures lines == [] ==> r == 0
    ensures (forall i :: 0 <= i < |lines| ==> lines[i].product.price >= 0 && lines[i].item.quantity >= 0) ==> r >= 0
  {
    if lines == [] then 0
    else
      var head := lines[0].product.price * lines[0].item.quantity;
      assert lines[0].product.price >= 0 && lines[0].item.quantity >= 0 ==> head >= 0;
      head + Subtotal(lines[1..])
  }

  /** Checkout is offered only when some line survived reconciliation. */
  predicate CheckoutEnabled(cart: seq<CartItem>, snapshot: seq<Product>)
    ensures CheckoutEnabled(cart, snapshot) <==>
      exists i :: 0 <= i < |cart| && FindProduct(snapshot, cart[i].productId).Some?
  {
    var r := Reconcile(cart, snapshot);
    assert r != [] ==> r[0].item in cart;
    r != []
  }

  /** The number on the cart icon. */
  function CartBadge(cart: seq<CartItem>): (count: nat)
    ensures count == 0 <==> cart == []
    ensures forall id :: InCart(cart, id) ==> count >= 1
  {
    |cart|
  }

  /** Sum of the quantities of the cart's lines. */
  function TotalQuantity(cart: seq<CartItem>): int
  {
    if cart == [] then 0 else cart[0].quantity + TotalQuantity(cart[1..])
  }

  /** Number of lines for product `id`. */
  function CountLines(cart: seq<CartItem>, id: string): nat
  {
    if cart == [] then 0
    else (if cart[0].productId == id then 1 else 0) + CountLines(cart[1..], id)
  }

  /** The admin route renders the dashboard only for a signed-in administrator. */
  predicate AdminRouteAllowed(user: Option<User>)
    ensures AdminRouteAllowed(user) ==> user.Some? && user.value.role != Customer
  {
    user.Some? && user.value.role == Admin
  }

  /** Adding a product already in a valid cart adds one unit to its line and touches nothing else. */
  lemma AddExistingBumpsLine(cart: seq<CartItem>, product: Product, k: nat)
    requires ValidCart(cart)
    requires k < |cart| && cart[k].productId == product.id
    ensures |AddToCart(cart, product)| == |cart|
    ensures AddToCart(cart, product)[k] == CartItem(product.id, cart[k].quantity + 1)
    ensures forall i :: 0 <= i < |cart| && i != k ==> AddToCart(cart, product)[i] == cart[i]
  {
    assert InCart(cart, product.id);
  }

  /** Adding a product not in the cart appends a line of quantity one. */
  lemma AddNewAppends(cart: seq<CartItem>, product: Product)
    requires !InCart(cart, product.id)
    ensures AddToCart(cart, product) == cart + [CartItem(product.id, 1)]
    ensures |AddToCart(cart, product)| == |cart| + 1
  {
  }

  /** Adding to a valid cart keeps it valid. */
  lemma AddKeepsValid(cart: seq<CartItem>, product: Product)
    requires ValidCart(cart)
    ensures ValidCart(AddToCart(cart, product))
  {
  }

  /** Removing keeps a valid cart valid. */
  lemma {:induction false} RemoveKeepsValid(cart: seq<CartItem>, id: string)
    requires ValidCart(cart)
    ensures ValidCart(RemoveFromCart(cart, id))
  {
    if cart != [] {
      var rest := cart[1..];
      assert ValidCart(rest) by {
        forall i, j | 0 <= i < j < |rest|
          ensures rest[i].productId != rest[j].productId
        {
          assert rest[i] == cart[i + 1] && rest[j] == cart[j + 1];
        }
      }
      RemoveKeepsValid(rest, id);
      var r := RemoveFromCart(rest, id);
      if cart[0].productId != id {
        forall j | 0 <= j < |r|
          ensures r[j].productId != cart[0].productId
        {
          assert r[j] in rest;
          var m :| 0 <= m < |rest| && rest[m] == r[j];
          assert cart[m + 1] == rest[m];
        }
        assert RemoveFromCart(cart, id) == [cart[0]] + r;
      }
    }
  }

  /** Removing a product that has no line leaves the cart as it was. */
  lemma {:induction false} RemoveAbsentIsNoop(cart: seq<CartItem>, id: string)
    requires !InCart(cart, id)
    ensures RemoveFromCart(cart, id) == cart
  {
    if cart != [] {
      assert !InCart(cart[1..], id) by {
        forall i | 0 <= i < |cart[1..]|
          ensures cart[1..][i].productId != id
        {
          assert cart[1..][i] == cart[i + 1];
        }
      }
      RemoveAbsentIsNoop(cart[1..], id);
    }
  }

  /** Removal keeps the surviving lines in cart order: it distributes over concatenation. */
  lemma {:induction false} RemoveKeepsOrder(a: seq<CartItem>, b: seq<CartItem>, id: string)
    ensures RemoveFromCart(a + b, id) == RemoveFromCart(a, id) + RemoveFromCart(b, id)
  {
    if a != [] {
      assert (a + b)[1..] == a[1..] + b;
      RemoveKeepsOrder(a[1..], b, id);
    } else {
      assert a + b == b;
    }
  }

  /** Reconciliation keeps cart order: it distributes over concatenation. */
  lemma {:induction false} ReconcileKeepsOrder(a: seq<CartItem>, b: seq<CartItem>, snapshot: seq<Product>)
    ensures Reconcile(a + b, snapshot) == Reconcile(a, snapshot) + Reconcile(b, snapshot)
  {
    if a == [] {
      assert a + b == b;
    } else {
      var ab := a + b;
      assert ab[0] == a[0] && ab[1..] == a[1..] + b;
      ReconcileKeepsOrder(a[1..], b, snapshot);
      var rest, tail := Reconcile(a[1..], snapshot), Reconcile(b, snapshot);
      assert Reconcile(ab[1..], snapshot) == rest + tail;
      match FindProduct(snapshot, a[0].productId)
      case None =>
      case Some(p) =>
        calc {
          Reconcile(ab, snapshot);
          [CartLine(a[0], p)] + (rest + tail);
          ([CartLine(a[0], p)] + rest) + tail;
        }
    }
  }

  /** The subtotal of two runs of lines is the sum of their subtotals. */
  lemma {:induction false} SubtotalAppend(a: seq<CartLine>, b: seq<CartLine>)
    ensures Subtotal(a + b) == Subtotal(a) + Subtotal(b)
  {
    if a != [] {
      assert (a + b)[1..] == a[1..] + b;
      SubtotalAppend(a[1..], b);
    } else {
      assert a + b == b;
    }
  }

  /** A single line contributes its price times its quantity. */
  lemma SubtotalSingle(l: CartLine)
    ensures Subtotal([l]) == l.product.price * l.item.quantity
  {
    assert [l][1..] == [];
  }

  /** A cart of positive quantities against a catalogue of non-negative prices never shows a negative subtotal. */
  lemma {:induction false} CartSubtotalNonNegative(cart: seq<CartItem>, snapshot: seq<Product>)
    requires forall i :: 0 <= i < |cart| ==> cart[i].quantity >= 1
    requires forall j :: 0 <= j < |snapshot| ==> snapshot[j].price >= 0
    ensures Subtotal(Reconcile(cart, snapshot)) >= 0
  {
    var r := Reconcile(cart, snapshot);
    forall i | 0 <= i < |r|
      ensures r[i].product.price >= 0 && r[i].item.quantity >= 0
    {
      assert r[i].item in cart;
      assert r[i].product in snapshot;
    }
  }

  /** Summing quantities after bumping every line for `id` adds one per such line. */
  lemma {:induction false} IncrementTotal(cart: seq<CartItem>, id: string)
    ensures TotalQuantity(IncrementLines(cart, id)) == TotalQuantity(cart) + CountLines(cart, id)
  {
    if cart != [] {
      IncrementTotal(cart[1..], id);
      assert IncrementLines(cart, id)[1..] == IncrementLines(cart[1..], id);
    }
  }

  /** In a cart with distinct ids a product present has exactly one line. */
  lemma {:induction false} CountLinesDistinct(cart: seq<CartItem>, id: string)
    requires DistinctIds(cart)
    ensures CountLines(cart, id) == (if InCart(cart, id) then 1 else 0)
  {
    if cart != [] {
      var rest := cart[1..];
      assert DistinctIds(rest) by {
        forall i, j | 0 <= i < j < |rest|
          ensures rest[i].productId != rest[j].productId
        {
          assert rest[i] == cart[i + 1] && rest[j] == cart[j + 1];
        }
      }
      CountLinesDistinct(rest, id);
      if cart[0].productId == id {
        assert !InCart(rest, id) by {
          forall i | 0 <= i < |rest|
            ensures rest[i].productId != id
          {
            assert rest[i] == cart[i + 1];
          }
        }
      } else {
        assert InCart(cart, id) <==> InCart(rest, id) by {
          if InCart(rest, id) {
            var i :| 0 <= i < |rest| && rest[i].productId == id;
            assert cart[i + 1] == rest[i];
          }
          if InCart(cart, id) {
            var i :| 0 <= i < |cart| && cart[i].productId == id;
            assert rest[i - 1] == cart[i];
          }
        }
      }
    }
  }

  /** In a valid cart, one click on "add" raises the total quantity by exactly one. */
  lemma {:induction false} AddRaisesTotalQuantityByOne(cart: seq<CartItem>, product: Product)
    requires ValidCart(cart)
    ensures TotalQuantity(AddToCart(cart, product)) == TotalQuantity(cart) + 1
  {
    if InCart(cart, product.id) {
      IncrementTotal(cart, product.id);
      CountLinesDistinct(cart, product.id);
    } else {
      TotalQuantityAppend(cart, [CartItem(product.id, 1)]);
    }
  }

  lemma {:induction false} TotalQuantityAppend(a: seq<CartItem>, b: seq<CartItem>)
    ensures TotalQuantity(a + b) == TotalQuantity(a) + TotalQuantity(b)
  {
    if a != [] {
      assert (a + b)[1..] == a[1..] + b;
      TotalQuantityAppend(a[1..], b);
    } else {
      assert a + b == b;
    }
  }

  /**
   * The badge counts lines, not units: it never exceeds the total quantity
   * of a valid cart, and adding a product already in the cart leaves it
   * unchanged.
   */
  lemma {:induction false} BadgeCountsLines(cart: seq<CartItem>, product: Product)
    requires forall i :: 0 <= i < |cart| ==> cart[i].quantity >= 1
    ensures CartBadge(cart) <= TotalQuantity(cart)
    ensures InCart(cart, product.id) ==> CartBadge(AddToCart(cart, product)) == CartBadge(cart)
    ensures !InCart(cart, product.id) ==> CartBadge(AddToCart(cart, product)) == CartBadge(cart) + 1
  {
    if cart != [] {
      BadgeCountsLines(cart[1..], product);
    }
  }

  /** When every line's product is in the snapshot, reconciliation drops nothing. */
  lemma {:induction false} ReconcileAllFound(cart: seq<CartItem>, snapshot: seq<Product>)
    requires forall i :: 0 <= i < |cart| ==> FindProduct(snapshot, cart[i].productId).Some?
    ensures |Reconcile(cart, snapshot)| == |cart|
  {
    if cart != [] {
      assert FindProduct(snapshot, cart[0].productId).Some?;
      ReconcileAllFound(cart[1..], snapshot);
    }
  }

  /** Reconciling an empty cart, or one whose every product is gone, gives a zero subtotal and no checkout. */
  lemma NothingReconciledMeansZero(cart: seq<CartItem>, snapshot: seq<Product>)
    requires forall i :: 0 <= i < |cart| ==> FindProduct(snapshot, cart[i].productId).None?
    ensures Subtotal(Reconcile(cart, snapshot)) == 0
    ensures !CheckoutEnabled(cart, snapshot)
  {
  }

  /** The cart events the app reacts to. */
  datatype CartEvent = Add(product: Product) | Remove(id: string) | Clear

  function Apply(cart: seq<CartItem>, e: CartEvent): seq<CartItem>
  {
    match e
    case Add(p) => AddToCart(cart, p)
    case Remove(id) => RemoveFromCart(cart, id)
    case Clear => ClearCart()
  }

  /** The cart after a run of events, starting from the empty cart. */
  function Replay(events: seq<CartEvent>): seq<CartItem>
  {
    if events == [] then []
    else Apply(Replay(events[..|events| - 1]), events[|events| - 1])
  }

  /** Every cart the updaters can produce has distinct ids and positive quantities. */
  lemma {:induction false} ReplayKeepsCartValid(events: seq<CartEvent>)
    ensures ValidCart(Replay(events))
  {
    if events != [] {
      var before := Replay(events[..|events| - 1]);
      ReplayKeepsCartValid(events[..|events| - 1]);
      match events[|events| - 1]
      case Add(p) => AddKeepsValid(before, p);
      case Remove(id) => RemoveKeepsValid(before, id);
      case Clear =>
    }
  }
}
