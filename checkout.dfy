/**
 * The app's checkout handler, where the cart meets the store: the drawer
 * offers checkout only when some line survived reconciliation, sends the
 * whole cart with the subtotal it shows, empties the cart when the order
 * is placed and leaves it alone when the order is rejected.
 */
module Checkout {
  import opened Wrappers
  import opened Types
  import opened Inventory
  import opened MockApiService
  import opened App

  /**
   * One press of the checkout button. `placed` is None when the button is
   * disabled, otherwise the store's answer.
   */
  method PressCheckout(store: Store, cart: seq<CartItem>, snapshot: seq<Product>, orderId: string, createdAt: string)
    returns (newCart: seq<CartItem>, placed: Option<Result<Order, StockError>>)
    modifies store
    ensures !CheckoutEnabled(cart, snapshot) ==> placed.None? && newCart == cart && unchanged(store)
    ensures CheckoutEnabled(cart, snapshot) ==> placed.Some?
    ensures CheckoutEnabled(cart, snapshot) ==> (placed.value.Success? <==> Validate(old(store.products), cart).None?)
    ensures store.currentUser == old(store.currentUser)
    ensures placed.Some? && placed.value.Success? ==>
      && newCart == []
      && placed.value.value ==
           Order(orderId, OwnerId(old(store.currentUser)), cart, Subtotal(Reconcile(cart, snapshot)), Paid, createdAt)
      && store.products == Deducted(old(store.products), cart)
      && store.orders == [placed.value.value] + old(store.orders)
    ensures placed.Some? && placed.value.Failure? ==>
      && newCart == cart
      && Validate(old(store.products), cart) == Some(placed.value.error)
      && store.products == old(store.products)
      && store.orders == old(store.orders)
    ensures ValidCart(cart) && NonNegativeStock(old(store.products)) ==> NonNegativeStock(store.products)
  {
    var lines := Reconcile(cart, snapshot);
    if lines == [] {
      return cart, None;
    }
    ghost var before := store.products;
    var r := store.CreateOrder(cart, Subtotal(lines), orderId, createdAt);
    if r.Success? && ValidCart(cart) && NonNegativeStock(before) {
      CheckoutNeverOverdraws(cart, before);
    }
    newCart := if r.Success? then ClearCart() else cart;
    placed := Some(r);
  }

  /** A cart kept valid by the updaters never drives a product's stock below zero at checkout. */
  lemma {:induction false} CheckoutNeverOverdraws(cart: seq<CartItem>, ps: seq<Product>)
    requires ValidCart(cart)
    requires NonNegativeStock(ps)
    requires Validate(ps, cart).None?
    ensures NonNegativeStock(Deducted(ps, cart))
  {
    NoOverdrawWhenDistinct(ps, cart);
  }

  /** Whatever add, remove and clear events built the cart, a placed order keeps every stock non-negative. */
  lemma {:induction false} ReachableCartNeverOverdraws(events: seq<CartEvent>, ps: seq<Product>)
    requires NonNegativeStock(ps)
    requires Validate(ps, Replay(events)).None?
    ensures NonNegativeStock(Deducted(ps, Replay(events)))
  {
    ReplayKeepsCartValid(events);
    CheckoutNeverOverdraws(Replay(events), ps);
  }

  /** The user a login produces opens the admin route exactly when the chosen role is ADMIN. */
  lemma LoginOpensAdminRoute(email: string, role: UserRole, id: string)
    ensures AdminRouteAllowed(Some(NewUser(email, role, id))) <==> role == Admin
    ensures !AdminRouteAllowed(None)
  {
  }

  /**
   * A client of the store's contracts, on a one-product catalogue (stock 5,
   * price 10): three units are sold, leaving two; then ten are refused
   * and nothing changes.
   */
  method OrderScenario()
  {
    var p1 := Product("P1", "Widget", 10, "Misc", 5, "", "");
    var store := new Store([p1]);
    var cart := [CartItem("P1", 3)];
    assert FindIndex([p1], "P1") == Some(0);
    assert Available([p1], cart[0]);
    var r := store.CreateOrder(cart, 30, "ORD-1", "t1");
    assert r.Success?;
    assert [CartItem("P1", 3)][..0] == [];
    assert store.products == [p1.(stock := 2)];
    assert |store.orders| == 1 && store.orders[0].total == 30 && store.orders[0].status == Paid;
    assert store.orders[0].userId == "guest";

    var p1After := p1.(stock := 2);
    assert FindIndex([p1After], "P1") == Some(0);
    var r2 := store.CreateOrder([CartItem("P1", 10)], 100, "ORD-2", "t2");
    assert !Available([p1After], CartItem("P1", 10));
    assert r2 == Failure(InsufficientStock(Some("Widget")));
    assert Message(r2.error) == "Insufficient stock for Widget";
    assert store.products == [p1After] && |store.orders| == 1;
  }
}
