/**
 * The in-memory mock service: a catalogue, an order ledger (newest first)
 * and a single current-user slot, with the operations that read and change
 * them. Latency, random user ids and clock-derived order ids are left to the
 * caller: ids and timestamps arrive as parameters.
 */
module MockApiService {
  import opened Wrappers
  import opened Types
  import opened Inventory

  /** Products whose stock is below this count are reported as low on stock. */
  const LowStockThreshold: int := 5

  /** The display name login derives: the text of `email` before its first '@'. */
  function EmailPrefix(email: string): (name: string)
    ensures name <= email
    ensures '@' !in name
    ensures |name| < |email| ==> email[|name|] == '@'
  {
    if email == [] || email[0] == '@' then []
    else [email[0]] + EmailPrefix(email[1..])
  }

  /** The user record login synthesises from an email, a role and a fresh id. */
  function NewUser(email: string, role: UserRole, id: string): (u: User)
    ensures u.id == id && u.email == email && u.role == role
    ensures u.name <= email && '@' !in u.name
    ensures |u.name| < |email| ==> email[|u.name|] == '@'
    ensures u.name == EmailPrefix(email)
  {
    User(id, EmailPrefix(email), email, role)
  }

  /** The owner recorded on an order: the current user's id, or "guest" when that is absent or empty. */
  function OwnerId(u: Option<User>): (owner: string)
    ensures u.None? ==> owner == "guest"
    ensures u.Some? && u.value.id != "" ==> owner == u.value.id
    ensures u.Some? && u.value.id == "" ==> owner == "guest"
    ensures owner != ""
  {
    if u.Some? && u.value.id != "" then u.value.id else "guest"
  }

  /** The catalogue after `updated` has replaced every product with its id. */
  function ReplaceById(ps: seq<Product>, updated: Product): (r: seq<Product>)
    ensures |r| == |ps|
    ensures forall j :: 0 <= j < |ps| ==> r[j] == (if ps[j].id == updated.id then updated else ps[j])
  {
    if ps == [] then []
    else [if ps[0].id == updated.id then updated else ps[0]] + ReplaceById(ps[1..], updated)
  }

  /** The catalogue without the products carrying `id`. */
  function RemoveById(ps: seq<Product>, id: string): (r: seq<Product>)
    ensures |r| <= |ps|
    ensures forall p :: p in r <==> p in ps && p.id != id
  {
    if ps == [] then []
    else if ps[0].id == id then RemoveById(ps[1..], id)
    else [ps[0]] + RemoveById(ps[1..], id)
  }

  /** Sum of the order totals of a ledger. */
  function Revenue(os: seq<Order>): (r: int)
    ensures os == [] ==> r == 0
    ensures (forall i :: 0 <= i < |os| ==> os[i].total >= 0) ==> r >= 0
  {
    if os == [] then 0 else os[0].total + Revenue(os[1..])
  }

  /** The products below the low-stock threshold, in catalogue order. */
  function LowStock(ps: seq<Product>): (r: seq<Product>)
    ensures |r| <= |ps|
    ensures forall p :: p in r <==> p in ps && p.stock < LowStockThreshold
  {
    if ps == [] then []
    else if ps[0].stock < LowStockThreshold then [ps[0]] + LowStock(ps[1..])
    else LowStock(ps[1..])
  }

  /**
   * The validation pass of order creation: walks the items in order and
   * stops at the first whose product is missing or short of stock.
   */
  method CheckStock(ps: seq<Product>, items: seq<CartItem>) returns (err: Option<StockError>)
    ensures err == Validate(ps, items)
  {
    var i := 0;
    while i < |items|
      invariant 0 <= i <= |items|
      invariant forall k :: 0 <= k < i ==> Available(ps, items[k])
    {
      var p := FindProduct(ps, items[i].productId);
      if p.None? || p.value.stock < items[i].quantity {
        assert FirstUnavailable(ps, items) == Some(i);
        return Some(InsufficientStock(if p.Some? then Some(p.value.name) else None));
      }
      i := i + 1;
    }
    return None;
  }

  /** The deduction pass of order creation: each item lowers the stock of the product a lookup finds. */
  method DeductStock(ps: seq<Product>, items: seq<CartItem>) returns (r: seq<Product>)
    ensures r == Deducted(ps, items)
  {
    r := ps;
    var j := 0;
    while j < |items|
      invariant 0 <= j <= |items|
      invariant r == Deducted(ps, items[..j])
    {
      var k := FindIndex(r, items[j].productId);
      if k.Some? {
        r := r[k.value := r[k.value].(stock := r[k.value].stock - items[j].quantity)];
      }
      assert items[..j + 1][..j] == items[..j];
      j := j + 1;
    }
    assert items[..j] == items;
  }

  datatype AnalyticsReport = AnalyticsReport(revenue: int, totalOrders: nat, lowStock: nat)

  /** The process-wide state of the mock service. */
  class Store {
    var products: seq<Product>
    var orders: seq<Order>
    var currentUser: Option<User>

    constructor (seed: seq<Product>)
      ensures products == seed && orders == [] && currentUser == None
    {
      products := seed;
      orders := [];
      currentUser := None;
    }

    /** Any email and role are accepted; the new user becomes the current one. */
    method Login(email: string, role: UserRole, id: string) returns (u: User)
      modifies this
      ensures u.id == id && u.email == email && u.role == role && u.name == EmailPrefix(email)
      ensures currentUser == Some(u)
      ensures products == old(products) && orders == old(orders)
    {
      currentUser := Some(NewUser(email, role, id));
      u := currentUser.value;
    }

    method Logout()
      modifies this
      ensures currentUser == None
      ensures products == old(products) && orders == old(orders)
    {
      currentUser := None;
    }

    /** The signed-in user; with no one signed in, orders go to "guest". */
    function GetCurrentUser(): (u: Option<User>)
      reads this
      ensures u.None? ==> OwnerId(u) == "guest"
      ensures u == currentUser
    {
      currentUser
    }

    /** The catalogue the dashboard's low-stock figure is counted from. */
    function GetProducts(): (ps: seq<Product>)
      reads this
      ensures |LowStock(ps)| == Analytics().lowStock
    {
      products
    }

    /** The ledger, newest first, from which the dashboard's revenue and order count come. */
    function GetOrders(): (os: seq<Order>)
      reads this
      ensures Revenue(os) == Analytics().revenue && |os| == Analytics().totalOrders
    {
      orders
    }

    method UpdateProduct(updated: Product)
      modifies this
      ensures products == ReplaceById(old(products), updated)
      ensures orders == old(orders) && currentUser == old(currentUser)
    {
      products := ReplaceById(products, updated);
    }

    method DeleteProduct(id: string)
      modifies this
      ensures products == RemoveById(old(products), id)
      ensures orders == old(orders) && currentUser == old(currentUser)
    {
      products := RemoveById(products, id);
    }

    /**
     * Checks every item against current stock and rejects with the first
     * failing one; only when all pass does it deduct the quantities and
     * put a PAID order, holding the given items and total, at the front of
     * the ledger.
     */
    method CreateOrder(items: seq<CartItem>, total: int, orderId: string, createdAt: string)
      returns (r: Result<Order, StockError>)
      modifies this
      ensures currentUser == old(currentUser)
      ensures r.Failure? <==> Validate(old(products), items).Some?
      ensures r.Failure? ==>
        && r.error == Validate(old(products), items).value
        && products == old(products) && orders == old(orders)
      ensures r.Success? ==>
        && r.value == Order(orderId, OwnerId(old(currentUser)), items, total, Paid, createdAt)
        && products == Deducted(old(products), items)
        && orders == [r.value] + old(orders)
    {
      var err := CheckStock(products, items);
      if err.Some? {
        return Failure(err.value);
      }
      var ps := DeductStock(products, items);
      var order := Order(orderId, OwnerId(currentUser), items, total, Paid, createdAt);
      products := ps;
      orders := [order] + orders;
      r := Success(order);
    }

    /** Revenue, order count and low-stock count, read from the current state. */
    function Analytics(): (a: AnalyticsReport)
      reads this
      ensures a.revenue == Revenue(orders) && a.totalOrders == |orders|
      ensures a.lowStock == |LowStock(products)|
      ensures orders == [] ==> a.revenue == 0
      ensures a.lowStock <= |products|
    {
      AnalyticsReport(Revenue(orders), |orders|, |LowStock(products)|)
    }
  }

  /** A user without '@' in the email is named by the whole email. */
  lemma EmailPrefixWithoutAt(email: string)
    requires '@' !in email
    ensures EmailPrefix(email) == email
  {
  }

  /** Updating with an id no product carries leaves the catalogue as it was. */
  lemma UpdateAbsentIsNoop(ps: seq<Product>, updated: Product)
    requires forall j :: 0 <= j < |ps| ==> ps[j].id != updated.id
    ensures ReplaceById(ps, updated) == ps
  {
  }

  /** Updating twice with the same product is updating once. */
  lemma UpdateIdempotent(ps: seq<Product>, updated: Product)
    ensures ReplaceById(ReplaceById(ps, updated), updated) == ReplaceById(ps, updated)
  {
  }

  /** Deleting an id no product carries leaves the catalogue as it was. */
  lemma {:induction false} DeleteAbsentIsNoop(ps: seq<Product>, id: string)
    requires forall j :: 0 <= j < |ps| ==> ps[j].id != id
    ensures RemoveById(ps, id) == ps
  {
    if ps != [] {
      DeleteAbsentIsNoop(ps[1..], id);
    }
  }

  /** Deletion keeps the surviving products in catalogue order: it distributes over concatenation. */
  lemma {:induction false} DeleteKeepsOrder(a: seq<Product>, b: seq<Product>, id: string)
    ensures RemoveById(a + b, id) == RemoveById(a, id) + RemoveById(b, id)
  {
    if a != [] {
      assert (a + b)[1..] == a[1..] + b;
      DeleteKeepsOrder(a[1..], b, id);
    } else {
      assert a + b == b;
    }
  }

  /** Revenue of two ledgers laid end to end is the sum of their revenues. */
  lemma {:induction false} RevenueAppend(a: seq<Order>, b: seq<Order>)
    ensures Revenue(a + b) == Revenue(a) + Revenue(b)
  {
    if a != [] {
      assert (a + b)[1..] == a[1..] + b;
      RevenueAppend(a[1..], b);
    } else {
      assert a + b == b;
    }
  }

  /** Lowering stock, product by product, never shrinks the low-stock list. */
  lemma {:induction false} LowStockMonotone(a: seq<Product>, b: seq<Product>)
    requires |a| == |b|
    requires forall j :: 0 <= j < |a| ==> b[j].stock <= a[j].stock
    ensures |LowStock(a)| <= |LowStock(b)|
  {
    if a != [] {
      LowStockMonotone(a[1..], b[1..]);
    }
  }

  /** The low-stock filter keeps catalogue order: it distributes over concatenation. */
  lemma {:induction false} LowStockKeepsOrder(a: seq<Product>, b: seq<Product>)
    ensures LowStock(a + b) == LowStock(a) + LowStock(b)
  {
    if a != [] {
      assert (a + b)[1..] == a[1..] + b;
      LowStockKeepsOrder(a[1..], b);
    } else {
      assert a + b == b;
    }
  }

  /** A successful order adds its total to revenue. */
  lemma {:induction false} RevenueAfterOrder(os: seq<Order>, o: Order)
    ensures Revenue([o] + os) == o.total + Revenue(os)
  {
    RevenueAppend([o], os);
  }

  /** With non-negative quantities, a successful order never lowers the low-stock count. */
  lemma {:induction false} LowStockAfterOrder(ps: seq<Product>, items: seq<CartItem>)
    requires forall k :: 0 <= k < |items| ==> items[k].quantity >= 0
    ensures |LowStock(ps)| <= |LowStock(Deducted(ps, items))|
  {
    DeductedNeverIncreases(ps, items);
    LowStockMonotone(ps, Deducted(ps, items));
  }
}
