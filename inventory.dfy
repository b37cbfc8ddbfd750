/**
 * The stock rule behind order creation: looking a product up by id, the
 * per-item validation pass and the deduction pass, as functions over the
 * catalogue. The store's `CreateOrder` method is proved against these.
 */
module Inventory {
  import opened Wrappers
  import opened Types

  /** Index of the first product carrying `id`, as `Array.prototype.find` picks it. */
  function FindIndex(ps: seq<Product>, id: string): (r: Option<nat>)
    ensures r.Some? ==> r.value < |ps| && ps[r.value].id == id
    ensures r.Some? ==> forall j :: 0 <= j < r.value ==> ps[j].id != id
    ensures r.None? <==> forall j :: 0 <= j < |ps| ==> ps[j].id != id
  {
    if ps == [] then None
    else if ps[0].id == id then Some(0)
    else match FindIndex(ps[1..], id)
      case None => None
      case Some(k) => Some(k + 1)
  }

  /** The product `find` returns for `id`, if any. */
  function FindProduct(ps: seq<Product>, id: string): (r: Option<Product>)
    ensures r.Some? ==> r.value in ps && r.value.id == id
    ensures r.None? <==> forall j :: 0 <= j < |ps| ==> ps[j].id != id
  {
    match FindIndex(ps, id)
    case None => None
    case Some(k) => Some(ps[k])
  }

  /** A lookup returns the first product carrying the id, even when later ones carry it too. */
  lemma FindProductFirstMatch(ps: seq<Product>, id: string, k: nat)
    requires k < |ps| && ps[k].id == id
    requires forall j :: 0 <= j < k ==> ps[j].id != id
    ensures FindProduct(ps, id) == Some(ps[k])
  {
  }

  /** Product `j` is the one a lookup of its own id finds. */
  predicate IsFirst(ps: seq<Product>, j: nat)
    requires j < |ps|
  {
    FindIndex(ps, ps[j].id) == Some(j)
  }

  /** An item passes validation: its product exists and its stock is not below the quantity. */
  predicate Available(ps: seq<Product>, item: CartItem)
    ensures (forall j :: 0 <= j < |ps| ==> ps[j].id != item.productId) ==> !Available(ps, item)
  {
    var p := FindProduct(ps, item.productId);
    p.Some? && !(p.value.stock < item.quantity)
  }

  /** An item that passes validation names a product in the catalogue whose stock covers its quantity. */
  lemma AvailableMeansStocked(ps: seq<Product>, item: CartItem)
    requires Available(ps, item)
    ensures exists j :: 0 <= j < |ps| && ps[j].id == item.productId && ps[j].stock >= item.quantity
  {
    var p := FindProduct(ps, item.productId).value;
    var j :| 0 <= j < |ps| && ps[j] == p;
  }

  /** The rejection of an order; `None` stands for a product that was not found. */
  datatype StockError = InsufficientStock(productName: Option<string>)

  /** The fixed opening of every rejection text. */
  const MessagePrefix: string := "Insufficient stock for "

  /** The rejection text, with JavaScript's rendering of a missing name. */
  function Message(e: StockError): (text: string)
    ensures MessagePrefix <= text
    ensures e.productName.Some? ==> text[|MessagePrefix|..] == e.productName.value
    ensures e.productName.None? ==> text[|MessagePrefix|..] == "undefined"
  {
    MessagePrefix + match e.productName
      case Some(n) => n
      case None => "undefined"
  }

  /** The error reported for `item`: it names the looked-up product when there is one. */
  function StockErrorFor(ps: seq<Product>, item: CartItem): (e: StockError)
    ensures e.productName.None? <==> forall j :: 0 <= j < |ps| ==> ps[j].id != item.productId
    ensures e.productName.Some? ==> e.productName.value == FindProduct(ps, item.productId).value.name
  {
    match FindProduct(ps, item.productId)
    case Some(p) => InsufficientStock(Some(p.name))
    case None => InsufficientStock(None)
  }

  /** Position of the first item, in input order, that fails validation. */
  function FirstUnavailable(ps: seq<Product>, items: seq<CartItem>): (r: Option<nat>)
    ensures r.None? <==> forall k :: 0 <= k < |items| ==> Available(ps, items[k])
    ensures r.Some? ==> r.value < |items| && !Available(ps, items[r.value])
    ensures r.Some? ==> forall k :: 0 <= k < r.value ==> Available(ps, items[k])
  {
    if items == [] then None
    else if !Available(ps, items[0]) then Some(0)
    else match FirstUnavailable(ps, items[1..])
      case None => None
      case Some(k) => Some(k + 1)
  }

  /** The validation pass: the error of the first failing item, or none when all pass. */
  function Validate(ps: seq<Product>, items: seq<CartItem>): (r: Option<StockError>)
    ensures r.None? <==> forall k :: 0 <= k < |items| ==> Available(ps, items[k])
    ensures r.Some? ==>
      exists k :: 0 <= k < |items| && r.value == StockErrorFor(ps, items[k]) &&
        !Available(ps, items[k]) && forall m :: 0 <= m < k ==> Available(ps, items[m])
  {
    match FirstUnavailable(ps, items)
    case None => None
    case Some(v) =>
      Some(StockErrorFor(ps, items[v]))
  }

  /** One step of the deduction pass: the found product loses `item.quantity` units. */
  function DeductOne(ps: seq<Product>, item: CartItem): (r: seq<Product>)
    ensures |r| == |ps|
    ensures forall j :: 0 <= j < |ps| ==> r[j] == ps[j].(stock := r[j].stock)
  {
    match FindIndex(ps, item.productId)
    case None => ps
    case Some(k) => ps[k := ps[k].(stock := ps[k].stock - item.quantity)]
  }

  /** The deduction pass over `items`, in input order. */
  function Deducted(ps: seq<Product>, items: seq<CartItem>): (r: seq<Product>)
    ensures |r| == |ps|
  {
    if items == [] then ps
    else DeductOne(Deducted(ps, items[..|items| - 1]), items[|items| - 1])
  }

  /** Total quantity the lines of `items` request for product `id`. */
  function SumQuantity(items: seq<CartItem>, id: string): int
  {
    if items == [] then 0
    else
      var last := items[|items| - 1];
      SumQuantity(items[..|items| - 1], id) + (if last.productId == id then last.quantity else 0)
  }

  /** Two catalogues with the same ids, position by position, answer every lookup alike. */
  lemma {:induction false} FindIndexSameIds(a: seq<Product>, b: seq<Product>, id: string)
    requires |a| == |b|
    requires forall j :: 0 <= j < |a| ==> a[j].id == b[j].id
    ensures FindIndex(a, id) == FindIndex(b, id)
  {
    if a != [] && a[0].id != id {
      FindIndexSameIds(a[1..], b[1..], id);
    }
  }

  /**
   * After the deduction pass, the first product with a given id has lost
   * exactly the summed quantity of the items naming that id; every other
   * product, and every field other than stock, is as before.
   */
  lemma {:induction false} DeductedStock(ps: seq<Product>, items: seq<CartItem>)
    ensures |Deducted(ps, items)| == |ps|
    ensures forall j :: 0 <= j < |ps| ==>
      Deducted(ps, items)[j] == ps[j].(stock := ps[j].stock - (if IsFirst(ps, j) then SumQuantity(items, ps[j].id) else 0))
  {
    if items != [] {
      var init, last := items[..|items| - 1], items[|items| - 1];
      DeductedStock(ps, init);
      var mid := Deducted(ps, init);
      FindIndexSameIds(ps, mid, last.productId);
      forall j | 0 <= j < |ps|
        ensures Deducted(ps, items)[j] == ps[j].(stock := ps[j].stock - (if IsFirst(ps, j) then SumQuantity(items, ps[j].id) else 0))
      {
        FindIndexSameIds(ps, mid, ps[j].id);
        if FindIndex(ps, last.productId) == Some(j) {
          assert IsFirst(ps, j) && last.productId == ps[j].id;
        } else if last.productId == ps[j].id {
          assert !IsFirst(ps, j);
        }
      }
    }
  }

  /** A product no item names keeps its stock through the deduction pass. */
  lemma {:induction false} SumQuantityAbsent(items: seq<CartItem>, id: string)
    requires forall k :: 0 <= k < |items| ==> items[k].productId != id
    ensures SumQuantity(items, id) == 0
  {
    if items != [] {
      SumQuantityAbsent(items[..|items| - 1], id);
    }
  }

  /** With distinct ids, the summed quantity for an id is that of its single line. */
  lemma {:induction false} SumQuantitySingle(items: seq<CartItem>, k: nat)
    requires DistinctIds(items)
    requires k < |items|
    ensures SumQuantity(items, items[k].productId) == items[k].quantity
  {
    var n := |items| - 1;
    var init := items[..n];
    if k == n {
      SumQuantityAbsent(init, items[k].productId);
    } else {
      assert init[k] == items[k];
      SumQuantitySingle(init, k);
    }
  }

  /** Non-negative quantities make non-negative sums. */
  lemma {:induction false} SumQuantityNonNegative(items: seq<CartItem>, id: string)
    requires forall k :: 0 <= k < |items| ==> items[k].quantity >= 0
    ensures SumQuantity(items, id) >= 0
  {
    if items != [] {
      SumQuantityNonNegative(items[..|items| - 1], id);
    }
  }

  /**
   * The all-or-nothing rule keeps stock non-negative, provided the items
   * name pairwise distinct products.
   */
  lemma {:induction false} NoOverdrawWhenDistinct(ps: seq<Product>, items: seq<CartItem>)
    requires NonNegativeStock(ps)
    requires DistinctIds(items)
    requires Validate(ps, items).None?
    ensures NonNegativeStock(Deducted(ps, items))
  {
    DeductedStock(ps, items);
    var r := Deducted(ps, items);
    forall j | 0 <= j < |ps|
      ensures r[j].stock >= 0
    {
      if IsFirst(ps, j) {
        if k :| 0 <= k < |items| && items[k].productId == ps[j].id {
          SumQuantitySingle(items, k);
          assert Available(ps, items[k]);
        } else {
          SumQuantityAbsent(items, ps[j].id);
        }
      }
    }
  }

  /**
   * Validation checks each item on its own, so two lines for one product
   * can each pass while their sum overdraws the stock.
   */
  lemma {:induction false} DuplicateIdsOverdraw(p: Product, q: int)
    requires q <= p.stock < 2 * q
    ensures Validate([p], [CartItem(p.id, q), CartItem(p.id, q)]).None?
    ensures Deducted([p], [CartItem(p.id, q), CartItem(p.id, q)])[0].stock < 0
  {
    var items := [CartItem(p.id, q), CartItem(p.id, q)];
    assert Available([p], items[0]) && Available([p], items[1]);
    DeductedStock([p], items);
    assert IsFirst([p], 0);
    assert items[..1][..0] == [];
    assert SumQuantity(items[..1], p.id) == q;
  }

  /** With non-negative quantities no product gains stock from an order. */
  lemma {:induction false} DeductedNeverIncreases(ps: seq<Product>, items: seq<CartItem>)
    requires forall k :: 0 <= k < |items| ==> items[k].quantity >= 0
    ensures |Deducted(ps, items)| == |ps|
    ensures forall j :: 0 <= j < |ps| ==> Deducted(ps, items)[j].stock <= ps[j].stock
  {
    DeductedStock(ps, items);
    forall j | 0 <= j < |ps|
      ensures Deducted(ps, items)[j].stock <= ps[j].stock
    {
      SumQuantityNonNegative(items, ps[j].id);
    }
  }
}
