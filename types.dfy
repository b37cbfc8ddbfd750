/** The records of the storefront: users, products, cart lines and orders. */
module Types {

  datatype UserRole = Customer | Admin

  datatype User = User(id: string, name: string, email: string, role: UserRole)

  /** Prices and stock are whole numbers here; the seeded catalogue only uses integers. */
  datatype Product = Product(
    id: string,
    name: string,
    price: int,
    category: string,
    stock: int,
    image: string,
    description: string)

  datatype CartItem = CartItem(productId: string, quantity: int)

  datatype OrderStatus = Pending | Paid | Shipped | Cancelled

  datatype Order = Order(
    id: string,
    userId: string,
    items: seq<CartItem>,
    total: int,
    status: OrderStatus,
    createdAt: string)

  /** No two lines of `items` name the same product. */
  predicate DistinctIds(items: seq<CartItem>)
  {
    forall i, j :: 0 <= i < j < |items| ==> items[i].productId != items[j].productId
  }

  /** Every product in the catalogue has a stock count of at least zero. */
  predicate NonNegativeStock(ps: seq<Product>)
  {
    forall j :: 0 <= j < |ps| ==> ps[j].stock >= 0
  }
}
