/** The records shared by the store, the cart and the views (types.ts). */
module Types {

  datatype Option<+T> = None | Some(value: T)

  /** A catalog item. Prices are whole currency units (the edit form parses them
      with parseInt); stock is an integer that the checkout may drive below zero. */
  datatype Product = Product(
    id: string,
    name: string,
    category: string,
    price: int,
    stock: int,
    image: string,
    sku: string)

  /** A cart line: a snapshot of the product spread into the line, plus the
      requested quantity. */
  datatype CartItem = CartItem(product: Product, quantity: int)

  datatype PaymentMethod = Cash | Card | Qris

  /** What the point-of-sale view forwards to the checkout handler. */
  datatype Payment = Payment(payMethod: PaymentMethod, amountPaid: real)

  /** A committed sale. Money amounts derived from the 11% tax are exact rationals. */
  datatype Transaction = Transaction(
    id: string,
    items: seq<CartItem>,
    subtotal: real,
    tax: real,
    total: real,
    amountPaid: real,
    change: real,
    date: string,
    paymentMethod: PaymentMethod)

  /** `ps.findIndex(p => p.id === id)`: the first index whose id matches, or -1. */
  function FindIndex(ps: seq<Product>, id: string): (k: int)
    ensures -1 <= k < |ps|
    ensures k == -1 <==> forall j :: 0 <= j < |ps| ==> ps[j].id != id
    ensures 0 <= k ==> ps[k].id == id && forall j :: 0 <= j < k ==> ps[j].id != id
  {
    if |ps| == 0 then -1
    else if ps[0].id == id then 0
    else
      var k := FindIndex(ps[1..], id);
      if k == -1 then -1 else k + 1
  }

  /** findIndex looks at ids only: two catalogs with the same ids in the same
      order give the same answer. */
  lemma FindIndexIdsOnly(ps: seq<Product>, qs: seq<Product>, id: string)
    requires |ps| == |qs|
    requires forall j :: 0 <= j < |ps| ==> ps[j].id == qs[j].id
    ensures FindIndex(ps, id) == FindIndex(qs, id)
  {
  }

  /** `products.find(p => p.id === id)?.stock || 0`: the live stock of the first
      product with that id, or 0 when there is none. */
  function LiveStock(ps: seq<Product>, id: string): (s: int)
    ensures FindIndex(ps, id) == -1 ==> s == 0
    ensures FindIndex(ps, id) != -1 ==> s == ps[FindIndex(ps, id)].stock
  {
    var k := FindIndex(ps, id);
    if k == -1 then 0 else ps[k].stock
  }

  /** `products.map(p => p.category)`. */
  function CategoriesOf(ps: seq<Product>): (r: seq<string>)
    ensures |r| == |ps| && forall i :: 0 <= i < |ps| ==> r[i] == ps[i].category
  {
    seq(|ps|, i requires 0 <= i < |ps| => ps[i].category)
  }

  /** At most one cart line per product id. */
  predicate UniqueIds(cart: seq<CartItem>)
  {
    forall i, j :: 0 <= i < j < |cart| ==> cart[i].product.id != cart[j].product.id
  }

  /** Does the cart hold a line for this id? (`prev.find(item => item.id === id)`) */
  predicate HasLine(cart: seq<CartItem>, id: string)
  {
    exists i :: 0 <= i < |cart| && cart[i].product.id == id
  }

  function Min(a: int, b: int): int { if a <= b then a else b }

  function Max(a: int, b: int): int { if a >= b then a else b }
}
