/** The older single-file variant (index.tsx). Its `db` object behaves as the
    store of db.ts; its cart handlers do not clamp to stock, its checkout guards
    the empty cart and records no change, and its pay button always submits
    cash equal to the total. */
module Legacy {
  import opened Types
  import opened Seqs
  import opened Pricing
  import opened Db
  import App

  /** The line of `id` gains one unit, with no cap. */
  function IncrementLine(cart: seq<CartItem>, id: string): (r: seq<CartItem>)
    ensures |r| == |cart|
    ensures forall i :: 0 <= i < |cart| ==>
      r[i] == if cart[i].product.id == id then cart[i].(quantity := cart[i].quantity + 1) else cart[i]
  {
    seq(|cart|, i requires 0 <= i < |cart| =>
      if cart[i].product.id == id then cart[i].(quantity := cart[i].quantity + 1) else cart[i])
  }

  /** handleAddToCart of index.tsx: no stock check at all. */
  function AddToCartUnclamped(cart: seq<CartItem>, p: Product): (r: seq<CartItem>)
    ensures HasLine(cart, p.id) ==>
      |r| == |cart| &&
      forall i :: 0 <= i < |cart| ==>
        r[i] == if cart[i].product.id == p.id then cart[i].(quantity := cart[i].quantity + 1) else cart[i]
    ensures !HasLine(cart, p.id) ==> r == cart + [CartItem(p, 1)]
  {
    if HasLine(cart, p.id) then IncrementLine(cart, p.id) else cart + [CartItem(p, 1)]
  }

  /** The map step of handleUpdateQty: floor at 0, no cap. */
  function FloorLineQty(cart: seq<CartItem>, id: string, delta: int): (r: seq<CartItem>)
    ensures |r| == |cart|
    ensures forall i :: 0 <= i < |cart| ==>
      r[i] == if cart[i].product.id == id then cart[i].(quantity := Max(0, cart[i].quantity + delta)) else cart[i]
  {
    seq(|cart|, i requires 0 <= i < |cart| =>
      if cart[i].product.id == id then cart[i].(quantity := Max(0, cart[i].quantity + delta)) else cart[i])
  }

  /** handleUpdateQty of index.tsx: floors at 0 and drops empty lines, with no
      stock clamp. */
  function UpdateQtyUnclamped(cart: seq<CartItem>, id: string, delta: int): (r: seq<CartItem>)
    ensures |r| <= |cart|
    ensures forall x :: x in r ==> x.quantity > 0
    ensures forall x :: x in r && x.product.id != id ==> x in cart
    ensures forall x :: x in cart && x.product.id != id && x.quantity > 0 ==> x in r
    ensures forall i :: 0 <= i < |cart| && cart[i].product.id == id ==>
      (cart[i].quantity + delta > 0 <==> cart[i].(quantity := cart[i].quantity + delta) in r)
    ensures forall x :: x in r && x.product.id == id ==>
      exists i :: 0 <= i < |cart| && cart[i].product.id == id &&
        x == cart[i].(quantity := Max(0, cart[i].quantity + delta))
  {
    var m := FloorLineQty(cart, id, delta);
    assert forall i :: 0 <= i < |cart| && cart[i].product.id != id ==> m[i] == cart[i];
    assert forall x :: x in m && x.product.id != id ==> x in cart;
    Filter(m, App.IsPositive)
  }

  /** The update maps and filters line by line, so the surviving lines keep
      their cart order. */
  lemma UpdateQtyUnclampedKeepsOrder(a: seq<CartItem>, b: seq<CartItem>, id: string, delta: int)
    ensures UpdateQtyUnclamped(a + b, id, delta) == UpdateQtyUnclamped(a, id, delta) + UpdateQtyUnclamped(b, id, delta)
  {
    assert FloorLineQty(a + b, id, delta) == FloorLineQty(a, id, delta) + FloorLineQty(b, id, delta);
    FilterAppend(FloorLineQty(a, id, delta), FloorLineQty(b, id, delta), App.IsPositive);
  }

  /** While the stock cap does not bite, both handleAddToCart variants agree. */
  lemma AddVariantsAgreeBelowStock(cart: seq<CartItem>, p: Product)
    requires p.stock > 0
    requires forall i :: 0 <= i < |cart| && cart[i].product.id == p.id ==> cart[i].quantity < p.stock
    ensures App.AddToCart(cart, p) == AddToCartUnclamped(cart, p)
  {
  }

  /** At the cap they differ: with one unit in stock, adding twice asks for two
      here and for one in App.tsx, and committing the legacy cart overdraws. */
  lemma UnclampedAddOverdraws(p: Product)
    requires p.stock == 1
    ensures AddToCartUnclamped(AddToCartUnclamped([], p), p) == [CartItem(p, 2)]
    ensures App.AddToCart(App.AddToCart([], p), p) == [CartItem(p, 1)]
    ensures Decrement([p], AddToCartUnclamped(AddToCartUnclamped([], p), p))[0].stock == -1
  {
    assert AddToCartUnclamped([], p) == [CartItem(p, 1)];
    assert [CartItem(p, 1)][0].product.id == p.id;
    App.AddTwiceWithOneInStock(p);
    DecrementIsNotClamped(p);
  }

  /** Both handleUpdateQty variants agree whenever the App.tsx clamp does not
      bite, that is when the floored quantity stays within the live stock. */
  lemma UpdateVariantsAgreeWithinStock(cart: seq<CartItem>, ps: seq<Product>, id: string, delta: int)
    requires forall i :: 0 <= i < |cart| && cart[i].product.id == id ==>
      Max(0, cart[i].quantity + delta) <= LiveStock(ps, id)
    ensures App.UpdateCartQty(cart, ps, id, delta) == UpdateQtyUnclamped(cart, id, delta)
  {
    assert App.SetLineQty(cart, id, delta, LiveStock(ps, id)) == FloorLineQty(cart, id, delta);
  }

  /** The legacy record: `total = subtotal * 1.11`, `tax = subtotal * 0.11`,
      and the change is 0 whatever was paid. */
  function LegacyTransaction(cart: seq<CartItem>, pay: Payment, id: string, date: string): (t: Transaction)
    ensures t.items == cart && t.change == 0.0
    ensures t.amountPaid == pay.amountPaid && t.paymentMethod == pay.payMethod
    ensures t.total == t.subtotal + t.tax
  {
    var subtotal := Subtotal(cart) as real;
    Transaction(id, cart, subtotal, subtotal * 0.11, subtotal * 1.11, pay.amountPaid, 0.0, date, pay.payMethod)
  }

  /** The legacy record prices a cart exactly as App.tsx does and differs from
      it only in the recorded change. */
  lemma LegacyPricingAgrees(cart: seq<CartItem>, pay: Payment, id: string, date: string)
    ensures LegacyTransaction(cart, pay, id, date)
         == App.BuildTransaction(cart, pay, id, date).(change := 0.0)
  {
  }

  /** The pay button of the legacy view: cash, exactly the total. */
  function PayNow(cart: seq<CartItem>): (pay: Payment)
    ensures pay.payMethod == Cash && pay.amountPaid == Price(cart).total
  {
    Payment(Cash, Subtotal(cart) as real * 1.11)
  }

  /** The legacy App component's state. */
  class LegacySession {
    const store: Store
    var products: seq<Product>
    var transactions: seq<Transaction>
    var cart: seq<CartItem>

    constructor (store: Store)
      ensures this.store == store
      ensures products == [] && transactions == [] && cart == []
    {
      this.store := store;
      products := [];
      transactions := [];
      cart := [];
    }

    method HandleAddToCart(p: Product)
      modifies this`cart
      ensures cart == AddToCartUnclamped(old(cart), p)
    {
      cart := AddToCartUnclamped(cart, p);
    }

    method HandleUpdateQty(id: string, delta: int)
      modifies this`cart
      ensures cart == UpdateQtyUnclamped(old(cart), id, delta)
    {
      cart := UpdateQtyUnclamped(cart, id, delta);
    }

    /** handleCheckout of index.tsx: nothing happens on an empty cart;
        otherwise the record is committed, prepended and the cart emptied. */
    method HandleCheckout(pay: Payment, txId: string, date: string)
      modifies this, store
      ensures old(cart) == [] ==>
        cart == [] && transactions == old(transactions) && products == old(products) &&
        store.products == old(store.products) && store.transactions == old(store.transactions)
      ensures old(cart) != [] ==>
        transactions == [LegacyTransaction(old(cart), pay, txId, date)] + old(transactions) &&
        store.transactions == Some([LegacyTransaction(old(cart), pay, txId, date)] + old(store.Ledger())) &&
        store.products == Some(Decrement(old(store.Catalog()), old(cart))) &&
        products == Decrement(old(store.Catalog()), old(cart)) &&
        cart == []
    {
      if |cart| == 0 {
        return;
      }
      var tx := LegacyTransaction(cart, pay, txId, date);
      store.SaveTransaction(tx);
      transactions := [tx] + transactions;
      products := store.GetProducts();
      cart := [];
    }
  }
}
