/** The application state of App.tsx: the cart handlers, which are pure
    transforms of the previous cart, and the checkout, which commits a sale to
    the store and clears the cart. */
module App {
  import opened Types
  import opened Seqs
  import opened Pricing
  import opened Db

  // ---------------------------------------------------------------- cart engine

  /** Every line asks for at least one unit and at most the live stock of its
      product (the limit the handlers clamp against). */
  predicate CartWithin(cart: seq<CartItem>, ps: seq<Product>)
  {
    forall i :: 0 <= i < |cart| ==> 1 <= cart[i].quantity <= LiveStock(ps, cart[i].product.id)
  }

  /** The line of `id` gains one unit, capped at `stock`; other lines are kept. */
  function BumpLine(cart: seq<CartItem>, id: string, stock: int): (r: seq<CartItem>)
    ensures |r| == |cart|
    ensures forall i :: 0 <= i < |cart| ==>
      r[i] == if cart[i].product.id == id then cart[i].(quantity := Min(cart[i].quantity + 1, stock)) else cart[i]
  {
    seq(|cart|, i requires 0 <= i < |cart| =>
      if cart[i].product.id == id then cart[i].(quantity := Min(cart[i].quantity + 1, stock)) else cart[i])
  }

  /** handleAddToCart: an out-of-stock product is ignored; a product already in
      the cart gains one unit, capped at its stock; a new product is appended
      with quantity 1. */
  function AddToCart(cart: seq<CartItem>, p: Product): (r: seq<CartItem>)
    ensures p.stock <= 0 ==> r == cart
    ensures p.stock > 0 && HasLine(cart, p.id) ==>
      |r| == |cart| &&
      forall i :: 0 <= i < |cart| ==>
        r[i] == if cart[i].product.id == p.id then cart[i].(quantity := Min(cart[i].quantity + 1, p.stock)) else cart[i]
    ensures p.stock > 0 && !HasLine(cart, p.id) ==> r == cart + [CartItem(p, 1)]
  {
    if p.stock <= 0 then cart
    else if HasLine(cart, p.id) then BumpLine(cart, p.id, p.stock)
    else cart + [CartItem(p, 1)]
  }

  /** The quantity a line gets from an update: floored at 0, capped at the limit. */
  function ClampQty(quantity: int, delta: int, limit: int): int
  {
    Min(Max(0, quantity + delta), limit)
  }

  /** The map step of handleUpdateCartQty. */
  function SetLineQty(cart: seq<CartItem>, id: string, delta: int, limit: int): (r: seq<CartItem>)
    ensures |r| == |cart|
    ensures forall i :: 0 <= i < |cart| ==> r[i].product == cart[i].product
    ensures forall i :: 0 <= i < |cart| ==>
      r[i].quantity == if cart[i].product.id == id then ClampQty(cart[i].quantity, delta, limit) else cart[i].quantity
  {
    seq(|cart|, i requires 0 <= i < |cart| =>
      if cart[i].product.id == id then cart[i].(quantity := ClampQty(cart[i].quantity, delta, limit)) else cart[i])
  }

  /** The filter step: lines with a positive quantity. */
  predicate IsPositive(item: CartItem)
  {
    item.quantity > 0
  }

  /** handleUpdateCartQty: the line's new quantity is its old one plus delta,
      floored at 0 and capped at the live stock (0 when the product is gone),
      and every line left at 0 or below is dropped. */
  function UpdateCartQty(cart: seq<CartItem>, ps: seq<Product>, id: string, delta: int): (r: seq<CartItem>)
    ensures |r| <= |cart|
    ensures forall x :: x in r ==> x.quantity > 0
    ensures forall x :: x in r && x.product.id != id ==> x in cart
    ensures forall x :: x in cart && x.product.id != id && x.quantity > 0 ==> x in r
    ensures forall i :: 0 <= i < |cart| && cart[i].product.id == id ==>
      var q := ClampQty(cart[i].quantity, delta, LiveStock(ps, id));
      (q > 0 <==> cart[i].(quantity := q) in r)
    ensures forall x :: x in r && x.product.id == id ==>
      exists i :: 0 <= i < |cart| && cart[i].product.id == id &&
        x == cart[i].(quantity := ClampQty(cart[i].quantity, delta, LiveStock(ps, id)))
  {
    var m := SetLineQty(cart, id, delta, LiveStock(ps, id));
    assert forall i :: 0 <= i < |cart| && cart[i].product.id != id ==> m[i] == cart[i];
    assert forall x :: x in m && x.product.id != id ==> x in cart;
    assert forall i :: 0 <= i < |cart| && cart[i].product.id == id ==>
      m[i] == cart[i].(quantity := ClampQty(cart[i].quantity, delta, LiveStock(ps, id)));
    Filter(m, IsPositive)
  }

  /** The update maps and filters line by line, so the surviving lines keep
      their cart order. */
  lemma UpdateCartQtyKeepsOrder(a: seq<CartItem>, b: seq<CartItem>, ps: seq<Product>, id: string, delta: int)
    ensures UpdateCartQty(a + b, ps, id, delta) == UpdateCartQty(a, ps, id, delta) + UpdateCartQty(b, ps, id, delta)
  {
    var limit := LiveStock(ps, id);
    assert SetLineQty(a + b, id, delta, limit) == SetLineQty(a, id, delta, limit) + SetLineQty(b, id, delta, limit);
    FilterAppend(SetLineQty(a, id, delta, limit), SetLineQty(b, id, delta, limit), IsPositive);
  }

  /** Filtering keeps at most one line per id. */
  lemma {:induction false} FilterKeepsUniqueIds(cart: seq<CartItem>, f: CartItem -> bool)
    requires UniqueIds(cart)
    ensures UniqueIds(Filter(cart, f))
  {
    if cart != [] {
      FilterKeepsUniqueIds(cart[1..], f);
      var rest := Filter(cart[1..], f);
      forall x | x in rest ensures x.product.id != cart[0].product.id {
        var j :| 0 <= j < |cart[1..]| && cart[1..][j] == x;
        assert cart[j + 1] == x;
      }
    }
  }

  /** handleAddToCart keeps the cart invariant: one line per id, and every
      quantity between 1 and the live stock, provided the product clicked shows
      the live stock. */
  lemma AddToCartKeepsInvariant(cart: seq<CartItem>, ps: seq<Product>, p: Product)
    requires UniqueIds(cart) && CartWithin(cart, ps)
    requires p.stock == LiveStock(ps, p.id)
    ensures UniqueIds(AddToCart(cart, p)) && CartWithin(AddToCart(cart, p), ps)
  {
    var r := AddToCart(cart, p);
    if p.stock > 0 && !HasLine(cart, p.id) {
      assert r == cart + [CartItem(p, 1)];
      forall i, j | 0 <= i < j < |r| ensures r[i].product.id != r[j].product.id {
        if j == |cart| {
          assert r[i] == cart[i];
        }
      }
    }
  }

  /** handleUpdateCartQty keeps the same invariant against the live catalog it
      clamps to. */
  lemma UpdateCartQtyKeepsInvariant(cart: seq<CartItem>, ps: seq<Product>, id: string, delta: int)
    requires UniqueIds(cart) && CartWithin(cart, ps)
    ensures UniqueIds(UpdateCartQty(cart, ps, id, delta)) && CartWithin(UpdateCartQty(cart, ps, id, delta), ps)
  {
    var m := SetLineQty(cart, id, delta, LiveStock(ps, id));
    assert UniqueIds(m) by {
      forall i, j | 0 <= i < j < |m| ensures m[i].product.id != m[j].product.id {
        assert m[i].product == cart[i].product && m[j].product == cart[j].product;
      }
    }
    FilterKeepsUniqueIds(m, IsPositive);
    var r := UpdateCartQty(cart, ps, id, delta);
    assert r == Filter(m, IsPositive);
    forall k | 0 <= k < |r|
      ensures 1 <= r[k].quantity <= LiveStock(ps, r[k].product.id)
    {
      assert r[k] in m;
      var i :| 0 <= i < |m| && m[i] == r[k];
      assert m[i].product == cart[i].product;
    }
  }

  /** A line whose product has left the live catalog is removed by any update. */
  lemma UpdateOfMissingProductRemovesLine(cart: seq<CartItem>, ps: seq<Product>, id: string, delta: int)
    requires FindIndex(ps, id) == -1
    ensures forall x :: x in UpdateCartQty(cart, ps, id, delta) ==> x.product.id != id
  {
    var r := UpdateCartQty(cart, ps, id, delta);
    var m := SetLineQty(cart, id, delta, 0);
    assert r == Filter(m, IsPositive);
    forall x | x in r ensures x.product.id != id {
      var i :| 0 <= i < |m| && m[i] == x;
    }
  }

  /** Adding the same product twice when one unit is in stock leaves one unit. */
  lemma AddTwiceWithOneInStock(p: Product)
    requires p.stock == 1
    ensures AddToCart(AddToCart([], p), p) == [CartItem(p, 1)]
  {
    assert AddToCart([], p) == [CartItem(p, 1)];
    assert [CartItem(p, 1)][0].product.id == p.id;
  }

  /** Decreasing a line by 100 removes it, whatever the stock. */
  lemma LargeDecreaseRemovesLine(cart: seq<CartItem>, ps: seq<Product>, id: string)
    requires forall i :: 0 <= i < |cart| ==> cart[i].quantity <= 100
    ensures forall x :: x in UpdateCartQty(cart, ps, id, -100) ==> x.product.id != id
  {
    var r := UpdateCartQty(cart, ps, id, -100);
    var m := SetLineQty(cart, id, -100, LiveStock(ps, id));
    assert r == Filter(m, IsPositive);
    forall x | x in r ensures x.product.id != id {
      var i :| 0 <= i < |m| && m[i] == x;
    }
  }

  // ---------------------------------------------------------------- checkout

  /** The record handleCheckout builds: a copy of the cart lines, the price
      breakdown, the amount paid and the change `amountPaid - total`. */
  function BuildTransaction(cart: seq<CartItem>, pay: Payment, id: string, date: string): (t: Transaction)
    ensures t.items == cart
    ensures t.subtotal == Subtotal(cart) as real
    ensures t.total == t.subtotal + t.tax && t.total == t.subtotal * 1.11
    ensures t.amountPaid == pay.amountPaid && t.paymentMethod == pay.payMethod
    ensures t.change == t.amountPaid - t.total
    ensures t.id == id && t.date == date
  {
    var b := Price(cart);
    Transaction(id, cart, b.subtotal, b.tax, b.total, pay.amountPaid, pay.amountPaid - b.total, date, pay.payMethod)
  }

  /** The App component's state: the catalog and ledger it shows, the cart, and
      the store it reads and writes. */
  class Session {
    const store: Store
    var products: seq<Product>
    var transactions: seq<Transaction>
    var cart: seq<CartItem>

    constructor (store: Store)
      ensures this.store == store
      ensures products == [] && transactions == [] && cart == []
    {
      this.store := store;
      products := [];
      transactions := [];
      cart := [];
    }

    /** The mount effect: load the catalog (seeding it if absent) and the ledger. */
    method Load()
      modifies this, store
      ensures products == old(store.Catalog()) && transactions == old(store.Ledger())
      ensures store.products == Some(products) && store.transactions == old(store.transactions)
      ensures cart == old(cart)
    {
      products := store.GetProducts();
      transactions := store.GetTransactions();
    }

    /** onRefresh: re-read the catalog after another view wrote it. */
    method Refresh()
      modifies this`products, store
      ensures products == old(store.Catalog())
      ensures store.products == Some(products) && store.transactions == old(store.transactions)
    {
      products := store.GetProducts();
    }

    method HandleAddToCart(p: Product)
      modifies this`cart
      ensures cart == AddToCart(old(cart), p)
    {
      cart := AddToCart(cart, p);
    }

    /** The update clamps against the catalog the component holds. */
    method HandleUpdateCartQty(id: string, delta: int)
      modifies this`cart
      ensures cart == UpdateCartQty(old(cart), products, id, delta)
    {
      cart := UpdateCartQty(cart, products, id, delta);
    }

    /** handleCheckout: build the record, commit it through saveTransaction,
        prepend it to the ledger shown, re-read the catalog and empty the cart.
        When the cart respected the stored stock, no stock is left negative. */
    method HandleCheckout(pay: Payment, txId: string, date: string)
      modifies this, store
      ensures transactions == [BuildTransaction(old(cart), pay, txId, date)] + old(transactions)
      ensures store.transactions == Some([BuildTransaction(old(cart), pay, txId, date)] + old(store.Ledger()))
      ensures store.products == Some(Decrement(old(store.Catalog()), old(cart)))
      ensures products == Decrement(old(store.Catalog()), old(cart))
      ensures cart == []
      ensures (StocksNonNegative(old(store.Catalog())) && UniqueIds(old(cart)) &&
               CartWithin(old(cart), old(store.Catalog()))) ==> StocksNonNegative(products)
    {
      var tx := BuildTransaction(cart, pay, txId, date);
      ghost var catalog := store.Catalog();
      if StocksNonNegative(catalog) && UniqueIds(cart) && CartWithin(cart, catalog) {
        CommitKeepsStockNonNegative(catalog, cart);
      }
      store.SaveTransaction(tx);
      transactions := [tx] + transactions;
      products := store.GetProducts();
      cart := [];
    }
  }
}
