/** The persisted store of db.ts: two collections, products and transactions,
    each either absent or holding a whole sequence (serialisation is taken to
    round-trip exactly, so a stored value is the sequence itself). */
module Db {
  import opened Types

  /** The five-item catalog written on a cold start (db.ts `initialProducts`):
      distinct ids, positive prices, and stock on hand for every item. */
  function InitialProducts(): (ps: seq<Product>)
    ensures |ps| == 5
    ensures forall i, j :: 0 <= i < j < |ps| ==> ps[i].id != ps[j].id
    ensures forall i :: 0 <= i < |ps| ==> ps[i].price > 0 && ps[i].stock > 0
  {
    [
      Product("1", "Arabica Coffee Beans 250g", "Coffee", 85000, 24, "https://picsum.photos/seed/coffee/400/400", "COF-001"),
      Product("2", "Iced Latte", "Beverages", 28000, 100, "https://picsum.photos/seed/latte/400/400", "BEV-001"),
      Product("3", "Chocolate Croissant", "Pastry", 22000, 15, "https://picsum.photos/seed/pastry/400/400", "PAS-001"),
      Product("4", "Mineral Water 600ml", "Beverages", 5000, 50, "https://picsum.photos/seed/water/400/400", "BEV-002"),
      Product("5", "Tote Bag Lumina", "Merchandise", 45000, 10, "https://picsum.photos/seed/bag/400/400", "MER-001")
    ]
  }

  /** One step of the stock update: the first product whose id matches the line
      loses the line's quantity; a line with an unknown id changes nothing. */
  function ApplyLine(ps: seq<Product>, item: CartItem): (r: seq<Product>)
    ensures |r| == |ps|
    ensures forall j :: 0 <= j < |ps| ==> r[j].id == ps[j].id
  {
    var k := FindIndex(ps, item.product.id);
    if k == -1 then ps else ps[k := ps[k].(stock := ps[k].stock - item.quantity)]
  }

  /** The stock update of saveTransaction: the lines applied one after another. */
  function Decrement(ps: seq<Product>, items: seq<CartItem>): (r: seq<Product>)
    ensures |r| == |ps|
    ensures forall j :: 0 <= j < |ps| ==> r[j].id == ps[j].id
  {
    if items == [] then ps
    else ApplyLine(Decrement(ps, items[..|items| - 1]), items[|items| - 1])
  }

  /** The total quantity that a list of lines asks of one product id. */
  function QtyFor(items: seq<CartItem>, id: string): int
  {
    if items == [] then 0
    else QtyFor(items[..|items| - 1], id)
         + (if items[|items| - 1].product.id == id then items[|items| - 1].quantity else 0)
  }

  /** What the stock update does to each catalog entry: the first product with a
      given id loses the summed quantity of the lines carrying that id, every
      other field and every other entry is untouched, and length and order are
      kept. Lines whose id is not in the catalog therefore have no effect, and
      nothing clamps the result at zero. */
  lemma {:induction false} DecrementSpec(ps: seq<Product>, items: seq<CartItem>)
    ensures |Decrement(ps, items)| == |ps|
    ensures forall k :: 0 <= k < |ps| ==>
      Decrement(ps, items)[k] ==
        ps[k].(stock := ps[k].stock - (if FindIndex(ps, ps[k].id) == k then QtyFor(items, ps[k].id) else 0))
  {
    if items != [] {
      var front := items[..|items| - 1];
      var it := items[|items| - 1];
      DecrementSpec(ps, front);
      var d := Decrement(ps, front);
      FindIndexIdsOnly(d, ps, it.product.id);
      var r := Decrement(ps, items);
      assert r == ApplyLine(d, it);
      var k0 := FindIndex(ps, it.product.id);
      forall k | 0 <= k < |ps|
        ensures r[k] ==
          ps[k].(stock := ps[k].stock - (if FindIndex(ps, ps[k].id) == k then QtyFor(items, ps[k].id) else 0))
      {
        var id := ps[k].id;
        assert QtyFor(items, id) == QtyFor(front, id) + (if it.product.id == id then it.quantity else 0);
        if k0 == k {
          assert r[k] == d[k].(stock := d[k].stock - it.quantity);
        } else {
          assert r[k] == d[k];
          assert it.product.id == id ==> FindIndex(ps, id) != k;
        }
      }
    }
  }

  /** With at most one line per id, the quantity asked of an id is that line's. */
  lemma {:induction false} QtyForUnique(items: seq<CartItem>, id: string)
    requires UniqueIds(items)
    ensures !HasLine(items, id) ==> QtyFor(items, id) == 0
    ensures forall i :: 0 <= i < |items| && items[i].product.id == id ==> QtyFor(items, id) == items[i].quantity
  {
    if items != [] {
      var front := items[..|items| - 1];
      QtyForUnique(front, id);
      forall i | 0 <= i < |items| && items[i].product.id == id
        ensures QtyFor(items, id) == items[i].quantity
      {
        if i < |items| - 1 {
          assert front[i] == items[i];
        } else {
          assert !HasLine(front, id);
        }
      }
    }
  }

  predicate StocksNonNegative(ps: seq<Product>)
  {
    forall j :: 0 <= j < |ps| ==> ps[j].stock >= 0
  }

  /** The composed safety property: when no two lines share an id and every line
      asks for at most the live stock of its product, the unclamped decrement
      leaves every stock non-negative. */
  lemma CommitKeepsStockNonNegative(ps: seq<Product>, items: seq<CartItem>)
    requires StocksNonNegative(ps)
    requires UniqueIds(items)
    requires forall i :: 0 <= i < |items| ==>
      0 <= items[i].quantity <= LiveStock(ps, items[i].product.id)
    ensures StocksNonNegative(Decrement(ps, items))
  {
    DecrementSpec(ps, items);
    forall k | 0 <= k < |ps|
      ensures Decrement(ps, items)[k].stock >= 0
    {
      var id := ps[k].id;
      QtyForUnique(items, id);
      if FindIndex(ps, id) == k && HasLine(items, id) {
        var i :| 0 <= i < |items| && items[i].product.id == id;
      }
    }
  }

  /** Without that precondition the update overdraws: one unit in stock, two sold. */
  lemma DecrementIsNotClamped(p: Product)
    requires p.stock == 1
    ensures Decrement([p], [CartItem(p, 2)])[0].stock == -1
  {
    DecrementSpec([p], [CartItem(p, 2)]);
  }

  /** The store. `None` stands for a key that localStorage does not hold. */
  class Store {
    var products: Option<seq<Product>>
    var transactions: Option<seq<Transaction>>

    constructor ()
      ensures products == None && transactions == None
    {
      products := None;
      transactions := None;
    }

    /** The catalog a read would return: the stored one, or the seed if absent. */
    function Catalog(): seq<Product>
      reads this
    {
      if products.None? then InitialProducts() else products.value
    }

    /** The ledger a read would return: the stored one, or empty if absent. */
    function Ledger(): seq<Transaction>
      reads this
    {
      if transactions.None? then [] else transactions.value
    }

    /** getProducts: seeds and persists the default catalog on a cold read. */
    method GetProducts() returns (ps: seq<Product>)
      modifies this`products
      ensures ps == old(Catalog())
      ensures products == Some(ps)
      ensures old(products).Some? ==> products == old(products)
    {
      if products.None? {
        SaveProducts(InitialProducts());
        ps := InitialProducts();
      } else {
        ps := products.value;
      }
    }

    /** saveProducts: replaces the whole collection, it does not merge. */
    method SaveProducts(ps: seq<Product>)
      modifies this`products
      ensures products == Some(ps)
    {
      products := Some(ps);
    }

    /** getTransactions: an absent ledger reads as empty; nothing is written. */
    method GetTransactions() returns (ts: seq<Transaction>)
      ensures transactions.None? ==> ts == []
      ensures transactions.Some? ==> ts == transactions.value
    {
      ts := if transactions.None? then [] else transactions.value;
    }

    /** saveTransaction: prepends to the ledger and writes it, then re-reads the
        catalog (seeding it if absent), decrements the stock of each line's
        product in place and writes the catalog back. */
    method SaveTransaction(t: Transaction)
      modifies this
      ensures transactions == Some([t] + old(Ledger()))
      ensures products == Some(Decrement(old(Catalog()), t.items))
    {
      var ledger := GetTransactions();
      ledger := [t] + ledger;
      transactions := Some(ledger);

      assert Catalog() == old(Catalog());
      var ps := GetProducts();
      var a := new Product[|ps|](j requires 0 <= j < |ps| => ps[j]);
      assert a[..] == ps;
      DecrementInPlace(a, t.items);
      SaveProducts(a[..]);
    }
  }

  /** The forEach of saveTransaction over the parsed catalog array: each line
      finds its product by id and subtracts its quantity in place. */
  method DecrementInPlace(a: array<Product>, items: seq<CartItem>)
    modifies a
    ensures a[..] == Decrement(old(a[..]), items)
  {
    var i := 0;
    while i < |items|
      invariant 0 <= i <= |items|
      invariant a[..] == Decrement(old(a[..]), items[..i])
    {
      var item := items[i];
      ghost var before := a[..];
      var pIndex := FindIndex(a[..], item.product.id);
      if pIndex != -1 {
        a[pIndex] := a[pIndex].(stock := a[pIndex].stock - item.quantity);
      }
      assert a[..] == ApplyLine(before, item);
      assert items[..i + 1][..i] == items[..i];
      i := i + 1;
    }
    assert items[..i] == items;
  }

  /** Cold start: the first read seeds the five products, the second returns the
      same five from the store. */
  method ColdStart() returns (first: seq<Product>, second: seq<Product>)
    ensures first == InitialProducts() && second == InitialProducts()
    ensures |first| == 5
  {
    var store := new Store();
    first := store.GetProducts();
    second := store.GetProducts();
  }

  /** A save followed by a read returns exactly what was saved, including the
      empty catalog, which is not reseeded. */
  method SaveThenRead(ps: seq<Product>) returns (r: seq<Product>)
    ensures r == ps
  {
    var store := new Store();
    store.SaveProducts(ps);
    r := store.GetProducts();
  }

  /** After saveTransaction the new record is at index 0 and the ledger grew by one. */
  method RecordThenList(before: seq<Transaction>, t: Transaction) returns (r: seq<Transaction>)
    ensures |r| == |before| + 1 && r[0] == t && r[1..] == before
  {
    var store := new Store();
    store.transactions := if before == [] then None else Some(before);
    store.SaveTransaction(t);
    r := store.GetTransactions();
  }
}
