/** The point-of-sale view (views/PointOfSale.tsx): the category bar, the
    product filter, the cart summary and the payment guard in front of checkout. */
module PointOfSale {
  import opened Types
  import opened Seqs
  import opened Pricing
  import App

  /** `['All', ...new Set(products.map(p => p.category))]`. */
  function Categories(ps: seq<Product>): (r: seq<string>)
    ensures |r| >= 1 && r[0] == "All"
    ensures Distinct(r[1..])
    ensures forall c :: c in r[1..] <==> exists i :: 0 <= i < |ps| && ps[i].category == c
  {
    var d := Dedup(CategoriesOf(ps));
    assert (["All"] + d)[1..] == d;
    forall c | c in d ensures exists i :: 0 <= i < |ps| && ps[i].category == c {
      var i :| 0 <= i < |ps| && CategoriesOf(ps)[i] == c;
    }
    ["All"] + d
  }

  /** The category buttons after 'All' follow the order in which each category
      first appears in the catalog. */
  lemma CategoriesInFirstAppearanceOrder(ps: seq<Product>)
    ensures forall i, j :: 1 <= i < j < |Categories(ps)| ==>
      Categories(ps)[i] in CategoriesOf(ps) && Categories(ps)[j] in CategoriesOf(ps) &&
      IndexOf(CategoriesOf(ps), Categories(ps)[i]) < IndexOf(CategoriesOf(ps), Categories(ps)[j])
  {
    var d := Dedup(CategoriesOf(ps));
    DedupFirstAppearance(CategoriesOf(ps));
    assert forall i :: 1 <= i < |Categories(ps)| ==> Categories(ps)[i] == d[i - 1];
  }

  /** `s.includes(sub)`: sub is a prefix of s or of one of its suffixes. */
  predicate Contains(s: string, sub: string)
  {
    sub <= s || (s != [] && Contains(s[1..], sub))
  }

  /** The search and category tests for one product; `lower` is toLowerCase. */
  predicate Matches(p: Product, search: string, category: string, lower: string -> string)
  {
    (Contains(lower(p.name), lower(search)) || Contains(lower(p.sku), lower(search)))
    && (category == "All" || p.category == category)
  }

  function MatchTest(search: string, category: string, lower: string -> string): Product -> bool
  {
    (p: Product) => Matches(p, search, category, lower)
  }

  /** filteredProducts: the products whose name or SKU contains the search term,
      ignoring case, and whose category is the selected one (or any, for 'All'). */
  function FilterProducts(ps: seq<Product>, search: string, category: string, lower: string -> string): (r: seq<Product>)
    ensures |r| <= |ps|
    ensures forall p :: p in r <==> p in ps && Matches(p, search, category, lower)
  {
    Filter(ps, MatchTest(search, category, lower))
  }

  /** The filter keeps catalog order: filtering two halves and concatenating is
      filtering the whole. */
  lemma FilterProductsKeepsOrder(a: seq<Product>, b: seq<Product>, search: string, category: string, lower: string -> string)
    ensures FilterProducts(a + b, search, category, lower)
         == FilterProducts(a, search, category, lower) + FilterProducts(b, search, category, lower)
  {
    FilterAppend(a, b, MatchTest(search, category, lower));
  }

  /** With an empty search and 'All' selected, every product is shown, in order. */
  lemma EmptySearchShowsAll(ps: seq<Product>, lower: string -> string)
    requires lower("") == ""
    ensures FilterProducts(ps, "", "All", lower) == ps
  {
    forall p | p in ps ensures MatchTest("", "All", lower)(p) {
      assert Contains(lower(p.name), "");
    }
    FilterKeepsAll(ps, MatchTest("", "All", lower));
  }

  /** The cart badge: `cart.reduce((a, b) => a + b.quantity, 0)`. With no
      negative quantity, no single line holds more units than it shows. */
  function ItemCount(cart: seq<CartItem>): (n: int)
    ensures (forall i :: 0 <= i < |cart| ==> cart[i].quantity >= 0) ==>
      n >= 0 && forall i :: 0 <= i < |cart| ==> cart[i].quantity <= n
  {
    if cart == [] then 0 else ItemCount(cart[..|cart| - 1]) + cart[|cart| - 1].quantity
  }

  /** The badge of a cart split in two is the sum of the two badges, so it
      counts every line's units once. */
  lemma {:induction false} ItemCountAppend(a: seq<CartItem>, b: seq<CartItem>)
    ensures ItemCount(a + b) == ItemCount(a) + ItemCount(b)
    decreases |b|
  {
    if b == [] {
      assert a + b == a;
    } else {
      assert (a + b)[..|a + b| - 1] == a + b[..|b| - 1];
      ItemCountAppend(a, b[..|b| - 1]);
    }
  }

  /** When every line holds at least one unit, the badge counts at least one per
      line, and it is 0 exactly for the empty cart. */
  lemma {:induction false} ItemCountAtLeastLines(cart: seq<CartItem>)
    requires forall i :: 0 <= i < |cart| ==> cart[i].quantity >= 1
    ensures ItemCount(cart) >= |cart|
    ensures ItemCount(cart) == 0 <==> cart == []
  {
    if cart != [] {
      ItemCountAtLeastLines(cart[..|cart| - 1]);
    }
  }

  /** handleFinish: the amount is the parsed cash input for cash (None when it
      is not a number) and the total for card and QRIS; a missing or short
      amount is rejected, otherwise it is forwarded unchanged. */
  function HandleFinish(cart: seq<CartItem>, m: PaymentMethod, cashInput: Option<real>): (r: Option<Payment>)
    ensures r.Some? <==> m != Cash || (cashInput.Some? && cashInput.value >= Price(cart).total)
    ensures r.Some? ==> r.value.payMethod == m
    ensures r.Some? && m == Cash ==> r.value.amountPaid == cashInput.value
    ensures m != Cash ==> r == Some(Payment(m, Price(cart).total))
  {
    var total := Price(cart).total;
    var paid := if m == Cash then cashInput else Some(total);
    if paid.None? || paid.value < total then None
    else Some(Payment(m, paid.value))
  }

  /** The three pay buttons: disabled, so doing nothing, while the cart is empty. */
  function PayButton(cart: seq<CartItem>, m: PaymentMethod, cashInput: Option<real>): (r: Option<Payment>)
    ensures cart == [] ==> r.None?
    ensures cart != [] ==> r == HandleFinish(cart, m, cashInput)
  {
    if |cart| == 0 then None else HandleFinish(cart, m, cashInput)
  }

  /** A payment the view lets through never records negative change, and card
      and QRIS payments record exactly the total and zero change. */
  lemma AcceptedPaymentChange(cart: seq<CartItem>, m: PaymentMethod, cashInput: Option<real>, id: string, date: string)
    requires HandleFinish(cart, m, cashInput).Some?
    ensures App.BuildTransaction(cart, HandleFinish(cart, m, cashInput).value, id, date).change >= 0.0
    ensures m != Cash ==>
      App.BuildTransaction(cart, HandleFinish(cart, m, cashInput).value, id, date).change == 0.0 &&
      App.BuildTransaction(cart, HandleFinish(cart, m, cashInput).value, id, date).amountPaid == Price(cart).total
  {
  }

  /** Cash equal to the total gives no change; 5000 more gives 5000 back. */
  lemma CashChangeExamples(cart: seq<CartItem>, id: string, date: string)
    ensures var exact := HandleFinish(cart, Cash, Some(Price(cart).total));
      exact.Some? && App.BuildTransaction(cart, exact.value, id, date).change == 0.0
    ensures var over := HandleFinish(cart, Cash, Some(Price(cart).total + 5000.0));
      over.Some? && App.BuildTransaction(cart, over.value, id, date).change == 5000.0
  {
  }
}
