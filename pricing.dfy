/** The price breakdown shared by the checkout handler and the point-of-sale
    summary: subtotal, an 11% tax and their sum, in exact arithmetic. */
module Pricing {
  import opened Types

  /** The fixed tax rate, exactly eleven hundredths. */
  const TaxRate: real := 0.11

  /** `cart.reduce((acc, item) => acc + item.price * item.quantity, 0)`; it is
      never negative when no line has a negative price or quantity. */
  function Subtotal(cart: seq<CartItem>): (r: int)
    ensures NonNegativeLines(cart) ==> r >= 0
  {
    if cart == [] then 0
    else
      var last := cart[|cart| - 1];
      assert NonNegativeLines(cart) ==>
        NonNegativeLines(cart[..|cart| - 1]) && last.product.price * last.quantity >= 0;
      Subtotal(cart[..|cart| - 1]) + last.product.price * last.quantity
  }

  /** Prices and quantities that cannot make a line negative. */
  predicate NonNegativeLines(cart: seq<CartItem>)
  {
    forall i :: 0 <= i < |cart| ==> cart[i].product.price >= 0 && cart[i].quantity >= 0
  }

  /** The subtotal of a cart split in two is the sum of the two subtotals. */
  lemma {:induction false} SubtotalAppend(a: seq<CartItem>, b: seq<CartItem>)
    ensures Subtotal(a + b) == Subtotal(a) + Subtotal(b)
    decreases |b|
  {
    if b != [] {
      var b' := b[..|b| - 1];
      assert (a + b)[..|a + b| - 1] == a + b';
      SubtotalAppend(a, b');
    } else {
      assert a + b == a;
    }
  }

  datatype Breakdown = Breakdown(subtotal: real, tax: real, total: real)

  /** subtotal, `tax = subtotal * 0.11`, `total = subtotal + tax`. */
  function Price(cart: seq<CartItem>): (b: Breakdown)
    ensures b.subtotal == Subtotal(cart) as real
    ensures b.tax * 100.0 == b.subtotal * 11.0
    ensures b.total == b.subtotal + b.tax
    ensures b.total == b.subtotal * 1.11
    ensures NonNegativeLines(cart) ==> 0.0 <= b.tax <= b.total && b.subtotal <= b.total
  {
    var s := Subtotal(cart) as real;
    var tax := s * TaxRate;
    Breakdown(s, tax, s + tax)
  }

  /** Two iced lattes at 28000: subtotal 56000, tax 6160, total 62160. */
  lemma TwoIcedLattes(latte: Product)
    requires latte.price == 28000
    ensures Price([CartItem(latte, 2)]) == Breakdown(56000.0, 6160.0, 62160.0)
  {
    assert Subtotal([CartItem(latte, 2)]) == 56000 by {
      assert [CartItem(latte, 2)][..0] == [];
    }
  }
}
