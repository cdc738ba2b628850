/** The cart panel of the cashier screen (src/components/cashier/ShoppingCart.tsx):
    the +/- quantity clamp, the subtotal, the 10% tax, the total and the
    guard on the checkout button. Money is exact: `real` instead of IEEE
    doubles. */
module ShoppingCart {
  import opened Common

  /** One line of the cart: a product snapshot and how many of it. */
  datatype CartLine = CartLine(id: string, name: string, price: real, quantity: int, image: Option<string>)

  /** Line `k` is the first line with this id. */
  predicate FirstWithId(items: seq<CartLine>, id: string, k: int) {
    0 <= k < |items| && items[k].id == id && forall i :: 0 <= i < k ==> items[i].id != id
  }

  /** The first line with this id (`items.find`). */
  function FindLine(items: seq<CartLine>, id: string): (r: Option<CartLine>)
    ensures r.None? <==> forall i :: 0 <= i < |items| ==> items[i].id != id
    ensures r.Some? ==> r.value.id == id && exists k :: FirstWithId(items, id, k) && items[k] == r.value
  {
    if items == [] then None
    else if items[0].id == id then Some(items[0])
    else
      var r := FindLine(items[1..], id);
      if r.Some? then
        var k :| FirstWithId(items[1..], id, k) && items[1..][k] == r.value;
        assert FirstWithId(items, id, k + 1);
        r
      else r
  }

  /** The value of one line: unit price times quantity. */
  function LineAmount(l: CartLine): real {
    l.price * l.quantity as real
  }

  /** `calculateSubtotal`: the `reduce` over the lines, left to right. */
  function Subtotal(items: seq<CartLine>): real
  {
    if items == [] then 0.0
    else Subtotal(items[..|items| - 1]) + LineAmount(items[|items| - 1])
  }

  /** `calculateTax`: exactly one tenth of the subtotal. */
  function Tax(items: seq<CartLine>): (t: real)
    ensures t * 10.0 == Subtotal(items)
  {
    Subtotal(items) / 10.0
  }

  /** `calculateTotal`: subtotal plus tax, that is 110% of the subtotal. */
  function Total(items: seq<CartLine>): (t: real)
    ensures t * 10.0 == Subtotal(items) * 11.0
  {
    Subtotal(items) + Tax(items)
  }

  /** The subtotal of two carts laid end to end is the sum of their subtotals. */
  lemma {:induction false} SubtotalAppend(a: seq<CartLine>, b: seq<CartLine>)
    ensures Subtotal(a + b) == Subtotal(a) + Subtotal(b)
    decreases |b|
  {
    if b == [] {
      assert a + b == a;
    } else {
      var n := |b| - 1;
      assert (a + b)[..|a + b| - 1] == a + b[..n];
      assert (a + b)[|a + b| - 1] == b[n];
      SubtotalAppend(a, b[..n]);
    }
  }

  /** The subtotal can also be taken from the front: first line plus the rest. */
  lemma {:induction false} SubtotalCons(l: CartLine, rest: seq<CartLine>)
    ensures Subtotal([l] + rest) == LineAmount(l) + Subtotal(rest)
  {
    SubtotalAppend([l], rest);
    assert [l][..0] == [];
  }

  /** With non-negative prices and quantities, the subtotal is non-negative. */
  lemma {:induction false} SubtotalNonNegative(items: seq<CartLine>)
    requires forall i :: 0 <= i < |items| ==> items[i].price >= 0.0 && items[i].quantity >= 0
    ensures Subtotal(items) >= 0.0
  {
    if items != [] {
      SubtotalNonNegative(items[..|items| - 1]);
    }
  }

  /** `handleQuantityChange(id, change)`: the quantity requested from the
      parent, `Math.max(1, item.quantity + change)`, or no request at all
      when no line has this id. */
  function RequestedQuantity(items: seq<CartLine>, id: string, change: int): (r: Option<int>)
    ensures r.None? <==> forall i :: 0 <= i < |items| ==> items[i].id != id
    ensures r.Some? ==> r.value >= 1 && r.value >= FindLine(items, id).value.quantity + change
    ensures r.Some? && FindLine(items, id).value.quantity + change >= 1 ==>
              r.value == FindLine(items, id).value.quantity + change
  {
    match FindLine(items, id)
    case None => None
    case Some(line) => Some(Max(1, line.quantity + change))
  }

  /** Pressing minus on a line whose quantity is 1 asks for quantity 1 again. */
  lemma MinusAtOneStaysOne(items: seq<CartLine>, id: string)
    requires FindLine(items, id).Some? && FindLine(items, id).value.quantity == 1
    ensures RequestedQuantity(items, id, -1) == Some(1)
  {
  }

  /** The "Proses Pembayaran" button is disabled exactly when the cart is empty. */
  predicate CheckoutDisabled(items: seq<CartLine>) {
    |items| == 0
  }

  /** An empty cart has subtotal, tax and total 0, and its checkout is disabled. */
  lemma EmptyCart()
    ensures Subtotal([]) == 0.0 && Tax([]) == 0.0 && Total([]) == 0.0
    ensures CheckoutDisabled([])
  {
  }
}
