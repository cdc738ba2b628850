/** The cashier screen (src/components/cashier/CashierModule.tsx): it owns the
    cart, the transaction shown on the receipt and which dialog is open, and
    updates them from the product grid, the cart panel and the dialogs. */
module CashierModule {
  import opened Common
  import opened ShoppingCart
  import opened ProductGrid

  /** The transaction that the receipt shows. */
  datatype TransactionData = TransactionData(
    receiptNumber: string, date: string, time: string,
    items: seq<CartLine>, subtotal: real, tax: real, total: real,
    paymentMethod: string, cashierName: string,
    storeName: string, storeAddress: string, storePhone: string)

  /** No two lines of the cart share an id. */
  predicate DistinctIds(cart: seq<CartLine>) {
    forall i, j :: 0 <= i < j < |cart| ==> cart[i].id != cart[j].id
  }

  /** `cart.map(item => item.id === id ? f(item) : item)`. */
  function MapLines(cart: seq<CartLine>, id: string, f: CartLine -> CartLine): (r: seq<CartLine>)
    ensures |r| == |cart|
    ensures forall i :: 0 <= i < |cart| && cart[i].id != id ==> r[i] == cart[i]
    ensures forall i :: 0 <= i < |cart| && cart[i].id == id ==> r[i] == f(cart[i])
  {
    seq(|cart|, i requires 0 <= i < |cart| => if cart[i].id == id then f(cart[i]) else cart[i])
  }

  /** The cart line made from a product picked for the first time. */
  function NewLine(p: Product): CartLine {
    CartLine(p.id, p.name, p.price, 1, p.image)
  }

  /** A line with one more unit. */
  function OneMore(l: CartLine): CartLine {
    l.(quantity := l.quantity + 1)
  }

  /** `handleAddToCart`: one more of a product already in the cart, or a new
      line with quantity 1 at the end. */
  function AddToCart(cart: seq<CartLine>, p: Product): (r: seq<CartLine>)
    ensures FindLine(cart, p.id).Some? ==> |r| == |cart|
    ensures FindLine(cart, p.id).None? ==> r == cart + [NewLine(p)]
  {
    if FindLine(cart, p.id).Some? then
      MapLines(cart, p.id, OneMore)
    else
      cart + [NewLine(p)]
  }

  /** `handleQuantityChange`: every line with this id gets the quantity. */
  function SetQuantity(cart: seq<CartLine>, id: string, quantity: int): (r: seq<CartLine>)
    ensures |r| == |cart|
  {
    MapLines(cart, id, (l: CartLine) => l.(quantity := quantity))
  }

  /** `handleRemoveItem`: the cart without the lines with this id. */
  function RemoveLines(cart: seq<CartLine>, id: string): (r: seq<CartLine>)
    ensures forall i :: 0 <= i < |r| ==> r[i].id != id
    ensures forall i :: 0 <= i < |cart| && cart[i].id != id ==> cart[i] in r
    ensures Subseq(r, cart)
  {
    Filter(cart, (l: CartLine) => l.id != id)
  }

  /** Adding a product already in the cart raises that line's quantity by one
      and leaves the other lines and the line's product data as they were. */
  lemma AddExisting(cart: seq<CartLine>, p: Product)
    requires FindLine(cart, p.id).Some?
    ensures var r := AddToCart(cart, p);
      |r| == |cart| &&
      forall i :: 0 <= i < |cart| ==>
        if cart[i].id == p.id then
          r[i].quantity == cart[i].quantity + 1 &&
          r[i].id == cart[i].id && r[i].name == cart[i].name &&
          r[i].price == cart[i].price && r[i].image == cart[i].image
        else r[i] == cart[i]
  {
  }

  /** Every cart operation keeps the ids distinct. */
  lemma AddKeepsDistinct(cart: seq<CartLine>, p: Product)
    requires DistinctIds(cart)
    ensures DistinctIds(AddToCart(cart, p))
  {
  }

  lemma SetQuantityKeepsDistinct(cart: seq<CartLine>, id: string, quantity: int)
    requires DistinctIds(cart)
    ensures DistinctIds(SetQuantity(cart, id, quantity))
  {
  }

  lemma {:induction false} SubseqKeepsDistinct(a: seq<CartLine>, b: seq<CartLine>)
    requires Subseq(a, b) && DistinctIds(b)
    ensures DistinctIds(a)
    decreases |b|
  {
    if a != [] {
      if a[0] == b[0] && Subseq(a[1..], b[1..]) {
        SubseqKeepsDistinct(a[1..], b[1..]);
        SubseqMembers(a[1..], b[1..]);
        forall j | 0 < j < |a| ensures a[0].id != a[j].id {
          assert a[1..][j - 1] in b[1..];
        }
      } else {
        SubseqKeepsDistinct(a, b[1..]);
      }
    }
  }

  /** Every element of a subsequence is an element of the sequence. */
  lemma {:induction false} SubseqMembers<T>(a: seq<T>, b: seq<T>)
    requires Subseq(a, b)
    ensures forall i :: 0 <= i < |a| ==> a[i] in b
    decreases |b|
  {
    if a != [] {
      if a[0] == b[0] && Subseq(a[1..], b[1..]) {
        SubseqMembers(a[1..], b[1..]);
        forall i | 0 < i < |a| ensures a[i] in b {
          assert a[1..][i - 1] in b[1..];
        }
      } else {
        SubseqMembers(a, b[1..]);
      }
    }
  }

  lemma RemoveKeepsDistinct(cart: seq<CartLine>, id: string)
    requires DistinctIds(cart)
    ensures DistinctIds(RemoveLines(cart, id))
  {
    SubseqKeepsDistinct(RemoveLines(cart, id), cart);
  }

  /** Changing one line of a cart changes the subtotal by the difference of
      the two line amounts. */
  lemma {:induction false} SubtotalChangeOne(a: seq<CartLine>, b: seq<CartLine>, k: int)
    requires |a| == |b| && 0 <= k < |a|
    requires forall i :: 0 <= i < |a| && i != k ==> a[i] == b[i]
    ensures Subtotal(b) == Subtotal(a) - LineAmount(a[k]) + LineAmount(b[k])
  {
    var n := |a| - 1;
    if k == n {
      assert a[..n] == b[..n];
    } else {
      SubtotalChangeOne(a[..n], b[..n], k);
    }
  }

  /** In a cart with distinct ids, adding a product raises the subtotal by
      exactly one unit price: the price already in the cart when the product
      is there, the product's price when it is new. */
  lemma {:induction false} AddRaisesSubtotal(cart: seq<CartLine>, p: Product)
    requires DistinctIds(cart)
    ensures FindLine(cart, p.id).Some? ==>
              Subtotal(AddToCart(cart, p)) == Subtotal(cart) + FindLine(cart, p.id).value.price
    ensures FindLine(cart, p.id).None? ==>
              Subtotal(AddToCart(cart, p)) == Subtotal(cart) + p.price
  {
    if FindLine(cart, p.id).Some? {
      var k :| FirstWithId(cart, p.id, k) && cart[k] == FindLine(cart, p.id).value;
      AddExistingAt(cart, p, k);
    } else {
      AddNewSubtotal(cart, p);
    }
  }

  lemma AddExistingAt(cart: seq<CartLine>, p: Product, k: int)
    requires DistinctIds(cart) && 0 <= k < |cart| && cart[k].id == p.id
    ensures Subtotal(AddToCart(cart, p)) == Subtotal(cart) + cart[k].price
  {
    assert FindLine(cart, p.id).Some?;
    MapOneLine(cart, p.id, OneMore, k);
    OneMoreUnit(cart[k]);
  }

  /** With distinct ids, mapping the line with an id changes the subtotal
      by that line's change of amount. */
  lemma MapOneLine(cart: seq<CartLine>, id: string, f: CartLine -> CartLine, k: int)
    requires DistinctIds(cart) && 0 <= k < |cart| && cart[k].id == id
    ensures Subtotal(MapLines(cart, id, f)) == Subtotal(cart) - LineAmount(cart[k]) + LineAmount(f(cart[k]))
  {
    var r := MapLines(cart, id, f);
    forall i | 0 <= i < |cart| && i != k ensures r[i] == cart[i] {
      if i < k {
        assert cart[i].id != cart[k].id;
      } else {
        assert cart[k].id != cart[i].id;
      }
    }
    SubtotalChangeOne(cart, r, k);
  }

  /** One more unit adds one price to a line's amount. */
  lemma OneMoreUnit(l: CartLine)
    ensures LineAmount(OneMore(l)) == LineAmount(l) + l.price
  {
    assert (l.quantity + 1) as real == l.quantity as real + 1.0;
  }

  lemma AddNewSubtotal(cart: seq<CartLine>, p: Product)
    requires FindLine(cart, p.id).None?
    ensures Subtotal(AddToCart(cart, p)) == Subtotal(cart) + p.price
  {
    var r := cart + [NewLine(p)];
    assert r[..|cart|] == cart;
  }

  /** Setting a quantity keeps every line's product data, gives the lines
      with this id the new quantity and leaves the other quantities. */
  lemma SetQuantityLines(cart: seq<CartLine>, id: string, quantity: int)
    ensures var r := SetQuantity(cart, id, quantity);
      forall i :: 0 <= i < |cart| ==>
        r[i].id == cart[i].id && r[i].name == cart[i].name && r[i].price == cart[i].price &&
        r[i].image == cart[i].image &&
        r[i].quantity == (if cart[i].id == id then quantity else cart[i].quantity)
  {
  }

  /** In a cart with distinct ids, setting a line's quantity replaces that
      line's amount in the subtotal by the amount of the same line with the
      new quantity (its price times the new quantity). */
  lemma {:induction false} SetQuantitySubtotal(cart: seq<CartLine>, id: string, quantity: int)
    requires DistinctIds(cart) && FindLine(cart, id).Some?
    ensures var l := FindLine(cart, id).value;
      Subtotal(SetQuantity(cart, id, quantity)) ==
        Subtotal(cart) - LineAmount(l) + LineAmount(l.(quantity := quantity))
  {
    var l := FindLine(cart, id).value;
    var k :| FirstWithId(cart, id, k) && cart[k] == l;
    SetQuantityAt(cart, id, quantity, k);
  }

  lemma {:induction false} SetQuantityAt(cart: seq<CartLine>, id: string, quantity: int, k: int)
    requires DistinctIds(cart) && 0 <= k < |cart| && cart[k].id == id
    ensures Subtotal(SetQuantity(cart, id, quantity)) ==
              Subtotal(cart) - LineAmount(cart[k]) + LineAmount(cart[k].(quantity := quantity))
  {
    var r := SetQuantity(cart, id, quantity);
    SetQuantityOnlyAt(cart, id, quantity, k);
    SubtotalChangeOne(cart, r, k);
  }

  /** With distinct ids, setting a quantity changes only the line with the id. */
  lemma {:induction false} SetQuantityOnlyAt(cart: seq<CartLine>, id: string, quantity: int, k: int)
    requires DistinctIds(cart) && 0 <= k < |cart| && cart[k].id == id
    ensures var r := SetQuantity(cart, id, quantity);
      r[k] == cart[k].(quantity := quantity) &&
      forall i :: 0 <= i < |cart| && i != k ==> r[i] == cart[i]
  {
    var r := SetQuantity(cart, id, quantity);
    forall i | 0 <= i < |cart| && i != k ensures r[i] == cart[i] {
      if i < k {
        assert cart[i].id != cart[k].id;
      } else {
        assert cart[k].id != cart[i].id;
      }
    }
  }

  /** Removing a product and picking it again gives a single fresh line with
      quantity 1, at the end of the cart. */
  lemma RemoveThenAdd(cart: seq<CartLine>, p: Product)
    ensures AddToCart(RemoveLines(cart, p.id), p) == RemoveLines(cart, p.id) + [NewLine(p)]
  {
    var r := RemoveLines(cart, p.id);
    assert FindLine(r, p.id).None?;
  }

  /** The cart the screen starts with. */
  function InitialCart(): seq<CartLine> {
    [CartLine("1", "Nasi Goreng", 25000.0, 2, None),
     CartLine("2", "Es Teh Manis", 5000.0, 3, None)]
  }

  /** The receipt the screen starts with; number, date and time come from
      the clock and the random generator and are parameters here. */
  function InitialTransaction(receiptNumber: string, date: string, time: string): TransactionData {
    TransactionData(receiptNumber, date, time, [], 0.0, 0.0, 0.0, "Tunai", "Budi Santoso",
      "Warung Makan Bahagia", "Jl. Pahlawan No. 123, Jakarta", "021-5551234")
  }

  /** The receipt's figures are those of its own lines. */
  predicate Consistent(t: TransactionData) {
    t.subtotal == Subtotal(t.items) && t.tax == Tax(t.items) && t.total == Total(t.items)
  }

  /** The starting cart comes to 65,000 plus 6,500 tax, 71,500 in total. */
  lemma InitialCartTotals()
    ensures Subtotal(InitialCart()) == 65000.0
    ensures Tax(InitialCart()) == 6500.0
    ensures Total(InitialCart()) == 71500.0
    ensures DistinctIds(InitialCart())
  {
    var c := InitialCart();
    assert c[..1] == [c[0]];
    assert c[..1][..0] == [];
  }

  class Cashier {
    var cartItems: seq<CartLine>
    var isCheckoutOpen: bool
    var isReceiptOpen: bool
    var transaction: TransactionData

    /** The cart has distinct ids and the receipt's figures match its lines. */
    predicate Valid()
      reads this
    {
      DistinctIds(cartItems) && Consistent(transaction)
    }

    constructor (receiptNumber: string, date: string, time: string)
      ensures Valid()
      ensures cartItems == InitialCart()
      ensures !isCheckoutOpen && !isReceiptOpen
      ensures transaction == InitialTransaction(receiptNumber, date, time)
    {
      cartItems := InitialCart();
      isCheckoutOpen := false;
      isReceiptOpen := false;
      transaction := InitialTransaction(receiptNumber, date, time);
      InitialCartTotals();
    }

    /** A product picked in the grid. */
    method HandleAddToCart(p: Product)
      requires Valid()
      modifies this
      ensures Valid()
      ensures cartItems == AddToCart(old(cartItems), p)
      ensures isCheckoutOpen == old(isCheckoutOpen) && isReceiptOpen == old(isReceiptOpen)
      ensures transaction == old(transaction)
    {
      AddKeepsDistinct(cartItems, p);
      var existing := FindLine(cartItems, p.id);
      if existing.Some? {
        cartItems := MapLines(cartItems, p.id, OneMore);
      } else {
        cartItems := cartItems + [NewLine(p)];
      }
    }

    /** A quantity requested by the cart panel. */
    method HandleQuantityChange(id: string, quantity: int)
      requires Valid()
      modifies this
      ensures Valid()
      ensures cartItems == SetQuantity(old(cartItems), id, quantity)
      ensures isCheckoutOpen == old(isCheckoutOpen) && isReceiptOpen == old(isReceiptOpen)
      ensures transaction == old(transaction)
    {
      SetQuantityKeepsDistinct(cartItems, id, quantity);
      cartItems := SetQuantity(cartItems, id, quantity);
    }

    /** A line removed in the cart panel. */
    method HandleRemoveItem(id: string)
      requires Valid()
      modifies this
      ensures Valid()
      ensures cartItems == RemoveLines(old(cartItems), id)
      ensures isCheckoutOpen == old(isCheckoutOpen) && isReceiptOpen == old(isReceiptOpen)
      ensures transaction == old(transaction)
    {
      RemoveKeepsDistinct(cartItems, id);
      cartItems := RemoveLines(cartItems, id);
    }

    /** "Proses Pembayaran": the receipt takes a copy of the cart with the
      same subtotal, tax and total the cart panel shows, and the payment
      dialog opens. */
    method HandleCheckout()
      requires Valid()
      modifies this
      ensures Valid()
      ensures isCheckoutOpen && isReceiptOpen == old(isReceiptOpen)
      ensures cartItems == old(cartItems)
      ensures transaction.items == cartItems
      ensures transaction.subtotal == Subtotal(cartItems)
      ensures transaction.tax == Tax(cartItems) && transaction.total == Total(cartItems)
      ensures transaction == old(transaction).(items := transaction.items, subtotal := transaction.subtotal,
                                                tax := transaction.tax, total := transaction.total)
    {
      var subtotal := Subtotal(cartItems);
      var tax := subtotal * 0.1;
      var total := subtotal + tax;
      transaction := transaction.(items := cartItems, subtotal := subtotal, tax := tax, total := total);
      isCheckoutOpen := true;
    }

    /** The payment dialog is dismissed. */
    method HandleCheckoutClose()
      requires Valid()
      modifies this
      ensures Valid()
      ensures !isCheckoutOpen
      ensures isReceiptOpen == old(isReceiptOpen)
      ensures cartItems == old(cartItems) && transaction == old(transaction)
    {
      isCheckoutOpen := false;
    }

    /** Payment succeeded: the payment dialog gives way to the receipt. */
    method HandlePaymentSuccess()
      requires Valid()
      modifies this
      ensures Valid()
      ensures !isCheckoutOpen && isReceiptOpen
      ensures cartItems == old(cartItems) && transaction == old(transaction)
    {
      isCheckoutOpen := false;
      isReceiptOpen := true;
    }

    /** The receipt is closed and the cart is emptied; the receipt keeps its
      copy of the sold lines. */
    method HandleReceiptClose()
      requires Valid()
      modifies this
      ensures Valid()
      ensures !isReceiptOpen && cartItems == []
      ensures CheckoutDisabled(cartItems)
      ensures isCheckoutOpen == old(isCheckoutOpen) && transaction == old(transaction)
    {
      isReceiptOpen := false;
      cartItems := [];
    }
  }
}
