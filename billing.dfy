/**
 * The client-side cart of static/js/billing.js: a module-level array of lines
 * `{id, name, price, quantity, stock}` changed in place by the buttons of the
 * billing page, its displayed total, and the checkout request it sends.
 *
 * Each handler is specified by a function of the old cart (`AddLine`,
 * `IncrementAt`, `DecrementAt`, `RemoveAt`); the lemmas state what these
 * transitions promise, and the class `Cart` carries them out in place.
 */
module Billing {
  import opened Schema
  import opened App

  datatype CartLine = CartLine(id: int, name: string, price: int, quantity: int, stock: int)

  // ---------------------------------------------------------------------------
  // The cart invariant
  // ---------------------------------------------------------------------------

  /** No two lines carry the same product id. */
  predicate UniqueIds(lines: seq<CartLine>)
  {
    forall i, j :: 0 <= i < j < |lines| ==> lines[i].id != lines[j].id
  }

  /** Every line holds at least one unit. */
  predicate QuantitiesPositive(lines: seq<CartLine>)
  {
    forall i :: 0 <= i < |lines| ==> lines[i].quantity >= 1
  }

  predicate WellFormed(lines: seq<CartLine>)
  {
    UniqueIds(lines) && QuantitiesPositive(lines)
  }

  // ---------------------------------------------------------------------------
  // The transitions
  // ---------------------------------------------------------------------------

  /** The index of the first line carrying the product id, as addToCart looks it up. */
  function FindLine(lines: seq<CartLine>, id: int): Option<nat>
  {
    FirstMatch(lines, (l: CartLine) => l.id == id)
  }

  /** The line `addToCart` pushes for a product not yet in the cart. */
  function NewLine(p: ScannedProduct): CartLine
  {
    CartLine(p.id, p.name, p.price, 1, p.stock)
  }

  function Bumped(l: CartLine, delta: int): CartLine
  {
    l.(quantity := l.quantity + delta)
  }

  /**
   * addToCart: a product already in the cart gets one more unit if its line
   * holds fewer units than the stock just scanned; a new product is pushed.
   */
  function AddLine(lines: seq<CartLine>, p: ScannedProduct): seq<CartLine>
  {
    match FindLine(lines, p.id)
    case None => lines + [NewLine(p)]
    case Some(i) => if lines[i].quantity < p.stock then lines[i := Bumped(lines[i], 1)] else lines
  }

  /** increaseQuantity: one more unit, only below the stock stored in the line. */
  function IncrementAt(lines: seq<CartLine>, index: nat): seq<CartLine>
    requires index < |lines|
  {
    if lines[index].quantity < lines[index].stock then lines[index := Bumped(lines[index], 1)] else lines
  }

  /** decreaseQuantity: one unit less, only above one unit. */
  function DecrementAt(lines: seq<CartLine>, index: nat): seq<CartLine>
    requires index < |lines|
  {
    if lines[index].quantity > 1 then lines[index := Bumped(lines[index], -1)] else lines
  }

  /** removeItem: the line at the index is cut out; an index past the end changes nothing. */
  function RemoveAt(lines: seq<CartLine>, index: nat): seq<CartLine>
  {
    if index < |lines| then lines[..index] + lines[index + 1..] else lines
  }

  // ---------------------------------------------------------------------------
  // What the transitions promise
  // ---------------------------------------------------------------------------

  /** A product not in the cart is appended with one unit and the scanned price and stock. */
  lemma AddNewProduct(lines: seq<CartLine>, p: ScannedProduct)
    requires forall k :: 0 <= k < |lines| ==> lines[k].id != p.id
    ensures AddLine(lines, p) == lines + [CartLine(p.id, p.name, p.price, 1, p.stock)]
  {
  }

  /**
   * A product already in the cart: its line gains exactly one unit when it
   * holds fewer units than the scanned stock, and otherwise the cart is
   * unchanged; no other line is touched either way.
   */
  lemma AddExistingProduct(lines: seq<CartLine>, p: ScannedProduct, i: nat)
    requires UniqueIds(lines) && i < |lines| && lines[i].id == p.id
    ensures AddLine(lines, p)
            == if lines[i].quantity < p.stock then lines[i := lines[i].(quantity := lines[i].quantity + 1)]
               else lines
  {
    assert forall k :: 0 <= k < |lines| && k != i ==> lines[k].id != p.id;
    assert FindLine(lines, p.id) == Some(i);
  }

  /** addToCart keeps ids unique and quantities at least one. */
  lemma AddKeepsWellFormed(lines: seq<CartLine>, p: ScannedProduct)
    requires WellFormed(lines)
    ensures WellFormed(AddLine(lines, p))
  {
    match FindLine(lines, p.id)
    case None =>
      var r := lines + [NewLine(p)];
      forall i, j | 0 <= i < j < |r| ensures r[i].id != r[j].id {
        assert r[i] == lines[i];
        if j < |lines| {
          assert r[j] == lines[j];
        }
      }
    case Some(i) =>
  }

  /** A line's quantity rises only by one, and only while below the relevant stock. */
  lemma QuantityRisesOnlyBelowStock(lines: seq<CartLine>, p: ScannedProduct, index: nat, k: nat)
    requires index < |lines| && k < |lines|
    ensures |AddLine(lines, p)| >= |lines| && |IncrementAt(lines, index)| == |lines|
    ensures AddLine(lines, p)[k].quantity > lines[k].quantity ==>
      lines[k].id == p.id && lines[k].quantity < p.stock
      && AddLine(lines, p)[k] == lines[k].(quantity := lines[k].quantity + 1)
    ensures AddLine(lines, p)[k].quantity <= lines[k].quantity ==> AddLine(lines, p)[k] == lines[k]
    ensures IncrementAt(lines, index)[k].quantity > lines[k].quantity ==>
      k == index && lines[k].quantity < lines[k].stock
      && IncrementAt(lines, index)[k] == lines[k].(quantity := lines[k].quantity + 1)
    ensures IncrementAt(lines, index)[k].quantity <= lines[k].quantity ==> IncrementAt(lines, index)[k] == lines[k]
  {
  }

  /** The + button keeps ids unique and quantities at least one. */
  lemma IncrementKeepsWellFormed(lines: seq<CartLine>, index: nat)
    requires WellFormed(lines) && index < |lines|
    ensures WellFormed(IncrementAt(lines, index))
  {
  }

  /** The - button keeps ids unique and quantities at least one. */
  lemma DecrementKeepsWellFormed(lines: seq<CartLine>, index: nat)
    requires WellFormed(lines) && index < |lines|
    ensures WellFormed(DecrementAt(lines, index))
  {
  }

  /** The remove button keeps ids unique and quantities at least one. */
  lemma RemoveKeepsWellFormed(lines: seq<CartLine>, index: nat)
    requires WellFormed(lines)
    ensures WellFormed(RemoveAt(lines, index))
  {
    var r := RemoveAt(lines, index);
    if index < |lines| {
      assert forall k :: 0 <= k < |r| ==> r[k] == if k < index then lines[k] else lines[k + 1];
    }
  }

  /** removeItem deletes exactly the line at the index and keeps the others in order. */
  lemma RemoveDeletesOne(lines: seq<CartLine>, index: nat)
    requires index < |lines|
    ensures |RemoveAt(lines, index)| == |lines| - 1
    ensures forall k :: 0 <= k < index ==> RemoveAt(lines, index)[k] == lines[k]
    ensures forall k :: index <= k < |lines| - 1 ==> RemoveAt(lines, index)[k] == lines[k + 1]
  {
  }

  // ---------------------------------------------------------------------------
  // The displayed total
  // ---------------------------------------------------------------------------

  function Subtotal(l: CartLine): int
  {
    l.price * l.quantity
  }

  /** The sum of `price * quantity` over the lines, accumulated front to back. */
  function Total(lines: seq<CartLine>): int
    decreases |lines|
  {
    if |lines| == 0 then 0 else Total(lines[..|lines| - 1]) + Subtotal(lines[|lines| - 1])
  }

  lemma {:induction false} TotalAppend(a: seq<CartLine>, b: seq<CartLine>)
    ensures Total(a + b) == Total(a) + Total(b)
    decreases |b|
  {
    if |b| == 0 {
      assert a + b == a;
    } else {
      TotalAppend(a, b[..|b| - 1]);
      assert (a + b)[..|a + b| - 1] == a + b[..|b| - 1];
      assert (a + b)[|a + b| - 1] == b[|b| - 1];
    }
  }

  /** Replacing one line changes the total by the difference of the two subtotals. */
  lemma TotalReplace(lines: seq<CartLine>, i: nat, l: CartLine)
    requires i < |lines|
    ensures Total(lines[i := l]) == Total(lines) - Subtotal(lines[i]) + Subtotal(l)
  {
    var pre, post := lines[..i], lines[i + 1..];
    assert lines == pre + [lines[i]] + post;
    assert lines[i := l] == pre + [l] + post;
    TotalAppend(pre + [lines[i]], post);
    TotalAppend(pre + [l], post);
    TotalAppend(pre, [lines[i]]);
    TotalAppend(pre, [l]);
  }

  /** Removing a line lowers the total by its subtotal. */
  lemma TotalAfterRemove(lines: seq<CartLine>, i: nat)
    requires i < |lines|
    ensures Total(RemoveAt(lines, i)) == Total(lines) - Subtotal(lines[i])
  {
    var pre, x, post := lines[..i], [lines[i]], lines[i + 1..];
    assert lines == (pre + x) + post;
    assert RemoveAt(lines, i) == pre + post;
    assert x[..0] == [];
    assert Total(x) == Subtotal(lines[i]);
    TotalAppend(pre + x, post);
    TotalAppend(pre, x);
    TotalAppend(pre, post);
  }

  /**
   * Adding a product raises the total by one unit at the price the cart
   * already holds for it (a new line: at the scanned price), or not at all.
   */
  lemma TotalAfterAdd(lines: seq<CartLine>, p: ScannedProduct)
    ensures Total(AddLine(lines, p))
            == Total(lines) + match FindLine(lines, p.id)
                              case None => p.price
                              case Some(i) => if lines[i].quantity < p.stock then lines[i].price else 0
  {
    match FindLine(lines, p.id)
    case None =>
      TotalAppend(lines, [NewLine(p)]);
      assert [NewLine(p)][..0] == [];
    case Some(i) =>
      if lines[i].quantity < p.stock {
        TotalReplace(lines, i, Bumped(lines[i], 1));
        BumpedSubtotal(lines[i], 1);
      }
  }

  /** One unit more or less changes a subtotal by one unit price. */
  lemma BumpedSubtotal(l: CartLine, delta: int)
    ensures Subtotal(Bumped(l, delta)) == Subtotal(l) + delta * l.price
  {
    assert l.price * (l.quantity + delta) == l.price * l.quantity + l.price * delta;
  }

  /** The + and - buttons move the total by one unit price when they act. */
  lemma TotalAfterButtons(lines: seq<CartLine>, index: nat)
    requires index < |lines|
    ensures Total(IncrementAt(lines, index))
            == Total(lines) + if lines[index].quantity < lines[index].stock then lines[index].price else 0
    ensures Total(DecrementAt(lines, index))
            == Total(lines) - if lines[index].quantity > 1 then lines[index].price else 0
  {
    if lines[index].quantity < lines[index].stock {
      TotalReplace(lines, index, Bumped(lines[index], 1));
      BumpedSubtotal(lines[index], 1);
    }
    if lines[index].quantity > 1 {
      TotalReplace(lines, index, Bumped(lines[index], -1));
      BumpedSubtotal(lines[index], -1);
    }
  }

  // ---------------------------------------------------------------------------
  // The checkout request and what the server makes of it
  // ---------------------------------------------------------------------------

  /** The fields of the cart lines that the server reads: `id`, `quantity`, `price`. */
  function Items(lines: seq<CartLine>): seq<LineItem>
  {
    seq(|lines|, k requires 0 <= k < |lines| => LineItem(lines[k].id, lines[k].quantity, lines[k].price))
  }

  /** The body completeBilling posts; `total` is the last rendered total. */
  function BillingRequest(lines: seq<CartLine>, customerName: string, paymentMethod: string): CheckoutRequest
  {
    CheckoutRequest(Items(lines), Total(lines), paymentMethod, customerName)
  }

  /** The sum of `price * quantity` over item rows. */
  function RowsTotal(rows: seq<TransactionItem>): int
    decreases |rows|
  {
    if |rows| == 0 then 0 else RowsTotal(rows[..|rows| - 1]) + rows[|rows| - 1].price * rows[|rows| - 1].quantity
  }

  /**
   * A checkout of the cart writes item rows that copy its lines in order, and
   * the total it sends equals the sum over those rows.
   */
  lemma {:induction false} CheckoutRecordsCart(transactionId: int, firstId: int, lines: seq<CartLine>)
    ensures |ItemRows(transactionId, firstId, Items(lines))| == |lines|
    ensures forall k :: 0 <= k < |lines| ==>
      var row := ItemRows(transactionId, firstId, Items(lines))[k];
      row.productId == lines[k].id && row.quantity == lines[k].quantity && row.price == lines[k].price
    ensures RowsTotal(ItemRows(transactionId, firstId, Items(lines))) == Total(lines)
    decreases |lines|
  {
    ItemRowsCopyCart(transactionId, firstId, Items(lines));
    if |lines| > 0 {
      var init := lines[..|lines| - 1];
      CheckoutRecordsCart(transactionId, firstId, init);
      assert Items(lines)[..|lines| - 1] == Items(init);
    }
  }

  /** With unique ids, the checkout lowers each product's stock by exactly its line's quantity. */
  lemma {:induction false} CheckoutStockOfCart(lines: seq<CartLine>, k: nat)
    requires UniqueIds(lines) && k < |lines|
    ensures QuantityFor(Items(lines), lines[k].id) == lines[k].quantity
    decreases |lines|
  {
    var n := |lines| - 1;
    var init := lines[..n];
    assert Items(lines)[..n] == Items(init);
    if k < n {
      CheckoutStockOfCart(init, k);
    } else {
      AbsentIdCountsZero(init, lines[k].id);
    }
  }

  lemma {:induction false} AbsentIdCountsZero(lines: seq<CartLine>, id: int)
    requires forall j :: 0 <= j < |lines| ==> lines[j].id != id
    ensures QuantityFor(Items(lines), id) == 0
    decreases |lines|
  {
    if |lines| > 0 {
      var init := lines[..|lines| - 1];
      assert Items(lines)[..|lines| - 1] == Items(init);
      AbsentIdCountsZero(init, id);
    }
  }

  // ---------------------------------------------------------------------------
  // The cart itself
  // ---------------------------------------------------------------------------

  class Cart {
    var lines: seq<CartLine>

    ghost predicate Valid()
      reads this
    {
      WellFormed(lines)
    }

    /** The cart starts empty when the page loads. */
    constructor ()
      ensures Valid() && lines == []
    {
      lines := [];
    }

    /** addToCart; `added` is false when the "Not enough stock" notification is shown. */
    method AddToCart(product: ScannedProduct) returns (added: bool)
      requires Valid()
      modifies this
      ensures Valid()
      ensures lines == AddLine(old(lines), product)
      ensures added <==> lines != old(lines)
    {
      AddKeepsWellFormed(lines, product);
      var existing := FindLine(lines, product.id);
      match existing
      case Some(i) =>
        if lines[i].quantity < product.stock {
          lines := lines[i := lines[i].(quantity := lines[i].quantity + 1)];
          added := true;
        } else {
          added := false;
        }
      case None =>
        lines := lines + [CartLine(product.id, product.name, product.price, 1, product.stock)];
        added := true;
    }

    /** increaseQuantity; the buttons only pass indices of the rendered cart. */
    method IncreaseQuantity(index: nat) returns (increased: bool)
      requires Valid() && index < |lines|
      modifies this
      ensures Valid()
      ensures lines == IncrementAt(old(lines), index)
      ensures increased <==> old(lines)[index].quantity < old(lines)[index].stock
    {
      IncrementKeepsWellFormed(lines, index);
      increased := lines[index].quantity < lines[index].stock;
      if increased {
        lines := lines[index := lines[index].(quantity := lines[index].quantity + 1)];
      }
    }

    /** decreaseQuantity */
    method DecreaseQuantity(index: nat)
      requires Valid() && index < |lines|
      modifies this
      ensures Valid()
      ensures lines == DecrementAt(old(lines), index)
    {
      DecrementKeepsWellFormed(lines, index);
      if lines[index].quantity > 1 {
        lines := lines[index := lines[index].(quantity := lines[index].quantity - 1)];
      }
    }

    /** removeItem */
    method RemoveItem(index: nat)
      requires Valid()
      modifies this
      ensures Valid()
      ensures lines == RemoveAt(old(lines), index)
    {
      RemoveKeepsWellFormed(lines, index);
      if index < |lines| {
        lines := lines[..index] + lines[index + 1..];
      }
    }

    /** clearCart; `confirmed` is the answer to the confirmation dialog. */
    method ClearCart(confirmed: bool)
      requires Valid()
      modifies this
      ensures Valid()
      ensures lines == if confirmed then [] else old(lines)
    {
      if confirmed {
        lines := [];
      }
    }

    /** The total that updateCart accumulates over the lines and displays. */
    method UpdateCart() returns (total: int)
      ensures total == Total(lines)
    {
      total := 0;
      for i := 0 to |lines|
        invariant total == Total(lines[..i])
      {
        assert lines[..i + 1][..i] == lines[..i];
        total := total + lines[i].price * lines[i].quantity;
      }
      assert lines[..|lines|] == lines;
    }

    /**
     * completeBilling: an empty cart sends nothing; otherwise the cart is
     * posted, and emptied only when the reply reports success (`succeeded`
     * stands for the server's answer; a failed request counts as no success).
     */
    method CompleteBilling(customerName: string, paymentMethod: string, succeeded: bool)
      returns (sent: Option<CheckoutRequest>)
      requires Valid()
      modifies this
      ensures Valid()
      ensures old(lines) == [] ==> sent == None && lines == old(lines)
      ensures old(lines) != [] ==>
        sent == Some(BillingRequest(old(lines), customerName, paymentMethod))
        && lines == if succeeded then [] else old(lines)
    {
      if |lines| == 0 {
        sent := None;
        return;
      }
      sent := Some(CheckoutRequest(Items(lines), Total(lines), paymentMethod, customerName));
      if succeeded {
        lines := [];
      }
    }
  }
}
