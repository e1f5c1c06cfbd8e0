/**
 * The top-products roll-up of the reports page: per product, the sum of the
 * quantities of its item rows that belong to the mall's transactions, highest
 * first, at most ten of them.
 *
 * Groups come in product-table order (the order of product ids under the
 * AUTOINCREMENT discipline); the sort is stable, so ties keep that order.
 * The join is stated for tables whose primary keys are unique, which the
 * store maintains.
 */
module Reports {
  import opened Schema
  import opened App

  datatype ProductSales = ProductSales(productId: int, name: string, sold: int)

  const TopProductsLimit := 10

  /** The transaction `transactionId` exists and belongs to mall `mallId`. */
  predicate InMall(txns: seq<Transaction>, transactionId: int, mallId: int)
  {
    exists j :: 0 <= j < |txns| && txns[j].id == transactionId && txns[j].mallId == mallId
  }

  /** The item row joins a transaction of the mall and names the product. */
  predicate Counts(txns: seq<Transaction>, mallId: int, productId: int, ti: TransactionItem)
  {
    ti.productId == productId && InMall(txns, ti.transactionId, mallId)
  }

  /** SUM(ti.quantity) over the item rows of the product joined to the mall's transactions. */
  function Sold(items: seq<TransactionItem>, txns: seq<Transaction>, mallId: int, productId: int): int
    decreases |items|
  {
    if |items| == 0 then 0
    else
      var last := items[|items| - 1];
      Sold(items[..|items| - 1], txns, mallId, productId) + (if Counts(txns, mallId, productId, last) then last.quantity else 0)
  }

  /** The inner join yields at least one row for the product. */
  predicate HasSale(items: seq<TransactionItem>, txns: seq<Transaction>, mallId: int, productId: int)
  {
    exists k :: 0 <= k < |items| && Counts(txns, mallId, productId, items[k])
  }

  /** GROUP BY p.id: one group per product row that has a joined item, in table order. */
  function Groups(products: seq<Product>, items: seq<TransactionItem>, txns: seq<Transaction>,
                  mallId: int): seq<ProductSales>
    decreases |products|
  {
    if |products| == 0 then []
    else
      var p := products[|products| - 1];
      Groups(products[..|products| - 1], items, txns, mallId)
        + (if HasSale(items, txns, mallId, p.id) then [ProductSales(p.id, p.name, Sold(items, txns, mallId, p.id))] else [])
  }

  /** Each group is a product with a sale, named and summed as the query says, and every such product has a group. */
  lemma {:induction false} GroupsExact(products: seq<Product>, items: seq<TransactionItem>,
                                       txns: seq<Transaction>, mallId: int)
    ensures forall g :: g in Groups(products, items, txns, mallId) ==>
      g.sold == Sold(items, txns, mallId, g.productId) && HasSale(items, txns, mallId, g.productId)
      && exists k :: 0 <= k < |products| && products[k].id == g.productId && products[k].name == g.name
    ensures forall k :: 0 <= k < |products| && HasSale(items, txns, mallId, products[k].id) ==>
      ProductSales(products[k].id, products[k].name, Sold(items, txns, mallId, products[k].id))
        in Groups(products, items, txns, mallId)
    decreases |products|
  {
    if |products| > 0 {
      var init := products[..|products| - 1];
      GroupsExact(init, items, txns, mallId);
      forall k | 0 <= k < |init| ensures products[k] == init[k] { }
    }
  }

  /** ORDER BY sold DESC */
  predicate SortedBySold(rows: seq<ProductSales>)
  {
    forall i, j :: 0 <= i < j < |rows| ==> rows[i].sold >= rows[j].sold
  }

  /** Places `r` before the first row selling no more than it. */
  function InsertBySold(r: ProductSales, rows: seq<ProductSales>): seq<ProductSales>
    decreases |rows|
  {
    if |rows| == 0 then [r]
    else if r.sold >= rows[0].sold then [r] + rows
    else [rows[0]] + InsertBySold(r, rows[1..])
  }

  /** Stable insertion sort, descending by units sold. */
  function SortBySold(rows: seq<ProductSales>): seq<ProductSales>
    decreases |rows|
  {
    if |rows| == 0 then [] else InsertBySold(rows[0], SortBySold(rows[1..]))
  }

  /** Insertion adds `r` to the rows and nothing else. */
  lemma {:induction false} InsertBySoldPermutes(r: ProductSales, rows: seq<ProductSales>)
    ensures multiset(InsertBySold(r, rows)) == multiset(rows) + multiset{r}
    ensures |InsertBySold(r, rows)| == |rows| + 1
    decreases |rows|
  {
    if |rows| > 0 && r.sold < rows[0].sold {
      InsertBySoldPermutes(r, rows[1..]);
      assert rows == [rows[0]] + rows[1..];
    }
  }

  /** Insertion into a sorted list keeps it sorted. */
  lemma {:induction false} InsertBySoldSorted(r: ProductSales, rows: seq<ProductSales>)
    requires SortedBySold(rows)
    ensures SortedBySold(InsertBySold(r, rows))
    decreases |rows|
  {
    if |rows| > 0 && r.sold < rows[0].sold {
      var tail := rows[1..];
      InsertBySoldSorted(r, tail);
      var ins := InsertBySold(r, tail);
      // The head of `ins` is `r` or the head of `tail`; both sell no more than rows[0].
      assert ins[0].sold <= rows[0].sold;
      var res := [rows[0]] + ins;
      assert InsertBySold(r, rows) == res;
      forall i, j | 0 <= i < j < |res| ensures res[i].sold >= res[j].sold {
        assert res[j] == ins[j - 1];
        if 0 < i {
          assert res[i] == ins[i - 1];
        }
      }
    }
  }

  /** The sort orders by units sold descending. */
  lemma {:induction false} SortBySoldSorted(rows: seq<ProductSales>)
    ensures SortedBySold(SortBySold(rows))
    decreases |rows|
  {
    if |rows| > 0 {
      SortBySoldSorted(rows[1..]);
      InsertBySoldSorted(rows[0], SortBySold(rows[1..]));
    }
  }

  /** The sort keeps exactly the groups. */
  lemma {:induction false} SortBySoldPermutes(rows: seq<ProductSales>)
    ensures multiset(SortBySold(rows)) == multiset(rows)
    ensures |SortBySold(rows)| == |rows|
    decreases |rows|
  {
    if |rows| > 0 {
      var tail := rows[1..];
      SortBySoldPermutes(tail);
      InsertBySoldPermutes(rows[0], SortBySold(tail));
      assert rows == [rows[0]] + tail;
      assert multiset(rows) == multiset{rows[0]} + multiset(tail);
    }
  }

  /** Cutting a list after `n` rows splits its multiset into what is kept and what is dropped. */
  lemma PrefixSplit(rows: seq<ProductSales>, n: nat)
    requires n <= |rows|
    ensures multiset(rows[..n]) <= multiset(rows)
    ensures multiset(rows) - multiset(rows[..n]) == multiset(rows[n..])
  {
    assert rows == rows[..n] + rows[n..];
  }

  /** A prefix of a list ordered by units sold outsells everything after it. */
  lemma PrefixOutsells(rows: seq<ProductSales>, n: nat)
    requires SortedBySold(rows) && n <= |rows|
    ensures forall g, h :: g in rows[..n] && h in rows[n..] ==> g.sold >= h.sold
  {
    forall g, h | g in rows[..n] && h in rows[n..] ensures g.sold >= h.sold {
      var i :| 0 <= i < n && rows[..n][i] == g;
      var j :| 0 <= j < |rows| - n && rows[n..][j] == h;
      assert rows[i] == g && rows[n + j] == h;
    }
  }

  function Min(a: int, b: int): int
  {
    if a < b then a else b
  }

  /** ORDER BY units sold descending, then at most ten rows. */
  function TopRows(groups: seq<ProductSales>): seq<ProductSales>
  {
    SortBySoldPermutes(groups);
    SortBySold(groups)[..Min(|groups|, TopProductsLimit)]
  }

  /** What cutting an ordered permutation of the groups after `n` rows keeps and drops. */
  lemma CutOfOrdered(groups: seq<ProductSales>, sorted: seq<ProductSales>, n: nat)
    requires SortedBySold(sorted) && multiset(sorted) == multiset(groups) && n <= |sorted|
    ensures SortedBySold(sorted[..n])
    ensures multiset(sorted[..n]) <= multiset(groups)
    ensures forall g :: g in sorted[..n] ==> g in groups
    ensures forall g, h :: (g in sorted[..n] && h in multiset(groups) - multiset(sorted[..n]))
                           ==> g.sold >= h.sold
  {
    var top := sorted[..n];
    PrefixSplit(sorted, n);
    PrefixOutsells(sorted, n);
    forall g | g in top ensures g in groups {
      assert g in multiset(top);
    }
    forall g, h | g in top && h in multiset(groups) - multiset(top) ensures g.sold >= h.sold {
      assert h in multiset(sorted[n..]);
    }
  }

  /**
   * The kept rows are min(groups, 10) of the groups, with multiplicity,
   * ordered by units sold descending, and none of the groups left out sells
   * more than any group kept; with at most ten groups, all are kept.
   */
  lemma TopRowsCorrect(groups: seq<ProductSales>)
    ensures |TopRows(groups)| == Min(|groups|, TopProductsLimit)
    ensures SortedBySold(TopRows(groups))
    ensures multiset(TopRows(groups)) <= multiset(groups)
    ensures forall g :: g in TopRows(groups) ==> g in groups
    ensures forall g, h :: (g in TopRows(groups) && h in multiset(groups) - multiset(TopRows(groups)))
                           ==> g.sold >= h.sold
    ensures |groups| <= TopProductsLimit ==> multiset(TopRows(groups)) == multiset(groups)
  {
    SortBySoldSorted(groups);
    SortBySoldPermutes(groups);
    var sorted := SortBySold(groups);
    var n := Min(|groups|, TopProductsLimit);
    CutOfOrdered(groups, sorted, n);
    if |groups| <= TopProductsLimit {
      assert sorted[..n] == sorted;
    }
  }

  /**
   * The top-products report of the session's mall: absent without a mall in
   * the session; otherwise the report of the mall's groups.
   */
  function TopProducts(s: Session, products: seq<Product>, items: seq<TransactionItem>,
                       txns: seq<Transaction>): (r: Option<seq<ProductSales>>)
    ensures r.None? <==> s.mallId.None?
    ensures r.Some? ==> |r.value| <= TopProductsLimit && SortedBySold(r.value)
    ensures r.Some? ==> |r.value| == Min(|Groups(products, items, txns, s.mallId.value)|, TopProductsLimit)
    ensures r.Some? ==> forall g :: g in r.value ==> g in Groups(products, items, txns, s.mallId.value)
    ensures r.Some? ==> multiset(r.value) <= multiset(Groups(products, items, txns, s.mallId.value))
    ensures r.Some? ==>
      forall g, h :: (g in r.value && h in multiset(Groups(products, items, txns, s.mallId.value)) - multiset(r.value))
                     ==> g.sold >= h.sold
    ensures r.Some? && |Groups(products, items, txns, s.mallId.value)| <= TopProductsLimit ==>
      multiset(r.value) == multiset(Groups(products, items, txns, s.mallId.value))
  {
    match s.mallId
    case None => None
    case Some(m) =>
      TopRowsCorrect(Groups(products, items, txns, m));
      Some(TopRows(Groups(products, items, txns, m)))
  }

  // ---------------------------------------------------------------------------
  // How a checkout moves the report
  // ---------------------------------------------------------------------------

  lemma {:induction false} SoldAppend(a: seq<TransactionItem>, b: seq<TransactionItem>,
                                      txns: seq<Transaction>, mallId: int, productId: int)
    ensures Sold(a + b, txns, mallId, productId) == Sold(a, txns, mallId, productId) + Sold(b, txns, mallId, productId)
    decreases |b|
  {
    if |b| > 0 {
      SoldAppend(a, b[..|b| - 1], txns, mallId, productId);
      assert (a + b)[..|a + b| - 1] == a + b[..|b| - 1];
      assert (a + b)[|a + b| - 1] == b[|b| - 1];
    } else {
      assert a + b == a;
    }
  }

  /** A new transaction row whose id no item names does not change what the old items count for. */
  lemma {:induction false} SoldIgnoresNewTransaction(items: seq<TransactionItem>, txns: seq<Transaction>,
                                                     t: Transaction, mallId: int, productId: int)
    requires forall k :: 0 <= k < |items| ==> items[k].transactionId != t.id
    ensures Sold(items, txns + [t], mallId, productId) == Sold(items, txns, mallId, productId)
    decreases |items|
  {
    if |items| > 0 {
      var init := items[..|items| - 1];
      SoldIgnoresNewTransaction(init, txns, t, mallId, productId);
      var last := items[|items| - 1];
      var ts := txns + [t];
      assert InMall(ts, last.transactionId, mallId) == InMall(txns, last.transactionId, mallId) by {
        if InMall(ts, last.transactionId, mallId) {
          var j :| 0 <= j < |ts| && ts[j].id == last.transactionId && ts[j].mallId == mallId;
          assert j < |txns| && ts[j] == txns[j];
        }
        if InMall(txns, last.transactionId, mallId) {
          var j :| 0 <= j < |txns| && txns[j].id == last.transactionId && txns[j].mallId == mallId;
          assert ts[j] == txns[j];
        }
      }
    }
  }

  /** The rows written for a transaction of the mall count each line's quantity towards its product. */
  lemma {:induction false} SoldOfNewRows(txns: seq<Transaction>, t: Transaction, firstId: int,
                                         lines: seq<LineItem>, productId: int)
    ensures Sold(ItemRows(t.id, firstId, lines), txns + [t], t.mallId, productId) == QuantityFor(lines, productId)
    decreases |lines|
  {
    if |lines| > 0 {
      var init := lines[..|lines| - 1];
      SoldOfNewRows(txns, t, firstId, init, productId);
      var rows := ItemRows(t.id, firstId, lines);
      ItemRowsCopyCart(t.id, firstId, init);
      assert rows[..|rows| - 1] == ItemRows(t.id, firstId, init);
      var ts := txns + [t];
      assert ts[|txns|] == t;
      assert InMall(ts, t.id, t.mallId);
    }
  }

  /**
   * After a checkout in mall `m`, every product's units sold in `m` grow by
   * exactly the quantities the cart named it with.
   */
  lemma CheckoutAddsToSales(items: seq<TransactionItem>, txns: seq<Transaction>, t: Transaction,
                            firstId: int, lines: seq<LineItem>, productId: int)
    requires ItemsReferenceTransactions(items, txns)
    requires forall j :: 0 <= j < |txns| ==> txns[j].id != t.id
    ensures Sold(items + ItemRows(t.id, firstId, lines), txns + [t], t.mallId, productId)
            == Sold(items, txns, t.mallId, productId) + QuantityFor(lines, productId)
  {
    forall k | 0 <= k < |items| ensures items[k].transactionId != t.id {
      assert TransactionExists(txns, items[k].transactionId);
    }
    SoldAppend(items, ItemRows(t.id, firstId, lines), txns + [t], t.mallId, productId);
    SoldIgnoresNewTransaction(items, txns, t, t.mallId, productId);
    SoldOfNewRows(txns, t, firstId, lines, productId);
  }

  /** Two sales of 3 and 5 units of one product report it with 8 sold. */
  lemma TwoSalesReported()
    ensures TopProducts(Session(Some(1), Some("M1"), None, Some("admin")),
                        [Product(1, 1, "123", "Widget", 999, 2, "")],
                        [TransactionItem(1, 1, 1, 3, 999), TransactionItem(2, 2, 1, 5, 999)],
                        [Transaction(1, 1, None, 2997, "cash", ""), Transaction(2, 1, None, 4995, "cash", "")])
            == Some([ProductSales(1, "Widget", 8)])
  {
    var txns := [Transaction(1, 1, None, 2997, "cash", ""), Transaction(2, 1, None, 4995, "cash", "")];
    var items := [TransactionItem(1, 1, 1, 3, 999), TransactionItem(2, 2, 1, 5, 999)];
    assert txns[0].id == 1 && txns[0].mallId == 1 && txns[1].id == 2 && txns[1].mallId == 1;
    assert InMall(txns, 1, 1) && InMall(txns, 2, 1);
    assert Counts(txns, 1, 1, items[0]);
    assert items[..1] == [items[0]] && items[..1][..0] == [];
    assert Sold(items, txns, 1, 1) == 8;
    var products := [Product(1, 1, "123", "Widget", 999, 2, "")];
    assert HasSale(items, txns, 1, 1);
    assert products[..0] == [];
    assert Groups(products, items, txns, 1) == [ProductSales(1, "Widget", 8)];
    var row := ProductSales(1, "Widget", 8);
    assert SortBySold([row]) == [row];
    assert [row][..1] == [row];
  }
}
