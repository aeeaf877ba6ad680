/** Sale lines grouped per product, as the sales summary and the reports pages both accumulate
    them in a plain object keyed by product identifier, and the top of that grouping by revenue. */
module ProductTally {
  import opened Seqs
  import opened Sorting
  import opened Ledger
  import opened Tallies

  /** A sale line together with the identifier of the sale it belongs to. */
  datatype LineRef = LineRef(saleId: string, line: LineItem)

  function RefsOf(sale: Sale): seq<LineRef>
  {
    Map(sale.products, (l: LineItem) => LineRef(sale.id, l))
  }

  /** Every line of every sale, sale by sale and line by line. */
  function LineRefs(sales: seq<Sale>): seq<LineRef>
  {
    if sales == [] then [] else LineRefs(sales[..|sales| - 1]) + RefsOf(sales[|sales| - 1])
  }

  /** The accumulated figures of one product: the name first seen, the quantity and revenue
      summed over its lines, and the identifiers of the sales it appears in. */
  datatype ProductStat = ProductStat(name: string, quantity: int, revenue: real, orders: set<string>)

  function LineQuantity(r: LineRef): int { r.line.quantity }
  function LineRevenue(r: LineRef): real { r.line.total }
  function LineSale(r: LineRef): string { r.saleId }

  /** The entry a product gets when it is first seen. */
  function FirstSight(r: LineRef): ProductStat
  {
    ProductStat(r.line.productName, 0, 0.0, {})
  }

  /** `quantity += ...; revenue += ...; orders.add(sale.id)` */
  function StepLine(p: ProductStat, r: LineRef): ProductStat
  {
    p.(quantity := p.quantity + r.line.quantity, revenue := p.revenue + r.line.total, orders := p.orders + {r.saleId})
  }

  /** One step of the inner `forEach`. */
  function AddLine(t: Tally<ProductStat>, r: LineRef): Tally<ProductStat>
  {
    Bump(t, r.line.productId, FirstSight(r), (p: ProductStat) => StepLine(p, r))
  }

  /** The grouping after the given lines, folded in order. */
  function TallyLines(refs: seq<LineRef>): Tally<ProductStat>
  {
    if refs == [] then EmptyTally() else AddLine(TallyLines(refs[..|refs| - 1]), refs[|refs| - 1])
  }

  /** The lines of one product. */
  function LinesOf(refs: seq<LineRef>, productId: string): seq<LineRef>
  {
    Filter(refs, (r: LineRef) => r.line.productId == productId)
  }

  /** A product's figures computed directly from its lines. */
  function ProductStatOf(refs: seq<LineRef>, productId: string): ProductStat
  {
    StatOfLines(LinesOf(refs, productId))
  }

  /** The figures of one product's own lines: the first line's name, the units, the revenue and
      the sales they come from. */
  function StatOfLines(mine: seq<LineRef>): ProductStat
  {
    if mine == [] then ProductStat("", 0, 0.0, {})
    else ProductStat(mine[0].line.productName, IntSum(mine, LineQuantity), Sum(mine, LineRevenue), Image(mine, LineSale))
  }

  lemma LinesOfSnoc(init: seq<LineRef>, last: LineRef, productId: string)
    ensures LinesOf(init + [last], productId)
         == if last.line.productId == productId then LinesOf(init, productId) + [last] else LinesOf(init, productId)
  {
    FilterAppend(init, [last], (r: LineRef) => r.line.productId == productId);
    assert [last][1..] == [];
  }

  lemma {:induction false} TallyLinesValid(refs: seq<LineRef>)
    ensures ValidTally(TallyLines(refs))
  {
    if refs != [] {
      TallyLinesValid(refs[..|refs| - 1]);
    }
  }

  lemma {:induction false} TallyLinesKeys(refs: seq<LineRef>, k: string)
    ensures k in TallyLines(refs).stats <==> LinesOf(refs, k) != []
  {
    if refs != [] {
      var init, last := refs[..|refs| - 1], refs[|refs| - 1];
      assert refs == init + [last];
      TallyLinesKeys(init, k);
      LinesOfSnoc(init, last, k);
    }
  }

  /** Adding a line to its own product's lines is one step of the accumulation. */
  lemma StatOfSnoc(init: seq<LineRef>, last: LineRef)
    ensures var k := last.line.productId;
      ProductStatOf(init + [last], k)
        == StepLine(if LinesOf(init, k) == [] then FirstSight(last) else ProductStatOf(init, k), last)
  {
    LinesOfSnoc(init, last, last.line.productId);
    StatOfLinesSnoc(LinesOf(init, last.line.productId), last);
  }

  lemma StatOfLinesSnoc(before: seq<LineRef>, last: LineRef)
    ensures StatOfLines(before + [last]) == StepLine(if before == [] then FirstSight(last) else StatOfLines(before), last)
  {
    IntSumAppend(before, [last], LineQuantity);
    SumAppend(before, [last], LineRevenue);
    ImageAppend(before, last, LineSale);
    assert [last][1..] == [];
    assert IntSum([last], LineQuantity) == last.line.quantity;
    assert Sum([last], LineRevenue) == last.line.total;
    if before == [] {
      assert before + [last] == [last];
      assert Image(before, LineSale) == {};
    } else {
      assert (before + [last])[0] == before[0];
    }
  }

  lemma {:induction false} TallyLinesValues(refs: seq<LineRef>, k: string)
    requires k in TallyLines(refs).stats
    ensures TallyLines(refs).stats[k] == ProductStatOf(refs, k)
  {
    assert refs != [];
    var init, last := refs[..|refs| - 1], refs[|refs| - 1];
    assert refs == init + [last];
    TallyLinesKeys(init, k);
    LinesOfSnoc(init, last, k);
    if last.line.productId == k {
      if k in TallyLines(init).stats {
        TallyLinesValues(init, k);
      }
      StatOfSnoc(init, last);
    } else {
      TallyLinesValues(init, k);
    }
  }

  /** The grouping holds exactly the products that have a line, each with the name of its first
      line, its summed quantity and revenue, and the set of sales it appears in. */
  lemma TallyLinesSpec(refs: seq<LineRef>, k: string)
    ensures ValidTally(TallyLines(refs))
    ensures k in TallyLines(refs).stats <==> LinesOf(refs, k) != []
    ensures k in TallyLines(refs).stats ==> TallyLines(refs).stats[k] == ProductStatOf(refs, k)
  {
    TallyLinesValid(refs);
    TallyLinesKeys(refs, k);
    if k in TallyLines(refs).stats {
      TallyLinesValues(refs, k);
    }
  }

  lemma TallyLinesSnoc(refs: seq<LineRef>, r: LineRef)
    ensures TallyLines(refs + [r]) == AddLine(TallyLines(refs), r)
  {
    assert (refs + [r])[..|refs|] == refs;
  }

  lemma LineRefsSnoc(sales: seq<Sale>, i: int)
    requires 0 <= i < |sales|
    ensures LineRefs(sales[..i + 1]) == LineRefs(sales[..i]) + RefsOf(sales[i])
  {
    assert sales[..i + 1][..i] == sales[..i];
  }

  lemma RefsOfPrefixSnoc(done: seq<LineRef>, sale: Sale, j: int)
    requires 0 <= j < |sale.products|
    ensures done + RefsOf(sale)[..j] + [LineRef(sale.id, sale.products[j])] == done + RefsOf(sale)[..j + 1]
  {
    assert RefsOf(sale)[..j + 1] == RefsOf(sale)[..j] + [RefsOf(sale)[j]];
  }

  /** The inner loop over one sale's lines. */
  method TallySaleLines(t0: Tally<ProductStat>, done: seq<LineRef>, sale: Sale) returns (t: Tally<ProductStat>)
    requires t0 == TallyLines(done)
    ensures t == TallyLines(done + RefsOf(sale))
  {
    t := t0;
    assert done + RefsOf(sale)[..0] == done;
    for j := 0 to |sale.products|
      invariant t == TallyLines(done + RefsOf(sale)[..j])
    {
      var r := LineRef(sale.id, sale.products[j]);
      RefsOfPrefixSnoc(done, sale, j);
      TallyLinesSnoc(done + RefsOf(sale)[..j], r);
      t := AddLine(t, r);
    }
    assert RefsOf(sale)[..|sale.products|] == RefsOf(sale);
  }

  /** The two nested `forEach` loops of `productPerformance`. */
  method TallyProducts(sales: seq<Sale>) returns (t: Tally<ProductStat>)
    ensures t == TallyLines(LineRefs(sales))
  {
    t := EmptyTally();
    for i := 0 to |sales|
      invariant t == TallyLines(LineRefs(sales[..i]))
    {
      t := TallySaleLines(t, LineRefs(sales[..i]), sales[i]);
      LineRefsSnoc(sales, i);
    }
    assert sales[..|sales|] == sales;
  }

  /** The rows shown for the grouping, one per product in first-seen order, each projected by
      `view` (the sales summary shows the number of orders, the reports page drops them). */
  function ProductRows<R>(t: Tally<ProductStat>, view: ProductStat -> R): seq<R>
  {
    Map(Values(t.order, t.stats), view)
  }

  /** `Object.values(...).sort((a, b) => b.revenue - a.revenue).slice(0, n)` */
  function TopProductRows<R>(t: Tally<ProductStat>, view: ProductStat -> R, key: R -> real, n: nat): seq<R>
  {
    Take(SortDesc(ProductRows(t, view), key), n)
  }

  /** `row` is the row of some product that was sold. */
  ghost predicate SoldProductRow<R>(refs: seq<LineRef>, view: ProductStat -> R, row: R)
  {
    exists k :: LinesOf(refs, k) != [] && row == view(ProductStatOf(refs, k))
  }

  /** Each row of the product table is the row of a product that was sold. */
  lemma ProductRowDrawn<R>(refs: seq<LineRef>, view: ProductStat -> R, row: R)
    requires row in ProductRows(TallyLines(refs), view)
    ensures SoldProductRow(refs, view, row)
  {
    var t := TallyLines(refs);
    var rows := ProductRows(t, view);
    TallyLinesValid(refs);
    var m :| 0 <= m < |rows| && rows[m] == row;
    var k := t.order[m];
    assert row == view(t.stats[k]);
    TallyLinesSpec(refs, k);
  }

  /** Each product sold has its row in the product table. */
  lemma ProductRowShown<R>(refs: seq<LineRef>, view: ProductStat -> R, k: string)
    requires LinesOf(refs, k) != []
    ensures view(ProductStatOf(refs, k)) in ProductRows(TallyLines(refs), view)
  {
    var t := TallyLines(refs);
    var vs := Values(t.order, t.stats);
    TallyLinesSpec(refs, k);
    ValuesOfValid(t);
    assert t.stats[k] in vs;
    var m :| 0 <= m < |vs| && vs[m] == t.stats[k];
    assert ProductRows(t, view)[m] == view(ProductStatOf(refs, k));
  }

  /** `top` is a ranking of the `n` best-selling products: `min(n, d)` rows where `d` is the number
      of different products sold (the tally's key order lists each once), by revenue descending,
      each the row of a product that was sold and none shown more often than the tally has it
      (every product when there are at most `n`), and no product left out earned more than a
      product shown. */
  ghost predicate IsTopProductRows<R>(top: seq<R>, refs: seq<LineRef>, view: ProductStat -> R, key: R -> real, n: nat)
  {
    var d := |TallyLines(refs).order|;
    && |top| == (if d < n then d else n)
    && (forall i, j :: 0 <= i < j < |top| ==> key(top[i]) >= key(top[j]))
    && (forall i :: 0 <= i < |top| ==> SoldProductRow(refs, view, top[i]))
    && multiset(top) <= multiset(ProductRows(TallyLines(refs), view))
    && (d <= n ==> multiset(top) == multiset(ProductRows(TallyLines(refs), view)))
    && (d <= n ==> forall k :: LinesOf(refs, k) != [] ==> view(ProductStatOf(refs, k)) in top)
    && (forall k :: LinesOf(refs, k) != [] && view(ProductStatOf(refs, k)) !in top ==>
          forall i :: 0 <= i < |top| ==> ProductStatOf(refs, k).revenue <= key(top[i]))
  }

  /** The first `n` rows of the product table sorted by revenue are such a ranking. */
  lemma TopProductRowsSpec<R>(refs: seq<LineRef>, view: ProductStat -> R, key: R -> real, n: nat)
    requires forall p :: key(view(p)) == p.revenue
    ensures IsTopProductRows(TopProductRows(TallyLines(refs), view, key, n), refs, view, key, n)
  {
    TopProductRowsCover(refs, view, key, n);
    TopProductRowsRank(refs, view, key, n);
  }

  lemma TopProductRowsRank<R>(refs: seq<LineRef>, view: ProductStat -> R, key: R -> real, n: nat)
    requires forall p :: key(view(p)) == p.revenue
    ensures var top := TopProductRows(TallyLines(refs), view, key, n);
      && (forall i, j :: 0 <= i < j < |top| ==> key(top[i]) >= key(top[j]))
      && (forall i :: 0 <= i < |top| ==> SoldProductRow(refs, view, top[i]))
      && (forall k :: LinesOf(refs, k) != [] && view(ProductStatOf(refs, k)) !in top ==>
            forall i :: 0 <= i < |top| ==> ProductStatOf(refs, k).revenue <= key(top[i]))
  {
    var rows := ProductRows(TallyLines(refs), view);
    var top := TopProductRows(TallyLines(refs), view, key, n);
    assert top == Take(SortDesc(rows, key), n);
    TakeSorted(SortDesc(rows, key), key, n);
    TopNDrawn(rows, key, n);
    TopNBest(rows, key, n);
    assert SortedDesc(top, key);
    TopProductsDrawn(refs, view, rows, top);
    TopProductsBest(refs, view, key, rows, top);
  }

  lemma TopProductRowsCover<R>(refs: seq<LineRef>, view: ProductStat -> R, key: R -> real, n: nat)
    ensures var top := TopProductRows(TallyLines(refs), view, key, n);
      var rows := ProductRows(TallyLines(refs), view);
      var d := |TallyLines(refs).order|;
      && |top| == (if d < n then d else n)
      && multiset(top) <= multiset(rows)
      && (d <= n ==> multiset(top) == multiset(rows))
      && (d <= n ==> forall k :: LinesOf(refs, k) != [] ==> view(ProductStatOf(refs, k)) in top)
  {
    var q := SortDesc(ProductRows(TallyLines(refs), view), key);
    ProductRowCount(refs, view);
    TakeMultiset(q, n);
    if |TallyLines(refs).order| <= n {
      TopProductsAll(refs, view, Take(q, n));
    }
  }

  lemma TopProductsAll<R>(refs: seq<LineRef>, view: ProductStat -> R, top: seq<R>)
    requires multiset(top) == multiset(ProductRows(TallyLines(refs), view))
    ensures forall k :: LinesOf(refs, k) != [] ==> view(ProductStatOf(refs, k)) in top
  {
    forall k | LinesOf(refs, k) != []
      ensures view(ProductStatOf(refs, k)) in top
    {
      ProductRowShown(refs, view, k);
      assert view(ProductStatOf(refs, k)) in multiset(top);
    }
  }

  /** One product row per key of the tally. */
  lemma ProductRowCount<R>(refs: seq<LineRef>, view: ProductStat -> R)
    ensures |ProductRows(TallyLines(refs), view)| == |TallyLines(refs).order|
  {
    TallyLinesValid(refs);
    ValuesOfValid(TallyLines(refs));
  }

  lemma TopProductsDrawn<R>(refs: seq<LineRef>, view: ProductStat -> R, rows: seq<R>, top: seq<R>)
    requires rows == ProductRows(TallyLines(refs), view)
    requires forall i :: 0 <= i < |top| ==> top[i] in rows
    ensures forall i :: 0 <= i < |top| ==> SoldProductRow(refs, view, top[i])
  {
    forall i | 0 <= i < |top|
      ensures SoldProductRow(refs, view, top[i])
    {
      ProductRowDrawn(refs, view, top[i]);
    }
  }

  lemma TopProductsBest<R>(refs: seq<LineRef>, view: ProductStat -> R, key: R -> real, rows: seq<R>, top: seq<R>)
    requires forall p :: key(view(p)) == p.revenue
    requires rows == ProductRows(TallyLines(refs), view)
    requires forall x :: x in rows && x !in top ==> forall i :: 0 <= i < |top| ==> key(x) <= key(top[i])
    ensures forall k :: LinesOf(refs, k) != [] && view(ProductStatOf(refs, k)) !in top ==>
      forall i :: 0 <= i < |top| ==> ProductStatOf(refs, k).revenue <= key(top[i])
  {
    forall k | LinesOf(refs, k) != [] && view(ProductStatOf(refs, k)) !in top
      ensures forall i :: 0 <= i < |top| ==> ProductStatOf(refs, k).revenue <= key(top[i])
    {
      ProductRowShown(refs, view, k);
      assert key(view(ProductStatOf(refs, k))) == ProductStatOf(refs, k).revenue;
    }
  }
}
