/** The sales summary: sales grouped per product and per customer and ranked by revenue, the
    overall metrics, revenue per product category, and a time series of 6 months, 8 weeks or
    7 days with the growth from each period to the next. */
module SalesSummary {
  import opened Seqs
  import opened Sorting
  import opened Clock
  import opened Ledger
  import opened Tallies
  import opened ProductTally

  // ---------------------------------------------------------------------------------------
  // Per-product ranking (`productPerformance`).

  /** A row of the product table: the set of orders is replaced by its size. */
  datatype ProductRow = ProductRow(name: string, quantity: int, revenue: real, orders: nat)

  function RowOf(p: ProductStat): ProductRow
  {
    ProductRow(p.name, p.quantity, p.revenue, |p.orders|)
  }

  function RowRevenue(r: ProductRow): real { r.revenue }

  /** `productPerformance()`: the ten products with the highest revenue. */
  method ProductPerformance(sales: seq<Sale>) returns (top: seq<ProductRow>)
    ensures top == TopProductRows(TallyLines(LineRefs(sales)), RowOf, RowRevenue, 10)
    ensures IsTopProductRows(top, LineRefs(sales), RowOf, RowRevenue, 10)
  {
    var t := TallyProducts(sales);
    top := TopProductRows(t, RowOf, RowRevenue, 10);
    TopProductRowsSpec(LineRefs(sales), RowOf, RowRevenue, 10);
  }

  // ---------------------------------------------------------------------------------------
  // Per-customer grouping (`customerAnalysis`).

  /** The accumulated figures of one customer: the name on their first sale, the number of sales,
      their summed totals and the latest sale time. */
  datatype CustomerStat = CustomerStat(name: string, orders: int, revenue: real, lastOrder: Timestamp)

  /** The entry a customer gets at their first sale. */
  function FirstSale(s: Sale): CustomerStat
  {
    CustomerStat(s.customerName, 0, 0.0, s.createdAt)
  }

  /** `orders += 1; revenue += sale.total`, and a strictly later sale moves `lastOrder`. */
  function StepSale(c: CustomerStat, s: Sale): CustomerStat
  {
    c.(orders := c.orders + 1, revenue := c.revenue + s.total,
       lastOrder := if s.createdAt > c.lastOrder then s.createdAt else c.lastOrder)
  }

  /** One step of the `forEach` over the sales. */
  function AddSale(t: Tally<CustomerStat>, s: Sale): Tally<CustomerStat>
  {
    Bump(t, s.customerId, FirstSale(s), (c: CustomerStat) => StepSale(c, s))
  }

  function TallySales(sales: seq<Sale>): Tally<CustomerStat>
  {
    if sales == [] then EmptyTally() else AddSale(TallySales(sales[..|sales| - 1]), sales[|sales| - 1])
  }

  /** The latest creation time among the sales (0 for none). */
  function Latest(sales: seq<Sale>): (r: Timestamp)
    ensures sales != [] ==> exists i :: 0 <= i < |sales| && r == sales[i].createdAt
    ensures forall i :: 0 <= i < |sales| ==> sales[i].createdAt <= r
  {
    if |sales| == 0 then 0
    else if |sales| == 1 then sales[0].createdAt
    else
      var init := sales[..|sales| - 1];
      var last := sales[|sales| - 1];
      var m := Latest(init);
      assert forall i :: 0 <= i < |init| ==> init[i] == sales[i];
      if last.createdAt > m then last.createdAt else m
  }

  /** A customer's figures computed directly from their sales. */
  function CustomerStatOf(sales: seq<Sale>, customerId: string): CustomerStat
  {
    StatOfOwn(SalesOf(sales, customerId))
  }

  /** The figures of one customer's own sales: the first sale's name, the count, the revenue and
      the latest time. */
  function StatOfOwn(mine: seq<Sale>): CustomerStat
  {
    if mine == [] then CustomerStat("", 0, 0.0, 0)
    else CustomerStat(mine[0].customerName, |mine|, Revenue(mine), Latest(mine))
  }

  lemma SalesOfSnoc(init: seq<Sale>, last: Sale, customerId: string)
    ensures SalesOf(init + [last], customerId)
         == if last.customerId == customerId then SalesOf(init, customerId) + [last] else SalesOf(init, customerId)
  {
    SalesOfAppend(init, [last], customerId);
    assert [last][1..] == [];
  }

  lemma {:induction false} TallySalesValid(sales: seq<Sale>)
    ensures ValidTally(TallySales(sales))
  {
    if sales != [] {
      TallySalesValid(sales[..|sales| - 1]);
    }
  }

  lemma {:induction false} TallySalesKeys(sales: seq<Sale>, k: string)
    ensures k in TallySales(sales).stats <==> SalesOf(sales, k) != []
  {
    if sales != [] {
      var init, last := sales[..|sales| - 1], sales[|sales| - 1];
      assert sales == init + [last];
      TallySalesKeys(init, k);
      SalesOfSnoc(init, last, k);
    }
  }

  lemma LatestSnoc(a: seq<Sale>, s: Sale)
    requires a != []
    ensures Latest(a + [s]) == if s.createdAt > Latest(a) then s.createdAt else Latest(a)
  {
    assert (a + [s])[..|a|] == a;
  }

  /** Adding a sale to its own customer's sales is one step of the accumulation. */
  lemma StatOfSaleSnoc(init: seq<Sale>, last: Sale)
    ensures var k := last.customerId;
      CustomerStatOf(init + [last], k)
        == StepSale(if SalesOf(init, k) == [] then FirstSale(last) else CustomerStatOf(init, k), last)
  {
    SalesOfSnoc(init, last, last.customerId);
    StatOfOwnSnoc(SalesOf(init, last.customerId), last);
  }

  lemma StatOfOwnSnoc(before: seq<Sale>, last: Sale)
    ensures StatOfOwn(before + [last]) == StepSale(if before == [] then FirstSale(last) else StatOfOwn(before), last)
  {
    RevenueSnoc(before, last);
    if before == [] {
      assert before + [last] == [last];
      LatestOne(last);
    } else {
      assert (before + [last])[0] == before[0];
      LatestSnoc(before, last);
    }
  }

  lemma RevenueSnoc(before: seq<Sale>, last: Sale)
    ensures Revenue(before + [last]) == Revenue(before) + last.total
  {
    SumAppend(before, [last], (s: Sale) => s.total);
    assert [last][1..] == [];
  }

  lemma LatestOne(s: Sale)
    ensures Latest([s]) == s.createdAt
  {
  }

  lemma {:induction false} TallySalesValues(sales: seq<Sale>, k: string)
    requires k in TallySales(sales).stats
    ensures TallySales(sales).stats[k] == CustomerStatOf(sales, k)
  {
    assert sales != [];
    var init, last := sales[..|sales| - 1], sales[|sales| - 1];
    assert sales == init + [last];
    TallySalesKeys(init, k);
    SalesOfSnoc(init, last, k);
    if last.customerId == k {
      if k in TallySales(init).stats {
        TallySalesValues(init, k);
      }
      StatOfSaleSnoc(init, last);
    } else {
      TallySalesValues(init, k);
    }
  }

  /** The grouping holds exactly the customers that have a sale, each with the name on their first
      sale, their number of sales, the sum of their totals and their latest sale time. */
  lemma TallySalesSpec(sales: seq<Sale>, k: string)
    ensures ValidTally(TallySales(sales))
    ensures k in TallySales(sales).stats <==> SalesOf(sales, k) != []
    ensures k in TallySales(sales).stats ==> TallySales(sales).stats[k] == CustomerStatOf(sales, k)
  {
    TallySalesValid(sales);
    TallySalesKeys(sales, k);
    if k in TallySales(sales).stats {
      TallySalesValues(sales, k);
    }
  }

  lemma TallySalesSnoc(sales: seq<Sale>, s: Sale)
    ensures TallySales(sales + [s]) == AddSale(TallySales(sales), s)
  {
    assert (sales + [s])[..|sales|] == sales;
  }

  /** The `forEach` loop of `customerAnalysis`. */
  method TallyCustomers(sales: seq<Sale>) returns (t: Tally<CustomerStat>)
    ensures t == TallySales(sales)
  {
    t := EmptyTally();
    for i := 0 to |sales|
      invariant t == TallySales(sales[..i])
    {
      assert sales[..i + 1] == sales[..i] + [sales[i]];
      TallySalesSnoc(sales[..i], sales[i]);
      t := AddSale(t, sales[i]);
    }
    assert sales[..|sales|] == sales;
  }

  function CustomerRevenue(c: CustomerStat): real { c.revenue }

  function TopCustomerRows(t: Tally<CustomerStat>, n: nat): seq<CustomerStat>
  {
    Take(SortDesc(Values(t.order, t.stats), CustomerRevenue), n)
  }

  /** `customerAnalysis()` */
  method CustomerAnalysis(sales: seq<Sale>) returns (top: seq<CustomerStat>)
    ensures top == TopCustomerRows(TallySales(sales), 10)
    ensures IsTopCustomerRows(top, sales, 10)
  {
    var t := TallyCustomers(sales);
    top := TopCustomerRows(t, 10);
    TopCustomerRowsSpec(sales, 10);
  }

  /** `c` is the figures of some customer who bought something. */
  ghost predicate BuyingCustomer(sales: seq<Sale>, c: CustomerStat)
  {
    exists k :: SalesOf(sales, k) != [] && c == CustomerStatOf(sales, k)
  }

  /** Each customer row is the figures of a customer who bought something. */
  lemma CustomerRowDrawn(sales: seq<Sale>, c: CustomerStat)
    requires var t := TallySales(sales); c in Values(t.order, t.stats)
    ensures BuyingCustomer(sales, c)
  {
    var t := TallySales(sales);
    TallySalesValid(sales);
    ValuesOfValid(t);
    var k :| k in t.stats && t.stats[k] == c;
    TallySalesSpec(sales, k);
  }

  /** Each customer who bought something has a row. */
  lemma CustomerRowShown(sales: seq<Sale>, k: string)
    requires SalesOf(sales, k) != []
    ensures var t := TallySales(sales); CustomerStatOf(sales, k) in Values(t.order, t.stats)
  {
    var t := TallySales(sales);
    TallySalesSpec(sales, k);
    ValuesOfValid(t);
  }

  /** `top` is a ranking of the `n` best customers: `min(n, d)` of them where `d` is the number of
      different customers who bought (the tally's key order lists each once), by revenue
      descending, each the figures of a customer who bought something and none shown more often
      than the tally has it (every buyer when there are at most `n`), and no customer left out
      spent more than a customer shown. */
  ghost predicate IsTopCustomerRows(top: seq<CustomerStat>, sales: seq<Sale>, n: nat)
  {
    var d := |TallySales(sales).order|;
    && |top| == (if d < n then d else n)
    && (forall i, j :: 0 <= i < j < |top| ==> top[i].revenue >= top[j].revenue)
    && (forall i :: 0 <= i < |top| ==> BuyingCustomer(sales, top[i]))
    && multiset(top) <= multiset(Values(TallySales(sales).order, TallySales(sales).stats))
    && (d <= n ==> multiset(top) == multiset(Values(TallySales(sales).order, TallySales(sales).stats)))
    && (d <= n ==> forall k :: SalesOf(sales, k) != [] ==> CustomerStatOf(sales, k) in top)
    && (forall k :: SalesOf(sales, k) != [] && CustomerStatOf(sales, k) !in top ==>
          forall i :: 0 <= i < |top| ==> CustomerStatOf(sales, k).revenue <= top[i].revenue)
  }

  /** The first `n` customer rows sorted by revenue are such a ranking. */
  lemma TopCustomerRowsSpec(sales: seq<Sale>, n: nat)
    ensures IsTopCustomerRows(TopCustomerRows(TallySales(sales), n), sales, n)
  {
    TopCustomerRowsCover(sales, n);
    TopCustomerRowsRank(sales, n);
  }

  lemma TopCustomerRowsRank(sales: seq<Sale>, n: nat)
    ensures var top := TopCustomerRows(TallySales(sales), n);
      && (forall i, j :: 0 <= i < j < |top| ==> top[i].revenue >= top[j].revenue)
      && (forall i :: 0 <= i < |top| ==> BuyingCustomer(sales, top[i]))
      && (forall k :: SalesOf(sales, k) != [] && CustomerStatOf(sales, k) !in top ==>
            forall i :: 0 <= i < |top| ==> CustomerStatOf(sales, k).revenue <= top[i].revenue)
  {
    var t := TallySales(sales);
    var vs := Values(t.order, t.stats);
    var top := TopCustomerRows(t, n);
    assert top == Take(SortDesc(vs, CustomerRevenue), n);
    TakeSorted(SortDesc(vs, CustomerRevenue), CustomerRevenue, n);
    TopNDrawn(vs, CustomerRevenue, n);
    TopNBest(vs, CustomerRevenue, n);
    TopCustomersSorted(top);
    TopCustomersDrawn(sales, vs, top);
    TopCustomersBest(sales, vs, top);
  }

  lemma TopCustomerRowsCover(sales: seq<Sale>, n: nat)
    ensures var top := TopCustomerRows(TallySales(sales), n);
      var vs := Values(TallySales(sales).order, TallySales(sales).stats);
      var d := |TallySales(sales).order|;
      && |top| == (if d < n then d else n)
      && multiset(top) <= multiset(vs)
      && (d <= n ==> multiset(top) == multiset(vs))
      && (d <= n ==> forall k :: SalesOf(sales, k) != [] ==> CustomerStatOf(sales, k) in top)
  {
    var t := TallySales(sales);
    var vs := Values(t.order, t.stats);
    var q := SortDesc(vs, CustomerRevenue);
    var top := Take(q, n);
    CustomerRowCount(sales);
    TakeMultiset(q, n);
    if |t.order| <= n {
      TopCustomersAll(sales, top);
    }
  }

  lemma TopCustomersAll(sales: seq<Sale>, top: seq<CustomerStat>)
    requires multiset(top) == multiset(Values(TallySales(sales).order, TallySales(sales).stats))
    ensures forall k :: SalesOf(sales, k) != [] ==> CustomerStatOf(sales, k) in top
  {
    forall k | SalesOf(sales, k) != []
      ensures CustomerStatOf(sales, k) in top
    {
      CustomerRowShown(sales, k);
      assert CustomerStatOf(sales, k) in multiset(top);
    }
  }

  lemma TopCustomersSorted(top: seq<CustomerStat>)
    requires SortedDesc(top, CustomerRevenue)
    ensures forall i, j :: 0 <= i < j < |top| ==> top[i].revenue >= top[j].revenue
  {
    forall i, j | 0 <= i < j < |top|
      ensures top[i].revenue >= top[j].revenue
    {
      assert CustomerRevenue(top[i]) >= CustomerRevenue(top[j]);
    }
  }

  /** One customer row per key of the tally. */
  lemma CustomerRowCount(sales: seq<Sale>)
    ensures |Values(TallySales(sales).order, TallySales(sales).stats)| == |TallySales(sales).order|
  {
    TallySalesValid(sales);
    ValuesOfValid(TallySales(sales));
  }

  lemma TopCustomersDrawn(sales: seq<Sale>, vs: seq<CustomerStat>, top: seq<CustomerStat>)
    requires vs == Values(TallySales(sales).order, TallySales(sales).stats)
    requires forall i :: 0 <= i < |top| ==> top[i] in vs
    ensures forall i :: 0 <= i < |top| ==> BuyingCustomer(sales, top[i])
  {
    forall i | 0 <= i < |top|
      ensures BuyingCustomer(sales, top[i])
    {
      CustomerRowDrawn(sales, top[i]);
    }
  }

  lemma TopCustomersBest(sales: seq<Sale>, vs: seq<CustomerStat>, top: seq<CustomerStat>)
    requires vs == Values(TallySales(sales).order, TallySales(sales).stats)
    requires forall x :: x in vs && x !in top ==> forall i :: 0 <= i < |top| ==> CustomerRevenue(x) <= CustomerRevenue(top[i])
    ensures forall k :: SalesOf(sales, k) != [] && CustomerStatOf(sales, k) !in top ==>
      forall i :: 0 <= i < |top| ==> CustomerStatOf(sales, k).revenue <= top[i].revenue
  {
    forall k | SalesOf(sales, k) != [] && CustomerStatOf(sales, k) !in top
      ensures forall i :: 0 <= i < |top| ==> CustomerStatOf(sales, k).revenue <= top[i].revenue
    {
      var c := CustomerStatOf(sales, k);
      CustomerRowShown(sales, k);
      assert forall i :: 0 <= i < |top| ==> CustomerRevenue(c) <= CustomerRevenue(top[i]);
    }
  }

  // ---------------------------------------------------------------------------------------
  // Revenue per category (`categoryBreakdown`, `categoryData`).

  /** What one sale contributes to a product: the total of its first line for the product only. */
  function FirstLineTotal(sale: Sale, productId: string): real
  {
    match FindFirst(sale.products, (l: LineItem) => l.productId == productId)
    case Some(l) => l.total
    case None => 0.0
  }

  function ProductSales(sales: seq<Sale>, productId: string): real
  {
    Sum(sales, (s: Sale) => FirstLineTotal(s, productId))
  }

  /** One step of `products.reduce`. */
  function AddCategory(t: Tally<real>, p: Product, sales: seq<Sale>): Tally<real>
  {
    Bump(t, p.category, 0.0, (v: real) => v + ProductSales(sales, p.id))
  }

  function CategoryBreakdown(products: seq<Product>, sales: seq<Sale>): Tally<real>
  {
    if products == [] then EmptyTally()
    else AddCategory(CategoryBreakdown(products[..|products| - 1], sales), products[|products| - 1], sales)
  }

  function InCategory(products: seq<Product>, category: string): seq<Product>
  {
    Filter(products, (p: Product) => p.category == category)
  }

  function ProductSalesOf(sales: seq<Sale>): Product -> real
  {
    (p: Product) => ProductSales(sales, p.id)
  }

  /** The revenue of a category straight from its definition. */
  function CategoryRevenue(products: seq<Product>, sales: seq<Sale>, category: string): real
  {
    Sum(InCategory(products, category), ProductSalesOf(sales))
  }

  /** The breakdown has an entry for exactly the categories some product is in, holding the
      category's revenue. */
  lemma {:induction false} CategoryBreakdownSpec(products: seq<Product>, sales: seq<Sale>, c: string)
    ensures ValidTally(CategoryBreakdown(products, sales))
    ensures c in CategoryBreakdown(products, sales).stats <==> InCategory(products, c) != []
    ensures c in CategoryBreakdown(products, sales).stats ==>
      CategoryBreakdown(products, sales).stats[c] == CategoryRevenue(products, sales, c)
  {
    if products != [] {
      var init, last := products[..|products| - 1], products[|products| - 1];
      assert products == init + [last];
      CategoryBreakdownSpec(init, sales, c);
      CategoryRevenueSnoc(init, last, sales, c);
    }
  }

  lemma InCategorySnoc(init: seq<Product>, last: Product, c: string)
    ensures InCategory(init + [last], c) == InCategory(init, c) + (if last.category == c then [last] else [])
  {
    FilterAppend(init, [last], (p: Product) => p.category == c);
    assert [last][1..] == [];
  }

  lemma CategoryRevenueSnoc(init: seq<Product>, last: Product, sales: seq<Sale>, c: string)
    ensures InCategory(init + [last], c) != [] <==> InCategory(init, c) != [] || last.category == c
    ensures CategoryRevenue(init + [last], sales, c)
         == CategoryRevenue(init, sales, c) + (if last.category == c then ProductSales(sales, last.id) else 0.0)
  {
    InCategorySnoc(init, last, c);
    var before := InCategory(init, c);
    if last.category == c {
      SumAppend(before, [last], ProductSalesOf(sales));
      assert [last][1..] == [];
    } else {
      assert before + [] == before;
    }
  }

  datatype CategorySlice = CategorySlice(name: string, value: real)

  /** `Object.entries(...).map(...).filter(item => item.value > 0)` */
  function CategoryData(order: seq<string>, stats: map<string, real>): (r: seq<CategorySlice>)
    ensures forall i :: 0 <= i < |r| ==>
      r[i].name in order && r[i].name in stats && r[i].value == stats[r[i].name] && r[i].value > 0.0
    ensures forall i :: 0 <= i < |order| && order[i] in stats && stats[order[i]] > 0.0 ==>
      CategorySlice(order[i], stats[order[i]]) in r
  {
    if order == [] then []
    else
      var k := order[0];
      var rest := CategoryData(order[1..], stats);
      assert forall i :: 1 <= i < |order| ==> order[i] == order[1..][i - 1];
      (if k in stats && stats[k] > 0.0 then [CategorySlice(k, stats[k])] else []) + rest
  }

  /** A sale listing the same product on two lines counts only the first line for it. */
  lemma FirstLineOnly(sale: Sale, a: LineItem, b: LineItem)
    requires sale.products == [a, b] && a.productId == b.productId
    ensures FirstLineTotal(sale, a.productId) == a.total
  {
  }

  // ---------------------------------------------------------------------------------------
  // Summary metrics and the time series.

  /** One period of the series: revenue, number of sales and distinct customers. */
  datatype Bucket = Bucket(sales: real, transactions: nat, customers: nat)

  datatype View = Monthly | Weekly | Daily

  function Periods(view: View): nat
  {
    match view
    case Monthly => 6
    case Weekly => 8
    case Daily => 7
  }

  /** The Sunday of `t`'s week at `t`'s time of day (`date.setDate(date.getDate() - date.getDay())`). */
  function WeekStart(t: Timestamp): Timestamp
  {
    t - Weekday(t) * MsPerDay
  }

  /** Whether a sale belongs to the period `back` periods before the one containing `now`. */
  predicate InPeriod(view: View, now: Timestamp, back: nat, s: Sale)
  {
    match view
    case Monthly => MonthIndex(s.createdAt) == MonthIndex(now) - back
    case Weekly =>
      var start := WeekStart(now - back * 7 * MsPerDay);
      start <= s.createdAt <= start + 6 * MsPerDay
    case Daily => Day(s.createdAt) == Day(now - back * MsPerDay)
  }

  function BucketOf(sales: seq<Sale>): Bucket
  {
    Bucket(Revenue(sales), |sales|, UniqueCustomers(sales))
  }

  function PeriodBucket(view: View, now: Timestamp, back: nat, sales: seq<Sale>): Bucket
  {
    BucketOf(Filter(sales, (s: Sale) => InPeriod(view, now, back, s)))
  }

  /** The bucket of each period, by how many periods back it is. */
  function PeriodBuckets(view: View, now: Timestamp, sales: seq<Sale>): nat -> Bucket
  {
    (back: nat) => PeriodBucket(view, now, back, sales)
  }

  /** Of `n` periods, the `m` oldest, oldest first. */
  function Series<B>(bucket: nat -> B, n: nat, m: nat): (r: seq<B>)
    requires m <= n
    ensures |r| == m
  {
    if m == 0 then [] else Series(bucket, n, m - 1) + [bucket(n - m)]
  }

  /** Entry `k` is the period `n - 1 - k` periods back. */
  lemma {:induction false} SeriesAt<B>(bucket: nat -> B, n: nat, m: nat, k: int)
    requires m <= n
    requires 0 <= k < m
    ensures Series(bucket, n, m)[k] == bucket(n - 1 - k)
  {
    if k < m - 1 {
      SeriesAt(bucket, n, m - 1, k);
    }
  }

  /** The loop of `generateTimeSeriesData()`, for any way of computing a period's bucket: from
      `n - 1` periods back down to the current one, each bucket appended in turn. */
  method BuildSeries<B>(bucket: nat -> B, n: nat) returns (data: seq<B>)
    ensures data == Series(bucket, n, n)
    ensures forall k :: 0 <= k < n ==> data[k] == bucket(n - 1 - k)
  {
    data := [];
    var i := n - 1;
    while i >= 0
      invariant -1 <= i < n
      invariant data == Series(bucket, n, n - 1 - i)
    {
      data := data + [bucket(i)];
      i := i - 1;
    }
    forall k | 0 <= k < n
      ensures data[k] == bucket(n - 1 - k)
    {
      SeriesAt(bucket, n, n, k);
    }
  }

  /** `generateTimeSeriesData()`: one bucket per period, oldest first; bucket `k` holds the sales
      of the period `Periods(view) - 1 - k` periods back. */
  method TimeSeries(view: View, now: Timestamp, sales: seq<Sale>) returns (data: seq<Bucket>)
    ensures |data| == Periods(view)
    ensures data == Series(PeriodBuckets(view, now, sales), Periods(view), Periods(view))
    ensures forall k :: 0 <= k < Periods(view) ==> data[k] == PeriodBuckets(view, now, sales)(Periods(view) - 1 - k)
  {
    data := BuildSeries(PeriodBuckets(view, now, sales), Periods(view));
  }

  /** A period without sales is a zero bucket; a bucket never counts more customers than sales. */
  lemma PeriodBucketSpec(view: View, now: Timestamp, back: nat, sales: seq<Sale>)
    ensures (forall s :: s in sales ==> !InPeriod(view, now, back, s)) ==> PeriodBucket(view, now, back, sales) == Bucket(0.0, 0, 0)
    ensures PeriodBucket(view, now, back, sales).customers <= PeriodBucket(view, now, back, sales).transactions
  {
    var ss := Filter(sales, (s: Sale) => InPeriod(view, now, back, s));
    UniqueCustomersBounded(ss);
    if forall s :: s in sales ==> !InPeriod(view, now, back, s) {
      FilterNonePass(sales, (s: Sale) => InPeriod(view, now, back, s));
    }
  }

  /** The periods run oldest first: bucket `k` of the daily view is the day `6 - k` days before
      today, of the monthly view the month `5 - k` months before this one, and each weekly window
      starts exactly a week after the one before it. */
  lemma PeriodsOldestFirst(now: Timestamp, k: nat)
    ensures k < 7 ==> forall s :: InPeriod(Daily, now, 6 - k, s) <==> Day(s.createdAt) == Day(now) - (6 - k)
    ensures k < 6 ==> forall s :: InPeriod(Monthly, now, 5 - k, s) <==> MonthIndex(s.createdAt) == MonthIndex(now) - (5 - k)
    ensures 0 < k < 8 ==> WeekStart(now - (8 - 1 - k) * 7 * MsPerDay) == WeekStart(now - (8 - k) * 7 * MsPerDay) + 7 * MsPerDay
  {
    if k < 7 {
      DayShift(now, -(6 - k));
      assert now - (6 - k) * MsPerDay == now + -(6 - k) * MsPerDay;
    }
    if 0 < k < 8 {
      var earlier := now - (8 - k) * 7 * MsPerDay;
      WeekdayWeekLater(earlier);
      assert now - (8 - 1 - k) * 7 * MsPerDay == earlier + 7 * MsPerDay;
    }
  }

  /** The growth of period `index` over the one before: 0 for the first period, none (not a
      finite number) when the previous period had no revenue. */
  function Growth(series: seq<Bucket>, index: nat): Option<real>
    requires index < |series|
  {
    if index == 0 then Some(0.0)
    else if series[index - 1].sales == 0.0 then None
    else Some((series[index].sales - series[index - 1].sales) / series[index - 1].sales * 100.0)
  }

  lemma GrowthSpec(series: seq<Bucket>, index: nat)
    requires index < |series|
    ensures Growth(series, index).None? <==> index > 0 && series[index - 1].sales == 0.0
    ensures index == 0 ==> Growth(series, index) == Some(0.0)
    ensures index > 0 && series[index - 1].sales != 0.0 ==>
      Growth(series, index).value * series[index - 1].sales == (series[index].sales - series[index - 1].sales) * 100.0
    ensures index > 0 && series[index - 1].sales > 0.0 ==>
      (Growth(series, index).value > 0.0 <==> series[index].sales > series[index - 1].sales)
  {
    if index > 0 && series[index - 1].sales != 0.0 {
      var p := series[index - 1].sales;
      var d := series[index].sales - p;
      assert d / p * p == d;
      if p > 0.0 {
        assert d > 0.0 ==> d / p > 0.0;
        assert d <= 0.0 ==> d / p <= 0.0;
      }
    }
  }

  /** The "Avg Order" column: revenue per sale in the period, 0 without sales. */
  function PeriodAverage(b: Bucket): (r: real)
    ensures b.transactions > 0 ==> r * b.transactions as real == b.sales
    ensures b.transactions == 0 ==> r == 0.0
  {
    if b.transactions > 0 then b.sales / b.transactions as real else 0.0
  }
}
