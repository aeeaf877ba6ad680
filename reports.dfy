/** The reports page: revenue, purchases and gross profit with its margin, six monthly buckets of
    sales, purchases and profit, the five best-selling products, the number of sale lines, and the
    repeat customers with the retention rate they give. */
module Reports {
  import opened Seqs
  import opened Clock
  import opened Ledger
  import opened ProductTally

  /** `purchases.reduce((sum, purchase) => sum + purchase.total, 0)` */
  function PurchaseTotal(purchases: seq<Purchase>): real
  {
    Sum(purchases, (u: Purchase) => u.total)
  }

  /** `totalRevenue - totalPurchases` */
  function GrossProfit(sales: seq<Sale>, purchases: seq<Purchase>): real
  {
    Revenue(sales) - PurchaseTotal(purchases)
  }

  /** The margin under "Gross Profit", 0 while there is no revenue. */
  function ProfitMargin(sales: seq<Sale>, purchases: seq<Purchase>): real
  {
    Percent(GrossProfit(sales, purchases), Revenue(sales))
  }

  /** Without revenue the margin is 0; with revenue it is at most 100% exactly when the purchases
      total is not negative, and not negative exactly when the purchases do not exceed the revenue. */
  lemma ProfitMarginSpec(sales: seq<Sale>, purchases: seq<Purchase>)
    ensures Revenue(sales) <= 0.0 ==> ProfitMargin(sales, purchases) == 0.0
    ensures Revenue(sales) > 0.0 ==>
      && (ProfitMargin(sales, purchases) <= 100.0 <==> PurchaseTotal(purchases) >= 0.0)
      && (ProfitMargin(sales, purchases) >= 0.0 <==> PurchaseTotal(purchases) <= Revenue(sales))
  {
    var w := Revenue(sales);
    if w > 0.0 {
      var m := ProfitMargin(sales, purchases);
      assert m * w == GrossProfit(sales, purchases) * 100.0;
      assert m == GrossProfit(sales, purchases) / w * 100.0;
      if m <= 100.0 {
        assert m * w <= 100.0 * w;
      }
      if PurchaseTotal(purchases) >= 0.0 {
        assert GrossProfit(sales, purchases) / w <= 1.0;
      }
      if m >= 0.0 {
        assert m * w >= 0.0;
      }
    }
  }

  // ---------------------------------------------------------------------------------------
  // Monthly buckets.

  /** The records whose month, as `monthOf` gives it, is one of the `count` months starting with
      `first`. The lemmas below hold for any assignment of months to records, the calendar one
      included. */
  function InMonths<T>(monthOf: T -> int, first: int, count: int): T -> bool
  {
    (x: T) => first <= monthOf(x) < first + count
  }

  /** The total `amount` of the records in those months, added up record by record. */
  function MonthsTotal<T>(s: seq<T>, monthOf: T -> int, amount: T -> real, first: int, count: int): real
  {
    if s == [] then 0.0
    else (if first <= monthOf(s[0]) < first + count then amount(s[0]) else 0.0)
         + MonthsTotal(s[1..], monthOf, amount, first, count)
  }

  /** The total is that of `filter(...)` followed by `reduce(...)`, as the page computes it. */
  lemma {:induction false} MonthsTotalIsFilteredSum<T>(s: seq<T>, monthOf: T -> int, amount: T -> real, first: int, count: int)
    ensures MonthsTotal(s, monthOf, amount, first, count) == Sum(Filter(s, InMonths(monthOf, first, count)), amount)
  {
    if s != [] {
      MonthsTotalIsFilteredSum(s[1..], monthOf, amount, first, count);
      var p := InMonths(monthOf, first, count);
      var head := if p(s[0]) then [s[0]] else [];
      SumAppend(head, Filter(s[1..], p), amount);
      assert head == [] || head[1..] == [];
    }
  }

  /** The records of `c + 1` months are those of the first `c` months and those of the last one. */
  lemma {:induction false} MonthsTotalSplit<T>(s: seq<T>, monthOf: T -> int, amount: T -> real, first: int, c: nat)
    ensures MonthsTotal(s, monthOf, amount, first, c + 1)
         == MonthsTotal(s, monthOf, amount, first, c) + MonthsTotal(s, monthOf, amount, first + c, 1)
  {
    if s != [] {
      MonthsTotalSplit(s[1..], monthOf, amount, first, c);
    }
  }

  /** With every record inside the months, the total is the total of all records. */
  lemma {:induction false} MonthsTotalAll<T>(s: seq<T>, monthOf: T -> int, amount: T -> real, first: int, count: int)
    requires forall x :: x in s ==> first <= monthOf(x) < first + count
    ensures MonthsTotal(s, monthOf, amount, first, count) == Sum(s, amount)
  {
    if s != [] {
      assert forall x :: x in s[1..] ==> x in s;
      MonthsTotalAll(s[1..], monthOf, amount, first, count);
    }
  }

  /** One entry of `monthlyData` (its display label left out). The profit is computed from the
      same two sums, so it is kept as a derived value. */
  datatype MonthEntry = MonthEntry(sales: real, purchases: real)
  {
    function Profit(): real { sales - purchases }
  }

  /** The sales and purchases totals of one month. */
  function MonthEntryOf(sales: seq<Sale>, purchases: seq<Purchase>,
                        saleMonth: Sale -> int, purchaseMonth: Purchase -> int, month: int): MonthEntry
  {
    MonthEntry(MonthsTotal(sales, saleMonth, (s: Sale) => s.total, month, 1),
               MonthsTotal(purchases, purchaseMonth, (u: Purchase) => u.total, month, 1))
  }

  /** The entries of the `count` months starting with `first`, oldest first. */
  function MonthlySeries(sales: seq<Sale>, purchases: seq<Purchase>,
                         saleMonth: Sale -> int, purchaseMonth: Purchase -> int, first: int, count: nat): (r: seq<MonthEntry>)
    ensures |r| == count
  {
    if count == 0 then []
    else MonthlySeries(sales, purchases, saleMonth, purchaseMonth, first, count - 1)
         + [MonthEntryOf(sales, purchases, saleMonth, purchaseMonth, first + count - 1)]
  }

  /** The sales of a month's entry are the revenue of the sales of that month, and its purchases
      the total of the purchases of that month. */
  lemma MonthEntrySpec(sales: seq<Sale>, purchases: seq<Purchase>,
                       saleMonth: Sale -> int, purchaseMonth: Purchase -> int, month: int)
    ensures MonthEntryOf(sales, purchases, saleMonth, purchaseMonth, month).sales
         == Revenue(Filter(sales, InMonths(saleMonth, month, 1)))
    ensures MonthEntryOf(sales, purchases, saleMonth, purchaseMonth, month).purchases
         == PurchaseTotal(Filter(purchases, InMonths(purchaseMonth, month, 1)))
  {
    MonthsTotalIsFilteredSum(sales, saleMonth, (s: Sale) => s.total, month, 1);
    MonthsTotalIsFilteredSum(purchases, purchaseMonth, (u: Purchase) => u.total, month, 1);
  }

  /** Entry `k` of the series is the entry of month `first + k`. */
  lemma {:induction false} MonthlySeriesAt(sales: seq<Sale>, purchases: seq<Purchase>,
                                           saleMonth: Sale -> int, purchaseMonth: Purchase -> int, first: int, count: nat, k: int)
    requires 0 <= k < count
    ensures MonthlySeries(sales, purchases, saleMonth, purchaseMonth, first, count)[k]
         == MonthEntryOf(sales, purchases, saleMonth, purchaseMonth, first + k)
  {
    if k < count - 1 {
      MonthlySeriesAt(sales, purchases, saleMonth, purchaseMonth, first, count - 1, k);
    }
  }

  /** The month of a sale and of a purchase: `getFullYear()` and `getMonth()` together. */
  function SaleMonth(s: Sale): int { MonthIndex(s.createdAt) }
  function PurchaseMonth(u: Purchase): int { MonthIndex(u.createdAt) }

  /** The `for (let i = 5; i >= 0; i--)` loop building `monthlyData`: the month `i` months before
      the month of `now`, for `i` from 5 down to 0. */
  method MonthlyData(sales: seq<Sale>, purchases: seq<Purchase>, now: Timestamp) returns (data: seq<MonthEntry>)
    ensures data == MonthlySeries(sales, purchases, SaleMonth, PurchaseMonth, MonthIndex(now) - 5, 6)
  {
    var current := MonthIndex(now);
    data := [];
    var i := 5;
    while i >= 0
      invariant -1 <= i <= 5
      invariant data == MonthlySeries(sales, purchases, SaleMonth, PurchaseMonth, current - 5, 5 - i)
    {
      data := data + [MonthEntryOf(sales, purchases, SaleMonth, PurchaseMonth, current - i)];
      i := i - 1;
    }
  }

  function EntrySales(e: MonthEntry): real { e.sales }
  function EntryPurchases(e: MonthEntry): real { e.purchases }
  function EntryProfit(e: MonthEntry): real { e.Profit() }

  /** Over `count` months the monthly sales add up to the sales total of those months, and the
      monthly purchases to their purchases total. */
  lemma {:induction false} MonthlySeriesAddsUp(sales: seq<Sale>, purchases: seq<Purchase>,
                                               saleMonth: Sale -> int, purchaseMonth: Purchase -> int, first: int, count: nat)
    ensures Sum(MonthlySeries(sales, purchases, saleMonth, purchaseMonth, first, count), EntrySales)
         == MonthsTotal(sales, saleMonth, (s: Sale) => s.total, first, count)
    ensures Sum(MonthlySeries(sales, purchases, saleMonth, purchaseMonth, first, count), EntryPurchases)
         == MonthsTotal(purchases, purchaseMonth, (u: Purchase) => u.total, first, count)
  {
    if count == 0 {
      MonthsTotalNone(sales, saleMonth, (s: Sale) => s.total, first);
      MonthsTotalNone(purchases, purchaseMonth, (u: Purchase) => u.total, first);
    } else {
      var c := count - 1;
      var e := MonthEntryOf(sales, purchases, saleMonth, purchaseMonth, first + c);
      var m := MonthlySeries(sales, purchases, saleMonth, purchaseMonth, first, c);
      MonthlySeriesAddsUp(sales, purchases, saleMonth, purchaseMonth, first, c);
      SumAppend(m, [e], EntrySales);
      SumAppend(m, [e], EntryPurchases);
      assert [e][1..] == [];
      MonthsTotalSplit(sales, saleMonth, (s: Sale) => s.total, first, c);
      MonthsTotalSplit(purchases, purchaseMonth, (u: Purchase) => u.total, first, c);
    }
  }

  /** No month, no total. */
  lemma {:induction false} MonthsTotalNone<T>(s: seq<T>, monthOf: T -> int, amount: T -> real, first: int)
    ensures MonthsTotal(s, monthOf, amount, first, 0) == 0.0
  {
    if s != [] {
      MonthsTotalNone(s[1..], monthOf, amount, first);
    }
  }

  /** The monthly profits add up to the monthly sales less the monthly purchases. */
  lemma {:induction false} MonthlyProfitsAddUp(m: seq<MonthEntry>)
    ensures Sum(m, EntryProfit) == Sum(m, EntrySales) - Sum(m, EntryPurchases)
  {
    if m != [] {
      MonthlyProfitsAddUp(m[1..]);
    }
  }

  /** When every sale and purchase falls in the six months shown, the six monthly profits add up
      to the gross profit. */
  lemma SixMonthsCoverGrossProfit(sales: seq<Sale>, purchases: seq<Purchase>,
                                  saleMonth: Sale -> int, purchaseMonth: Purchase -> int, first: int)
    requires forall s :: s in sales ==> first <= saleMonth(s) < first + 6
    requires forall u :: u in purchases ==> first <= purchaseMonth(u) < first + 6
    ensures Sum(MonthlySeries(sales, purchases, saleMonth, purchaseMonth, first, 6), EntryProfit) == GrossProfit(sales, purchases)
  {
    MonthlySeriesAddsUp(sales, purchases, saleMonth, purchaseMonth, first, 6);
    MonthlyProfitsAddUp(MonthlySeries(sales, purchases, saleMonth, purchaseMonth, first, 6));
    MonthsTotalAll(sales, saleMonth, (s: Sale) => s.total, first, 6);
    MonthsTotalAll(purchases, purchaseMonth, (u: Purchase) => u.total, first, 6);
  }

  // ---------------------------------------------------------------------------------------
  // Top products and sale lines.

  /** A row of the top-products list: name, units sold and revenue. */
  datatype ReportRow = ReportRow(name: string, quantity: int, revenue: real)

  function ReportRowOf(p: ProductStat): ReportRow
  {
    ReportRow(p.name, p.quantity, p.revenue)
  }

  function ReportRevenue(r: ReportRow): real { r.revenue }

  /** `topProducts`: the five products with the highest revenue. */
  method TopProducts(sales: seq<Sale>) returns (top: seq<ReportRow>)
    ensures top == TopProductRows(TallyLines(LineRefs(sales)), ReportRowOf, ReportRevenue, 5)
    ensures IsTopProductRows(top, LineRefs(sales), ReportRowOf, ReportRevenue, 5)
  {
    var t := TallyProducts(sales);
    top := TopProductRows(t, ReportRowOf, ReportRevenue, 5);
    TopProductRowsSpec(LineRefs(sales), ReportRowOf, ReportRevenue, 5);
  }

  /** "Top performing product": the name of the first row, or "N/A". */
  function TopPerformer(top: seq<ReportRow>): (r: string)
    ensures top == [] || top[0].name == "" ==> r == "N/A"
    ensures top != [] && top[0].name != "" ==> r == top[0].name
    ensures r == "N/A" || (top != [] && r == top[0].name)
  {
    if top != [] && top[0].name != "" then top[0].name else "N/A"
  }

  /** "Products Sold": `sales.reduce((sum, sale) => sum + sale.products.length, 0)`. */
  function ProductsSold(sales: seq<Sale>): nat
  {
    if sales == [] then 0 else ProductsSold(sales[..|sales| - 1]) + |sales[|sales| - 1].products|
  }

  /** "Products Sold" counts sale lines, one per line whatever its quantity. */
  lemma {:induction false} ProductsSoldCountsLines(sales: seq<Sale>)
    ensures ProductsSold(sales) == |LineRefs(sales)|
  {
    if sales != [] {
      ProductsSoldCountsLines(sales[..|sales| - 1]);
    }
  }

  // ---------------------------------------------------------------------------------------
  // Repeat customers and retention.

  /** The customers with more than one sale. */
  function RepeatCustomers(customers: seq<Customer>, sales: seq<Sale>): seq<Customer>
  {
    Filter(customers, (c: Customer) => |SalesOf(sales, c.id)| > 1)
  }

  /** "Customer Retention": repeat customers over all customers, 0 without customers. */
  function Retention(customers: seq<Customer>, sales: seq<Sale>): real
  {
    Percent(|RepeatCustomers(customers, sales)| as real, |customers| as real)
  }

  /** A customer is a repeat customer exactly when they have at least two sales; the retention rate
      is a percentage, and 0 without customers. */
  lemma RetentionSpec(customers: seq<Customer>, sales: seq<Sale>)
    ensures forall c :: c in RepeatCustomers(customers, sales) <==> c in customers && |SalesOf(sales, c.id)| >= 2
    ensures customers == [] ==> Retention(customers, sales) == 0.0
    ensures 0.0 <= Retention(customers, sales) <= 100.0
  {
    forall c | c in customers && |SalesOf(sales, c.id)| >= 2
      ensures c in RepeatCustomers(customers, sales)
    {
      var i :| 0 <= i < |customers| && customers[i] == c;
    }
  }

  /** The sales filed under the customers' identifiers, counted customer by customer. */
  function Claimed(customers: seq<Customer>, sales: seq<Sale>): nat
  {
    if customers == [] then 0 else |SalesOf(sales, customers[0].id)| + Claimed(customers[1..], sales)
  }

  /** Each repeat customer claims at least two sales. */
  lemma {:induction false} RepeatClaimsTwo(customers: seq<Customer>, sales: seq<Sale>)
    ensures 2 * |RepeatCustomers(customers, sales)| <= Claimed(customers, sales)
  {
    if customers != [] {
      RepeatClaimsTwo(customers[1..], sales);
    }
  }

  function NotOf(customerId: string): Sale -> bool
  {
    (s: Sale) => s.customerId != customerId
  }

  /** Customers with distinct identifiers claim each sale at most once. */
  lemma {:induction false} ClaimedAtMostSales(customers: seq<Customer>, sales: seq<Sale>)
    requires UniqueIds(customers, CustomerId)
    ensures Claimed(customers, sales) <= |sales|
  {
    if customers != [] {
      var c := customers[0];
      var rest := customers[1..];
      var others := Filter(sales, NotOf(c.id));
      assert UniqueIds(rest, CustomerId) by {
        forall i, j | 0 <= i < j < |rest|
          ensures CustomerId(rest[i]) != CustomerId(rest[j])
        {
          assert rest[i] == customers[i + 1] && rest[j] == customers[j + 1];
        }
      }
      ClaimedAtMostSales(rest, others);
      FilterSplitCount(sales, (s: Sale) => s.customerId == c.id, NotOf(c.id));
      ClaimedIgnoresOthers(rest, sales, c.id);
    }
  }

  /** Removing the sales of an identifier none of the customers has leaves their claims as they were. */
  lemma {:induction false} ClaimedIgnoresOthers(customers: seq<Customer>, sales: seq<Sale>, id: string)
    requires forall i :: 0 <= i < |customers| ==> customers[i].id != id
    ensures Claimed(customers, Filter(sales, NotOf(id))) == Claimed(customers, sales)
  {
    if customers != [] {
      var d := customers[0].id;
      FilterNested(sales, (s: Sale) => s.customerId == d, NotOf(id));
      ClaimedIgnoresOthers(customers[1..], sales, id);
    }
  }

  /** With distinct customer identifiers there are at most half as many repeat customers as sales,
      so the retention rate can only be high when sales outnumber customers. */
  lemma RepeatCustomersBounded(customers: seq<Customer>, sales: seq<Sale>)
    requires UniqueIds(customers, CustomerId)
    ensures 2 * |RepeatCustomers(customers, sales)| <= |sales|
    ensures |RepeatCustomers(customers, sales)| <= |customers|
  {
    RepeatClaimsTwo(customers, sales);
    ClaimedAtMostSales(customers, sales);
  }
}
