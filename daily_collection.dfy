/** The daily collection sheet: the sales of one calendar day split by payment status, what was
    collected and what is outstanding, and an illustrative split of the collected cash over
    three payment methods in fixed proportions. */
module DailyCollection {
  import opened Seqs
  import opened Clock
  import opened Ledger

  /** `dailySales`: the sales made on the selected date's calendar day. */
  function DailySales(sales: seq<Sale>, selectedDate: Timestamp): seq<Sale>
  {
    Filter(sales, (s: Sale) => Day(s.createdAt) == Day(selectedDate))
  }

  /** A sale is on the sheet exactly when it was made between the selected day's midnight and the
      next one. */
  lemma DailySalesSpec(sales: seq<Sale>, selectedDate: Timestamp)
    ensures forall s :: s in DailySales(sales, selectedDate) <==>
      s in sales && Midnight(Day(selectedDate)) <= s.createdAt < Midnight(Day(selectedDate) + 1)
    ensures IsSubsequence(DailySales(sales, selectedDate), sales)
  {
    forall s
      ensures s in DailySales(sales, selectedDate) <==>
        s in sales && Midnight(Day(selectedDate)) <= s.createdAt < Midnight(Day(selectedDate) + 1)
    {
      DayOfInstant(Day(selectedDate), s.createdAt);
      if s in sales && Day(s.createdAt) == Day(selectedDate) {
        var i :| 0 <= i < |sales| && sales[i] == s;
      }
    }
    FilterIsSubsequence(sales, (s: Sale) => Day(s.createdAt) == Day(selectedDate));
  }

  datatype DailyTotals = DailyTotals(
    totalSales: real, totalCollected: real, totalPending: real, totalPartial: real,
    paidCount: nat, pendingCount: nat, partialCount: nat)

  function Totals(daily: seq<Sale>): DailyTotals
  {
    DailyTotals(Revenue(daily),
      Revenue(WithStatus(daily, Paid)), Revenue(WithStatus(daily, Pending)), Revenue(WithStatus(daily, Partial)),
      |WithStatus(daily, Paid)|, |WithStatus(daily, Pending)|, |WithStatus(daily, Partial)|)
  }

  /** The outstanding amount on the sheet. */
  function Outstanding(t: DailyTotals): real
  {
    t.totalPending + t.totalPartial
  }

  /** `totalCollected / totalSales * 100`, or 0 on a day without sales. */
  function CollectionRate(t: DailyTotals): real
  {
    Percent(t.totalCollected, t.totalSales)
  }

  /** Paid, pending and partial split the day: their counts add up to the number of sales, their
      amounts to the day's total, and what is outstanding is what was not collected. With
      non-negative totals the collection rate is a percentage. */
  lemma TotalsAddUp(daily: seq<Sale>)
    ensures var t := Totals(daily);
      && t.paidCount + t.pendingCount + t.partialCount == |daily|
      && t.totalCollected + t.totalPending + t.totalPartial == t.totalSales
      && Outstanding(t) == t.totalSales - t.totalCollected
      && (t.totalSales == 0.0 ==> CollectionRate(t) == 0.0)
      && ((forall s :: s in daily ==> s.total >= 0.0) ==> 0.0 <= CollectionRate(t) <= 100.0)
  {
    StatusPartition(daily);
    if forall s :: s in daily ==> s.total >= 0.0 {
      SumFilterBounded(daily, (s: Sale) => s.paymentStatus == Paid, (s: Sale) => s.total);
    }
  }

  datatype PaymentMethod = PaymentMethod(name: string, amount: real, transactions: int)

  /** `paymentMethods`: 60% cash, 30% card and 10% transfer, with the paid-sale count split in the
      same proportions and rounded down. */
  function PaymentMethods(totalCollected: real, paidCount: nat): seq<PaymentMethod>
  {
    [ PaymentMethod("Cash", totalCollected * 0.6, (paidCount * 6) / 10),
      PaymentMethod("Card", totalCollected * 0.3, (paidCount * 3) / 10),
      PaymentMethod("Transfer", totalCollected * 0.1, paidCount / 10) ]
  }

  /** A method's share of the collected amount, 0 when nothing was collected. */
  function Share(m: PaymentMethod, totalCollected: real): real
  {
    Percent(m.amount, totalCollected)
  }

  /** The three amounts add up to what was collected, the rounded-down transaction counts to at
      most the number of paid sales, and the shares are 60, 30 and 10 percent (all 0 when
      nothing was collected). */
  lemma PaymentMethodsSplit(totalCollected: real, paidCount: nat)
    ensures var ms := PaymentMethods(totalCollected, paidCount);
      && ms[0].amount + ms[1].amount + ms[2].amount == totalCollected
      && 0 <= ms[0].transactions + ms[1].transactions + ms[2].transactions <= paidCount
      && (totalCollected == 0.0 ==> forall i :: 0 <= i < 3 ==> Share(ms[i], totalCollected) == 0.0)
      && (totalCollected > 0.0 ==>
            Share(ms[0], totalCollected) == 60.0 && Share(ms[1], totalCollected) == 30.0
            && Share(ms[2], totalCollected) == 10.0)
  {
    var n := paidCount;
    assert (n * 6) / 10 * 10 <= n * 6;
    assert (n * 3) / 10 * 10 <= n * 3;
    assert n / 10 * 10 <= n;
  }

  lemma RevenueOfOne(x: Sale)
    ensures Revenue([x]) == x.total
    ensures WithStatus([x], x.paymentStatus) == [x]
    ensures forall st :: st != x.paymentStatus ==> WithStatus([x], st) == []
  {
    assert [x][1..] == [];
    assert Sum([x], (s: Sale) => s.total) == x.total + Sum([], (s: Sale) => s.total);
  }

  /** Three sales on one day of 50 (paid), 30 (pending) and 20 (partial): 100 sold, 50 collected,
      50 outstanding, a collection rate of 50%. */
  lemma DayExample(a: Sale, b: Sale, c: Sale)
    requires a.total == 50.0 && a.paymentStatus == Paid
    requires b.total == 30.0 && b.paymentStatus == Pending
    requires c.total == 20.0 && c.paymentStatus == Partial
    ensures var t := Totals([a, b, c]);
      t.totalSales == 100.0 && t.totalCollected == 50.0 && Outstanding(t) == 50.0 && CollectionRate(t) == 50.0
  {
    var s := [a, b, c];
    assert s == [a] + [b] + [c];
    RevenueOfOne(a);
    RevenueOfOne(b);
    RevenueOfOne(c);
    FilterAppend([a] + [b], [c], (x: Sale) => x.paymentStatus == Paid);
    FilterAppend([a], [b], (x: Sale) => x.paymentStatus == Paid);
    SumAppend([a] + [b], [c], (x: Sale) => x.total);
    SumAppend([a], [b], (x: Sale) => x.total);
    assert WithStatus(s, Paid) == [a];
    TotalsAddUp(s);
  }
}
