/** A customer's account statement: the customer's sales within a date window, newest first,
    and a running balance folded over them starting from the customer's stored balance. */
module Statement {
  import opened Seqs
  import opened Sorting
  import opened Clock
  import opened Ledger

  /** A sale of the selected customer made between the window's two instants, both included. */
  predicate InWindow(s: Sale, selected: string, start: Timestamp, end: Timestamp)
  {
    s.customerId == selected && start <= s.createdAt <= end
  }

  /** `customerSales`: nothing while no customer is selected; otherwise the customer's sales in the
      window, newest first. */
  function CustomerSales(sales: seq<Sale>, selected: string, start: Timestamp, end: Timestamp): seq<Sale>
  {
    if selected == "" then []
    else SortDesc(Filter(sales, (s: Sale) => InWindow(s, selected, start, end)), CreatedKey)
  }

  lemma CustomerSalesSpec(sales: seq<Sale>, selected: string, start: Timestamp, end: Timestamp)
    ensures selected == "" ==> CustomerSales(sales, selected, start, end) == []
    ensures selected != "" ==> forall s ::
      s in CustomerSales(sales, selected, start, end) <==> s in sales && InWindow(s, selected, start, end)
    ensures selected != "" ==>
      multiset(CustomerSales(sales, selected, start, end))
        == multiset(Filter(sales, (s: Sale) => InWindow(s, selected, start, end)))
    ensures var r := CustomerSales(sales, selected, start, end);
      forall i, j :: 0 <= i < j < |r| ==> r[i].createdAt >= r[j].createdAt
  {
    var r := CustomerSales(sales, selected, start, end);
    if selected != "" {
      var f := Filter(sales, (s: Sale) => InWindow(s, selected, start, end));
      forall s
        ensures s in r <==> s in sales && InWindow(s, selected, start, end)
      {
        SortDescMembers(f, CreatedKey, s);
        if s in sales && InWindow(s, selected, start, end) {
          var i :| 0 <= i < |sales| && sales[i] == s;
        }
      }
    }
    CustomerSalesNewestFirst(sales, selected, start, end);
  }

  /** The statement's sales are newest first. */
  lemma CustomerSalesNewestFirst(sales: seq<Sale>, selected: string, start: Timestamp, end: Timestamp)
    ensures var r := CustomerSales(sales, selected, start, end);
      forall i, j :: 0 <= i < j < |r| ==> r[i].createdAt >= r[j].createdAt
  {
    var r := CustomerSales(sales, selected, start, end);
    forall i, j | 0 <= i < j < |r|
      ensures r[i].createdAt >= r[j].createdAt
    {
      assert CreatedKey(r[i]) >= CreatedKey(r[j]);
    }
  }

  /** With the end date given as a bare date, the window closes at that day's midnight: a sale
      made later on the end day falls outside it. */
  lemma EndDayExcluded(s: Sale, selected: string, start: Timestamp, endDay: int)
    requires Day(s.createdAt) == endDay && s.createdAt > Midnight(endDay)
    ensures !InWindow(s, selected, start, Midnight(endDay))
  {
  }

  /** `selectedCustomerData?.balance || 0` */
  function Baseline(customers: seq<Customer>, selected: string): real
  {
    match CustomerById(customers, selected)
    case Some(c) => c.balance
    case None => 0.0
  }

  /** What a sale adds to the balance: nothing if it is paid, its total otherwise. */
  function Charge(s: Sale): real
  {
    if s.paymentStatus == Paid then 0.0 else s.total
  }

  /** A statement line: the sale and the balance before and after it. */
  datatype StatementEntry = StatementEntry(sale: Sale, balanceBefore: real, balanceAfter: real)

  /** The balance folded over the sales in the given (newest-first) order, starting at `balance`. */
  function Fold(sales: seq<Sale>, balance: real): (r: seq<StatementEntry>)
    ensures |r| == |sales|
  {
    if sales == [] then []
    else
      var after := balance + Charge(sales[0]);
      [StatementEntry(sales[0], balance, after)] + Fold(sales[1..], after)
  }

  lemma UnpaidCons(x: Sale, t: seq<Sale>)
    ensures Revenue(Unpaid([x] + t)) == Charge(x) + Revenue(Unpaid(t))
  {
    assert ([x] + t)[1..] == t;
    var head := if x.paymentStatus != Paid then [x] else [];
    assert Unpaid([x] + t) == head + Unpaid(t);
    SumAppend(head, Unpaid(t), (s: Sale) => s.total);
    assert head == [] || head[1..] == [];
  }

  /** What the sales add to the balance, sale by sale. */
  function Charges(sales: seq<Sale>): real
  {
    if sales == [] then 0.0 else Charge(sales[0]) + Charges(sales[1..])
  }

  lemma {:induction false} ChargesSnoc(t: seq<Sale>, x: Sale)
    ensures Charges(t + [x]) == Charges(t) + Charge(x)
  {
    if t == [] {
      assert t + [x] == [x] && [x][1..] == [];
    } else {
      assert (t + [x])[1..] == t[1..] + [x];
      ChargesSnoc(t[1..], x);
    }
  }

  /** The sales add to the balance exactly the totals of the unpaid ones. */
  lemma {:induction false} ChargesAreUnpaidTotals(sales: seq<Sale>)
    ensures Charges(sales) == Revenue(Unpaid(sales))
  {
    if sales != [] {
      ChargesAreUnpaidTotals(sales[1..]);
      assert sales == [sales[0]] + sales[1..];
      UnpaidCons(sales[0], sales[1..]);
    }
  }

  /** The `i`-th folded entry: before it, the baseline plus the charges of the sales ahead of it;
      after it, the same including its own. */
  lemma {:induction false} FoldAt(sales: seq<Sale>, balance: real, i: int)
    requires 0 <= i < |sales|
    ensures Fold(sales, balance)[i] == StatementEntry(sales[i],
      balance + Charges(sales[..i]), balance + Charges(sales[..i + 1]))
  {
    var c := Charge(sales[0]);
    var tail := sales[1..];
    assert Fold(sales, balance) == [StatementEntry(sales[0], balance, balance + c)] + Fold(tail, balance + c);
    if i == 0 {
      assert sales[..1] == [sales[0]] && [sales[0]][1..] == [];
      assert sales[..0] == [];
    } else {
      FoldAt(tail, balance + c, i - 1);
      assert sales[..i][1..] == tail[..i - 1];
      assert sales[..i + 1][1..] == tail[..i];
    }
  }

  /** Each entry is its sale's, and adds that sale's charge. */
  lemma FoldEntry(sales: seq<Sale>, balance: real, i: int)
    requires 0 <= i < |sales|
    ensures Fold(sales, balance)[i].sale == sales[i]
    ensures Fold(sales, balance)[i].balanceAfter == Fold(sales, balance)[i].balanceBefore + Charge(sales[i])
  {
    FoldAt(sales, balance, i);
    assert sales[..i + 1] == sales[..i] + [sales[i]];
    ChargesSnoc(sales[..i], sales[i]);
  }

  /** Each entry starts where the one before it ended. */
  lemma FoldLink(sales: seq<Sale>, balance: real, i: int)
    requires 0 <= i < |sales| - 1
    ensures Fold(sales, balance)[i + 1].balanceBefore == Fold(sales, balance)[i].balanceAfter
  {
    FoldAt(sales, balance, i);
    FoldAt(sales, balance, i + 1);
  }

  /** The fold starts at the baseline and ends at the baseline plus every unpaid total. */
  lemma FoldEnds(sales: seq<Sale>, balance: real)
    requires sales != []
    ensures Fold(sales, balance)[0].balanceBefore == balance
    ensures Fold(sales, balance)[|sales| - 1].balanceAfter == balance + Revenue(Unpaid(sales))
  {
    FoldAt(sales, balance, 0);
    FoldAt(sales, balance, |sales| - 1);
    assert sales[..0] == [];
    assert sales[..|sales|] == sales;
    ChargesAreUnpaidTotals(sales);
  }

  /** The fold starts at the baseline, each entry adds its sale's charge, each entry starts where
      the one before it ended, and the last ends at the baseline plus every unpaid total. */
  lemma FoldChain(sales: seq<Sale>, balance: real)
    ensures var f := Fold(sales, balance);
      && (sales != [] ==> f[0].balanceBefore == balance)
      && (forall i :: 0 <= i < |sales| ==>
            f[i].sale == sales[i] && f[i].balanceAfter == f[i].balanceBefore + Charge(sales[i]))
      && (forall i :: 0 <= i < |sales| - 1 ==> f[i + 1].balanceBefore == f[i].balanceAfter)
      && (sales != [] ==> f[|sales| - 1].balanceAfter == balance + Revenue(Unpaid(sales)))
  {
    forall i | 0 <= i < |sales| {
      FoldEntry(sales, balance, i);
    }
    forall i | 0 <= i < |sales| - 1 {
      FoldLink(sales, balance, i);
    }
    if sales != [] {
      FoldEnds(sales, balance);
    }
  }

  /** `salesWithBalance`: the running balance carried through the sales in their given order,
      then reversed for display. */
  method RunningBalance(customerSales: seq<Sale>, baseline: real) returns (entries: seq<StatementEntry>)
    ensures entries == Reverse(Fold(customerSales, baseline))
  {
    var runningBalance := baseline;
    var folded: seq<StatementEntry> := [];
    for i := 0 to |customerSales|
      invariant |folded| == i
      invariant forall k :: 0 <= k < i ==> folded[k] == Fold(customerSales, baseline)[k]
      invariant runningBalance == baseline + Charges(customerSales[..i])
    {
      var sale := customerSales[i];
      var entry := StatementEntry(sale, runningBalance,
                                  runningBalance + (if sale.paymentStatus == Paid then 0.0 else sale.total));
      FoldAt(customerSales, baseline, i);
      assert customerSales[..i + 1] == customerSales[..i] + [sale];
      ChargesSnoc(customerSales[..i], sale);
      runningBalance := entry.balanceAfter;
      folded := folded + [entry];
    }
    assert folded == Fold(customerSales, baseline);
    entries := Reverse(folded);
  }

  /** The folded lines of sales given newest first, reversed for display: one line per sale,
      oldest first; the newest line (shown last) starts from the baseline, each line starts where
      the line below it ends, and the oldest line (shown first) ends at the baseline plus every
      unpaid total. */
  lemma StatementLines(cs: seq<Sale>, b: real)
    requires forall i, j :: 0 <= i < j < |cs| ==> cs[i].createdAt >= cs[j].createdAt
    ensures var e := Reverse(Fold(cs, b));
      && |e| == |cs|
      && (forall k :: 0 <= k < |e| - 1 ==> e[k].sale.createdAt <= e[k + 1].sale.createdAt)
      && (forall k :: 0 <= k < |e| - 1 ==> e[k].balanceBefore == e[k + 1].balanceAfter)
      && (e != [] ==> e[|e| - 1].balanceBefore == b)
      && (e != [] ==> e[0].balanceAfter == b + Revenue(Unpaid(cs)))
  {
    StatementOrder(cs, b);
    StatementBalances(cs, b);
  }

  lemma StatementOrder(cs: seq<Sale>, b: real)
    requires forall i, j :: 0 <= i < j < |cs| ==> cs[i].createdAt >= cs[j].createdAt
    ensures var e := Reverse(Fold(cs, b));
      forall k :: 0 <= k < |e| - 1 ==> e[k].sale.createdAt <= e[k + 1].sale.createdAt
  {
    var f := Fold(cs, b);
    forall i | 0 <= i < |cs|
      ensures f[i].sale == cs[i]
    {
      FoldEntry(cs, b, i);
    }
    ReversedOldestFirst(f);
  }

  /** Lines newest first, reversed, are oldest first. */
  lemma ReversedOldestFirst(f: seq<StatementEntry>)
    requires forall i, j :: 0 <= i < j < |f| ==> f[i].sale.createdAt >= f[j].sale.createdAt
    ensures var e := Reverse(f);
      forall k :: 0 <= k < |e| - 1 ==> e[k].sale.createdAt <= e[k + 1].sale.createdAt
  {
    var e := Reverse(f);
    forall k | 0 <= k < |e| - 1
      ensures e[k].sale.createdAt <= e[k + 1].sale.createdAt
    {
      assert e[k] == f[|f| - 1 - k] && e[k + 1] == f[|f| - 2 - k];
    }
  }

  lemma StatementBalances(cs: seq<Sale>, b: real)
    ensures var e := Reverse(Fold(cs, b));
      && (forall k :: 0 <= k < |e| - 1 ==> e[k].balanceBefore == e[k + 1].balanceAfter)
      && (e != [] ==> e[|e| - 1].balanceBefore == b)
      && (e != [] ==> e[0].balanceAfter == b + Revenue(Unpaid(cs)))
  {
    var f := Fold(cs, b);
    var e := Reverse(f);
    forall k | 0 <= k < |e| - 1
      ensures e[k].balanceBefore == e[k + 1].balanceAfter
    {
      var j := |cs| - 2 - k;
      assert e[k] == f[j + 1] && e[k + 1] == f[j];
      FoldLink(cs, b, j);
    }
    if cs != [] {
      FoldEnds(cs, b);
    }
  }

  /** The statement as displayed: the customer's sales in the window, oldest first, with the
      stored balance under the newest sale, not the oldest. */
  lemma DisplayedStatement(customers: seq<Customer>, sales: seq<Sale>, selected: string,
                           start: Timestamp, end: Timestamp)
    ensures var cs := CustomerSales(sales, selected, start, end);
      var e := Reverse(Fold(cs, Baseline(customers, selected)));
      && |e| == |cs|
      && (forall k :: 0 <= k < |e| - 1 ==> e[k].sale.createdAt <= e[k + 1].sale.createdAt)
      && (forall k :: 0 <= k < |e| - 1 ==> e[k].balanceBefore == e[k + 1].balanceAfter)
      && (e != [] ==> e[|e| - 1].balanceBefore == Baseline(customers, selected))
      && (e != [] ==> e[0].balanceAfter == Baseline(customers, selected) + Revenue(Unpaid(cs)))
  {
    CustomerSalesNewestFirst(sales, selected, start, end);
    StatementLines(CustomerSales(sales, selected, start, end), Baseline(customers, selected));
  }

  /** A stored balance of 100 and one pending sale of 220 give a line from 100 to 320. */
  lemma OnePendingSaleExample(c: Customer, s: Sale)
    requires c.balance == 100.0 && s.total == 220.0 && s.paymentStatus == Pending
    ensures Fold([s], Baseline([c], c.id)) == [StatementEntry(s, 100.0, 320.0)]
  {
    assert [c][0] == c;
  }

  /** Two unpaid sales of 10 (older) and 20 (newer) over a stored balance of 100: shown oldest
      first, the older line runs from 120 to 130 and the newer from 100 to 120. */
  lemma TwoUnpaidSalesExample(older: Sale, newer: Sale)
    requires older.paymentStatus == Pending && older.total == 10.0
    requires newer.paymentStatus == Partial && newer.total == 20.0
    ensures Reverse(Fold([newer, older], 100.0))
         == [StatementEntry(older, 120.0, 130.0), StatementEntry(newer, 100.0, 120.0)]
  {
    assert [newer, older][1..] == [older];
    assert [older][1..] == [];
  }
}
