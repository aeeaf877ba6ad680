/** Receivables per customer: what each customer has bought, what is still unpaid, which customers
    owe something, which of them have a sale unpaid for more than 30 days, and their latest
    unpaid sale. */
module Receivables {
  import opened Seqs
  import opened Sorting
  import opened Clock
  import opened Ledger

  /** A customer together with their sales figures. */
  datatype Receivable = Receivable(customer: Customer, totalSales: real, totalOutstanding: real, unpaidSales: seq<Sale>)

  function ReceivableOf(c: Customer, sales: seq<Sale>): Receivable
  {
    var own := SalesOf(sales, c.id);
    Receivable(c, Revenue(own), Revenue(Unpaid(own)), Unpaid(own))
  }

  /** `customers.map(...)`: one receivable per customer, in customer order. */
  function AllReceivables(customers: seq<Customer>, sales: seq<Sale>): (r: seq<Receivable>)
    ensures |r| == |customers|
    ensures forall i :: 0 <= i < |customers| ==> r[i] == ReceivableOf(customers[i], sales)
  {
    if customers == [] then []
    else [ReceivableOf(customers[0], sales)] + AllReceivables(customers[1..], sales)
  }

  function Owes(r: Receivable): bool
  {
    r.totalOutstanding > 0.0
  }

  /** `receivables`: the customers with something outstanding. */
  function Receivables(customers: seq<Customer>, sales: seq<Sale>): seq<Receivable>
  {
    Filter(AllReceivables(customers, sales), Owes)
  }

  /** `totalReceivables` */
  function TotalReceivables(rs: seq<Receivable>): real
  {
    Sum(rs, (r: Receivable) => r.totalOutstanding)
  }

  const OverdueAfter: int := 30 * MsPerDay

  /** Some unpaid sale is more than 30 days old at `now`. */
  predicate IsOverdue(r: Receivable, now: Timestamp)
  {
    exists i :: 0 <= i < |r.unpaidSales| && now - r.unpaidSales[i].createdAt > OverdueAfter
  }

  /** `overdueReceivables` */
  function Overdue(rs: seq<Receivable>, now: Timestamp): seq<Receivable>
  {
    Filter(rs, (r: Receivable) => IsOverdue(r, now))
  }

  /** A customer's outstanding amount is the sum of totals of their sales that are not paid, and
      with non-negative totals it lies between 0 and what they bought. */
  lemma OutstandingBounded(c: Customer, sales: seq<Sale>)
    requires forall s :: s in sales ==> s.total >= 0.0
    ensures 0.0 <= ReceivableOf(c, sales).totalOutstanding <= ReceivableOf(c, sales).totalSales
  {
    var own := SalesOf(sales, c.id);
    assert forall s :: s in own ==> s in sales;
    UnpaidBounded(own);
  }

  /** The receivables list keeps customer order and holds exactly the customers that owe something. */
  lemma ReceivablesSpec(customers: seq<Customer>, sales: seq<Sale>)
    ensures IsSubsequence(Receivables(customers, sales), AllReceivables(customers, sales))
    ensures forall r :: r in Receivables(customers, sales) <==>
      exists i :: 0 <= i < |customers| && r == ReceivableOf(customers[i], sales) && r.totalOutstanding > 0.0
  {
    FilterIsSubsequence(AllReceivables(customers, sales), Owes);
    forall r | r in Receivables(customers, sales)
      ensures exists i :: 0 <= i < |customers| && r == ReceivableOf(customers[i], sales) && r.totalOutstanding > 0.0
    {
      ListedOwes(customers, sales, r);
    }
    forall i | 0 <= i < |customers| && ReceivableOf(customers[i], sales).totalOutstanding > 0.0
      ensures ReceivableOf(customers[i], sales) in Receivables(customers, sales)
    {
      OwingListed(customers, sales, i);
    }
  }

  lemma ListedOwes(customers: seq<Customer>, sales: seq<Sale>, r: Receivable)
    requires r in Receivables(customers, sales)
    ensures exists i :: 0 <= i < |customers| && r == ReceivableOf(customers[i], sales) && r.totalOutstanding > 0.0
  {
    var all := AllReceivables(customers, sales);
    var i :| 0 <= i < |all| && all[i] == r;
    assert r == ReceivableOf(customers[i], sales);
  }

  lemma OwingListed(customers: seq<Customer>, sales: seq<Sale>, i: int)
    requires 0 <= i < |customers| && ReceivableOf(customers[i], sales).totalOutstanding > 0.0
    ensures ReceivableOf(customers[i], sales) in Receivables(customers, sales)
  {
    var all := AllReceivables(customers, sales);
    assert all[i] == ReceivableOf(customers[i], sales);
  }

  /** With sale totals that are not negative, no customer has a negative outstanding amount, so
      the customers the list leaves out owe exactly nothing: the total receivable is the
      outstanding amount summed over every customer, and it is not negative. */
  lemma TotalReceivablesSpec(customers: seq<Customer>, sales: seq<Sale>)
    requires forall s :: s in sales ==> s.total >= 0.0
    ensures TotalReceivables(Receivables(customers, sales))
         == Sum(AllReceivables(customers, sales), (r: Receivable) => r.totalOutstanding)
    ensures TotalReceivables(Receivables(customers, sales)) >= 0.0
  {
    var all := AllReceivables(customers, sales);
    var f := (r: Receivable) => r.totalOutstanding;
    forall r | r in all
      ensures r.totalOutstanding >= 0.0
    {
      var i :| 0 <= i < |all| && all[i] == r;
      OutstandingBounded(customers[i], sales);
    }
    SumFilterDropsZeros(all, Owes, f);
    SumNonNegative(all, f);
  }

  /** A customer is overdue exactly when one of their sales is unpaid and more than 30 days old;
      the overdue list is drawn from the receivables, in order. */
  lemma OverdueSpec(c: Customer, sales: seq<Sale>, rs: seq<Receivable>, now: Timestamp)
    ensures IsOverdue(ReceivableOf(c, sales), now) <==>
      exists s :: s in sales && s.customerId == c.id && s.paymentStatus != Paid && now - s.createdAt > OverdueAfter
    ensures IsSubsequence(Overdue(rs, now), rs)
  {
    var own := SalesOf(sales, c.id);
    var unpaid := Unpaid(own);
    if IsOverdue(ReceivableOf(c, sales), now) {
      var i :| 0 <= i < |unpaid| && now - unpaid[i].createdAt > OverdueAfter;
      assert unpaid[i] in own;
    }
    if exists s :: s in sales && s.customerId == c.id && s.paymentStatus != Paid && now - s.createdAt > OverdueAfter {
      var s :| s in sales && s.customerId == c.id && s.paymentStatus != Paid && now - s.createdAt > OverdueAfter;
      var k :| 0 <= k < |sales| && sales[k] == s;
      assert s in own;
      var j :| 0 <= j < |own| && own[j] == s;
      assert s in unpaid;
      var i :| 0 <= i < |unpaid| && unpaid[i] == s;
    }
    FilterIsSubsequence(rs, (r: Receivable) => IsOverdue(r, now));
  }

  /** A sale filed under an identifier no customer has changes no receivable. */
  lemma UnmatchedSaleContributesNothing(customers: seq<Customer>, sales: seq<Sale>, s: Sale)
    requires forall c :: c in customers ==> c.id != s.customerId
    ensures AllReceivables(customers, sales + [s]) == AllReceivables(customers, sales)
    ensures Receivables(customers, sales + [s]) == Receivables(customers, sales)
  {
    forall i | 0 <= i < |customers|
      ensures ReceivableOf(customers[i], sales + [s]) == ReceivableOf(customers[i], sales)
    {
      var id := customers[i].id;
      FilterAppend(sales, [s], (x: Sale) => x.customerId == id);
      assert Filter([s], (x: Sale) => x.customerId == id) == [];
      assert sales + [s] == sales + [s];
      assert SalesOf(sales + [s], id) == SalesOf(sales, id) + [];
      assert SalesOf(sales, id) + [] == SalesOf(sales, id);
    }
  }

  /** The latest unpaid sale: the first after sorting newest first, or nothing if none is unpaid. */
  function LastSale(unpaidSales: seq<Sale>): Option<Sale>
  {
    if unpaidSales == [] then None else Some(SortDesc(unpaidSales, CreatedKey)[0])
  }

  lemma LastSaleIsNewest(unpaidSales: seq<Sale>)
    ensures LastSale(unpaidSales).None? <==> unpaidSales == []
    ensures LastSale(unpaidSales).Some? ==>
      && LastSale(unpaidSales).value in unpaidSales
      && forall s :: s in unpaidSales ==> s.createdAt <= LastSale(unpaidSales).value.createdAt
  {
    if unpaidSales != [] {
      var r := SortDesc(unpaidSales, CreatedKey);
      SortDescHeadIsMax(unpaidSales, CreatedKey);
      SortDescMembers(unpaidSales, CreatedKey, r[0]);
      forall s | s in unpaidSales
        ensures s.createdAt <= r[0].createdAt
      {
        assert CreatedKey(s) <= CreatedKey(r[0]);
      }
    }
  }
}
