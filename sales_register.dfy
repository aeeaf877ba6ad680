/** The sales register: the sales in a date window whose customer name or identifier contains a
    search term (ignoring case) and whose status passes a filter, with the register's totals,
    status breakdown, items sold, distinct customers, tax rate and window length. */
module SalesRegister {
  import opened Seqs
  import opened Clock
  import opened Ledger

  /** The status drop-down: every status, or one. */
  datatype StatusFilter = AllStatuses | Only(status: PaymentStatus)

  /** `toLowerCase` on one character; only the letters A to Z are folded. */
  function LowerChar(c: char): char
  {
    if 'A' <= c <= 'Z' then (c as int + 32) as char else c
  }

  function Lower(s: string): (r: string)
    ensures |r| == |s|
    ensures forall i :: 0 <= i < |s| ==> r[i] == LowerChar(s[i])
  {
    if s == [] then [] else [LowerChar(s[0])] + Lower(s[1..])
  }

  /** Lower-casing twice is lower-casing once. */
  lemma LowerIdempotent(s: string)
    ensures Lower(Lower(s)) == Lower(s)
  {
    assert forall i :: 0 <= i < |s| ==> LowerChar(LowerChar(s[i])) == LowerChar(s[i]);
  }

  /** `needle` occurs in `hay` starting at index `i`. */
  predicate OccursAt(hay: string, needle: string, i: int)
  {
    0 <= i <= |hay| - |needle| && hay[i..i + |needle|] == needle
  }

  /** `hay.includes(needle)` */
  predicate Contains(hay: string, needle: string)
  {
    exists i :: 0 <= i <= |hay| - |needle| && OccursAt(hay, needle, i)
  }

  predicate MatchesDate(s: Sale, start: Timestamp, end: Timestamp)
  {
    start <= s.createdAt <= end
  }

  predicate MatchesSearch(s: Sale, term: string)
  {
    Contains(Lower(s.customerName), Lower(term)) || Contains(Lower(s.id), Lower(term))
  }

  predicate MatchesStatus(s: Sale, filter: StatusFilter)
  {
    filter.AllStatuses? || s.paymentStatus == filter.status
  }

  predicate Matches(s: Sale, start: Timestamp, end: Timestamp, term: string, filter: StatusFilter)
  {
    MatchesDate(s, start, end) && MatchesSearch(s, term) && MatchesStatus(s, filter)
  }

  /** `filteredSales` */
  function FilteredSales(sales: seq<Sale>, start: Timestamp, end: Timestamp, term: string, filter: StatusFilter): seq<Sale>
  {
    Filter(sales, (s: Sale) => Matches(s, start, end, term, filter))
  }

  /** A sale is listed exactly when it passes the date, search and status tests; the list keeps
      the stored order and is never longer than the stored sales ("Showing n of m"). */
  lemma FilteredSalesSpec(sales: seq<Sale>, start: Timestamp, end: Timestamp, term: string, filter: StatusFilter)
    ensures forall s :: s in FilteredSales(sales, start, end, term, filter) <==>
      s in sales && MatchesDate(s, start, end) && MatchesSearch(s, term) && MatchesStatus(s, filter)
    ensures IsSubsequence(FilteredSales(sales, start, end, term, filter), sales)
    ensures |FilteredSales(sales, start, end, term, filter)| <= |sales|
  {
    forall s
      ensures s in FilteredSales(sales, start, end, term, filter) <==>
        s in sales && MatchesDate(s, start, end) && MatchesSearch(s, term) && MatchesStatus(s, filter)
    {
      if s in sales && Matches(s, start, end, term, filter) {
        var i :| 0 <= i < |sales| && sales[i] == s;
      }
    }
    FilterIsSubsequence(sales, (s: Sale) => Matches(s, start, end, term, filter));
  }

  /** Every string contains the empty string. */
  lemma ContainsEmpty(hay: string)
    ensures Contains(hay, "")
  {
    assert OccursAt(hay, "", 0);
  }

  /** An empty search term and the "all" status leave only the date test. */
  lemma EmptySearchAllStatuses(sales: seq<Sale>, start: Timestamp, end: Timestamp)
    ensures FilteredSales(sales, start, end, "", AllStatuses) == Filter(sales, (s: Sale) => MatchesDate(s, start, end))
  {
    forall s | s in sales
      ensures Matches(s, start, end, "", AllStatuses) <==> MatchesDate(s, start, end)
    {
      ContainsEmpty(Lower(s.customerName));
    }
    FilterCongruent(sales, (s: Sale) => Matches(s, start, end, "", AllStatuses), (s: Sale) => MatchesDate(s, start, end));
  }

  /** The search ignores the case of the term: a term and its lower-case form find the same sales. */
  lemma SearchIgnoresTermCase(s: Sale, term: string)
    ensures MatchesSearch(s, term) <==> MatchesSearch(s, Lower(term))
  {
    LowerIdempotent(term);
  }

  function TotalTax(sales: seq<Sale>): real
  {
    Sum(sales, (s: Sale) => s.tax)
  }

  function TotalSubtotal(sales: seq<Sale>): real
  {
    Sum(sales, (s: Sale) => s.subtotal)
  }

  /** "Tax Rate": tax over subtotal as a percentage, 0 while the subtotal is not positive. */
  function TaxRate(sales: seq<Sale>): real
  {
    Percent(TotalTax(sales), TotalSubtotal(sales))
  }

  lemma {:induction false} TaxIsTenthOfSubtotal(sales: seq<Sale>)
    requires forall s :: s in sales ==> s.tax == s.subtotal * 0.1
    ensures TotalTax(sales) == TotalSubtotal(sales) * 0.1
  {
    if sales != [] {
      TaxIsTenthOfSubtotal(sales[1..]);
    }
  }

  /** Over invoices whose tax is 10% of their subtotal, the register shows a tax rate of 10%
      (or 0 while the subtotal is not positive). */
  lemma TaxRateOfInvoices(sales: seq<Sale>)
    requires forall s :: s in sales ==> s.tax == s.subtotal * 0.1
    ensures TotalSubtotal(sales) > 0.0 ==> TaxRate(sales) == 10.0
    ensures TotalSubtotal(sales) <= 0.0 ==> TaxRate(sales) == 0.0
  {
    TaxIsTenthOfSubtotal(sales);
    if TotalSubtotal(sales) > 0.0 {
      assert TotalTax(sales) / TotalSubtotal(sales) == 0.1;
    }
  }

  function LineQuantities(lines: seq<LineItem>): int
  {
    if lines == [] then 0 else lines[0].quantity + LineQuantities(lines[1..])
  }

  /** "Total Items Sold": the quantities of every line of every sale. */
  function ItemsSold(sales: seq<Sale>): int
  {
    if sales == [] then 0 else LineQuantities(sales[0].products) + ItemsSold(sales[1..])
  }

  lemma {:induction false} ItemsSoldAppend(a: seq<Sale>, b: seq<Sale>)
    ensures ItemsSold(a + b) == ItemsSold(a) + ItemsSold(b)
  {
    if a == [] {
      assert a + b == b;
    } else {
      assert (a + b)[1..] == a[1..] + b;
      ItemsSoldAppend(a[1..], b);
    }
  }

  /** With non-negative quantities, the items sold in a filtered list are at most those of the whole. */
  lemma {:induction false} ItemsSoldFiltered(sales: seq<Sale>, p: Sale -> bool)
    requires forall s :: s in sales ==> LineQuantities(s.products) >= 0
    ensures 0 <= ItemsSold(Filter(sales, p)) <= ItemsSold(sales)
  {
    if sales != [] {
      ItemsSoldFiltered(sales[1..], p);
      var head := if p(sales[0]) then [sales[0]] else [];
      ItemsSoldAppend(head, Filter(sales[1..], p));
      assert head == [] || head[1..] == [];
    }
  }

  /** `Math.ceil(a / b)` for a positive divisor. */
  function CeilDiv(a: int, b: int): int
    requires b > 0
  {
    -((-a) / b)
  }

  lemma CeilDivSpec(a: int, b: int)
    requires b > 0
    ensures (CeilDiv(a, b) - 1) * b < a <= CeilDiv(a, b) * b
  {
  }

  /** "Duration": whole days from start to end, rounded up, counting both ends. */
  function Duration(start: Timestamp, end: Timestamp): int
  {
    CeilDiv(end - start, MsPerDay) + 1
  }

  /** For two bare dates the duration counts the days from the first to the second inclusive. */
  lemma DurationOfDates(startDay: int, endDay: int)
    ensures Duration(Midnight(startDay), Midnight(endDay)) == endDay - startDay + 1
  {
    assert Midnight(endDay) - Midnight(startDay) == (endDay - startDay) * MsPerDay;
  }
}
