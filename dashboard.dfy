/** The dashboard: the headline figures (revenue, customers, products, low-stock count), the
    recent-sales list and the low-stock list. The charts draw fixed sample data and are not part
    of the model. */
module Dashboard {
  import opened Seqs
  import opened Ledger
  import opened Inventory

  /** The four stats cards. */
  datatype Headline = Headline(totalRevenue: real, totalCustomers: nat, totalProducts: nat, lowStock: nat)

  function HeadlineOf(customers: seq<Customer>, products: seq<Product>, sales: seq<Sale>): Headline
  {
    Headline(Revenue(sales), |customers|, |products|, |LowStock(products)|)
  }

  /** The revenue card does not depend on the order of the sales; the low-stock card is 0 exactly
      when no product is at or below its minimum, equals the number of products exactly when all
      are, and is never more than that. */
  lemma HeadlineSpec(customers: seq<Customer>, products: seq<Product>, sales: seq<Sale>, reordered: seq<Sale>)
    requires multiset(reordered) == multiset(sales)
    ensures HeadlineOf(customers, products, reordered) == HeadlineOf(customers, products, sales)
    ensures HeadlineOf(customers, products, sales).lowStock == 0 <==> forall p :: p in products ==> !IsLowStock(p)
    ensures HeadlineOf(customers, products, sales).lowStock == |products| <==> forall p :: p in products ==> IsLowStock(p)
    ensures HeadlineOf(customers, products, sales).lowStock <= |products|
  {
    RevenueOrderIndependent(reordered, sales);
    LowStockSpec(products);
    NoneLowIffEmpty(products);
    AllLowIffFull(products);
  }

  lemma NoneLowIffEmpty(products: seq<Product>)
    ensures LowStock(products) == [] <==> forall p :: p in products ==> !IsLowStock(p)
  {
    LowStockSpec(products);
    if LowStock(products) != [] {
      assert LowStock(products)[0] in LowStock(products);
    }
  }

  lemma {:induction false} AllLowIffFull(products: seq<Product>)
    ensures |LowStock(products)| == |products| <==> forall p :: p in products ==> IsLowStock(p)
  {
    if products != [] {
      AllLowIffFull(products[1..]);
      assert forall p :: p in products[1..] ==> p in products;
      if !IsLowStock(products[0]) {
        assert |LowStock(products)| == |LowStock(products[1..])| <= |products[1..]|;
      } else if forall p :: p in products[1..] ==> IsLowStock(p) {
        assert forall p :: p in products ==> p == products[0] || p in products[1..];
      }
    }
  }

  const ListSize := 5

  /** "Recent Sales": the first five sales as stored. */
  function RecentSales(sales: seq<Sale>): seq<Sale>
  {
    Take(sales, ListSize)
  }

  /** The list holds the first `min(5, n)` sales in stored order. Because sales are only ever
      appended, these are the oldest sales: once five are stored, recording another sale leaves
      the list unchanged. */
  lemma RecentSalesSpec(sales: seq<Sale>, later: seq<Sale>)
    ensures |RecentSales(sales)| == if |sales| < ListSize then |sales| else ListSize
    ensures forall i :: 0 <= i < |RecentSales(sales)| ==> RecentSales(sales)[i] == sales[i]
    ensures |sales| >= ListSize ==> RecentSales(sales + later) == RecentSales(sales)
  {
    if |sales| >= ListSize {
      assert (sales + later)[..ListSize] == sales[..ListSize];
    }
  }

  /** The low-stock panel: the first five low-stock products. */
  function LowStockList(products: seq<Product>): seq<Product>
  {
    Take(LowStock(products), ListSize)
  }

  /** "No low stock items" is shown exactly when the low-stock filter is empty. */
  predicate ShowsNoLowStock(products: seq<Product>)
  {
    |LowStock(products)| == 0
  }

  /** The panel lists at most five products, each stored and at or below its minimum, and it is
      empty exactly when the "No low stock items" message shows, which is exactly when no product
      is low on stock. */
  lemma LowStockPanelSpec(products: seq<Product>)
    ensures |LowStockList(products)| <= ListSize
    ensures forall p :: p in LowStockList(products) ==> p in products && IsLowStock(p)
    ensures LowStockList(products) == [] <==> ShowsNoLowStock(products)
    ensures ShowsNoLowStock(products) <==> forall p :: p in products ==> !IsLowStock(p)
  {
    LowStockSpec(products);
    NoneLowIffEmpty(products);
    var list := LowStockList(products);
    forall p | p in list
      ensures p in LowStock(products)
    {
      var i :| 0 <= i < |list| && list[i] == p;
      assert LowStock(products)[i] == p;
    }
  }
}
