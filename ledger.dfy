/** The records of the fish-market ledger (customers, parties, products, sales, purchases and
    fish boxes), the partial records that updates merge in, and the queries on sales that
    several pages share. Identifiers are strings; amounts of money are exact reals. */
module Ledger {
  import opened Seqs
  import opened Clock

  datatype PaymentStatus = Paid | Pending | Partial
  datatype PartyType = Supplier | Distributor
  datatype Grade = A | B | C

  datatype BoxStatus = Received | Sent | InStock {
    /** Received from a supplier or held in stock: a box that has not been shipped. */
    predicate OnHand()
    {
      this == Received || this == InStock
    }
  }

  datatype Customer = Customer(
    id: string, name: string, email: string, phone: string, address: string,
    balance: real, createdAt: Timestamp)

  datatype Party = Party(
    id: string, name: string, partyType: PartyType, contact: string, address: string,
    balance: real, createdAt: Timestamp)

  datatype Product = Product(
    id: string, name: string, category: string, unit: string,
    purchasePrice: real, sellingPrice: real, stock: int, minStock: int, createdAt: Timestamp)

  datatype LineItem = LineItem(productId: string, productName: string, quantity: int, price: real, total: real)

  datatype Sale = Sale(
    id: string, customerId: string, customerName: string, products: seq<LineItem>,
    subtotal: real, tax: real, total: real, paymentStatus: PaymentStatus, createdAt: Timestamp)

  datatype Purchase = Purchase(
    id: string, partyId: string, partyName: string, products: seq<LineItem>,
    subtotal: real, tax: real, total: real, paymentStatus: PaymentStatus, createdAt: Timestamp)

  /** A fish box carries no creation time; `date` is the instant its `YYYY-MM-DD` date denotes. */
  datatype FishBox = FishBox(
    id: string, boxNumber: string, fishType: string, weight: real, grade: Grade,
    supplierId: Option<string>, customerId: Option<string>, status: BoxStatus, date: Timestamp)

  // Partial records (`Partial<T>`): a field that is `Some` overrides the stored one.
  // Every field may be given, the identifier and creation time included.

  datatype CustomerPatch = CustomerPatch(
    id: Option<string>, name: Option<string>, email: Option<string>, phone: Option<string>,
    address: Option<string>, balance: Option<real>, createdAt: Option<Timestamp>)

  datatype PartyPatch = PartyPatch(
    id: Option<string>, name: Option<string>, partyType: Option<PartyType>, contact: Option<string>,
    address: Option<string>, balance: Option<real>, createdAt: Option<Timestamp>)

  datatype ProductPatch = ProductPatch(
    id: Option<string>, name: Option<string>, category: Option<string>, unit: Option<string>,
    purchasePrice: Option<real>, sellingPrice: Option<real>, stock: Option<int>, minStock: Option<int>,
    createdAt: Option<Timestamp>)

  datatype FishBoxPatch = FishBoxPatch(
    id: Option<string>, boxNumber: Option<string>, fishType: Option<string>, weight: Option<real>,
    grade: Option<Grade>, supplierId: Option<string>, customerId: Option<string>,
    status: Option<BoxStatus>, date: Option<Timestamp>)

  /** `{ ...c, ...p }` */
  function MergeCustomer(c: Customer, p: CustomerPatch): Customer
  {
    Customer(p.id.GetOr(c.id), p.name.GetOr(c.name), p.email.GetOr(c.email), p.phone.GetOr(c.phone),
             p.address.GetOr(c.address), p.balance.GetOr(c.balance), p.createdAt.GetOr(c.createdAt))
  }

  /** `{ ...q, ...p }` */
  function MergeParty(q: Party, p: PartyPatch): Party
  {
    Party(p.id.GetOr(q.id), p.name.GetOr(q.name), p.partyType.GetOr(q.partyType), p.contact.GetOr(q.contact),
          p.address.GetOr(q.address), p.balance.GetOr(q.balance), p.createdAt.GetOr(q.createdAt))
  }

  /** `{ ...r, ...p }` */
  function MergeProduct(r: Product, p: ProductPatch): Product
  {
    Product(p.id.GetOr(r.id), p.name.GetOr(r.name), p.category.GetOr(r.category), p.unit.GetOr(r.unit),
            p.purchasePrice.GetOr(r.purchasePrice), p.sellingPrice.GetOr(r.sellingPrice),
            p.stock.GetOr(r.stock), p.minStock.GetOr(r.minStock), p.createdAt.GetOr(r.createdAt))
  }

  /** `{ ...b, ...p }`; a patch can set a supplier or customer but never remove one. */
  function MergeFishBox(b: FishBox, p: FishBoxPatch): FishBox
  {
    FishBox(p.id.GetOr(b.id), p.boxNumber.GetOr(b.boxNumber), p.fishType.GetOr(b.fishType),
            p.weight.GetOr(b.weight), p.grade.GetOr(b.grade),
            if p.supplierId.Some? then p.supplierId else b.supplierId,
            if p.customerId.Some? then p.customerId else b.customerId,
            p.status.GetOr(b.status), p.date.GetOr(b.date))
  }

  function CustomerId(c: Customer): string { c.id }
  function PartyId(q: Party): string { q.id }
  function ProductId(r: Product): string { r.id }
  function SaleId(s: Sale): string { s.id }
  function PurchaseId(u: Purchase): string { u.id }
  function FishBoxId(b: FishBox): string { b.id }

  // ---------------------------------------------------------------------------------------
  // Updates and deletions by identifier, shared by every collection.

  /** `s.map(x => idOf(x) === id ? merge(x, patch) : x)` */
  function UpdateById<T, P>(s: seq<T>, idOf: T -> string, id: string, merge: (T, P) -> T, patch: P): (r: seq<T>)
    ensures |r| == |s|
    ensures forall i :: 0 <= i < |s| ==> r[i] == if idOf(s[i]) == id then merge(s[i], patch) else s[i]
  {
    if s == [] then []
    else [if idOf(s[0]) == id then merge(s[0], patch) else s[0]] + UpdateById(s[1..], idOf, id, merge, patch)
  }

  /** `s.filter(x => idOf(x) !== id)` */
  function DeleteById<T(==)>(s: seq<T>, idOf: T -> string, id: string): (r: seq<T>)
    ensures forall i :: 0 <= i < |r| ==> idOf(r[i]) != id
    ensures forall i :: 0 <= i < |s| && idOf(s[i]) != id ==> s[i] in r
  {
    Filter(s, (x: T) => idOf(x) != id)
  }

  ghost predicate HasId<T>(s: seq<T>, idOf: T -> string, id: string)
  {
    exists i :: 0 <= i < |s| && idOf(s[i]) == id
  }

  ghost predicate UniqueIds<T>(s: seq<T>, idOf: T -> string)
  {
    forall i, j :: 0 <= i < j < |s| ==> idOf(s[i]) != idOf(s[j])
  }

  /** An update naming an identifier that is absent leaves the collection as it was. */
  lemma UpdateAbsentIsNoOp<T, P>(s: seq<T>, idOf: T -> string, id: string, merge: (T, P) -> T, patch: P)
    requires !HasId(s, idOf, id)
    ensures UpdateById(s, idOf, id, merge, patch) == s
  {
  }

  /** A deletion naming an identifier that is absent leaves the collection as it was. */
  lemma DeleteAbsentIsNoOp<T>(s: seq<T>, idOf: T -> string, id: string)
    requires !HasId(s, idOf, id)
    ensures DeleteById(s, idOf, id) == s
  {
    FilterAllPass(s, (x: T) => idOf(x) != id);
  }

  /** Deleting twice is deleting once. */
  lemma DeleteIdempotent<T>(s: seq<T>, idOf: T -> string, id: string)
    ensures DeleteById(DeleteById(s, idOf, id), idOf, id) == DeleteById(s, idOf, id)
  {
    FilterIdempotent(s, (x: T) => idOf(x) != id);
  }

  /** Deletion removes every record with the identifier and keeps the others in their order. */
  lemma DeleteKeepsOrder<T>(s: seq<T>, idOf: T -> string, id: string)
    ensures IsSubsequence(DeleteById(s, idOf, id), s)
    ensures !HasId(DeleteById(s, idOf, id), idOf, id)
  {
    FilterIsSubsequence(s, (x: T) => idOf(x) != id);
  }

  /** Appending a record under a fresh identifier keeps identifiers unique. */
  lemma AppendFreshKeepsUnique<T>(s: seq<T>, idOf: T -> string, x: T)
    requires UniqueIds(s, idOf) && !HasId(s, idOf, idOf(x))
    ensures UniqueIds(s + [x], idOf)
  {
    forall i, j | 0 <= i < j < |s + [x]|
      ensures idOf((s + [x])[i]) != idOf((s + [x])[j])
    {
      if j == |s| {
        assert (s + [x])[i] == s[i];
      }
    }
  }

  /** A patch that leaves identifiers alone keeps them unique. */
  lemma UpdateKeepsUnique<T, P>(s: seq<T>, idOf: T -> string, id: string, merge: (T, P) -> T, patch: P)
    requires UniqueIds(s, idOf)
    requires forall x :: idOf(merge(x, patch)) == idOf(x)
    ensures UniqueIds(UpdateById(s, idOf, id, merge, patch), idOf)
  {
  }

  /** Deletion keeps identifiers unique. */
  lemma {:induction false} DeleteKeepsUnique<T>(s: seq<T>, idOf: T -> string, id: string)
    requires UniqueIds(s, idOf)
    ensures UniqueIds(DeleteById(s, idOf, id), idOf)
  {
    var keep := (x: T) => idOf(x) != id;
    if s != [] {
      DeleteKeepsUnique(s[1..], idOf, id);
      var tail := Filter(s[1..], keep);
      assert DeleteById(s[1..], idOf, id) == tail;
      if keep(s[0]) {
        var r := [s[0]] + tail;
        assert DeleteById(s, idOf, id) == r;
        forall i, j | 0 <= i < j < |r|
          ensures idOf(r[i]) != idOf(r[j])
        {
          if i == 0 {
            assert r[j] == tail[j - 1] && tail[j - 1] in s[1..];
          } else {
            assert r[i] == tail[i - 1] && r[j] == tail[j - 1];
          }
        }
      } else {
        assert DeleteById(s, idOf, id) == tail;
      }
    }
  }

  /** Add then update: the appended record, found under its fresh identifier, is the only one
      the update touches, and the records before it stay as they were. */
  lemma AddThenUpdate<T, P>(s: seq<T>, idOf: T -> string, x: T, merge: (T, P) -> T, patch: P)
    requires !HasId(s, idOf, idOf(x))
    ensures UpdateById(s + [x], idOf, idOf(x), merge, patch) == s + [merge(x, patch)]
  {
    var r := UpdateById(s + [x], idOf, idOf(x), merge, patch);
    assert forall i :: 0 <= i < |s| ==> (s + [x])[i] == s[i];
    assert r == s + [merge(x, patch)];
  }

  /** Reading a customer back after `update(id, p)` with a patch that names neither the
      identifier nor the creation time: patched fields have the new values, every other
      field, the identifier and the creation time are as they were. */
  lemma MergeCustomerKeepsIdentity(c: Customer, p: CustomerPatch)
    requires p.id.None? && p.createdAt.None?
    ensures MergeCustomer(c, p).id == c.id && MergeCustomer(c, p).createdAt == c.createdAt
    ensures p.name.Some? ==> MergeCustomer(c, p).name == p.name.value
    ensures p.name.None? ==> MergeCustomer(c, p).name == c.name
    ensures p.balance.Some? ==> MergeCustomer(c, p).balance == p.balance.value
    ensures p.balance.None? ==> MergeCustomer(c, p).balance == c.balance
  {
  }

  /** The merge does not protect the identifier: a patch that names one replaces it. */
  lemma MergeOverwritesId(c: Customer, p: CustomerPatch)
    ensures MergeCustomer(c, p).id == c.id <==> p.id.None? || p.id.value == c.id
    ensures MergeCustomer(c, p).createdAt == c.createdAt <==> p.createdAt.None? || p.createdAt.value == c.createdAt
  {
  }

  // ---------------------------------------------------------------------------------------
  // Queries on sales shared by the pages.

  /** `sales.reduce((sum, sale) => sum + sale.total, 0)` */
  function Revenue(sales: seq<Sale>): real
  {
    Sum(sales, (s: Sale) => s.total)
  }

  /** `sales.filter(sale => sale.paymentStatus === status)` */
  function WithStatus(sales: seq<Sale>, status: PaymentStatus): seq<Sale>
  {
    Filter(sales, (s: Sale) => s.paymentStatus == status)
  }

  /** `sales.filter(sale => sale.paymentStatus !== 'paid')` */
  function Unpaid(sales: seq<Sale>): seq<Sale>
  {
    Filter(sales, (s: Sale) => s.paymentStatus != Paid)
  }

  /** `sales.filter(sale => sale.customerId === id)` */
  function SalesOf(sales: seq<Sale>, customerId: string): seq<Sale>
  {
    Filter(sales, (s: Sale) => s.customerId == customerId)
  }

  /** The sort key of `sort((a, b) => new Date(b.createdAt).getTime() - new Date(a.createdAt).getTime())`. */
  function CreatedKey(s: Sale): real
  {
    s.createdAt as real
  }

  /** `customers.find(c => c.id === id)` */
  function CustomerById(customers: seq<Customer>, id: string): Option<Customer>
  {
    FindFirst(customers, (c: Customer) => c.id == id)
  }

  /** `products.find(p => p.id === id)` */
  function ProductById(products: seq<Product>, id: string): Option<Product>
  {
    FindFirst(products, (p: Product) => p.id == id)
  }

  /** `count > 0 ? revenue / count : 0`: the mean sale total, 0 without sales. */
  function AverageOrderValue(sales: seq<Sale>): (r: real)
    ensures sales == [] ==> r == 0.0
    ensures sales != [] ==> r * |sales| as real == Revenue(sales)
  {
    if |sales| > 0 then Revenue(sales) / |sales| as real else 0.0
  }

  /** `new Set(sales.map(sale => sale.customerId)).size` */
  function UniqueCustomers(sales: seq<Sale>): nat
  {
    |Image(sales, (s: Sale) => s.customerId)|
  }

  /** There are never more distinct customers than sales, and at least one if there is a sale. */
  lemma UniqueCustomersBounded(sales: seq<Sale>)
    ensures UniqueCustomers(sales) <= |sales|
    ensures sales != [] ==> UniqueCustomers(sales) >= 1
  {
    ImageSize(sales, (s: Sale) => s.customerId);
    if sales != [] {
      assert sales[0] in sales;
      assert sales[0].customerId in Image(sales, (s: Sale) => s.customerId);
    }
  }

  lemma SalesOfAppend(a: seq<Sale>, b: seq<Sale>, customerId: string)
    ensures SalesOf(a + b, customerId) == SalesOf(a, customerId) + SalesOf(b, customerId)
  {
    FilterAppend(a, b, (s: Sale) => s.customerId == customerId);
  }

  /** The three statuses partition any list of sales: their counts add up to its length and
      their revenues to its revenue. */
  lemma {:induction false} StatusPartition(sales: seq<Sale>)
    ensures |WithStatus(sales, Paid)| + |WithStatus(sales, Pending)| + |WithStatus(sales, Partial)| == |sales|
    ensures Revenue(WithStatus(sales, Paid)) + Revenue(WithStatus(sales, Pending)) + Revenue(WithStatus(sales, Partial))
            == Revenue(sales)
  {
    if sales != [] {
      StatusPartition(sales[1..]);
      var s := sales[0];
      assert [s][1..] == [];
      forall st: PaymentStatus
        ensures WithStatus(sales, st) == (if s.paymentStatus == st then [s] else []) + WithStatus(sales[1..], st)
        ensures Revenue(WithStatus(sales, st))
                == (if s.paymentStatus == st then s.total else 0.0) + Revenue(WithStatus(sales[1..], st))
      {
        SumAppend(if s.paymentStatus == st then [s] else [], WithStatus(sales[1..], st), (x: Sale) => x.total);
      }
    }
  }

  /** What is not paid is pending or partial. */
  lemma {:induction false} UnpaidIsPendingAndPartial(sales: seq<Sale>)
    ensures Revenue(Unpaid(sales)) == Revenue(WithStatus(sales, Pending)) + Revenue(WithStatus(sales, Partial))
    ensures |Unpaid(sales)| == |WithStatus(sales, Pending)| + |WithStatus(sales, Partial)|
  {
    if sales != [] {
      UnpaidIsPendingAndPartial(sales[1..]);
      var s := sales[0];
      assert [s][1..] == [];
      SumAppend(if s.paymentStatus != Paid then [s] else [], Unpaid(sales[1..]), (x: Sale) => x.total);
      forall st: PaymentStatus
        ensures Revenue(WithStatus(sales, st))
                == (if s.paymentStatus == st then s.total else 0.0) + Revenue(WithStatus(sales[1..], st))
      {
        SumAppend(if s.paymentStatus == st then [s] else [], WithStatus(sales[1..], st), (x: Sale) => x.total);
      }
    }
  }

  /** With non-negative totals, the unpaid revenue is at most the whole revenue. */
  lemma UnpaidBounded(sales: seq<Sale>)
    requires forall s :: s in sales ==> s.total >= 0.0
    ensures 0.0 <= Revenue(Unpaid(sales)) <= Revenue(sales)
  {
    SumFilterBounded(sales, (s: Sale) => s.paymentStatus != Paid, (s: Sale) => s.total);
  }

  /** Revenue does not depend on the order of the sales. */
  lemma RevenueOrderIndependent(a: seq<Sale>, b: seq<Sale>)
    requires multiset(a) == multiset(b)
    ensures Revenue(a) == Revenue(b)
  {
    SumPermutation(a, b, (s: Sale) => s.total);
  }

  /** `products.reduce((sum, p) => sum + p.total, 0)` */
  function LinesTotal(lines: seq<LineItem>): real
  {
    Sum(lines, (l: LineItem) => l.total)
  }

  /** The arithmetic every invoice should satisfy: each line total is quantity times price,
      the subtotal is the sum of the line totals and the total is subtotal plus tax. */
  ghost predicate InvoiceConsistent(lines: seq<LineItem>, subtotal: real, tax: real, total: real)
  {
    && (forall i :: 0 <= i < |lines| ==> lines[i].total == lines[i].quantity as real * lines[i].price)
    && subtotal == LinesTotal(lines)
    && total == subtotal + tax
  }
}
