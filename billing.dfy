/** The invoice editor: a customer choice and an editable list of line rows, and the sale record
    that submitting it appends to the store (10% tax, status pending). */
module Billing {
  import opened Seqs
  import opened Clock
  import opened Ledger
  import opened DataStore

  /** One editable line: product identifier, quantity and unit price as typed. */
  datatype Row = Row(productId: string, quantity: int, price: real)

  /** The three fields a row edit can set (`handleProductChange(index, field, value)`). */
  datatype RowEdit = SetProductId(productId: string) | SetQuantity(quantity: int) | SetPrice(price: real)

  /** The row `handleAddProduct` appends. */
  const BlankRow := Row("", 1, 0.0)

  /** `s.filter((_, i) => i !== index)`: the element at `index` removed, the others kept in order;
      an index outside the list removes nothing. */
  function RemoveAt<T>(s: seq<T>, index: int): (r: seq<T>)
    ensures 0 <= index < |s| ==> |r| == |s| - 1
    ensures 0 <= index < |s| ==> forall k :: 0 <= k < index ==> r[k] == s[k]
    ensures 0 <= index < |s| ==> forall k :: index <= k < |r| ==> r[k] == s[k + 1]
    ensures !(0 <= index < |s|) ==> r == s
  {
    if 0 <= index < |s| then s[..index] + s[index + 1..] else s
  }

  /** The row after one edit: the named field takes the value; choosing a product that exists
      also copies its selling price into the row. */
  function EditRow(row: Row, edit: RowEdit, products: seq<Product>): Row
  {
    match edit
    case SetQuantity(q) => row.(quantity := q)
    case SetPrice(x) => row.(price := x)
    case SetProductId(id) =>
      match ProductById(products, id)
      case Some(p) => row.(productId := id, price := p.sellingPrice)
      case None => row.(productId := id)
  }

  /** An edit changes only its own field, except that choosing a known product also sets the price
      to that product's selling price; choosing an unknown product leaves the price alone. */
  lemma EditRowEffect(row: Row, edit: RowEdit, products: seq<Product>)
    ensures edit.SetQuantity? ==> EditRow(row, edit, products) == Row(row.productId, edit.quantity, row.price)
    ensures edit.SetPrice? ==> EditRow(row, edit, products) == Row(row.productId, row.quantity, edit.price)
    ensures edit.SetProductId? ==>
      var r := EditRow(row, edit, products);
      && r.productId == edit.productId && r.quantity == row.quantity
      && ((exists p :: p in products && p.id == edit.productId) ==>
            r.price == ProductById(products, edit.productId).value.sellingPrice)
      && ((forall p :: p in products ==> p.id != edit.productId) ==> r.price == row.price)
  {
    if edit.SetProductId? {
      var found := ProductById(products, edit.productId);
      if exists p :: p in products && p.id == edit.productId {
        var p :| p in products && p.id == edit.productId;
        var i :| 0 <= i < |products| && products[i] == p;
        assert found.Some?;
      }
    }
  }

  /** The sale line a row becomes: the product's name (or `""` if the identifier is unknown) and
      `quantity * price` as its total. */
  function LineOf(row: Row, products: seq<Product>): LineItem
  {
    var name := match ProductById(products, row.productId)
                case Some(p) => p.name
                case None => "";
    LineItem(row.productId, name, row.quantity, row.price, row.quantity as real * row.price)
  }

  /** `selectedProducts.map(...)`: one line per row, in row order. */
  function Lines(rows: seq<Row>, products: seq<Product>): (r: seq<LineItem>)
    ensures |r| == |rows|
    ensures forall i :: 0 <= i < |rows| ==> r[i] == LineOf(rows[i], products)
  {
    if rows == [] then [] else [LineOf(rows[0], products)] + Lines(rows[1..], products)
  }

  /** The sale `handleSubmit` builds for a customer that was found. The identifier and creation
      time are left blank here: the store assigns them on adding. */
  function Invoice(customer: Customer, rows: seq<Row>, products: seq<Product>): Sale
  {
    var lines := Lines(rows, products);
    var subtotal := LinesTotal(lines);
    var tax := subtotal * 0.1;
    Sale("", customer.id, customer.name, lines, subtotal, tax, subtotal + tax, Pending, 0)
  }

  /** A row's amount as the preview computes it. */
  function RowAmount(r: Row): real
  {
    r.quantity as real * r.price
  }

  /** The running subtotal shown under the editor. */
  function PreviewSubtotal(rows: seq<Row>): real
  {
    Sum(rows, RowAmount)
  }

  /** Every submitted invoice is arithmetically consistent, is pending, has a 10% tax, snapshots
      the customer's name and has one line per row carrying that row's fields. */
  lemma InvoiceFacts(customer: Customer, rows: seq<Row>, products: seq<Product>)
    ensures var inv := Invoice(customer, rows, products);
      && InvoiceConsistent(inv.products, inv.subtotal, inv.tax, inv.total)
      && inv.tax * 10.0 == inv.subtotal
      && inv.paymentStatus == Pending
      && inv.customerId == customer.id && inv.customerName == customer.name
      && |inv.products| == |rows|
      && (forall i :: 0 <= i < |rows| ==>
            && inv.products[i].productId == rows[i].productId
            && inv.products[i].quantity == rows[i].quantity
            && inv.products[i].price == rows[i].price)
      && (forall i :: 0 <= i < |rows| && ProductById(products, rows[i].productId).None? ==>
            inv.products[i].productName == "")
  {
  }

  lemma {:induction false} LinesTotalIsPreview(rows: seq<Row>, products: seq<Product>)
    ensures LinesTotal(Lines(rows, products)) == PreviewSubtotal(rows)
  {
    if rows != [] {
      LinesTotalIsPreview(rows[1..], products);
      assert Lines(rows, products)[1..] == Lines(rows[1..], products);
    }
  }

  /** The totals previewed under the editor are the ones the submitted invoice carries. */
  lemma PreviewMatchesInvoice(customer: Customer, rows: seq<Row>, products: seq<Product>)
    ensures Invoice(customer, rows, products).subtotal == PreviewSubtotal(rows)
    ensures Invoice(customer, rows, products).tax == PreviewSubtotal(rows) * 0.1
    ensures Invoice(customer, rows, products).total == PreviewSubtotal(rows) + PreviewSubtotal(rows) * 0.1
  {
    LinesTotalIsPreview(rows, products);
  }

  /** Two units at 100 give a subtotal of 200, a tax of 20 and a total of 220. */
  lemma InvoiceExample(customer: Customer, products: seq<Product>)
    ensures Invoice(customer, [Row("p", 2, 100.0)], products).subtotal == 200.0
    ensures Invoice(customer, [Row("p", 2, 100.0)], products).tax == 20.0
    ensures Invoice(customer, [Row("p", 2, 100.0)], products).total == 220.0
  {
    PreviewMatchesInvoice(customer, [Row("p", 2, 100.0)], products);
    assert [Row("p", 2, 100.0)][1..] == [];
  }

  /** The invoice editor's state. */
  class InvoiceForm {
    var selectedCustomer: string
    var rows: seq<Row>

    constructor ()
      ensures selectedCustomer == "" && rows == []
    {
      selectedCustomer := "";
      rows := [];
    }

    /** Choosing a customer in the editor's drop-down. */
    method SelectCustomer(id: string)
      modifies this
      ensures selectedCustomer == id && rows == old(rows)
    {
      selectedCustomer := id;
    }

    /** `handleAddProduct`: one blank row at the end, the rows before it unchanged. */
    method AddRow()
      modifies this
      ensures rows == old(rows) + [BlankRow]
      ensures selectedCustomer == old(selectedCustomer)
    {
      rows := rows + [BlankRow];
    }

    /** `handleRemoveProduct` */
    method RemoveRow(index: int)
      modifies this
      ensures rows == RemoveAt(old(rows), index)
      ensures selectedCustomer == old(selectedCustomer)
    {
      rows := RemoveAt(rows, index);
    }

    /** `handleProductChange`: copies the rows, replaces the edited one and, when a known product
        was chosen, assigns its price into the copy. */
    method ChangeField(index: int, edit: RowEdit, products: seq<Product>)
      requires 0 <= index < |rows|
      modifies this
      ensures |rows| == |old(rows)|
      ensures rows[index] == EditRow(old(rows)[index], edit, products)
      ensures forall j :: 0 <= j < |rows| && j != index ==> rows[j] == old(rows)[j]
      ensures selectedCustomer == old(selectedCustomer)
    {
      var updated := rows;
      var row := updated[index];
      match edit {
        case SetQuantity(q) => updated := updated[index := row.(quantity := q)];
        case SetPrice(x) => updated := updated[index := row.(price := x)];
        case SetProductId(id) =>
          updated := updated[index := row.(productId := id)];
          var product := ProductById(products, id);
          if product.Some? {
            updated := updated[index := updated[index].(price := product.value.sellingPrice)];
          }
      }
      rows := updated;
    }

    /** `handleSubmit`: with no customer under the selected identifier nothing happens; otherwise
        the invoice is appended to the store's sales and the editor is cleared. */
    method Submit(store: Store, newId: string, now: Timestamp)
      modifies this, store
      ensures CustomerById(old(store.customers), old(selectedCustomer)).None? ==>
        store.sales == old(store.sales) && rows == old(rows) && selectedCustomer == old(selectedCustomer)
      ensures CustomerById(old(store.customers), old(selectedCustomer)).Some? ==>
        && store.sales == old(store.sales) +
             [Invoice(CustomerById(old(store.customers), old(selectedCustomer)).value, old(rows), old(store.products))
                .(id := newId, createdAt := now)]
        && rows == [] && selectedCustomer == ""
      ensures store.customers == old(store.customers) && store.parties == old(store.parties)
      ensures store.products == old(store.products) && store.purchases == old(store.purchases)
      ensures store.fishBoxes == old(store.fishBoxes)
    {
      var customer := CustomerById(store.customers, selectedCustomer);
      if customer.None? {
        return;
      }
      var sale := Invoice(customer.value, rows, store.products);
      store.AddSale(sale, newId, now);
      selectedCustomer := "";
      rows := [];
    }
  }

  /** The customer found for an invoice is the one whose identifier was selected, so the sale
      is filed under that identifier. */
  lemma SubmittedUnderSelectedCustomer(customers: seq<Customer>, selected: string)
    requires CustomerById(customers, selected).Some?
    ensures CustomerById(customers, selected).value.id == selected
    ensures CustomerById(customers, selected).value in customers
  {
  }
}
