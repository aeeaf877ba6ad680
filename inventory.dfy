/** The inventory page: the low-stock alert, each product's profit margin, and the product editor
    whose submit either updates the product being edited or adds a new one. */
module Inventory {
  import opened Seqs
  import opened Clock
  import opened Ledger
  import opened DataStore

  /** A product is running low when its stock has fallen to its minimum or below. */
  predicate IsLowStock(p: Product)
  {
    p.stock <= p.minStock
  }

  /** `lowStockProducts` */
  function LowStock(products: seq<Product>): seq<Product>
  {
    Filter(products, IsLowStock)
  }

  /** The alert lists exactly the products whose stock is at or below their minimum, in the order
      the products are stored, and no more products than there are. */
  lemma LowStockSpec(products: seq<Product>)
    ensures forall p :: p in LowStock(products) <==> p in products && p.stock <= p.minStock
    ensures IsSubsequence(LowStock(products), products)
    ensures |LowStock(products)| <= |products|
  {
    forall p | p in products && p.stock <= p.minStock
      ensures p in LowStock(products)
    {
      var i :| 0 <= i < |products| && products[i] == p;
    }
    FilterIsSubsequence(products, IsLowStock);
  }

  /** The boundary is inclusive: a product with stock 5 and minimum 10 is listed, one with stock
      15 and minimum 10 is not, and one with stock exactly at its minimum is. */
  lemma LowStockExample()
    ensures var a := Product("1", "A", "Fish", "kg", 1.0, 2.0, 5, 10, 0);
            var b := Product("2", "B", "Fish", "kg", 1.0, 2.0, 15, 10, 0);
            var c := Product("3", "C", "Fish", "kg", 1.0, 2.0, 10, 10, 0);
            LowStock([a, b]) == [a] && LowStock([c]) == [c]
  {
    var a := Product("1", "A", "Fish", "kg", 1.0, 2.0, 5, 10, 0);
    var b := Product("2", "B", "Fish", "kg", 1.0, 2.0, 15, 10, 0);
    var c := Product("3", "C", "Fish", "kg", 1.0, 2.0, 10, 10, 0);
    assert [a, b][1..] == [b];
    assert [b][1..] == [];
    assert [c][1..] == [];
  }

  /** The margin shown on a product card, `(selling - purchase) / purchase * 100`. The division
      is not guarded; with a zero purchase price the page shows a non-finite number, which is
      `None` here. */
  function Margin(p: Product): Option<real>
  {
    if p.purchasePrice == 0.0 then None
    else Some((p.sellingPrice - p.purchasePrice) / p.purchasePrice * 100.0)
  }

  /** There is a margin exactly when the purchase price is not zero; it is the selling price's
      excess over the purchase price as a percentage of the purchase price, and for a positive
      purchase price it is not negative exactly when the product sells at or above its cost. */
  lemma MarginSpec(p: Product)
    ensures Margin(p).Some? <==> p.purchasePrice != 0.0
    ensures Margin(p).Some? ==> Margin(p).value * p.purchasePrice == (p.sellingPrice - p.purchasePrice) * 100.0
    ensures p.purchasePrice > 0.0 ==> (Margin(p).value >= 0.0 <==> p.sellingPrice >= p.purchasePrice)
  {
    if p.purchasePrice > 0.0 {
      var m := Margin(p).value;
      assert m * p.purchasePrice == (p.sellingPrice - p.purchasePrice) * 100.0;
      if m >= 0.0 {
        assert m * p.purchasePrice >= 0.0;
      }
    }
  }

  /** The seven editable fields of the product form. */
  datatype ProductForm = ProductForm(
    name: string, category: string, unit: string,
    purchasePrice: real, sellingPrice: real, stock: int, minStock: int)

  const EmptyForm := ProductForm("", "", "", 0.0, 0.0, 0, 0)

  /** `handleEdit`: the form is filled from the product. */
  function FormOf(p: Product): ProductForm
  {
    ProductForm(p.name, p.category, p.unit, p.purchasePrice, p.sellingPrice, p.stock, p.minStock)
  }

  /** The form passed to `updateProduct` as a partial record: all seven fields, and neither the
      identifier nor the creation time. */
  function PatchOf(f: ProductForm): ProductPatch
  {
    ProductPatch(None, Some(f.name), Some(f.category), Some(f.unit), Some(f.purchasePrice),
                 Some(f.sellingPrice), Some(f.stock), Some(f.minStock), None)
  }

  /** The form passed to `addProduct`; the store gives it its identifier and creation time. */
  function NewProduct(f: ProductForm): Product
  {
    Product("", f.name, f.category, f.unit, f.purchasePrice, f.sellingPrice, f.stock, f.minStock, 0)
  }

  /** Saving a form over a product gives the product exactly the form's fields, and keeps its
      identifier and creation time. */
  lemma SaveFormSpec(p: Product, f: ProductForm)
    ensures FormOf(MergeProduct(p, PatchOf(f))) == f
    ensures MergeProduct(p, PatchOf(f)).id == p.id
    ensures MergeProduct(p, PatchOf(f)).createdAt == p.createdAt
  {
  }

  /** Opening a product for editing and saving the form unchanged leaves the product as it was. */
  lemma EditUnchangedIsNoOp(p: Product)
    ensures MergeProduct(p, PatchOf(FormOf(p))) == p
  {
  }

  /** Adding a form gives a product with the form's fields under the new identifier and time. */
  lemma AddFormSpec(f: ProductForm, newId: string, now: Timestamp)
    ensures FormOf(NewProduct(f).(id := newId, createdAt := now)) == f
    ensures NewProduct(f).(id := newId, createdAt := now).id == newId
  {
  }

  /** The page's editor state: whether the form is open, the product being edited if any, and
      the form's fields. */
  class ProductEditor {
    var open: bool
    var editing: Option<Product>
    var form: ProductForm

    constructor ()
      ensures !open && editing == None && form == EmptyForm
    {
      open, editing, form := false, None, EmptyForm;
    }

    /** "Add Product": the form opens as it stands. */
    method OpenNew()
      modifies this
      ensures open && editing == old(editing) && form == old(form)
    {
      open := true;
    }

    /** `handleEdit` */
    method Edit(p: Product)
      modifies this
      ensures open && editing == Some(p) && form == FormOf(p)
    {
      editing := Some(p);
      form := FormOf(p);
      open := true;
    }

    /** `handleCloseModal`: closed, nothing edited, every field back to empty. */
    method Close()
      modifies this
      ensures !open && editing == None && form == EmptyForm
    {
      open, editing, form := false, None, EmptyForm;
    }

    /** `handleSubmit`: while a product is being edited, every product with its identifier gets
        the form's fields; otherwise the form is added as a new product. Then the editor closes.
        Nothing else in the store changes. */
    method Submit(store: Store, newId: string, now: Timestamp)
      modifies this, store
      ensures old(editing).Some? ==>
        store.products == UpdateById(old(store.products), ProductId, old(editing).value.id, MergeProduct, PatchOf(old(form)))
      ensures old(editing).None? ==>
        store.products == old(store.products) + [NewProduct(old(form)).(id := newId, createdAt := now)]
      ensures store.customers == old(store.customers) && store.parties == old(store.parties)
      ensures store.sales == old(store.sales) && store.purchases == old(store.purchases)
      ensures store.fishBoxes == old(store.fishBoxes)
      ensures !open && editing == None && form == EmptyForm
    {
      if editing.Some? {
        store.UpdateProduct(editing.value.id, PatchOf(form));
      } else {
        store.AddProduct(NewProduct(form), newId, now);
      }
      Close();
    }
  }

  /** `handleDelete`: the product is removed only when the user confirms. */
  method Delete(store: Store, id: string, confirmed: bool)
    modifies store
    ensures confirmed ==> store.products == DeleteById(old(store.products), ProductId, id)
    ensures !confirmed ==> store.products == old(store.products)
    ensures store.customers == old(store.customers) && store.parties == old(store.parties)
    ensures store.sales == old(store.sales) && store.purchases == old(store.purchases)
    ensures store.fishBoxes == old(store.fishBoxes)
  {
    if confirmed {
      store.DeleteProduct(id);
    }
  }

  /** After editing a stored product and saving form `f`, the product under its identifier has
      the form's fields, keeps its identifier and creation time, and every other product is as it
      was. */
  lemma {:induction false} EditThenSave(products: seq<Product>, k: int, f: ProductForm)
    requires UniqueIds(products, ProductId)
    requires 0 <= k < |products|
    ensures var r := UpdateById(products, ProductId, products[k].id, MergeProduct, PatchOf(f));
      && |r| == |products|
      && FormOf(r[k]) == f && r[k].id == products[k].id && r[k].createdAt == products[k].createdAt
      && forall j :: 0 <= j < |products| && j != k ==> r[j] == products[j]
  {
    var r := UpdateById(products, ProductId, products[k].id, MergeProduct, PatchOf(f));
    SaveFormSpec(products[k], f);
    forall j | 0 <= j < |products| && j != k
      ensures r[j] == products[j]
    {
      if j < k {
        assert ProductId(products[j]) != ProductId(products[k]);
      } else {
        assert ProductId(products[k]) != ProductId(products[j]);
      }
    }
  }
}
