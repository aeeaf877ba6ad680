/** The record store: six ordered collections held by one object, replaced in whole by each
    mutation (`setX(prev => ...)`). Fresh identifiers and creation times are supplied by the
    caller; the store appends whatever it is given. Persistence is not part of the model. */
module DataStore {
  import opened Seqs
  import opened Clock
  import opened Ledger

  class Store {
    var customers: seq<Customer>
    var parties: seq<Party>
    var products: seq<Product>
    var sales: seq<Sale>
    var purchases: seq<Purchase>
    var fishBoxes: seq<FishBox>

    /** The state after start-up: each collection is its saved copy or, if none was saved, its seed list. */
    constructor (customers0: seq<Customer>, parties0: seq<Party>, products0: seq<Product>,
                 sales0: seq<Sale>, purchases0: seq<Purchase>, fishBoxes0: seq<FishBox>)
      ensures customers == customers0 && parties == parties0 && products == products0
      ensures sales == sales0 && purchases == purchases0 && fishBoxes == fishBoxes0
    {
      customers, parties, products := customers0, parties0, products0;
      sales, purchases, fishBoxes := sales0, purchases0, fishBoxes0;
    }

    /** `addCustomer`: the given fields under a new identifier and creation time, at the end. */
    method AddCustomer(c: Customer, newId: string, now: Timestamp)
      modifies this
      ensures customers == old(customers) + [c.(id := newId, createdAt := now)]
      ensures parties == old(parties) && products == old(products) && sales == old(sales)
      ensures purchases == old(purchases) && fishBoxes == old(fishBoxes)
    {
      customers := customers + [c.(id := newId, createdAt := now)];
    }

    /** `updateCustomer`: every customer with the identifier gets the patch merged over it. */
    method UpdateCustomer(id: string, p: CustomerPatch)
      modifies this
      ensures customers == UpdateById(old(customers), CustomerId, id, MergeCustomer, p)
      ensures parties == old(parties) && products == old(products) && sales == old(sales)
      ensures purchases == old(purchases) && fishBoxes == old(fishBoxes)
    {
      customers := UpdateById(customers, CustomerId, id, MergeCustomer, p);
    }

    /** `deleteCustomer`: every customer with the identifier is removed. */
    method DeleteCustomer(id: string)
      modifies this
      ensures customers == DeleteById(old(customers), CustomerId, id)
      ensures parties == old(parties) && products == old(products) && sales == old(sales)
      ensures purchases == old(purchases) && fishBoxes == old(fishBoxes)
    {
      customers := DeleteById(customers, CustomerId, id);
    }

    /** `addParty` */
    method AddParty(q: Party, newId: string, now: Timestamp)
      modifies this
      ensures parties == old(parties) + [q.(id := newId, createdAt := now)]
      ensures customers == old(customers) && products == old(products) && sales == old(sales)
      ensures purchases == old(purchases) && fishBoxes == old(fishBoxes)
    {
      parties := parties + [q.(id := newId, createdAt := now)];
    }

    /** `updateParty` */
    method UpdateParty(id: string, p: PartyPatch)
      modifies this
      ensures parties == UpdateById(old(parties), PartyId, id, MergeParty, p)
      ensures customers == old(customers) && products == old(products) && sales == old(sales)
      ensures purchases == old(purchases) && fishBoxes == old(fishBoxes)
    {
      parties := UpdateById(parties, PartyId, id, MergeParty, p);
    }

    /** `deleteParty` */
    method DeleteParty(id: string)
      modifies this
      ensures parties == DeleteById(old(parties), PartyId, id)
      ensures customers == old(customers) && products == old(products) && sales == old(sales)
      ensures purchases == old(purchases) && fishBoxes == old(fishBoxes)
    {
      parties := DeleteById(parties, PartyId, id);
    }

    /** `addProduct` */
    method AddProduct(r: Product, newId: string, now: Timestamp)
      modifies this
      ensures products == old(products) + [r.(id := newId, createdAt := now)]
      ensures customers == old(customers) && parties == old(parties) && sales == old(sales)
      ensures purchases == old(purchases) && fishBoxes == old(fishBoxes)
    {
      products := products + [r.(id := newId, createdAt := now)];
    }

    /** `updateProduct` */
    method UpdateProduct(id: string, p: ProductPatch)
      modifies this
      ensures products == UpdateById(old(products), ProductId, id, MergeProduct, p)
      ensures customers == old(customers) && parties == old(parties) && sales == old(sales)
      ensures purchases == old(purchases) && fishBoxes == old(fishBoxes)
    {
      products := UpdateById(products, ProductId, id, MergeProduct, p);
    }

    /** `deleteProduct` */
    method DeleteProduct(id: string)
      modifies this
      ensures products == DeleteById(old(products), ProductId, id)
      ensures customers == old(customers) && parties == old(parties) && sales == old(sales)
      ensures purchases == old(purchases) && fishBoxes == old(fishBoxes)
    {
      products := DeleteById(products, ProductId, id);
    }

    /** `addSale`: sales are only ever appended. */
    method AddSale(s: Sale, newId: string, now: Timestamp)
      modifies this
      ensures sales == old(sales) + [s.(id := newId, createdAt := now)]
      ensures customers == old(customers) && parties == old(parties) && products == old(products)
      ensures purchases == old(purchases) && fishBoxes == old(fishBoxes)
    {
      sales := sales + [s.(id := newId, createdAt := now)];
    }

    /** `addPurchase`: purchases are only ever appended. */
    method AddPurchase(u: Purchase, newId: string, now: Timestamp)
      modifies this
      ensures purchases == old(purchases) + [u.(id := newId, createdAt := now)]
      ensures customers == old(customers) && parties == old(parties) && products == old(products)
      ensures sales == old(sales) && fishBoxes == old(fishBoxes)
    {
      purchases := purchases + [u.(id := newId, createdAt := now)];
    }

    /** `addFishBox`: a new identifier, but no creation time (a box has none). */
    method AddFishBox(b: FishBox, newId: string)
      modifies this
      ensures fishBoxes == old(fishBoxes) + [b.(id := newId)]
      ensures customers == old(customers) && parties == old(parties) && products == old(products)
      ensures sales == old(sales) && purchases == old(purchases)
    {
      fishBoxes := fishBoxes + [b.(id := newId)];
    }

    /** `updateFishBox` */
    method UpdateFishBox(id: string, p: FishBoxPatch)
      modifies this
      ensures fishBoxes == UpdateById(old(fishBoxes), FishBoxId, id, MergeFishBox, p)
      ensures customers == old(customers) && parties == old(parties) && products == old(products)
      ensures sales == old(sales) && purchases == old(purchases)
    {
      fishBoxes := UpdateById(fishBoxes, FishBoxId, id, MergeFishBox, p);
    }

    /** Applies one call of the store's interface. */
    method Apply(m: Mutation)
      modifies this
      ensures old(sales) <= sales && old(purchases) <= purchases
      ensures |old(fishBoxes)| <= |fishBoxes|
    {
      match m
      case CustomerAdded(c, newId, now) => AddCustomer(c, newId, now);
      case CustomerUpdated(id, p) => UpdateCustomer(id, p);
      case CustomerDeleted(id) => DeleteCustomer(id);
      case PartyAdded(q, newId, now) => AddParty(q, newId, now);
      case PartyUpdated(id, p) => UpdateParty(id, p);
      case PartyDeleted(id) => DeleteParty(id);
      case ProductAdded(r, newId, now) => AddProduct(r, newId, now);
      case ProductUpdated(id, p) => UpdateProduct(id, p);
      case ProductDeleted(id) => DeleteProduct(id);
      case SaleAdded(s, newId, now) => AddSale(s, newId, now);
      case PurchaseAdded(u, newId, now) => AddPurchase(u, newId, now);
      case FishBoxAdded(b, newId) => AddFishBox(b, newId);
      case FishBoxUpdated(id, p) => UpdateFishBox(id, p);
    }

    /** Whatever calls are made, the sales and purchases recorded before stay, in order, at the
        front of their lists, and no fish box is ever removed. */
    method ApplyAll(ms: seq<Mutation>)
      modifies this
      ensures old(sales) <= sales && old(purchases) <= purchases
      ensures |old(fishBoxes)| <= |fishBoxes|
    {
      for i := 0 to |ms|
        invariant old(sales) <= sales && old(purchases) <= purchases
        invariant |old(fishBoxes)| <= |fishBoxes|
      {
        ghost var salesBefore, purchasesBefore := sales, purchases;
        Apply(ms[i]);
        PrefixTransitive(old(sales), salesBefore, sales);
        PrefixTransitive(old(purchases), purchasesBefore, purchases);
      }
    }
  }

  /** One call of the store's interface. There is no call that updates or deletes a sale or a
      purchase, and none that deletes a fish box. */
  datatype Mutation =
    | CustomerAdded(customer: Customer, newId: string, now: Timestamp)
    | CustomerUpdated(id: string, customerPatch: CustomerPatch)
    | CustomerDeleted(id: string)
    | PartyAdded(party: Party, newId: string, now: Timestamp)
    | PartyUpdated(id: string, partyPatch: PartyPatch)
    | PartyDeleted(id: string)
    | ProductAdded(product: Product, newId: string, now: Timestamp)
    | ProductUpdated(id: string, productPatch: ProductPatch)
    | ProductDeleted(id: string)
    | SaleAdded(sale: Sale, newId: string, now: Timestamp)
    | PurchaseAdded(purchase: Purchase, newId: string, now: Timestamp)
    | FishBoxAdded(box: FishBox, newId: string)
    | FishBoxUpdated(id: string, boxPatch: FishBoxPatch)

  lemma PrefixTransitive<T>(a: seq<T>, b: seq<T>, c: seq<T>)
    requires a <= b && b <= c
    ensures a <= c
  {
    assert b[..|a|] == a;
  }

  /** Adding a customer and then updating it under its new identifier with a patch that sets the
      name reads back a record with that name, every other field as given, and the identifier and
      creation time assigned on adding. */
  method AddThenRename(store: Store, c: Customer, newId: string, now: Timestamp, name: string)
    requires !HasId(store.customers, CustomerId, newId)
    modifies store
    ensures store.customers == old(store.customers) + [c.(id := newId, createdAt := now, name := name)]
  {
    ghost var before := store.customers;
    store.AddCustomer(c, newId, now);
    var p := CustomerPatch(None, Some(name), None, None, None, None, None);
    store.UpdateCustomer(newId, p);
    AddThenUpdate(before, CustomerId, c.(id := newId, createdAt := now), MergeCustomer, p);
  }
}
