/** The owner-scoped product table of server/controllers/productController.js:
    listing a store's products, creating one after the controller's own
    required-fields check and the schema's validation, and updating or deleting
    a product only when both its id and its owner match. The owner of a request
    is passed in as `owner`. */
module ProductController {
  import opened Wrappers
  import Seqs
  import opened ProductModel

  /** Why a handler answers with an error instead of its record. */
  datatype ProductError =
    | MissingFields     // the controller's truthiness check on the body
    | ValidationFailed  // `Product.create` rejected the document
    | UpdateFailed      // the update validators rejected the update
    | NotFound          // no product with this id belongs to the caller

  /** The HTTP status each error is sent with. */
  function Status(e: ProductError): (code: nat)
    ensures code == 400 <==> e == MissingFields
    ensures code == 404 <==> e == NotFound
    ensures code == 500 <==> e == ValidationFailed || e == UpdateFailed
  {
    match e
    case MissingFields => 400
    case NotFound => 404
    case _ => 500
  }

  /** The fields `createProduct` and `updateProduct` read from the request body;
      `None` is a field that is absent. */
  datatype ProductBody = ProductBody(
    name: Option<string>,
    price: Option<int>,
    stock: Option<int>,
    packSize: Option<string>,
    unit: Option<string>)

  /** JavaScript truthiness of a body field: absent, `''` and `0` are falsy. */
  predicate TruthyText(f: Option<string>) {
    f.Some? && f.value != []
  }

  predicate TruthyNumber(f: Option<int>) {
    f.Some? && f.value != 0
  }

  /** `!name || !price || !stock || !packSize || !unit` is false. */
  predicate AllGiven(b: ProductBody) {
    TruthyText(b.name) && TruthyNumber(b.price) && TruthyNumber(b.stock) && TruthyText(b.packSize) && TruthyText(b.unit)
  }

  /** The controller refuses a price of 0 and a stock of 0, which the schema
      itself would store. */
  lemma ControllerRefusesZero(b: ProductBody)
    requires b.price == Some(0) || b.stock == Some(0)
    ensures !AllGiven(b)
  {
  }

  function DraftFor(b: ProductBody, owner: ObjectId): ProductDraft {
    ProductDraft(b.name, b.price, b.stock, b.packSize, b.unit, Some(owner))
  }

  function PatchOf(b: ProductBody): ProductPatch {
    ProductPatch(b.name, b.price, b.stock, b.packSize, b.unit)
  }

  /** The filter `{ _id: id, createdBy: owner }`. */
  predicate Owned(p: Product, id: ObjectId, owner: ObjectId) {
    p.id == id && p.createdBy == owner
  }

  /** The position of the product the filter matches, if any. */
  function FindOwned(products: seq<Product>, id: ObjectId, owner: ObjectId): (r: Option<nat>)
    ensures r.None? <==> forall i | 0 <= i < |products| :: !Owned(products[i], id, owner)
    ensures r.Some? ==> r.value < |products| && Owned(products[r.value], id, owner)
    ensures r.Some? ==> forall i | 0 <= i < r.value :: !Owned(products[i], id, owner)
  {
    if products == [] then None
    else if Owned(products[0], id, owner) then Some(0)
    else match FindOwned(products[1..], id, owner)
      case None => None
      case Some(k) => Some(k + 1)
  }

  /** No two products share an id. */
  predicate IdsUnique(products: seq<Product>) {
    forall i, j | 0 <= i < j < |products| :: products[i].id != products[j].id
  }

  /** The body of the `getProducts` response. */
  datatype ProductList = ProductList(count: nat, data: seq<Product>)

  /** `getProducts`: the caller's products in table order, and their number. */
  function GetProducts(products: seq<Product>, owner: ObjectId): (r: ProductList)
    ensures r.count == |r.data|
    ensures forall p | p in r.data :: p in products && p.createdBy == owner
    ensures forall p | p in products && p.createdBy == owner :: p in r.data
    ensures forall p :: multiset(r.data)[p] == if p.createdBy == owner then multiset(products)[p] else 0
  {
    var keep := (p: Product) => p.createdBy == owner;
    var data := Seqs.Filter(products, keep);
    Seqs.FilterMultiset(products, keep);
    assert forall p :: p in data <==> p in products && keep(p) by {
      forall p ensures p in data <==> p in products && keep(p) {
        Seqs.FilterMember(products, keep, p);
      }
    }
    ProductList(|data|, data)
  }

  /** Removing the product at `k` from a table with unique ids leaves every
      other product and no product with that id. */
  lemma RemoveExactly(products: seq<Product>, k: nat)
    requires k < |products| && IdsUnique(products)
    ensures var rest := products[..k] + products[k + 1..];
      && |rest| == |products| - 1
      && (forall p | p in rest :: p.id != products[k].id)
      && (forall i | 0 <= i < |products| && i != k :: products[i] in rest)
  {
    var rest := products[..k] + products[k + 1..];
    forall p | p in rest ensures p.id != products[k].id {
      var j :| 0 <= j < |rest| && rest[j] == p;
      if j < k {
        assert rest[j] == products[j];
      } else {
        assert rest[j] == products[j + 1];
      }
    }
    forall i | 0 <= i < |products| && i != k ensures products[i] in rest {
      if i < k {
        assert rest[i] == products[i];
      } else {
        assert rest[i - 1] == products[i];
      }
    }
  }

  /** Every product has an id below `n`, and no two products share one. */
  predicate IdsBelow(products: seq<Product>, n: ObjectId) {
    && (forall i | 0 <= i < |products| :: products[i].id < n)
    && IdsUnique(products)
  }

  /** Every product is valid, ids are below `n`, and no two products share one. */
  predicate TableOk(products: seq<Product>, n: ObjectId) {
    Seqs.All(products, ProductModel.Valid) && IdsBelow(products, n)
  }

  lemma IdsBelowAdd(products: seq<Product>, n: ObjectId, p: Product)
    requires IdsBelow(products, n) && p.id == n
    ensures IdsBelow(products + [p], n + 1)
  {
    var t := products + [p];
    assert forall i | 0 <= i < |products| :: t[i] == products[i];
  }

  lemma IdsBelowSet(products: seq<Product>, n: ObjectId, k: nat, p: Product)
    requires IdsBelow(products, n) && k < |products| && p.id == products[k].id
    ensures IdsBelow(products[k := p], n)
  {
    var t := products[k := p];
    assert forall i | 0 <= i < |products| :: t[i].id == products[i].id;
  }

  lemma IdsBelowRemove(products: seq<Product>, n: ObjectId, k: nat)
    requires IdsBelow(products, n) && k < |products|
    ensures IdsBelow(products[..k] + products[k + 1..], n)
  {
    var t := products[..k] + products[k + 1..];
    assert forall i | 0 <= i < |t| :: t[i] == if i < k then products[i] else products[i + 1];
  }

  lemma TableOkAdd(products: seq<Product>, n: ObjectId, p: Product)
    requires TableOk(products, n) && ProductModel.Valid(p) && p.id == n
    ensures TableOk(products + [p], n + 1)
  {
    Seqs.AllAppend(products, p, ProductModel.Valid);
    IdsBelowAdd(products, n, p);
  }

  lemma TableOkSet(products: seq<Product>, n: ObjectId, k: nat, p: Product)
    requires TableOk(products, n) && k < |products|
    requires ProductModel.Valid(p) && p.id == products[k].id
    ensures TableOk(products[k := p], n)
  {
    Seqs.AllUpdate(products, k, p, ProductModel.Valid);
    IdsBelowSet(products, n, k, p);
  }

  lemma TableOkRemove(products: seq<Product>, n: ObjectId, k: nat)
    requires TableOk(products, n) && k < |products|
    ensures TableOk(products[..k] + products[k + 1..], n)
  {
    Seqs.AllRemove(products, k, ProductModel.Valid);
    IdsBelowRemove(products, n, k);
  }

  /** The product collection, and the id the store hands out next. */
  class ProductTable {
    var products: seq<Product>
    var nextId: ObjectId

    /** Every stored product is valid, and ids are unique and already handed out. */
    predicate Valid()
      reads this
    {
      TableOk(products, nextId)
    }

    constructor ()
      ensures Valid() && products == [] && nextId == 0
    {
      products := [];
      nextId := 0;
    }

    /** `createProduct`: the required-fields check (400), then `Product.create`
        with the caller as owner (a validation error is answered with 500); a
        created product is added to the table. */
    method CreateProduct(owner: ObjectId, body: ProductBody, now: Millis) returns (r: Result<Product, ProductError>)
      requires Valid()
      modifies this
      ensures Valid()
      ensures !AllGiven(body) ==> r == Err(MissingFields) && unchanged(this)
      ensures AllGiven(body) ==>
        var made := Create(DraftFor(body, owner), old(nextId), now);
        && (made.None? ==> r == Err(ValidationFailed) && unchanged(this))
        && (made.Some? ==> r == Ok(made.value) && products == old(products) + [made.value] && nextId == old(nextId) + 1)
    {
      if !AllGiven(body) {
        return Err(MissingFields);
      }
      var made := Create(DraftFor(body, owner), nextId, now);
      if made.None? {
        return Err(ValidationFailed);
      }
      TableOkAdd(products, nextId, made.value);
      products := products + [made.value];
      nextId := nextId + 1;
      r := Ok(made.value);
    }

    /** `updateProduct`: `findOneAndUpdate` on id and owner with the update
        validators, which run before the query, so an invalid update fails with
        500 whether or not a product matches. A matching product gets the given
        fields; without one the answer is 404. Nothing else changes. */
    method UpdateProduct(owner: ObjectId, id: ObjectId, body: ProductBody) returns (r: Result<Product, ProductError>)
      requires Valid()
      modifies this
      ensures Valid()
      ensures nextId == old(nextId)
      ensures !PatchValid(PatchOf(body)) ==> r == Err(UpdateFailed) && products == old(products)
      ensures PatchValid(PatchOf(body)) ==>
        var k := FindOwned(old(products), id, owner);
        && (k.None? ==> r == Err(NotFound) && products == old(products))
        && (k.Some? ==>
              && r == Ok(ApplyPatch(old(products)[k.value], PatchOf(body)))
              && products == old(products)[k.value := ApplyPatch(old(products)[k.value], PatchOf(body))])
    {
      if !PatchValid(PatchOf(body)) {
        return Err(UpdateFailed);
      }
      var k := FindOwned(products, id, owner);
      if k.None? {
        return Err(NotFound);
      }
      var updated := ApplyPatch(products[k.value], PatchOf(body));
      PatchKeepsValid(products[k.value], PatchOf(body));
      ReplaceAt(k.value, updated);
      r := Ok(updated);
    }

    /** Stores `p` in place of the product at `k`, which has the same id. */
    method ReplaceAt(k: nat, p: Product)
      requires Valid() && k < |products|
      requires ProductModel.Valid(p) && p.id == products[k].id
      modifies this
      ensures Valid()
      ensures products == old(products)[k := p] && nextId == old(nextId)
    {
      TableOkSet(products, nextId, k, p);
      products := products[k := p];
    }

    /** Takes the product at `k` out of the table. */
    method RemoveAt(k: nat)
      requires Valid() && k < |products|
      modifies this
      ensures Valid()
      ensures products == old(products)[..k] + old(products)[k + 1..] && nextId == old(nextId)
    {
      TableOkRemove(products, nextId, k);
      products := products[..k] + products[k + 1..];
    }

    /** `deleteProduct`: removes the product matching id and owner, or answers
        404 and removes nothing. */
    method DeleteProduct(owner: ObjectId, id: ObjectId) returns (r: Result<Product, ProductError>)
      requires Valid()
      modifies this
      ensures Valid()
      ensures nextId == old(nextId)
      ensures var k := FindOwned(old(products), id, owner);
        && (k.None? ==> r == Err(NotFound) && products == old(products))
        && (k.Some? ==> r == Ok(old(products)[k.value]) && products == old(products)[..k.value] + old(products)[k.value + 1..])
    {
      var k := FindOwned(products, id, owner);
      if k.None? {
        return Err(NotFound);
      }
      r := Ok(products[k.value]);
      RemoveAt(k.value);
    }
  }
}
