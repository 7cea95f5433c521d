/** A product of a store's inventory, as its schema in server/models/Product.js
    defines it: the stored record, the constraints every stored product meets,
    casting and defaults on creation, the `updatedAt` save hook, and the update
    validators that `findOneAndUpdate` runs on the fields being set. */
module ProductModel {
  import opened Wrappers
  import opened Text

  /** The values the `unit` enum admits. */
  const Units: seq<string> := ["pcs", "kg", "g", "L", "ml", "box", "pack", "bag", "bottle", "can", "dozen"]

  predicate IsUnit(u: string) {
    u in Units
  }

  datatype Product = Product(
    id: ObjectId,
    name: string,
    price: int,
    stock: int,
    packSize: string,
    unit: string,
    createdBy: ObjectId,
    createdAt: Millis,
    updatedAt: Millis)

  /** A required string after the schema's `trim` setter: present and not empty. */
  predicate RequiredText(f: Option<string>) {
    f.Some? && Trim(f.value) != []
  }

  /** What the schema guarantees of every stored product: `name` and `packSize`
      are required and stored trimmed, `price` and `stock` are at least 0, and
      `unit` is one of the enum's values. */
  predicate Valid(p: Product) {
    && p.name != [] && Trim(p.name) == p.name
    && p.price >= 0
    && p.stock >= 0
    && p.packSize != [] && Trim(p.packSize) == p.packSize
    && IsUnit(p.unit)
  }

  /** The `pre('save')` hook and the validation that `save` runs: a valid
      document is stored with `updatedAt` set to the current time. */
  function Save(p: Product, now: Millis): (r: Option<Product>)
    ensures r.Some? <==> Valid(p)
    ensures r.Some? ==> r.value.updatedAt == now && r.value.(updatedAt := p.updatedAt) == p
  {
    if Valid(p) then Some(p.(updatedAt := now)) else None
  }

  /** The fields handed to `Product.create`; `None` is a field that is absent. */
  datatype ProductDraft = ProductDraft(
    name: Option<string>,
    price: Option<int>,
    stock: Option<int>,
    packSize: Option<string>,
    unit: Option<string>,
    createdBy: Option<ObjectId>)

  /** `Product.create(draft)` at time `now`: strings are trimmed, a missing
      `stock` defaults to 0, `createdAt` defaults to now, and the document is
      saved, or rejected with a validation error (`None`). */
  function Create(d: ProductDraft, id: ObjectId, now: Millis): (r: Option<Product>)
    ensures r.Some? <==>
      && RequiredText(d.name)
      && d.price.Some? && d.price.value >= 0
      && (d.stock.None? || d.stock.value >= 0)
      && RequiredText(d.packSize)
      && d.unit.Some? && IsUnit(d.unit.value)
      && d.createdBy.Some?
    ensures r.Some? ==> Valid(r.value)
    ensures r.Some? ==> r.value.id == id && r.value.createdAt == now && r.value.updatedAt == now
    ensures r.Some? ==>
      && r.value.name == Trim(d.name.value)
      && r.value.price == d.price.value
      && r.value.stock == d.stock.GetOr(0)
      && r.value.packSize == Trim(d.packSize.value)
      && r.value.unit == d.unit.value
      && r.value.createdBy == d.createdBy.value
  {
    if d.name.None? || d.price.None? || d.packSize.None? || d.unit.None? || d.createdBy.None? then None
    else
      TrimIdempotent(d.name.value);
      TrimIdempotent(d.packSize.value);
      Save(Product(id, Trim(d.name.value), d.price.value, d.stock.GetOr(0), Trim(d.packSize.value),
                   d.unit.value, d.createdBy.value, now, now), now)
  }

  /** The draft that lists a product's own fields. */
  function DraftOf(p: Product): ProductDraft {
    ProductDraft(Some(p.name), Some(p.price), Some(p.stock), Some(p.packSize), Some(p.unit), Some(p.createdBy))
  }

  /** Creating a product from the fields of a valid one reproduces it, stamped
      with the time of creation. */
  lemma CreateRoundTrip(p: Product, now: Millis)
    requires Valid(p)
    ensures Create(DraftOf(p), p.id, now) == Some(p.(createdAt := now, updatedAt := now))
  {
  }

  /** The schema itself admits a price of 0 and a stock of 0 and supplies the
      default stock; only the controller's truthiness check refuses them. */
  lemma SchemaAdmitsZero(name: string, packSize: string, unit: string, owner: ObjectId, id: ObjectId, now: Millis)
    requires RequiredText(Some(name)) && RequiredText(Some(packSize)) && IsUnit(unit)
    ensures Create(ProductDraft(Some(name), Some(0), Some(0), Some(packSize), Some(unit), Some(owner)), id, now).Some?
    ensures Create(ProductDraft(Some(name), Some(0), None, Some(packSize), Some(unit), Some(owner)), id, now).value.stock == 0
  {
  }

  /** The fields of an update; `None` is a field left out, which the store
      removes from the update instead of clearing the path. */
  datatype ProductPatch = ProductPatch(
    name: Option<string>,
    price: Option<int>,
    stock: Option<int>,
    packSize: Option<string>,
    unit: Option<string>)

  /** The update validators (`runValidators: true`), which check only the paths
      the update sets. */
  predicate PatchValid(u: ProductPatch) {
    && (u.name.Some? ==> RequiredText(u.name))
    && (u.price.Some? ==> u.price.value >= 0)
    && (u.stock.Some? ==> u.stock.value >= 0)
    && (u.packSize.Some? ==> RequiredText(u.packSize))
    && (u.unit.Some? ==> IsUnit(u.unit.value))
  }

  /** The stored product after a validated update: given fields replace the old
      ones (strings trimmed by the setters); `findOneAndUpdate` does not run the
      save hook, so `updatedAt` stays as it was. */
  function ApplyPatch(p: Product, u: ProductPatch): (r: Product)
    ensures r.id == p.id && r.createdBy == p.createdBy
    ensures r.createdAt == p.createdAt && r.updatedAt == p.updatedAt
    ensures r.price == u.price.GetOr(p.price) && r.stock == u.stock.GetOr(p.stock)
    ensures r.unit == u.unit.GetOr(p.unit)
    ensures r.name == (if u.name.Some? then Trim(u.name.value) else p.name)
    ensures r.packSize == (if u.packSize.Some? then Trim(u.packSize.value) else p.packSize)
  {
    p.(name := if u.name.Some? then Trim(u.name.value) else p.name,
       price := u.price.GetOr(p.price),
       stock := u.stock.GetOr(p.stock),
       packSize := if u.packSize.Some? then Trim(u.packSize.value) else p.packSize,
       unit := u.unit.GetOr(p.unit))
  }

  /** An update that passes the update validators keeps a valid product valid. */
  lemma PatchKeepsValid(p: Product, u: ProductPatch)
    requires Valid(p) && PatchValid(u)
    ensures Valid(ApplyPatch(p, u))
  {
    if u.name.Some? {
      TrimIdempotent(u.name.value);
    }
    if u.packSize.Some? {
      TrimIdempotent(u.packSize.value);
    }
  }
}
