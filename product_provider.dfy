/** The client's product state (providers/ProductProvider.jsx): the product
    list, the loading flag and the dashboard metrics, and the list updaters that
    run once a request has succeeded. Each request's outcome is a parameter:
    `None` is a request that failed, which rethrows and leaves the list as it was. */
module ProductProvider {
  import opened Wrappers
  import Seqs
  import opened ProductModel

  // ------------------------------------------------------------- list updaters

  /** `prev => [...prev, created]`. */
  function Appended(ps: seq<Product>, p: Product): (r: seq<Product>)
    ensures |r| == |ps| + 1 && r[..|ps|] == ps && r[|ps|] == p
  {
    ps + [p]
  }

  /** `{ ...p, ...updatedData }`: the given fields replace the product's own,
      as sent, without the server's trimming. */
  function MergeFields(p: Product, u: ProductPatch): (r: Product)
    ensures r.id == p.id && r.createdBy == p.createdBy && r.createdAt == p.createdAt && r.updatedAt == p.updatedAt
    ensures u == ProductPatch(None, None, None, None, None) ==> r == p
  {
    p.(name := u.name.GetOr(p.name), price := u.price.GetOr(p.price), stock := u.stock.GetOr(p.stock),
       packSize := u.packSize.GetOr(p.packSize), unit := u.unit.GetOr(p.unit))
  }

  /** The local merge agrees with what the server stores when the given names
      are already trimmed. */
  lemma MergeMatchesServer(p: Product, u: ProductPatch)
    requires u.name.Some? ==> Text.Trim(u.name.value) == u.name.value
    requires u.packSize.Some? ==> Text.Trim(u.packSize.value) == u.packSize.value
    ensures MergeFields(p, u) == ApplyPatch(p, u)
  {
  }

  /** `prev.map(p => p._id === id ? { ...p, ...updatedData } : p)`. */
  function Merged(ps: seq<Product>, id: ObjectId, u: ProductPatch): (r: seq<Product>)
    ensures |r| == |ps|
    ensures forall i | 0 <= i < |ps| :: r[i] == if ps[i].id == id then MergeFields(ps[i], u) else ps[i]
  {
    seq(|ps|, i requires 0 <= i < |ps| => if ps[i].id == id then MergeFields(ps[i], u) else ps[i])
  }

  /** Merging the same fields twice is merging them once. */
  lemma MergedIdempotent(ps: seq<Product>, id: ObjectId, u: ProductPatch)
    ensures Merged(Merged(ps, id, u), id, u) == Merged(ps, id, u)
  {
    var once := Merged(ps, id, u);
    assert forall i | 0 <= i < |ps| :: once[i].id == ps[i].id;
  }

  /** A merge for an id no product has changes nothing. */
  lemma MergedAbsent(ps: seq<Product>, id: ObjectId, u: ProductPatch)
    requires forall i | 0 <= i < |ps| :: ps[i].id != id
    ensures Merged(ps, id, u) == ps
  {
  }

  /** `prev.filter(p => p._id !== id)`. */
  function Removed(ps: seq<Product>, id: ObjectId): (r: seq<Product>)
    ensures |r| <= |ps|
    ensures forall p | p in r :: p.id != id
    ensures forall p | p in ps && p.id != id :: p in r
    ensures forall p | p in r :: p in ps
  {
    var keep := (p: Product) => p.id != id;
    var r := Seqs.Filter(ps, keep);
    assert forall p :: p in r <==> p in ps && keep(p) by {
      forall p ensures p in r <==> p in ps && keep(p) {
        Seqs.FilterMember(ps, keep, p);
      }
    }
    r
  }

  /** Removing keeps the order of the products it keeps. */
  lemma RemovedKeepsOrder(a: seq<Product>, b: seq<Product>, id: ObjectId)
    ensures Removed(a + b, id) == Removed(a, id) + Removed(b, id)
  {
    Seqs.FilterConcat(a, b, (p: Product) => p.id != id);
  }

  /** Deleting a product that was just created, under an id no other product
      has, gives the list back. */
  lemma RemovedUndoesAppended(ps: seq<Product>, p: Product)
    requires forall i | 0 <= i < |ps| :: ps[i].id != p.id
    ensures Removed(Appended(ps, p), p.id) == ps
  {
    var keep := (q: Product) => q.id != p.id;
    Seqs.FilterConcat(ps, [p], keep);
    assert Seqs.Filter([p], keep) == [] by {
      assert [p][1..] == [];
    }
  }

  /** `prev.map(p => p._id === id ? { ...p, stock: p.stock + quantity } : p)`. */
  function Restocked(ps: seq<Product>, id: ObjectId, quantity: int): (r: seq<Product>)
    ensures |r| == |ps|
    ensures forall i | 0 <= i < |ps| :: r[i] == if ps[i].id == id then ps[i].(stock := ps[i].stock + quantity) else ps[i]
  {
    seq(|ps|, i requires 0 <= i < |ps| => if ps[i].id == id then ps[i].(stock := ps[i].stock + quantity) else ps[i])
  }

  /** Two purchases add up, and a purchase is undone by its opposite. */
  lemma RestockedAdds(ps: seq<Product>, id: ObjectId, q1: int, q2: int)
    ensures Restocked(Restocked(ps, id, q1), id, q2) == Restocked(ps, id, q1 + q2)
    ensures Restocked(Restocked(ps, id, q1), id, -q1) == ps
  {
    var once := Restocked(ps, id, q1);
    assert forall i | 0 <= i < |ps| :: once[i].id == ps[i].id;
    assert Restocked(ps, id, 0) == ps;
  }

  /** A purchase of a non-negative quantity keeps every stored product valid:
      only stock changes, and it does not fall. */
  lemma RestockedKeepsValid(ps: seq<Product>, id: ObjectId, quantity: int)
    requires quantity >= 0
    requires forall i | 0 <= i < |ps| :: Valid(ps[i])
    ensures forall i | 0 <= i < |ps| :: Valid(Restocked(ps, id, quantity)[i])
  {
    forall i | 0 <= i < |ps| ensures Valid(Restocked(ps, id, quantity)[i]) {
      var p := Restocked(ps, id, quantity)[i];
      assert p.name == ps[i].name && p.packSize == ps[i].packSize && p.unit == ps[i].unit;
    }
  }

  // ------------------------------------------------------------- metrics

  datatype Sales = Sales(revenue: int, count: int, itemsSold: int)
  datatype Inventory = Inventory(total: int, outOfStock: int, lowStock: int)
  datatype Metrics = Metrics(sales: Sales, cost: int, inventory: Inventory, loading: bool, lastUpdated: Option<Millis>)

  /** The dashboard metrics before the first fetch: every figure 0, loading,
      never updated. */
  const InitialMetrics: Metrics := Metrics(Sales(0, 0, 0), 0, Inventory(0, 0, 0), true, None)

  /** The figures of a metrics response, without the client's own flags. */
  datatype MetricsData = MetricsData(sales: Sales, cost: int, inventory: Inventory)

  // ------------------------------------------------------------- the provider

  class ProductStore {
    var products: seq<Product>
    var loading: bool
    var metrics: Metrics

    constructor ()
      ensures products == [] && !loading && metrics == InitialMetrics
    {
      products := [];
      loading := false;
      metrics := InitialMetrics;
    }

    /** `fetchProducts`: replaces the list with the response; a failed request
        rethrows (`false`) and leaves it. */
    method FetchProducts(response: Option<seq<Product>>) returns (ok: bool)
      modifies this
      ensures ok <==> response.Some?
      ensures products == if response.Some? then response.value else old(products)
      ensures !loading && metrics == old(metrics)
    {
      loading := true;
      ok := response.Some?;
      if ok {
        products := response.value;
      }
      loading := false;
    }

    /** `createProduct`: appends the created product. */
    method CreateProduct(response: Option<Product>) returns (ok: bool)
      modifies this
      ensures ok <==> response.Some?
      ensures products == if response.Some? then Appended(old(products), response.value) else old(products)
      ensures !loading && metrics == old(metrics)
    {
      loading := true;
      ok := response.Some?;
      if ok {
        products := Appended(products, response.value);
      }
      loading := false;
    }

    /** `handleUpdateProduct`: merges the sent fields into the product with that id. */
    method UpdateProduct(id: ObjectId, fields: ProductPatch, succeeded: bool) returns (ok: bool)
      modifies this
      ensures ok == succeeded
      ensures products == if succeeded then Merged(old(products), id, fields) else old(products)
      ensures !loading && metrics == old(metrics)
    {
      loading := true;
      ok := succeeded;
      if ok {
        products := Merged(products, id, fields);
      }
      loading := false;
    }

    /** `deleteProduct`: drops every product with that id. */
    method DeleteProduct(id: ObjectId, succeeded: bool) returns (ok: bool)
      modifies this
      ensures ok == succeeded
      ensures products == if succeeded then Removed(old(products), id) else old(products)
      ensures !loading && metrics == old(metrics)
    {
      loading := true;
      ok := succeeded;
      if ok {
        products := Removed(products, id);
      }
      loading := false;
    }

    /** `handlePurchase`: adds the quantity to the stock of the product with that id. */
    method Purchase(id: ObjectId, quantity: int, succeeded: bool) returns (ok: bool)
      modifies this
      ensures ok == succeeded
      ensures products == if succeeded then Restocked(old(products), id, quantity) else old(products)
      ensures !loading && metrics == old(metrics)
    {
      loading := true;
      ok := succeeded;
      if ok {
        products := Restocked(products, id, quantity);
      }
      loading := false;
    }

    /** `handleSale`: does not edit the list; after a successful sale it fetches
        the list again, and a failure of either request rethrows. */
    method Sale(succeeded: bool, refetched: Option<seq<Product>>) returns (ok: bool)
      modifies this
      ensures ok <==> succeeded && refetched.Some?
      ensures products == if ok then refetched.value else old(products)
      ensures !loading && metrics == old(metrics)
    {
      loading := true;
      ok := false;
      if succeeded {
        ok := FetchProducts(refetched);
      }
      loading := false;
    }

    /** `fetchDashboardMetrics`: stores the response's figures, stamped with
        the time; a failed request only clears the metrics' loading flag. */
    method FetchMetrics(response: Option<MetricsData>, now: Millis)
      modifies this
      ensures response.Some? ==>
        metrics == Metrics(response.value.sales, response.value.cost, response.value.inventory, false, Some(now))
      ensures response.None? ==> metrics == old(metrics).(loading := false)
      ensures !loading && products == old(products)
    {
      loading := true;
      metrics := metrics.(loading := true);
      if response.Some? {
        metrics := Metrics(response.value.sales, response.value.cost, response.value.inventory, false, Some(now));
      } else {
        metrics := metrics.(loading := false);
      }
      loading := false;
    }
  }
}
