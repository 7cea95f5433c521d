/** The logic of the product screen (app/products.jsx): the searched and sorted
    product list, the totals shown in the purchase and sale dialogs, the checks
    and argument lists of the purchase and sale requests, and the quantity
    fields with their minus and plus buttons. */
module ProductsScreen {
  import opened Wrappers
  import Seqs
  import Text
  import Listing
  import opened ProductModel

  // ------------------------------------------------------------ the list

  /** The `sortOption` values; `Unknown` is any other string, which sorts
      nothing. The screen starts with `ByName`. */
  datatype SortOption = ByName | PriceAsc | PriceDesc | StockAsc | StockDesc | Unknown

  const InitialSort: SortOption := ByName

  function Name(p: Product): string { p.name }
  function Price(p: Product): int { p.price }
  function Stock(p: Product): int { p.stock }

  /** The comparator of each option, as `le(a, b) := compare(a, b) <= 0`. */
  function Order(o: SortOption): (Product, Product) -> bool {
    match o
    case ByName => Listing.Alphabetical(Name)
    case PriceAsc => Listing.Ascending(Price)
    case PriceDesc => Listing.Descending(Price)
    case StockAsc => Listing.Ascending(Stock)
    case StockDesc => Listing.Descending(Stock)
    case Unknown => Listing.Unordered()
  }

  /** What it means for `a` to come no later than `b` under each option. */
  predicate InOrder(o: SortOption, a: Product, b: Product) {
    match o
    case ByName => Text.LexLe(a.name, b.name)
    case PriceAsc => a.price <= b.price
    case PriceDesc => a.price >= b.price
    case StockAsc => a.stock <= b.stock
    case StockDesc => a.stock >= b.stock
    case Unknown => true
  }

  lemma OrderIsConsistent(o: SortOption)
    ensures Seqs.TotalPreorder(Order(o))
    ensures forall a, b :: Order(o)(a, b) == InOrder(o, a, b)
  {
    Listing.AscendingOrders(Price);
    Listing.AscendingOrders(Stock);
    Listing.AlphabeticalOrders(Name);
    forall a, b ensures Order(o)(a, b) == InOrder(o, a, b) {
      match o
      case ByName => assert Order(o)(a, b) == Text.LexLe(Name(a), Name(b));
      case PriceAsc => assert Order(o)(a, b) == (Price(a) <= Price(b));
      case PriceDesc => assert Order(o)(a, b) == (Price(b) <= Price(a));
      case StockAsc => assert Order(o)(a, b) == (Stock(a) <= Stock(b));
      case StockDesc => assert Order(o)(a, b) == (Stock(b) <= Stock(a));
      case Unknown =>
    }
  }

  /** `product.name.toLowerCase().includes(searchQuery.toLowerCase())`. */
  function SearchHit(query: string): Product -> bool {
    (p: Product) => Text.MatchesQuery(p.name, query)
  }

  /** `filteredProducts`. */
  function FilteredProducts(products: seq<Product>, query: string, o: SortOption): (r: seq<Product>)
    ensures |r| <= |products|
  {
    Listing.Listed(products, SearchHit(query), Order(o))
  }

  /** The list shows exactly the products whose name matches the search, each
      as often as it is stored, in the order of the selected option. */
  lemma FilteredProductsExact(products: seq<Product>, query: string, o: SortOption)
    ensures var r := FilteredProducts(products, query, o);
      && (forall p :: p in r <==> p in products && Text.MatchesQuery(p.name, query))
      && (forall p :: multiset(r)[p] == if Text.MatchesQuery(p.name, query) then multiset(products)[p] else 0)
      && (forall i, j | 0 <= i < j < |r| :: InOrder(o, r[i], r[j]))
  {
    Listing.ListedExact(products, SearchHit(query), Order(o));
    forall p ensures SearchHit(query)(p) == Text.MatchesQuery(p.name, query) {
    }
    OrderIsConsistent(o);
    Listing.ListedSorted(products, SearchHit(query), Order(o));
  }

  /** An empty search lists every product: the list is a permutation of the
      stored products. */
  lemma EmptySearchListsAll(products: seq<Product>, o: SortOption)
    ensures multiset(FilteredProducts(products, "", o)) == multiset(products)
  {
    forall i | 0 <= i < |products| ensures SearchHit("")(products[i]) {
      Text.EmptyQueryMatches(products[i].name);
    }
    Listing.ListedKeepsAll(products, SearchHit(""), Order(o));
  }

  /** An unknown option keeps the stored order of the matching products. */
  lemma UnknownOptionKeepsOrder(products: seq<Product>, query: string)
    ensures FilteredProducts(products, query, Unknown) == Seqs.Filter(products, SearchHit(query))
  {
    Listing.ListedUnordered(products, SearchHit(query));
  }

  // ------------------------------------------------------------ totals

  /** `(parseInt(saleQuantity) * parseInt(salePrice)) || 0`: a field that does
      not parse (`NaN`) makes the total 0. */
  function SaleTotal(saleQuantity: string, salePrice: string): int {
    match (Text.ParseInt(saleQuantity), Text.ParseInt(salePrice))
    case (Some(q), Some(p)) => q * p
    case _ => 0
  }

  /** `(parseInt(buyQuantity) * (selectedProduct?.price || 0)) || 0`. */
  function BuyTotal(buyQuantity: string, selected: Option<Product>): int {
    match Text.ParseInt(buyQuantity)
    case Some(q) => if selected.Some? then q * selected.value.price else 0
    case None => 0
  }

  /** On the digit strings the dialog fields hold, the totals are the products
      of the values shown. */
  lemma TotalsOfDigits(quantity: string, price: string, selected: Product)
    requires quantity != [] && Text.AllDigits(quantity)
    requires price != [] && Text.AllDigits(price)
    ensures SaleTotal(quantity, price) == Text.DigitsValue(quantity) * Text.DigitsValue(price)
    ensures BuyTotal(quantity, Some(selected)) == Text.DigitsValue(quantity) * selected.price
    ensures BuyTotal(quantity, None) == 0
  {
    assert quantity + "" == quantity && price + "" == price;
    Text.ParseIntNumeral(quantity, "");
    Text.ParseIntNumeral(price, "");
  }

  /** A field that does not hold a number gives a total of 0. */
  lemma TotalsWithoutNumber(quantity: string, price: string, selected: Option<Product>)
    requires Text.ParseInt(quantity).None?
    ensures SaleTotal(quantity, price) == 0 && SaleTotal(price, quantity) == 0
    ensures BuyTotal(quantity, selected) == 0
  {
  }

  /** As the sale dialog opens (one unit at the listed price) its total is the
      listed price. */
  lemma SaleDialogOpensAtListedPrice(p: Product)
    ensures SaleTotal("1", Text.IntToString(p.price)) == p.price
  {
    Text.ParseIntToString(1, "");
    Text.ParseIntToString(p.price, "");
    assert Text.IntToString(1) + "" == "1";
    assert Text.IntToString(p.price) + "" == Text.IntToString(p.price);
  }

  // ------------------------------------------------------------ requests

  /** The arguments of `handlePurchase(productId, quantity, unitCost)`. */
  datatype PurchaseCall = PurchaseCall(productId: ObjectId, quantity: int, unitCost: int)

  const InvalidQuantity: string := "Invalid quantity"

  /** `submitPurchase`: the quantity must parse and be positive, or the dialog
      reports `Invalid quantity` and no request is made; the unit cost is the
      product's price. */
  function PurchaseRequest(buyQuantity: string, selected: Product): (r: Result<PurchaseCall, string>)
    ensures r.Ok? <==> Text.ParseInt(buyQuantity).Some? && Text.ParseInt(buyQuantity).value > 0
    ensures r.Ok? ==> r.value.quantity > 0 && r.value.productId == selected.id && r.value.unitCost == selected.price
    ensures r.Err? ==> r.error == InvalidQuantity
  {
    match Text.ParseInt(buyQuantity)
    case Some(q) => if q <= 0 then Err(InvalidQuantity) else Ok(PurchaseCall(selected.id, q, selected.price))
    case None => Err(InvalidQuantity)
  }

  /** The arguments of `handleSale(productId, quantity, unitPrice,
      costUnitPrice)`; `None` is `NaN`. */
  datatype SaleCall = SaleCall(productId: ObjectId, quantity: Option<int>, unitPrice: Option<int>, costUnitPrice: Option<int>)

  /** `submitSale`: the fields are parsed as they are, and the cost is
      `parseInt(selectedProduct.price)`, which reads the price back. */
  function SaleRequest(saleQuantity: string, salePrice: string, selected: Product): (r: SaleCall)
    ensures r.productId == selected.id
    ensures r.costUnitPrice == Some(selected.price)
    ensures r.quantity == Text.ParseInt(saleQuantity) && r.unitPrice == Text.ParseInt(salePrice)
  {
    Text.ParseIntToString(selected.price, "");
    assert Text.IntToString(selected.price) + "" == Text.IntToString(selected.price);
    SaleCall(selected.id, Text.ParseInt(saleQuantity), Text.ParseInt(salePrice), Text.ParseInt(Text.IntToString(selected.price)))
  }

  // ------------------------------------------------------------ quantity fields

  /** `Math.max(1, parseInt(q) - 1).toString()`; `NaN` prints as `"NaN"`. */
  function Decremented(q: string): string {
    match Text.ParseInt(q)
    case Some(n) => Text.IntToString(if n - 1 < 1 then 1 else n - 1)
    case None => "NaN"
  }

  /** `(parseInt(q) + 1).toString()`. */
  function Incremented(q: string): string {
    match Text.ParseInt(q)
    case Some(n) => Text.IntToString(n + 1)
    case None => "NaN"
  }

  /** `text.replace(/[^0-9]/g, '') || fallback`. */
  function Typed(text: string, fallback: string): (r: string)
    ensures Text.KeepDigits(text) != [] ==> r == Text.KeepDigits(text)
    ensures Text.KeepDigits(text) == [] ==> r == fallback
  {
    var d := Text.KeepDigits(text);
    if d == [] then fallback else d
  }

  /** What a quantity field may hold: a non-empty digit string. */
  predicate QuantityText(q: string) {
    q != [] && Text.AllDigits(q)
  }

  /** Typing keeps the field a digit string: non-digits are dropped, and an
      empty result becomes the fallback. */
  lemma TypedKeepsDigits(text: string, fallback: string)
    requires QuantityText(fallback)
    ensures QuantityText(Typed(text, fallback))
  {
  }

  /** On a digit string, minus counts down to no less than 1 and plus counts
      up by 1, and both leave a digit string. */
  lemma StepsOfDigits(q: string)
    requires QuantityText(q)
    ensures QuantityText(Decremented(q)) && QuantityText(Incremented(q))
    ensures Text.DigitsValue(Decremented(q)) == if Text.DigitsValue(q) <= 1 then 1 else Text.DigitsValue(q) - 1
    ensures Text.DigitsValue(Incremented(q)) == Text.DigitsValue(q) + 1
  {
    assert q + "" == q;
    Text.ParseIntNumeral(q, "");
  }

  /** A quantity field of the purchase or sale dialog. The purchase field
      reads an empty text as `'1'` before a step (`buyQuantity || '1'`); the
      sale field does not, which makes no difference because typing never
      leaves it empty. */
  class QuantityField {
    var text: string

    predicate Valid()
      reads this
    {
      QuantityText(text)
    }

    /** The quantity the field shows. */
    function Quantity(): nat
      reads this
      requires Valid()
    {
      Text.DigitsValue(text)
    }

    /** The dialog opens on `"1"`. */
    constructor ()
      ensures Valid() && text == "1" && Quantity() == 1
    {
      text := "1";
    }

    /** The minus button: never below 1. */
    method Minus(emptyAsOne: bool)
      requires Valid()
      modifies this
      ensures Valid()
      ensures text == Decremented(if emptyAsOne && old(text) == [] then "1" else old(text))
      ensures Quantity() >= 1
      ensures Quantity() == if old(Quantity()) <= 1 then 1 else old(Quantity()) - 1
    {
      StepsOfDigits(text);
      text := Decremented(if emptyAsOne && text == [] then "1" else text);
    }

    /** The plus button. */
    method Plus(emptyAsOne: bool)
      requires Valid()
      modifies this
      ensures Valid()
      ensures text == Incremented(if emptyAsOne && old(text) == [] then "1" else old(text))
      ensures Quantity() == old(Quantity()) + 1
    {
      StepsOfDigits(text);
      text := Incremented(if emptyAsOne && text == [] then "1" else text);
    }

    /** Typing into the field. Typing `0` is kept as `"0"`, which the purchase
        check then refuses. */
    method Type(input: string)
      requires Valid()
      modifies this
      ensures Valid()
      ensures text == Typed(input, "1")
    {
      TypedKeepsDigits(input, "1");
      text := Typed(input, "1");
    }
  }

  /** The purchase check accepts exactly the positive quantities the field can
      hold: every quantity reached with the buttons, and not a typed `0`. */
  lemma PurchaseOfField(q: string, selected: Product)
    requires QuantityText(q)
    ensures PurchaseRequest(q, selected).Ok? <==> Text.DigitsValue(q) > 0
    ensures PurchaseRequest(q, selected).Ok? ==> PurchaseRequest(q, selected).value.quantity == Text.DigitsValue(q)
    ensures PurchaseRequest(Typed("0", "1"), selected) == Err(InvalidQuantity)
  {
    assert q + "" == q;
    Text.ParseIntNumeral(q, "");
    assert Text.KeepDigits("0") == "0";
    assert "0" + "" == "0";
    Text.ParseIntNumeral("0", "");
  }

  /** The sale price field: digits only, or `"0"`. */
  function TypedPrice(text: string): (r: string)
    ensures QuantityText(r)
  {
    Typed(text, "0")
  }
}
