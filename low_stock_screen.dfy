/** The logic of the low-stock screen (app/lowerStock.jsx): a fixed catalogue
    cut down to the products with one or two units left, searched and sorted,
    and the purchase dialog's numeric quantity counter. */
module LowStockScreen {
  import opened Wrappers
  import Seqs
  import Text
  import Listing

  /** A catalogue entry of the screen's own data. */
  datatype Item = Item(id: nat, name: string, price: int, stock: int, packSize: string, unit: string)

  /** The screen's catalogue before it is cut down. */
  const Catalogue: seq<Item> := [
    Item(1, "Premium Coffee Beans", 1299, 2, "500g", "bag"),
    Item(2, "Organic Green Tea", 850, 1, "100g", "box"),
    Item(3, "Olive Oil", 1575, 0, "1L", "bottle")]

  /** `p.stock > 0 && p.stock < 3`: out-of-stock items are not low-stock items. */
  predicate IsLowStock(p: Item) {
    0 < p.stock < 3
  }

  /** `productsData`: the catalogue's low-stock items, in catalogue order. */
  function LowStock(items: seq<Item>): (r: seq<Item>)
    ensures forall i | 0 <= i < |r| :: IsLowStock(r[i])
  {
    Seqs.Filter(items, IsLowStock)
  }

  /** Of the fixed catalogue, the coffee and the tea are listed and the olive
      oil, with no stock, is not. */
  lemma CatalogueLowStock()
    ensures LowStock(Catalogue) == [Catalogue[0], Catalogue[1]]
  {
    assert Catalogue[1..] == [Catalogue[1], Catalogue[2]];
    assert Catalogue[2..] == [Catalogue[2]];
    assert Catalogue[3..] == [];
  }

  /** The `sortOption` values; the screen starts with `StockAsc`. */
  datatype SortOption = StockAsc | StockDesc | PriceAsc | PriceDesc | Unknown

  const InitialSort: SortOption := StockAsc

  function Price(p: Item): int { p.price }
  function Stock(p: Item): int { p.stock }

  function Order(o: SortOption): (Item, Item) -> bool {
    match o
    case StockAsc => Listing.Ascending(Stock)
    case StockDesc => Listing.Descending(Stock)
    case PriceAsc => Listing.Ascending(Price)
    case PriceDesc => Listing.Descending(Price)
    case Unknown => Listing.Unordered()
  }

  predicate InOrder(o: SortOption, a: Item, b: Item) {
    match o
    case StockAsc => a.stock <= b.stock
    case StockDesc => a.stock >= b.stock
    case PriceAsc => a.price <= b.price
    case PriceDesc => a.price >= b.price
    case Unknown => true
  }

  lemma OrderIsConsistent(o: SortOption)
    ensures Seqs.TotalPreorder(Order(o))
    ensures forall a, b :: Order(o)(a, b) == InOrder(o, a, b)
  {
    Listing.AscendingOrders(Price);
    Listing.AscendingOrders(Stock);
    forall a, b ensures Order(o)(a, b) == InOrder(o, a, b) {
      match o
      case StockAsc => assert Order(o)(a, b) == (Stock(a) <= Stock(b));
      case StockDesc => assert Order(o)(a, b) == (Stock(b) <= Stock(a));
      case PriceAsc => assert Order(o)(a, b) == (Price(a) <= Price(b));
      case PriceDesc => assert Order(o)(a, b) == (Price(b) <= Price(a));
      case Unknown =>
    }
  }

  function SearchHit(query: string): Item -> bool {
    (p: Item) => Text.MatchesQuery(p.name, query)
  }

  /** `filteredProducts`: the low-stock items matching the search, sorted. */
  function FilteredItems(items: seq<Item>, query: string, o: SortOption): (r: seq<Item>)
    ensures |r| <= |items|
  {
    Listing.Listed(LowStock(items), SearchHit(query), Order(o))
  }

  /** Every listed item has one or two units left and a matching name; every
      such item is listed; and the list is in the selected order. */
  lemma FilteredItemsExact(items: seq<Item>, query: string, o: SortOption)
    ensures var r := FilteredItems(items, query, o);
      && (forall p :: p in r <==> p in items && IsLowStock(p) && Text.MatchesQuery(p.name, query))
      && (forall p :: multiset(r)[p] == if IsLowStock(p) && Text.MatchesQuery(p.name, query) then multiset(items)[p] else 0)
      && (forall i | 0 <= i < |r| :: 0 < r[i].stock < 3)
      && (forall i, j | 0 <= i < j < |r| :: InOrder(o, r[i], r[j]))
  {
    var low := LowStock(items);
    var r := FilteredItems(items, query, o);
    Listing.ListedExact(low, SearchHit(query), Order(o));
    Seqs.FilterMultiset(items, IsLowStock);
    forall p ensures multiset(r)[p] == if IsLowStock(p) && Text.MatchesQuery(p.name, query) then multiset(items)[p] else 0 {
      assert SearchHit(query)(p) == Text.MatchesQuery(p.name, query);
    }
    forall p ensures p in r <==> p in items && IsLowStock(p) && Text.MatchesQuery(p.name, query) {
      Seqs.FilterMember(items, IsLowStock, p);
      assert SearchHit(query)(p) == Text.MatchesQuery(p.name, query);
    }
    forall i | 0 <= i < |r| ensures 0 < r[i].stock < 3 {
      assert r[i] in r;
    }
    OrderIsConsistent(o);
    Listing.ListedSorted(low, SearchHit(query), Order(o));
  }

  /** `Math.max(1, parseInt(text) || 1)`: text that does not parse, or parses
      to 0, counts as 1, and nothing counts below 1. */
  function TypedCount(text: string): (r: int)
    ensures r >= 1
    ensures Text.ParseInt(text).Some? && Text.ParseInt(text).value >= 1 ==> r == Text.ParseInt(text).value
    ensures Text.ParseInt(text).None? || Text.ParseInt(text).value < 1 ==> r == 1
  {
    match Text.ParseInt(text)
    case Some(n) => if n == 0 then 1 else if n < 1 then 1 else n
    case None => 1
  }

  /** Typing back the shown count leaves it as it is. */
  lemma TypedCountReadsBack(n: int)
    requires n >= 1
    ensures TypedCount(Text.IntToString(n)) == n
  {
    Text.ParseIntToString(n, "");
    assert Text.IntToString(n) + "" == Text.IntToString(n);
  }

  /** `buyQuantity * (selectedProduct?.price || 0)`, before it is formatted. */
  function BuyTotal(quantity: int, selected: Option<Item>): (r: int)
    ensures selected.None? ==> r == 0
    ensures selected.Some? && quantity >= 1 && selected.value.price >= 0 ==> r >= selected.value.price
  {
    if selected.Some? then quantity * selected.value.price else 0
  }

  /** The purchase dialog's counter: a number, never below 1. */
  class BuyCounter {
    var quantity: int

    predicate Valid()
      reads this
    {
      quantity >= 1
    }

    /** `openBuyModal` sets the counter to 1. */
    constructor ()
      ensures Valid() && quantity == 1
    {
      quantity := 1;
    }

    /** `Math.max(1, buyQuantity - 1)`. */
    method Minus()
      requires Valid()
      modifies this
      ensures Valid()
      ensures quantity == if old(quantity) <= 1 then 1 else old(quantity) - 1
    {
      quantity := if quantity - 1 < 1 then 1 else quantity - 1;
    }

    /** `buyQuantity + 1`. */
    method Plus()
      requires Valid()
      modifies this
      ensures Valid()
      ensures quantity == old(quantity) + 1
    {
      quantity := quantity + 1;
    }

    method Type(text: string)
      requires Valid()
      modifies this
      ensures Valid()
      ensures quantity == TypedCount(text)
    {
      quantity := TypedCount(text);
    }

    /** The total the dialog shows for the selected item. */
    method Total(selected: Item) returns (t: int)
      requires Valid()
      ensures t == quantity * selected.price
      ensures selected.price >= 0 ==> t >= selected.price
    {
      t := BuyTotal(quantity, Some(selected));
    }
  }
}
