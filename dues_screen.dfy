/** The logic of the dues screen (app/duesScreen/index.jsx): the screen's own
    list of customers with dues, searched by name or phone and sorted, and the
    dialog that appends a customer to that list. */
module DuesScreen {
  import opened Wrappers
  import Seqs
  import Text
  import Listing

  /** An entry of the screen's list. */
  datatype DueRow = DueRow(id: int, name: string, address: string, dueValue: int, phone: string, lastPayment: string)

  /** The list the screen starts with. */
  const InitialDues: seq<DueRow> := [
    DueRow(1, "Mohammad Ali", "123 Market Street, Dhaka", 12500, "01712345678", "15 days ago"),
    DueRow(2, "Abdul Rahman", "456 Business Road, Chittagong", 8500, "01898765432", "7 days ago"),
    DueRow(3, "Fatima Begum", "789 Trade Center, Sylhet", 15600, "01911223344", "30 days ago"),
    DueRow(4, "Kamal Hossain", "321 Shopnagar, Khulna", 6200, "01655667788", "3 days ago"),
    DueRow(5, "Ayesha Akter", "654 Commerce Lane, Rajshahi", 13400, "01599887766", "21 days ago")]

  const NotPaidYet: string := "Not paid yet"

  // ------------------------------------------------------------ search

  /** `due.name.toLowerCase().includes(q.toLowerCase()) || due.phone.includes(q)`:
      the name is searched without regard to case, the phone as typed. */
  function SearchHit(query: string): DueRow -> bool {
    (d: DueRow) => Text.MatchesQuery(d.name, query) || Text.Contains(d.phone, query)
  }

  // ------------------------------------------------------------ orders

  /** The `sortOption` values; the screen starts with `ByName`. */
  datatype SortOption = ByName | AmountAsc | AmountDesc | Recent | Unknown

  const InitialSort: SortOption := ByName

  function Name(d: DueRow): string { d.name }
  function Amount(d: DueRow): int { d.dueValue }
  function LastPayment(d: DueRow): string { d.lastPayment }

  /** The `recent` option as written: `a.lastPayment.localeCompare(b.lastPayment)`,
      which compares the texts character by character. */
  function TextualRecent(): (DueRow, DueRow) -> bool {
    Listing.Alphabetical(LastPayment)
  }

  /** The textual order puts "15 days ago" strictly before "3 days ago", so the
      customer who paid 15 days ago is listed above the one who paid 3 days ago. */
  lemma TextualRecentMisorders()
    ensures TextualRecent()(InitialDues[0], InitialDues[3])
    ensures !TextualRecent()(InitialDues[3], InitialDues[0])
  {
    var a, b := InitialDues[0], InitialDues[3];
    var le := Listing.Alphabetical(LastPayment);
    assert le(a, b) == Text.LexLe(LastPayment(a), LastPayment(b));
    assert le(b, a) == Text.LexLe(LastPayment(b), LastPayment(a));
    var fifteen, three := LastPayment(a), LastPayment(b);
    assert fifteen[0] == '1' && three[0] == '3';
  }

  /** A row whose last payment reads "<digits> days ago" was paid that many
      days ago. */
  lemma DaysOf(d: DueRow, digits: string)
    requires digits != [] && Text.AllDigits(digits)
    requires d.lastPayment == digits + " days ago"
    ensures Text.ParseInt(d.lastPayment) == Some(Text.DigitsValue(digits))
  {
    var rest := " days ago";
    assert Text.StopsNumeral(rest) by {
      assert rest[0] == ' ';
    }
    Text.ParseIntNumeral(digits, rest);
  }

  /** How many days ago the last payment was: the leading number of the text,
      `None` for a text without one such as "Not paid yet". */
  function DaysAgo(d: DueRow): Option<int> {
    Text.ParseInt(d.lastPayment)
  }

  /** The `recent` option as intended: the most recent payment first, and the
      customers who have not paid last. */
  predicate RecentBefore(a: DueRow, b: DueRow) {
    match (DaysAgo(a), DaysAgo(b))
    case (Some(x), Some(y)) => x <= y
    case (Some(_), None) => true
    case (None, Some(_)) => false
    case (None, None) => true
  }

  function RecentFirst(): (DueRow, DueRow) -> bool {
    (a: DueRow, b: DueRow) => RecentBefore(a, b)
  }

  lemma RecentFirstOrders()
    ensures Seqs.TotalPreorder(RecentFirst())
  {
  }

  /** Of two rows whose last payments read "<x> days ago" and "<y> days ago",
      the intended order puts the first above the second exactly when x is at
      most y: the fewer days, the higher. */
  lemma FewerDaysFirst(a: DueRow, b: DueRow, x: string, y: string)
    requires x != [] && Text.AllDigits(x) && a.lastPayment == x + " days ago"
    requires y != [] && Text.AllDigits(y) && b.lastPayment == y + " days ago"
    ensures RecentBefore(a, b) <==> Text.DigitsValue(x) <= Text.DigitsValue(y)
  {
    DaysOf(a, x);
    DaysOf(b, y);
  }

  /** The first listed row was paid 15 days ago and the fourth 3 days ago, so
      the intended order lists the fourth above the first. */
  lemma InitialDuesDays()
    ensures InitialDues[0].lastPayment == "15" + " days ago" && Text.DigitsValue("15") == 15
    ensures InitialDues[3].lastPayment == "3" + " days ago" && Text.DigitsValue("3") == 3
  {
    assert "15"[..1] == "1";
  }

  /** The comparator of `filteredDues` as written; `recent` compares the
      `lastPayment` texts. */
  function Order(o: SortOption): (DueRow, DueRow) -> bool {
    match o
    case ByName => Listing.Alphabetical(Name)
    case AmountAsc => Listing.Ascending(Amount)
    case AmountDesc => Listing.Descending(Amount)
    case Recent => TextualRecent()
    case Unknown => Listing.Unordered()
  }

  predicate InOrder(o: SortOption, a: DueRow, b: DueRow) {
    match o
    case ByName => Text.LexLe(a.name, b.name)
    case AmountAsc => a.dueValue <= b.dueValue
    case AmountDesc => a.dueValue >= b.dueValue
    case Recent => Text.LexLe(a.lastPayment, b.lastPayment)
    case Unknown => true
  }

  lemma OrderIsConsistent(o: SortOption)
    ensures Seqs.TotalPreorder(Order(o))
    ensures forall a, b :: Order(o)(a, b) == InOrder(o, a, b)
  {
    Listing.AscendingOrders(Amount);
    Listing.AlphabeticalOrders(Name);
    Listing.AlphabeticalOrders(LastPayment);
    forall a, b ensures Order(o)(a, b) == InOrder(o, a, b) {
      match o
      case ByName => assert Order(o)(a, b) == Text.LexLe(Name(a), Name(b));
      case AmountAsc => assert Order(o)(a, b) == (Amount(a) <= Amount(b));
      case AmountDesc => assert Order(o)(a, b) == (Amount(b) <= Amount(a));
      case Recent => assert Order(o)(a, b) == Text.LexLe(LastPayment(a), LastPayment(b));
      case Unknown =>
    }
  }

  /** `filteredDues`. */
  function FilteredDues(dues: seq<DueRow>, query: string, o: SortOption): (r: seq<DueRow>)
    ensures |r| <= |dues|
  {
    Listing.Listed(dues, SearchHit(query), Order(o))
  }

  /** The list shows exactly the entries whose name matches the search or
      whose phone contains it, each as often as stored, in the selected order. */
  lemma FilteredDuesExact(dues: seq<DueRow>, query: string, o: SortOption)
    ensures var r := FilteredDues(dues, query, o);
      && (forall d :: d in r <==> d in dues && (Text.MatchesQuery(d.name, query) || Text.Contains(d.phone, query)))
      && (forall d :: multiset(r)[d] == if SearchHit(query)(d) then multiset(dues)[d] else 0)
      && (forall i, j | 0 <= i < j < |r| :: InOrder(o, r[i], r[j]))
  {
    var r := FilteredDues(dues, query, o);
    Listing.ListedExact(dues, SearchHit(query), Order(o));
    forall d ensures d in r <==> d in dues && (Text.MatchesQuery(d.name, query) || Text.Contains(d.phone, query)) {
      assert SearchHit(query)(d) == (Text.MatchesQuery(d.name, query) || Text.Contains(d.phone, query));
    }
    OrderIsConsistent(o);
    Listing.ListedSorted(dues, SearchHit(query), Order(o));
  }

  /** The written list is in the selected order. */
  lemma FilteredDuesSorted(dues: seq<DueRow>, query: string, o: SortOption)
    ensures var r := FilteredDues(dues, query, o);
      forall i, j | 0 <= i < j < |r| :: InOrder(o, r[i], r[j])
  {
    OrderIsConsistent(o);
    Listing.ListedSorted(dues, SearchHit(query), Order(o));
  }

  /** Under `recent` as written, a row whose last-payment text comes strictly
      before another's in character order is listed above it. */
  lemma RecentAsWrittenFollowsText(dues: seq<DueRow>, query: string, i: int, j: int)
    requires var r := FilteredDues(dues, query, Recent);
      0 <= i < |r| && 0 <= j < |r| && !Text.LexLe(r[j].lastPayment, r[i].lastPayment)
    ensures i < j
  {
    var r := FilteredDues(dues, query, Recent);
    FilteredDuesSorted(dues, query, Recent);
    Text.LexLeTotal(r[i].lastPayment, r[i].lastPayment);
  }

  /** On the screen's own data, `recent` as written lists the customer who
      paid 15 days ago above the one who paid 3 days ago. */
  lemma SampleRecentAsWritten(i: int, j: int)
    requires var r := FilteredDues(InitialDues, "", Recent);
      0 <= i < |r| && 0 <= j < |r| && r[i] == InitialDues[0] && r[j] == InitialDues[3]
    ensures i < j
  {
    TextualRecentMisorders();
    var a, b := InitialDues[0], InitialDues[3];
    assert !Text.LexLe(b.lastPayment, a.lastPayment) by {
      assert TextualRecent()(b, a) == Text.LexLe(LastPayment(b), LastPayment(a));
    }
    RecentAsWrittenFollowsText(InitialDues, "", i, j);
  }

  // ------------------------------------------------------------ the intended order

  /** The comparator as intended: `recent` by the number of days. */
  function IntendedOrder(o: SortOption): (DueRow, DueRow) -> bool {
    if o == Recent then RecentFirst() else Order(o)
  }

  predicate IntendedInOrder(o: SortOption, a: DueRow, b: DueRow) {
    if o == Recent then RecentBefore(a, b) else InOrder(o, a, b)
  }

  lemma IntendedOrderIsConsistent(o: SortOption)
    ensures Seqs.TotalPreorder(IntendedOrder(o))
    ensures forall a, b :: IntendedOrder(o)(a, b) == IntendedInOrder(o, a, b)
  {
    OrderIsConsistent(o);
    RecentFirstOrders();
  }

  /** The list the screen evidently intends. */
  function IntendedDues(dues: seq<DueRow>, query: string, o: SortOption): seq<DueRow> {
    Listing.Listed(dues, SearchHit(query), IntendedOrder(o))
  }

  /** The intended list is in the intended order. */
  lemma IntendedDuesSorted(dues: seq<DueRow>, query: string, o: SortOption)
    ensures var r := IntendedDues(dues, query, o);
      forall i, j | 0 <= i < j < |r| :: IntendedInOrder(o, r[i], r[j])
  {
    IntendedOrderIsConsistent(o);
    Listing.ListedSorted(dues, SearchHit(query), IntendedOrder(o));
  }

  /** The intended list has the same entries as the written one, in the
      intended order. */
  lemma IntendedDuesExact(dues: seq<DueRow>, query: string, o: SortOption)
    ensures var r := IntendedDues(dues, query, o);
      && (forall d :: multiset(r)[d] == multiset(FilteredDues(dues, query, o))[d])
      && (forall i, j | 0 <= i < j < |r| :: IntendedInOrder(o, r[i], r[j]))
  {
    Listing.ListedExact(dues, SearchHit(query), IntendedOrder(o));
    Listing.ListedExact(dues, SearchHit(query), Order(o));
    IntendedDuesSorted(dues, query, o);
  }

  /** Under the intended `recent`, of two rows paid m and n days ago with m
      greater than n, the one paid n days ago is listed above the other. */
  lemma RecentIntendedFollowsDays(dues: seq<DueRow>, query: string, i: int, j: int)
    requires var r := IntendedDues(dues, query, Recent);
      && 0 <= i < |r| && 0 <= j < |r|
      && DaysAgo(r[i]).Some? && DaysAgo(r[j]).Some? && DaysAgo(r[i]).value > DaysAgo(r[j]).value
    ensures j < i
  {
    IntendedDuesSorted(dues, query, Recent);
  }

  // ------------------------------------------------------------ adding a due

  /** The add-due dialog's fields. */
  datatype NewDue = NewDue(name: string, phone: string, address: string, initialAmount: string)

  const EmptyForm: NewDue := NewDue("", "", "", "")

  /** Every entry's id is its position plus one, so ids are unique. */
  predicate IdsArePositions(dues: seq<DueRow>) {
    forall i | 0 <= i < |dues| :: dues[i].id == i + 1
  }

  lemma IdsArePositionsUnique(dues: seq<DueRow>)
    requires IdsArePositions(dues)
    ensures forall i, j | 0 <= i < j < |dues| :: dues[i].id != dues[j].id
  {
  }

  /** The entry `handleAddDue` appends: the next id, the parsed amount, and no
      payment yet. */
  function NewEntry(dues: seq<DueRow>, f: NewDue): (r: DueRow)
    requires f.initialAmount != [] && Text.AllDigits(f.initialAmount)
    ensures r.id == |dues| + 1 && r.lastPayment == NotPaidYet
    ensures Some(r.dueValue) == Text.ParseInt(f.initialAmount)
  {
    assert f.initialAmount + "" == f.initialAmount;
    Text.ParseIntNumeral(f.initialAmount, "");
    DueRow(|dues| + 1, f.name, f.address, Text.DigitsValue(f.initialAmount), f.phone, NotPaidYet)
  }

  class DuesBoard {
    var dues: seq<DueRow>
    var form: NewDue
    var dialogOpen: bool

    /** Ids are positions, and the amount field holds digits only. */
    predicate Valid()
      reads this
    {
      IdsArePositions(dues) && Text.AllDigits(form.initialAmount)
    }

    constructor ()
      ensures Valid() && dues == InitialDues && form == EmptyForm && !dialogOpen
    {
      dues := InitialDues;
      form := EmptyForm;
      dialogOpen := false;
    }

    method TypeName(text: string)
      requires Valid()
      modifies this
      ensures Valid() && form == old(form).(name := text) && dues == old(dues) && dialogOpen == old(dialogOpen)
    {
      form := form.(name := text);
    }

    method TypePhone(text: string)
      requires Valid()
      modifies this
      ensures Valid() && form == old(form).(phone := text) && dues == old(dues) && dialogOpen == old(dialogOpen)
    {
      form := form.(phone := text);
    }

    method TypeAddress(text: string)
      requires Valid()
      modifies this
      ensures Valid() && form == old(form).(address := text) && dues == old(dues) && dialogOpen == old(dialogOpen)
    {
      form := form.(address := text);
    }

    /** The amount field keeps only the digits typed. */
    method TypeAmount(text: string)
      requires Valid()
      modifies this
      ensures Valid() && form == old(form).(initialAmount := Text.KeepDigits(text))
      ensures dues == old(dues) && dialogOpen == old(dialogOpen)
    {
      form := form.(initialAmount := Text.KeepDigits(text));
    }

    /** `handleAddDue`: nothing happens while the name, the phone or the amount
        is empty; otherwise the new entry is appended, the dialog closes and
        the form is cleared. Existing entries are not touched. */
    method AddDue() returns (added: bool)
      requires Valid()
      modifies this
      ensures Valid()
      ensures added <==> old(form).name != [] && old(form).phone != [] && old(form).initialAmount != []
      ensures !added ==> dues == old(dues) && form == old(form) && dialogOpen == old(dialogOpen)
      ensures added ==>
        && dues == old(dues) + [NewEntry(old(dues), old(form))]
        && form == EmptyForm && !dialogOpen
    {
      if form.name == [] || form.phone == [] || form.initialAmount == [] {
        return false;
      }
      var entry := NewEntry(dues, form);
      dues := dues + [entry];
      dialogOpen := false;
      form := EmptyForm;
      added := true;
    }
  }
}
