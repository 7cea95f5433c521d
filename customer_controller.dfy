/** The customer ledger of server/controllers/customerController.js: the
    customers, dues and payments tables of all stores, the handlers that change
    them (`createCustomer`, `recordPayment`, `addDue`) and the views computed
    from them (`getStoreTransactions`, `getStoreCustomers`, `getLastPaymentDate`).
    The store of a request is the id of the authenticated account, passed in as
    `owner`; the current time is passed in as `now`. */
module CustomerController {
  import opened Wrappers
  import opened Text
  import Seqs
  import C = CustomerModel
  import D = DueModel
  import P = PaymentModel

  /** `1000 * 60 * 60 * 24`: one day in milliseconds. */
  const DayMs: int := 86_400_000

  /** `30 * 24 * 60 * 60 * 1000`: how far ahead a new due's `dueDate` lies. */
  const ThirtyDaysMs: int := 2_592_000_000

  const InitialRegistrationNote: string := "Initial customer registration"
  const InitialDueNote: string := "Initial due created"
  const DueAddedLabel: string := "Due added"
  const NeverPaid: string := "Never paid"

  /** Why a handler answers with an error instead of its record. */
  datatype ApiError =
    | ValidationFailed   // a schema validator or cast rejected the document
    | DuplicatePhone     // the unique index on the customer's phone
    | NoActiveDue        // `recordPayment` found no due to pay against

  /** The HTTP status each error is sent with. */
  function Status(e: ApiError): (code: nat)
    ensures code == 404 <==> e == NoActiveDue
    ensures code == 400 <==> e != NoActiveDue
  {
    match e
    case NoActiveDue => 404
    case _ => 400
  }

  // ------------------------------------------------------------- selectors

  /** The query `{ customerId, storeUserId }` on a due. */
  predicate DueOf(d: D.Due, customerId: ObjectId, store: ObjectId) {
    d.customerId == customerId && d.storeUserId == store
  }

  /** The query `{ customerId, storeUserId }` on a payment. */
  predicate PaymentOf(p: P.Payment, customerId: ObjectId, store: ObjectId) {
    p.customerId == customerId && p.storeUserId == store
  }

  /** `Due.findOne({ customerId, storeUserId }).sort({ createdAt: -1 })`: the
      position of the customer's most recently created due at this store. */
  function ActiveDue(dues: seq<D.Due>, customerId: ObjectId, store: ObjectId): (r: Option<nat>)
    ensures r.None? <==> forall i | 0 <= i < |dues| :: !DueOf(dues[i], customerId, store)
    ensures r.Some? ==> r.value < |dues| && DueOf(dues[r.value], customerId, store)
    ensures r.Some? ==> forall i | 0 <= i < |dues| && DueOf(dues[i], customerId, store) ::
      dues[i].createdAt <= dues[r.value].createdAt
  {
    Seqs.NewestIndex(dues, (d: D.Due) => DueOf(d, customerId, store), (d: D.Due) => d.createdAt)
  }

  /** `Payment.findOne({ customerId, storeUserId }).sort({ createdAt: -1 })`,
      as the time of that payment. */
  function LastPaidAt(payments: seq<P.Payment>, customerId: ObjectId, store: ObjectId): (r: Option<Millis>)
    ensures r.None? <==> forall i | 0 <= i < |payments| :: !PaymentOf(payments[i], customerId, store)
    ensures r.Some? ==> exists i | 0 <= i < |payments| && PaymentOf(payments[i], customerId, store) ::
      payments[i].createdAt == r.value
    ensures r.Some? ==> forall i | 0 <= i < |payments| && PaymentOf(payments[i], customerId, store) ::
      payments[i].createdAt <= r.value
  {
    match Seqs.NewestIndex(payments, (p: P.Payment) => PaymentOf(p, customerId, store), (p: P.Payment) => p.createdAt)
    case None => None
    case Some(k) => Some(payments[k].createdAt)
  }

  // ------------------------------------------------------------- amounts

  /** `activeDue.amount -= amount; if (activeDue.amount < 0) activeDue.amount = 0`:
      the balance after a payment, floored at zero. */
  function PayDown(balance: int, amount: int): (r: int)
    ensures r >= 0 && r >= balance - amount
    ensures r == 0 || r == balance - amount
    ensures r == 0 <==> amount >= balance
    ensures amount >= 0 ==> r <= balance || balance < 0
  {
    var lowered := balance - amount;
    if lowered < 0 then 0 else lowered
  }

  /** Paying off what was just added restores the earlier balance. */
  lemma PayDownUndoesAdd(balance: int, amount: int)
    requires balance >= 0
    ensures PayDown(balance + amount, amount) == balance
  {
  }

  /** `if (note) activeDue.note = note`: only a non-empty note is truthy. */
  function NoteAfter(current: Option<string>, given: Option<string>): (r: Option<string>)
    ensures given.Some? && given.value != [] ==> r == given
    ensures given.None? || given.value == [] ==> r == current
  {
    if given.Some? && given.value != [] then given else current
  }

  // ------------------------------------------------------------- records made by the handlers

  /** The due `createCustomer` saves for a new customer. */
  function InitialDue(id: ObjectId, customerId: ObjectId, store: ObjectId, now: Millis): D.Due {
    D.Due(id, customerId, store, 0, Some(InitialRegistrationNote), now + ThirtyDaysMs, now, now)
  }

  /** The due `addDue` starts from when the customer has none at this store. */
  function FreshDue(id: ObjectId, customerId: ObjectId, store: ObjectId, now: Millis): D.Due {
    D.Due(id, customerId, store, 0, Some(InitialDueNote), now + ThirtyDaysMs, now, now)
  }

  /** `d` set to the fields of `e` and saved at `now`: stamped only when a
      field changed. */
  function Touched(d: D.Due, e: D.Due, now: Millis): D.Due {
    if D.Modified(d, e) then e.(updatedAt := now) else e
  }

  /** The due after `addDue` has added `amount` and saved it at `now`. */
  function Raised(d: D.Due, amount: int, note: Option<string>, now: Millis): D.Due {
    Touched(d, d.(amount := d.amount + amount, note := NoteAfter(d.note, note)), now)
  }

  /** The due after `recordPayment` has lowered it by `amount` and saved it at `now`. */
  function Lowered(d: D.Due, amount: int, now: Millis): D.Due {
    Touched(d, d.(amount := PayDown(d.amount, amount)), now)
  }

  /** A payment of 0 leaves a valid due exactly as it was, `updatedAt`
      included; any other payment on a positive balance stamps it. */
  lemma LoweredStamp(d: D.Due, amount: int, now: Millis)
    requires D.Valid(d) && amount >= 0
    ensures amount == 0 ==> Lowered(d, amount, now) == d
    ensures amount > 0 && d.amount > 0 ==> Lowered(d, amount, now).updatedAt == now
  {
    if amount == 0 {
      assert d.(amount := PayDown(d.amount, amount)) == d;
    } else if d.amount > 0 {
      assert PayDown(d.amount, amount) != d.amount;
      assert D.Modified(d, d.(amount := PayDown(d.amount, amount))) by {
        var e := d.(amount := PayDown(d.amount, amount));
        assert e.(updatedAt := d.updatedAt).amount != d.amount;
      }
    }
  }

  /** Adding 0 without a note leaves the due exactly as it was; adding a
      non-zero amount stamps it. */
  lemma RaisedStamp(d: D.Due, amount: int, note: Option<string>, now: Millis)
    ensures amount == 0 && (note.None? || note.value == []) ==> Raised(d, amount, note, now) == d
    ensures amount != 0 ==> Raised(d, amount, note, now).updatedAt == now
  {
    var e := d.(amount := d.amount + amount, note := NoteAfter(d.note, note));
    if amount == 0 && (note.None? || note.value == []) {
      assert e == d;
    } else if amount != 0 {
      assert D.Modified(d, e) by {
        assert e.(updatedAt := d.updatedAt).amount != d.amount;
      }
    }
  }

  /** Adding to or paying off a due leaves which due is active unchanged: the
      handlers never touch `createdAt` or the references. */
  lemma ActiveDueStable(dues: seq<D.Due>, k: nat, d: D.Due, customerId: ObjectId, store: ObjectId)
    requires k < |dues|
    requires d.customerId == dues[k].customerId && d.storeUserId == dues[k].storeUserId
    requires d.createdAt == dues[k].createdAt
    ensures ActiveDue(dues[k := d], customerId, store) == ActiveDue(dues, customerId, store)
  {
    Seqs.NewestStable(dues, k, d, (e: D.Due) => DueOf(e, customerId, store), (e: D.Due) => e.createdAt);
  }

  /** The first due of a customer at a store becomes its active due, and it is
      its only due there. */
  lemma FirstDueIsActive(dues: seq<D.Due>, d: D.Due)
    requires forall i | 0 <= i < |dues| :: !DueOf(dues[i], d.customerId, d.storeUserId)
    ensures ActiveDue(dues + [d], d.customerId, d.storeUserId) == Some(|dues|)
    ensures Seqs.Count(dues + [d], (e: D.Due) => DueOf(e, d.customerId, d.storeUserId)) == 1
  {
    var keep := (e: D.Due) => DueOf(e, d.customerId, d.storeUserId);
    Seqs.NewestFirstMatch(dues, d, keep, (e: D.Due) => e.createdAt);
    Seqs.FilterConcat(dues, [d], keep);
    assert Seqs.Filter(dues, keep) == [] by {
      if Seqs.Filter(dues, keep) != [] {
        var x := Seqs.Filter(dues, keep)[0];
        Seqs.FilterMember(dues, keep, x);
      }
    }
    assert [d][1..] == [];
  }

  // ------------------------------------------------------------- the ledger

  /** Every customer is valid and has an id below `n`, and no two share a phone. */
  predicate CustomersOk(cs: seq<C.Customer>, n: ObjectId) {
    && (forall i | 0 <= i < |cs| :: C.Valid(cs[i]) && cs[i].id < n)
    && C.PhonesUnique(cs)
  }

  /** Every due is valid (its amount is not negative) and has an id below `n`. */
  predicate DuesOk(ds: seq<D.Due>, n: ObjectId) {
    forall i | 0 <= i < |ds| :: D.Valid(ds[i]) && ds[i].id < n
  }

  /** Every payment is valid (its amount is not negative) and has an id below `n`. */
  predicate PaymentsOk(ps: seq<P.Payment>, n: ObjectId) {
    forall i | 0 <= i < |ps| :: P.Valid(ps[i]) && ps[i].id < n
  }

  lemma CustomersOkAdd(cs: seq<C.Customer>, n: ObjectId, m: ObjectId, c: C.Customer)
    requires CustomersOk(cs, n) && n <= m
    requires C.Valid(c) && c.id < m && !C.PhoneTaken(cs, c.phone)
    ensures CustomersOk(cs + [c], m)
  {
    C.AddKeepsPhonesUnique(cs, c);
    assert forall i | 0 <= i < |cs| :: (cs + [c])[i] == cs[i];
  }

  lemma DuesOkAdd(ds: seq<D.Due>, n: ObjectId, m: ObjectId, d: D.Due)
    requires DuesOk(ds, n) && n <= m
    requires D.Valid(d) && d.id < m
    ensures DuesOk(ds + [d], m)
  {
    assert forall i | 0 <= i < |ds| :: (ds + [d])[i] == ds[i];
  }

  lemma DuesOkSet(ds: seq<D.Due>, n: ObjectId, m: ObjectId, k: nat, d: D.Due)
    requires DuesOk(ds, n) && n <= m && k < |ds|
    requires D.Valid(d) && d.id < m
    ensures DuesOk(ds[k := d], m)
  {
  }

  lemma PaymentsOkAdd(ps: seq<P.Payment>, n: ObjectId, m: ObjectId, p: P.Payment)
    requires PaymentsOk(ps, n) && n <= m
    requires P.Valid(p) && p.id < m
    ensures PaymentsOk(ps + [p], m)
  {
    assert forall i | 0 <= i < |ps| :: (ps + [p])[i] == ps[i];
  }

  lemma CustomersOkGrow(cs: seq<C.Customer>, n: ObjectId, m: ObjectId)
    requires CustomersOk(cs, n) && n <= m
    ensures CustomersOk(cs, m)
  {
  }

  lemma PaymentsOkGrow(ps: seq<P.Payment>, n: ObjectId, m: ObjectId)
    requires PaymentsOk(ps, n) && n <= m
    ensures PaymentsOk(ps, m)
  {
  }

  /** The fields `createCustomer` reads from the request body. */
  datatype CustomerBody = CustomerBody(
    name: Option<string>,
    phone: Option<string>,
    address: Option<string>,
    notes: Option<string>)

  /** The three collections, and the id the store hands out next. */
  class Ledger {
    var customers: seq<C.Customer>
    var dues: seq<D.Due>
    var payments: seq<P.Payment>
    var nextId: ObjectId

    /** What the schemas and indexes keep true of the stored collections: every
        record is valid (so no due or payment amount is negative), customer
        phones are unique, and every id was handed out already. */
    predicate Valid()
      reads this
    {
      CustomersOk(customers, nextId) && DuesOk(dues, nextId) && PaymentsOk(payments, nextId)
    }

    constructor ()
      ensures Valid()
      ensures customers == [] && dues == [] && payments == [] && nextId == 0
    {
      customers := [];
      dues := [];
      payments := [];
      nextId := 0;
    }

    /** `createCustomer`: saves the customer, then its initial due of 0 that
        falls due in thirty days. A validation error or a phone already in use
        by any customer of any store is answered with 400 and stores nothing. */
    method CreateCustomer(owner: ObjectId, body: CustomerBody, now: Millis) returns (r: Result<C.Customer, ApiError>)
      requires Valid()
      modifies this
      ensures Valid()
      ensures var made := C.Create(C.CustomerDraft(body.name, body.phone, body.address, Some(owner), body.notes), old(nextId), now);
        && (made.None? ==> r == Err(ValidationFailed) && unchanged(this))
        && (made.Some? && C.PhoneTaken(old(customers), made.value.phone) ==> r == Err(DuplicatePhone) && unchanged(this))
        && (made.Some? && !C.PhoneTaken(old(customers), made.value.phone) ==>
              && r == Ok(made.value)
              && customers == old(customers) + [made.value]
              && dues == old(dues) + [InitialDue(old(nextId) + 1, made.value.id, owner, now)]
              && payments == old(payments)
              && nextId == old(nextId) + 2)
    {
      var made := C.Create(C.CustomerDraft(body.name, body.phone, body.address, Some(owner), body.notes), nextId, now);
      if made.None? {
        return Err(ValidationFailed);
      }
      if C.PhoneTaken(customers, made.value.phone) {
        return Err(DuplicatePhone);
      }
      var c := made.value;
      var initial := D.Create(D.DueDraft(Some(c.id), Some(owner), Some(0), Some(InitialRegistrationNote), Some(now + ThirtyDaysMs)), nextId + 1, now);
      assert initial.value == InitialDue(nextId + 1, c.id, owner, now);
      CustomersOkAdd(customers, nextId, nextId + 2, c);
      DuesOkAdd(dues, nextId, nextId + 2, initial.value);
      PaymentsOkGrow(payments, nextId, nextId + 2);
      customers := customers + [c];
      dues := dues + [initial.value];
      nextId := nextId + 2;
      r := Ok(c);
    }

    /** `recordPayment`: records a payment against the customer's active due and
        lowers that due by the amount, never below zero. Without an active due
        the answer is 404; a missing or negative amount fails the payment's
        validation with 400. Either way nothing is stored. */
    method RecordPayment(owner: ObjectId, customerId: ObjectId, amount: Option<int>, note: Option<string>, now: Millis)
      returns (r: Result<P.Payment, ApiError>)
      requires Valid()
      modifies this
      ensures Valid()
      ensures var k := ActiveDue(old(dues), customerId, owner);
        && (k.None? ==> r == Err(NoActiveDue) && unchanged(this))
        && (k.Some? && (amount.None? || amount.value < 0) ==> r == Err(ValidationFailed) && unchanged(this))
        && (k.Some? && amount.Some? && amount.value >= 0 ==>
              var paid := P.Payment(old(nextId), old(dues)[k.value].id, customerId, owner, amount.value, note, now, now);
              && r == Ok(paid)
              && payments == old(payments) + [paid]
              && dues == old(dues)[k.value := Lowered(old(dues)[k.value], amount.value, now)]
              && customers == old(customers)
              && nextId == old(nextId) + 1)
    {
      var k := ActiveDue(dues, customerId, owner);
      if k.None? {
        return Err(NoActiveDue);
      }
      var active := dues[k.value];
      var made := P.Create(P.PaymentDraft(Some(active.id), Some(customerId), Some(owner), amount, note), nextId, now);
      if made.None? {
        return Err(ValidationFailed);
      }
      var balance := active.amount - amount.value;
      if balance < 0 {
        balance := 0;
      }
      var saved := D.Save(active, active.(amount := balance), now);
      assert saved.value == Lowered(active, amount.value, now);
      CustomersOkGrow(customers, nextId, nextId + 1);
      DuesOkSet(dues, nextId, nextId + 1, k.value, saved.value);
      PaymentsOkAdd(payments, nextId, nextId + 1, made.value);
      payments := payments + [made.value];
      dues := dues[k.value := saved.value];
      nextId := nextId + 1;
      r := Ok(made.value);
    }

    /** `addDue`: adds the amount to the customer's active due, or to a new due
        of 0 when the customer has none at this store, replaces its note when a
        non-empty one is given, and saves it. A missing amount, or one that would
        take the due below zero, fails validation with 400 and stores nothing. */
    method AddDue(owner: ObjectId, customerId: ObjectId, amount: Option<int>, note: Option<string>, now: Millis)
      returns (r: Result<D.Due, ApiError>)
      requires Valid()
      modifies this
      ensures Valid()
      ensures var k := ActiveDue(old(dues), customerId, owner);
        var base := if k.Some? then old(dues)[k.value] else FreshDue(old(nextId), customerId, owner, now);
        && (amount.None? || base.amount + amount.value < 0 ==> r == Err(ValidationFailed) && unchanged(this))
        && (amount.Some? && base.amount + amount.value >= 0 ==>
              && r == Ok(Raised(base, amount.value, note, now))
              && (k.Some? ==> dues == old(dues)[k.value := Raised(base, amount.value, note, now)] && nextId == old(nextId))
              && (k.None? ==> dues == old(dues) + [Raised(base, amount.value, note, now)] && nextId == old(nextId) + 1)
              && customers == old(customers)
              && payments == old(payments))
    {
      var k := ActiveDue(dues, customerId, owner);
      var base := if k.Some? then dues[k.value] else FreshDue(nextId, customerId, owner, now);
      var active := base;
      if amount.None? {
        return Err(ValidationFailed);
      }
      active := active.(amount := active.amount + amount.value);
      if note.Some? && note.value != [] {
        active := active.(note := note);
      }
      var saved := D.Save(base, active, now);
      if saved.None? {
        return Err(ValidationFailed);
      }
      assert saved.value == Raised(base, amount.value, note, now);
      if k.Some? {
        DuesOkSet(dues, nextId, nextId, k.value, saved.value);
        dues := dues[k.value := saved.value];
      } else {
        CustomersOkGrow(customers, nextId, nextId + 1);
        DuesOkAdd(dues, nextId, nextId + 1, saved.value);
        PaymentsOkGrow(payments, nextId, nextId + 1);
        dues := dues + [saved.value];
        nextId := nextId + 1;
      }
      r := Ok(saved.value);
    }
  }

  // ------------------------------------------------------------- transactions

  /** An entry of `getStoreTransactions`: the record, tagged by its kind. */
  datatype Transaction = PaymentEntry(payment: P.Payment) | DueEntry(due: D.Due)

  function Stamp(t: Transaction): Millis {
    match t
    case PaymentEntry(p) => p.createdAt
    case DueEntry(d) => d.createdAt
  }

  /** The comparator `(a, b) => b.createdAt - a.createdAt`: `a` may come first. */
  predicate TxNewer(a: Transaction, b: Transaction) {
    Stamp(b) <= Stamp(a)
  }

  /** `.sort({ createdAt: -1 })` on payments and on dues. */
  predicate PaymentNewer(a: P.Payment, b: P.Payment) {
    b.createdAt <= a.createdAt
  }

  predicate DueNewer(a: D.Due, b: D.Due) {
    b.createdAt <= a.createdAt
  }

  lemma NewerOrders()
    ensures Seqs.TotalPreorder(TxNewer)
    ensures Seqs.TotalPreorder(PaymentNewer)
    ensures Seqs.TotalPreorder(DueNewer)
  {
  }

  /** `note: d.note || 'Due added'`: a due without a note is labelled. */
  function DueLabel(note: Option<string>): (r: string)
    ensures r != []
    ensures note.Some? && note.value != [] ==> r == note.value
  {
    if note.Some? && note.value != [] then note.value else DueAddedLabel
  }

  function DueEntryOf(d: D.Due): Transaction {
    DueEntry(d.(note := Some(DueLabel(d.note))))
  }

  function PaymentEntries(ps: seq<P.Payment>): (r: seq<Transaction>)
    ensures |r| == |ps| && forall i | 0 <= i < |ps| :: r[i] == PaymentEntry(ps[i])
  {
    seq(|ps|, i requires 0 <= i < |ps| => PaymentEntry(ps[i]))
  }

  function DueEntries(ds: seq<D.Due>): (r: seq<Transaction>)
    ensures |r| == |ds| && forall i | 0 <= i < |ds| :: r[i] == DueEntryOf(ds[i])
  {
    seq(|ds|, i requires 0 <= i < |ds| => DueEntryOf(ds[i]))
  }

  function PaymentsOf(payments: seq<P.Payment>, customerId: ObjectId, store: ObjectId): seq<P.Payment> {
    Seqs.Filter(payments, (p: P.Payment) => PaymentOf(p, customerId, store))
  }

  function DuesOf(dues: seq<D.Due>, customerId: ObjectId, store: ObjectId): seq<D.Due> {
    Seqs.Filter(dues, (d: D.Due) => DueOf(d, customerId, store))
  }

  /** `getStoreTransactions`: the customer's payments and dues at this store,
      each list newest first, payments before dues, then the whole list sorted
      newest first by the stable array sort. */
  function Transactions(payments: seq<P.Payment>, dues: seq<D.Due>, customerId: ObjectId, store: ObjectId): (r: seq<Transaction>)
    ensures |r| == |PaymentsOf(payments, customerId, store)| + |DuesOf(dues, customerId, store)|
  {
    var ps := Seqs.Sort(PaymentsOf(payments, customerId, store), PaymentNewer);
    var ds := Seqs.Sort(DuesOf(dues, customerId, store), DueNewer);
    Seqs.Sort(PaymentEntries(ps) + DueEntries(ds), TxNewer)
  }

  /** The timeline is newest first. */
  lemma TransactionsNewestFirst(payments: seq<P.Payment>, dues: seq<D.Due>, customerId: ObjectId, store: ObjectId)
    ensures Seqs.SortedBy(Transactions(payments, dues, customerId, store), TxNewer)
  {
    NewerOrders();
    var ps := Seqs.Sort(PaymentsOf(payments, customerId, store), PaymentNewer);
    var ds := Seqs.Sort(DuesOf(dues, customerId, store), DueNewer);
    Seqs.SortSorted(PaymentEntries(ps) + DueEntries(ds), TxNewer);
  }

  /** The timeline holds one entry per payment and one labelled entry per due
      of the customer at this store, each as often as the record is stored. */
  lemma TransactionsMultiset(payments: seq<P.Payment>, dues: seq<D.Due>, customerId: ObjectId, store: ObjectId)
    ensures multiset(Transactions(payments, dues, customerId, store)) ==
      multiset(PaymentEntries(PaymentsOf(payments, customerId, store))) + multiset(DueEntries(DuesOf(dues, customerId, store)))
  {
    var ps0 := PaymentsOf(payments, customerId, store);
    var ds0 := DuesOf(dues, customerId, store);
    var ps := Seqs.Sort(ps0, PaymentNewer);
    var ds := Seqs.Sort(ds0, DueNewer);
    var pe := (p: P.Payment) => PaymentEntry(p);
    assert PaymentEntries(ps) == Seqs.Map(ps, pe);
    assert PaymentEntries(ps0) == Seqs.Map(ps0, pe);
    Seqs.MapPermutation(ps, ps0, pe);
    assert DueEntries(ds) == Seqs.Map(ds, DueEntryOf);
    assert DueEntries(ds0) == Seqs.Map(ds0, DueEntryOf);
    Seqs.MapPermutation(ds, ds0, DueEntryOf);
  }

  /** Each payment of the customer at this store is in the timeline exactly as
      often as it is stored. */
  lemma TransactionsCountPayment(payments: seq<P.Payment>, dues: seq<D.Due>, customerId: ObjectId, store: ObjectId, p: P.Payment)
    requires PaymentOf(p, customerId, store)
    ensures multiset(Transactions(payments, dues, customerId, store))[PaymentEntry(p)] == multiset(payments)[p]
  {
    TransactionsMultiset(payments, dues, customerId, store);
    var ps0 := PaymentsOf(payments, customerId, store);
    var ds0 := DuesOf(dues, customerId, store);
    var pe := (q: P.Payment) => PaymentEntry(q);
    assert PaymentEntries(ps0) == Seqs.Map(ps0, pe);
    Seqs.MapCount(ps0, pe, p);
    Seqs.FilterMultiset(payments, (q: P.Payment) => PaymentOf(q, customerId, store));
    assert PaymentEntry(p) !in multiset(DueEntries(ds0));
  }

  /** The entry of a payment of the customer at this store is in the timeline. */
  lemma TransactionsHavePayment(payments: seq<P.Payment>, dues: seq<D.Due>, customerId: ObjectId, store: ObjectId, p: P.Payment)
    requires p in payments && PaymentOf(p, customerId, store)
    ensures PaymentEntry(p) in Transactions(payments, dues, customerId, store)
  {
    var ps := Seqs.Sort(PaymentsOf(payments, customerId, store), PaymentNewer);
    var ds := Seqs.Sort(DuesOf(dues, customerId, store), DueNewer);
    Seqs.FilterMember(payments, (q: P.Payment) => PaymentOf(q, customerId, store), p);
    Seqs.SortMember(PaymentsOf(payments, customerId, store), PaymentNewer, p);
    var i :| 0 <= i < |ps| && ps[i] == p;
    var all := PaymentEntries(ps) + DueEntries(ds);
    assert all[i] == PaymentEntry(p);
    Seqs.SortMember(all, TxNewer, PaymentEntry(p));
  }

  /** The labelled entry of a due of the customer at this store is in the timeline. */
  lemma TransactionsHaveDue(payments: seq<P.Payment>, dues: seq<D.Due>, customerId: ObjectId, store: ObjectId, d: D.Due)
    requires d in dues && DueOf(d, customerId, store)
    ensures DueEntryOf(d) in Transactions(payments, dues, customerId, store)
  {
    var ps := Seqs.Sort(PaymentsOf(payments, customerId, store), PaymentNewer);
    var ds := Seqs.Sort(DuesOf(dues, customerId, store), DueNewer);
    Seqs.FilterMember(dues, (e: D.Due) => DueOf(e, customerId, store), d);
    Seqs.SortMember(DuesOf(dues, customerId, store), DueNewer, d);
    var i :| 0 <= i < |ds| && ds[i] == d;
    var es := DueEntries(ds);
    assert es[i] == DueEntryOf(d);
    var all := PaymentEntries(ps) + es;
    assert all[|PaymentEntries(ps)| + i] == es[i];
    Seqs.SortMember(all, TxNewer, DueEntryOf(d));
  }

  /** Every payment and every due of the customer at this store is in the
      timeline, each due with its label. */
  lemma TransactionsComplete(payments: seq<P.Payment>, dues: seq<D.Due>, customerId: ObjectId, store: ObjectId)
    ensures forall p | p in payments && PaymentOf(p, customerId, store) ::
      PaymentEntry(p) in Transactions(payments, dues, customerId, store)
    ensures forall d | d in dues && DueOf(d, customerId, store) ::
      DueEntryOf(d) in Transactions(payments, dues, customerId, store)
  {
    forall p | p in payments && PaymentOf(p, customerId, store)
      ensures PaymentEntry(p) in Transactions(payments, dues, customerId, store)
    {
      TransactionsHavePayment(payments, dues, customerId, store, p);
    }
    forall d | d in dues && DueOf(d, customerId, store)
      ensures DueEntryOf(d) in Transactions(payments, dues, customerId, store)
    {
      TransactionsHaveDue(payments, dues, customerId, store, d);
    }
  }

  /** What an entry of the timeline may be: a payment of the customer at this
      store, or the labelled entry of one of its dues there. */
  predicate FromLedger(t: Transaction, payments: seq<P.Payment>, dues: seq<D.Due>, customerId: ObjectId, store: ObjectId) {
    || (t.PaymentEntry? && t.payment in payments && PaymentOf(t.payment, customerId, store))
    || (t.DueEntry? && t.due.note.Some? && t.due.note.value != [] &&
        exists d | d in dues && DueOf(d, customerId, store) :: t == DueEntryOf(d))
  }

  lemma TransactionFromLedger(payments: seq<P.Payment>, dues: seq<D.Due>, customerId: ObjectId, store: ObjectId, t: Transaction)
    requires t in Transactions(payments, dues, customerId, store)
    ensures FromLedger(t, payments, dues, customerId, store)
  {
    var ps := Seqs.Sort(PaymentsOf(payments, customerId, store), PaymentNewer);
    var ds := Seqs.Sort(DuesOf(dues, customerId, store), DueNewer);
    var all := PaymentEntries(ps) + DueEntries(ds);
    Seqs.SortMember(all, TxNewer, t);
    var j :| 0 <= j < |all| && all[j] == t;
    if j < |ps| {
      Seqs.SortMember(PaymentsOf(payments, customerId, store), PaymentNewer, ps[j]);
      Seqs.FilterMember(payments, (q: P.Payment) => PaymentOf(q, customerId, store), ps[j]);
    } else {
      var d := ds[j - |ps|];
      assert t == DueEntryOf(d);
      Seqs.SortMember(DuesOf(dues, customerId, store), DueNewer, d);
      Seqs.FilterMember(dues, (e: D.Due) => DueOf(e, customerId, store), d);
    }
  }

  /** The timeline holds nothing else: each entry is a payment of the customer
      at this store, or a due of it with a non-empty note. */
  lemma TransactionsSound(payments: seq<P.Payment>, dues: seq<D.Due>, customerId: ObjectId, store: ObjectId)
    ensures forall t | t in Transactions(payments, dues, customerId, store) ::
      FromLedger(t, payments, dues, customerId, store)
  {
    forall t | t in Transactions(payments, dues, customerId, store)
      ensures FromLedger(t, payments, dues, customerId, store)
    {
      TransactionFromLedger(payments, dues, customerId, store, t);
    }
  }

  // ------------------------------------------------------------- store customers

  /** An entry of `getStoreCustomers`: the customer with its current due and the
      text describing its last payment. */
  datatype CustomerRow = CustomerRow(customer: C.Customer, dueValue: int, lastPayment: string)

  /** `due?.amount || 0`: the amount of the active due, or 0 without one. */
  function DueValue(dues: seq<D.Due>, customerId: ObjectId, store: ObjectId): (r: int)
    ensures (forall i | 0 <= i < |dues| :: !DueOf(dues[i], customerId, store)) ==> r == 0
    ensures (exists i | 0 <= i < |dues| :: DueOf(dues[i], customerId, store)) ==>
      exists k | 0 <= k < |dues| && DueOf(dues[k], customerId, store) ::
        && r == dues[k].amount
        && forall i | 0 <= i < |dues| && DueOf(dues[i], customerId, store) :: dues[i].createdAt <= dues[k].createdAt
  {
    match ActiveDue(dues, customerId, store)
    case None => 0
    case Some(k) => dues[k].amount
  }

  /** Over valid dues, the reported due is never negative. */
  lemma DueValueNonNegative(dues: seq<D.Due>, customerId: ObjectId, store: ObjectId)
    requires forall i | 0 <= i < |dues| :: D.Valid(dues[i])
    ensures DueValue(dues, customerId, store) >= 0
  {
  }

  /** `Math.floor((now - paymentDate) / (1000 * 60 * 60 * 24))`: whole days elapsed. */
  function DaysSince(now: Millis, since: Millis): (d: int)
    ensures d * DayMs <= now - since < d * DayMs + DayMs
  {
    (now - since) / DayMs
  }

  /** `getLastPaymentDate`: `'Never paid'`, or `'<days> days ago'`. */
  function LastPaymentText(payments: seq<P.Payment>, customerId: ObjectId, store: ObjectId, now: Millis): string {
    match LastPaidAt(payments, customerId, store)
    case None => NeverPaid
    case Some(t) => IntToString(DaysSince(now, t)) + " days ago"
  }

  /** The text reads back as the number of days since the last payment; the
      text for a customer who never paid reads as no number. */
  lemma LastPaymentTextReadsBack(payments: seq<P.Payment>, customerId: ObjectId, store: ObjectId, now: Millis)
    ensures LastPaidAt(payments, customerId, store).None? ==>
      LastPaymentText(payments, customerId, store, now) == NeverPaid &&
      ParseInt(LastPaymentText(payments, customerId, store, now)).None?
    ensures LastPaidAt(payments, customerId, store).Some? ==>
      ParseInt(LastPaymentText(payments, customerId, store, now)) ==
        Some(DaysSince(now, LastPaidAt(payments, customerId, store).value))
  {
    match LastPaidAt(payments, customerId, store)
    case None =>
      assert LeadingSpaces(NeverPaid) == 0;
    case Some(t) =>
      ParseIntToString(DaysSince(now, t), " days ago");
  }

  predicate CustomerNewer(a: C.Customer, b: C.Customer) {
    b.createdAt <= a.createdAt
  }

  function CustomersOf(customers: seq<C.Customer>, store: ObjectId): seq<C.Customer> {
    Seqs.Filter(customers, (c: C.Customer) => c.storeUserId == store)
  }

  function RowOf(c: C.Customer, dues: seq<D.Due>, payments: seq<P.Payment>, store: ObjectId, now: Millis): CustomerRow {
    CustomerRow(c, DueValue(dues, c.id, store), LastPaymentText(payments, c.id, store, now))
  }

  /** The customer a row describes. */
  function RowCustomer(row: CustomerRow): C.Customer {
    row.customer
  }

  /** `getStoreCustomers`: the store's customers, newest first, each with its
      due and its last payment. */
  function StoreCustomers(customers: seq<C.Customer>, dues: seq<D.Due>, payments: seq<P.Payment>, store: ObjectId, now: Millis)
    : (r: seq<CustomerRow>)
    ensures |r| == |CustomersOf(customers, store)|
    ensures forall i | 0 <= i < |r| :: r[i] == RowOf(r[i].customer, dues, payments, store, now)
  {
    var cs := Seqs.Sort(CustomersOf(customers, store), CustomerNewer);
    seq(|cs|, i requires 0 <= i < |cs| => RowOf(cs[i], dues, payments, store, now))
  }

  /** Each customer of the store has as many rows as it has stored copies. */
  lemma StoreCustomersMultiset(customers: seq<C.Customer>, dues: seq<D.Due>, payments: seq<P.Payment>, store: ObjectId, now: Millis)
    ensures forall c :: multiset(Seqs.Map(StoreCustomers(customers, dues, payments, store, now), RowCustomer))[c] ==
                        if c.storeUserId == store then multiset(customers)[c] else 0
  {
    var cs := Seqs.Sort(CustomersOf(customers, store), CustomerNewer);
    var r := StoreCustomers(customers, dues, payments, store, now);
    assert Seqs.Map(r, RowCustomer) == cs;
    Seqs.FilterMultiset(customers, (c: C.Customer) => c.storeUserId == store);
  }

  /** The rows are newest first. */
  lemma StoreCustomersNewestFirst(customers: seq<C.Customer>, dues: seq<D.Due>, payments: seq<P.Payment>, store: ObjectId, now: Millis)
    ensures var r := StoreCustomers(customers, dues, payments, store, now);
      forall i, j | 0 <= i < j < |r| :: r[j].customer.createdAt <= r[i].customer.createdAt
  {
    var cs := Seqs.Sort(CustomersOf(customers, store), CustomerNewer);
    var r := StoreCustomers(customers, dues, payments, store, now);
    assert forall i | 0 <= i < |r| :: r[i].customer == cs[i];
    assert Seqs.TotalPreorder(CustomerNewer);
    Seqs.SortSorted(CustomersOf(customers, store), CustomerNewer);
  }

  /** The rows list exactly the store's customers, newest first. */
  lemma StoreCustomersExact(customers: seq<C.Customer>, dues: seq<D.Due>, payments: seq<P.Payment>, store: ObjectId, now: Millis)
    ensures var r := StoreCustomers(customers, dues, payments, store, now);
      && (forall i | 0 <= i < |r| :: r[i].customer in customers && r[i].customer.storeUserId == store)
      && (forall c | c in customers && c.storeUserId == store :: exists i | 0 <= i < |r| :: r[i].customer == c)
      && (forall c :: multiset(Seqs.Map(r, RowCustomer))[c] == if c.storeUserId == store then multiset(customers)[c] else 0)
      && (forall i, j | 0 <= i < j < |r| :: r[j].customer.createdAt <= r[i].customer.createdAt)
  {
    var keep := (c: C.Customer) => c.storeUserId == store;
    var cs := Seqs.Sort(CustomersOf(customers, store), CustomerNewer);
    var r := StoreCustomers(customers, dues, payments, store, now);
    assert forall i | 0 <= i < |r| :: r[i].customer == cs[i];
    StoreCustomersMultiset(customers, dues, payments, store, now);
    forall i | 0 <= i < |r| ensures r[i].customer in customers && r[i].customer.storeUserId == store {
      Seqs.SortMember(CustomersOf(customers, store), CustomerNewer, cs[i]);
      Seqs.FilterMember(customers, keep, cs[i]);
    }
    forall c | c in customers && c.storeUserId == store ensures exists i | 0 <= i < |r| :: r[i].customer == c {
      Seqs.FilterMember(customers, keep, c);
      Seqs.SortMember(CustomersOf(customers, store), CustomerNewer, c);
      var i :| 0 <= i < |cs| && cs[i] == c;
      assert r[i].customer == c;
    }
    StoreCustomersNewestFirst(customers, dues, payments, store, now);
  }
}
