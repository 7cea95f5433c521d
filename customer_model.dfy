/** A store's customer (server/models/Customer.js): a trimmed, required name,
    a required phone number matching `^[\d\s\-()+]{10,15}$`, unique across
    all customers, optional address and notes, the owning store, and a
    `createdAt` that defaults to the time of creation. */
module CustomerModel {
  import opened Wrappers
  import opened Text

  datatype Customer = Customer(
    id: ObjectId,
    name: string,
    phone: string,
    address: Option<string>,
    storeUserId: ObjectId,
    notes: Option<string>,
    createdAt: Millis)

  /** A character of the class `[\d\s\-()+]`. */
  predicate PhoneChar(c: char) {
    IsDigit(c) || IsSpace(c) || c == '-' || c == '(' || c == ')' || c == '+'
  }

  /** `/^[\d\s\-()+]{10,15}$/.test(v)`: the whole string is 10 to 15
      characters of the class. */
  predicate IsPhone(s: string) {
    10 <= |s| <= 15 && forall i | 0 <= i < |s| :: PhoneChar(s[i])
  }

  /** What the schema guarantees of every stored customer. The phone has no
      `trim` setter, so it is stored exactly as given. */
  predicate Valid(c: Customer) {
    && c.name != [] && Trim(c.name) == c.name
    && IsPhone(c.phone)
  }

  /** The fields of `new Customer({...})`; `None` is a field that is absent. */
  datatype CustomerDraft = CustomerDraft(
    name: Option<string>,
    phone: Option<string>,
    address: Option<string>,
    storeUserId: Option<ObjectId>,
    notes: Option<string>)

  /** Casting, the `createdAt` default and validation of a new customer at
      time `now`; `None` is a validation error. */
  function Create(d: CustomerDraft, id: ObjectId, now: Millis): (r: Option<Customer>)
    ensures r.Some? <==>
      && d.name.Some? && Trim(d.name.value) != []
      && d.phone.Some? && IsPhone(d.phone.value)
      && d.storeUserId.Some?
    ensures r.Some? ==> Valid(r.value)
    ensures r.Some? ==>
      && r.value.id == id && r.value.name == Trim(d.name.value)
      && r.value.phone == d.phone.value && r.value.address == d.address
      && r.value.storeUserId == d.storeUserId.value && r.value.notes == d.notes
      && r.value.createdAt == now
  {
    if d.name.None? || d.phone.None? || d.storeUserId.None? then None
    else if Trim(d.name.value) == [] || !IsPhone(d.phone.value) then None
    else
      TrimIdempotent(d.name.value);
      Some(Customer(id, Trim(d.name.value), d.phone.value, d.address, d.storeUserId.value, d.notes, now))
  }

  function DraftOf(c: Customer): CustomerDraft {
    CustomerDraft(Some(c.name), Some(c.phone), c.address, Some(c.storeUserId), c.notes)
  }

  /** Creating a customer from the fields of a valid one reproduces it,
      stamped with the time of creation. */
  lemma CreateRoundTrip(c: Customer, now: Millis)
    requires Valid(c)
    ensures Create(DraftOf(c), c.id, now) == Some(c.(createdAt := now))
  {
  }

  /** The phone pattern counts characters, not digits: ten spaces pass it,
      and a well-formed number with surrounding blanks that bring it past
      fifteen characters fails it. */
  lemma PhoneCountsCharacters()
    ensures IsPhone("          ")
    ensures IsPhone("01712345678")
    ensures !IsPhone("  01712-345-678  ")
  {
    assert IsDigit('0') && IsDigit('1');
  }

  /** The unique index on `phone`, over all stores. */
  predicate PhonesUnique(cs: seq<Customer>) {
    forall i, j | 0 <= i < j < |cs| :: cs[i].phone != cs[j].phone
  }

  predicate PhoneTaken(cs: seq<Customer>, phone: string) {
    exists i | 0 <= i < |cs| :: cs[i].phone == phone
  }

  /** Adding a customer whose phone is not taken keeps the phones unique. */
  lemma AddKeepsPhonesUnique(cs: seq<Customer>, c: Customer)
    requires PhonesUnique(cs)
    requires !PhoneTaken(cs, c.phone)
    ensures PhonesUnique(cs + [c])
  {
    var t := cs + [c];
    forall i, j | 0 <= i < j < |t| ensures t[i].phone != t[j].phone {
      if j == |cs| {
        assert t[i] == cs[i];
      } else {
        assert t[i] == cs[i] && t[j] == cs[j];
      }
    }
  }
}
