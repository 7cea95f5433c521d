/** A due record (server/models/Due.js): the running amount a customer owes a
    store, with the schema's required references, `amount >= 0`, the required
    `dueDate`, and the `createdAt`/`updatedAt` timestamps the store maintains. */
module DueModel {
  import opened Wrappers

  datatype Due = Due(
    id: ObjectId,
    customerId: ObjectId,
    storeUserId: ObjectId,
    amount: int,
    note: Option<string>,
    dueDate: Millis,
    createdAt: Millis,
    updatedAt: Millis)

  /** What the schema guarantees of every stored due. */
  predicate Valid(d: Due) {
    d.amount >= 0
  }

  /** The fields of `new Due({...})`; `None` is a field that is absent, or an
      amount that is not a number. */
  datatype DueDraft = DueDraft(
    customerId: Option<ObjectId>,
    storeUserId: Option<ObjectId>,
    amount: Option<int>,
    note: Option<string>,
    dueDate: Option<Millis>)

  /** The first `save()` of a new due at time `now`: validation, then both
      timestamps set to now; `None` is a validation error. */
  function Create(d: DueDraft, id: ObjectId, now: Millis): (r: Option<Due>)
    ensures r.Some? <==>
      d.customerId.Some? && d.storeUserId.Some? && d.amount.Some? && d.amount.value >= 0 && d.dueDate.Some?
    ensures r.Some? ==> Valid(r.value)
    ensures r.Some? ==>
      && r.value.id == id && r.value.customerId == d.customerId.value
      && r.value.storeUserId == d.storeUserId.value && r.value.amount == d.amount.value
      && r.value.note == d.note && r.value.dueDate == d.dueDate.value
      && r.value.createdAt == now && r.value.updatedAt == now
  {
    if d.customerId.None? || d.storeUserId.None? || d.amount.None? || d.dueDate.None? then None
    else
      var due := Due(id, d.customerId.value, d.storeUserId.value, d.amount.value, d.note, d.dueDate.value, now, now);
      if Valid(due) then Some(due) else None
  }

  /** Whether `d` differs from the `loaded` due in a stored field other than
      `updatedAt`: what the timestamps plugin asks before it stamps a save. */
  predicate Modified(loaded: Due, d: Due) {
    d.(updatedAt := loaded.updatedAt) != loaded
  }

  /** `save()` of a loaded due whose fields were set to those of `d`:
      validation, then `updatedAt` set to now, but only when a field changed. */
  function Save(loaded: Due, d: Due, now: Millis): (r: Option<Due>)
    ensures r.Some? <==> Valid(d)
    ensures r.Some? && Modified(loaded, d) ==> r.value.updatedAt == now && r.value.(updatedAt := d.updatedAt) == d
    ensures r.Some? && !Modified(loaded, d) ==> r.value == d
  {
    if !Valid(d) then None
    else if Modified(loaded, d) then Some(d.(updatedAt := now))
    else Some(d)
  }

  /** Saving a valid due without changing it stores it as it was, with its old
      `updatedAt`, whatever the time. */
  lemma SaveUnmodifiedKeepsStamp(d: Due, now: Millis)
    requires Valid(d)
    ensures Save(d, d, now) == Some(d)
  {
    assert !Modified(d, d) by {
      assert d.(updatedAt := d.updatedAt) == d;
    }
  }

  function DraftOf(d: Due): DueDraft {
    DueDraft(Some(d.customerId), Some(d.storeUserId), Some(d.amount), d.note, Some(d.dueDate))
  }

  /** Creating a due from the fields of a valid one reproduces it, stamped with
      the time of creation. */
  lemma CreateRoundTrip(d: Due, now: Millis)
    requires Valid(d)
    ensures Create(DraftOf(d), d.id, now) == Some(d.(createdAt := now, updatedAt := now))
  {
  }
}
