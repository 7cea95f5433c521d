/** A payment record (server/models/Payment.js): a customer's payment against
    one due, with the required references, `amount >= 0`, and timestamps. */
module PaymentModel {
  import opened Wrappers

  datatype Payment = Payment(
    id: ObjectId,
    dueId: ObjectId,
    customerId: ObjectId,
    storeUserId: ObjectId,
    amount: int,
    note: Option<string>,
    createdAt: Millis,
    updatedAt: Millis)

  /** What the schema guarantees of every stored payment. */
  predicate Valid(p: Payment) {
    p.amount >= 0
  }

  /** The fields of `new Payment({...})`; `None` is a field that is absent,
      or an amount that is not a number. */
  datatype PaymentDraft = PaymentDraft(
    dueId: Option<ObjectId>,
    customerId: Option<ObjectId>,
    storeUserId: Option<ObjectId>,
    amount: Option<int>,
    note: Option<string>)

  /** The first `save()` of a new payment at time `now`; `None` is a validation error. */
  function Create(d: PaymentDraft, id: ObjectId, now: Millis): (r: Option<Payment>)
    ensures r.Some? <==>
      d.dueId.Some? && d.customerId.Some? && d.storeUserId.Some? && d.amount.Some? && d.amount.value >= 0
    ensures r.Some? ==> Valid(r.value)
    ensures r.Some? ==>
      && r.value.id == id && r.value.dueId == d.dueId.value
      && r.value.customerId == d.customerId.value && r.value.storeUserId == d.storeUserId.value
      && r.value.amount == d.amount.value && r.value.note == d.note
      && r.value.createdAt == now && r.value.updatedAt == now
  {
    if d.dueId.None? || d.customerId.None? || d.storeUserId.None? || d.amount.None? || d.amount.value < 0 then None
    else Some(Payment(id, d.dueId.value, d.customerId.value, d.storeUserId.value, d.amount.value, d.note, now, now))
  }

  function DraftOf(p: Payment): PaymentDraft {
    PaymentDraft(Some(p.dueId), Some(p.customerId), Some(p.storeUserId), Some(p.amount), p.note)
  }

  /** Creating a payment from the fields of a valid one reproduces it, stamped
      with the time of creation. */
  lemma CreateRoundTrip(p: Payment, now: Millis)
    requires Valid(p)
    ensures Create(DraftOf(p), p.id, now) == Some(p.(createdAt := now, updatedAt := now))
  {
  }
}
