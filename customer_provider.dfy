/** The client's customer state (providers/CustomerProvider.jsx): the customer
    list with each customer's due as last reported, the loading flag and the
    error message, and the list updaters that run once a request has succeeded.
    Each request's outcome is a parameter: `None` (or `false`) is a request that
    failed, which leaves the list as it was. */
module CustomerProvider {
  import opened Wrappers
  import C = CustomerModel
  import CustomerController

  /** A customer as the client holds it. `dueValue` and `lastPayment` come with
      the store's customer list; a customer added from a creation response has
      neither (`None`, JavaScript's `undefined`), and arithmetic on a missing
      due stays missing (`NaN`). */
  datatype ClientCustomer = ClientCustomer(customer: C.Customer, dueValue: Option<int>, lastPayment: Option<string>)

  function FromRow(row: CustomerController.CustomerRow): ClientCustomer {
    ClientCustomer(row.customer, Some(row.dueValue), Some(row.lastPayment))
  }

  function FromRows(rows: seq<CustomerController.CustomerRow>): (r: seq<ClientCustomer>)
    ensures |r| == |rows| && forall i | 0 <= i < |rows| :: r[i] == FromRow(rows[i])
  {
    seq(|rows|, i requires 0 <= i < |rows| => FromRow(rows[i]))
  }

  /** `c.dueValue - amount`, with `undefined` staying `NaN`. */
  function LocalPay(due: Option<int>, amount: int): (r: Option<int>)
    ensures r.Some? <==> due.Some?
    ensures due.Some? ==> r.value + amount == due.value
  {
    match due
    case None => None
    case Some(v) => Some(v - amount)
  }

  /** `c.dueValue + amount`. */
  function LocalAdd(due: Option<int>, amount: int): (r: Option<int>)
    ensures r.Some? <==> due.Some?
    ensures due.Some? ==> r.value - amount == due.value
  {
    match due
    case None => None
    case Some(v) => Some(v + amount)
  }

  /** The local payment is not floored at zero: it agrees with the balance the
      server keeps exactly when the payment does not exceed the due. */
  lemma LocalPayUnclamped(due: int, amount: int)
    requires due >= 0 && amount >= 0
    ensures LocalPay(Some(due), amount) == Some(CustomerController.PayDown(due, amount)) <==> amount <= due
    ensures amount > due ==> LocalPay(Some(due), amount).value < 0
  {
  }

  /** `prev.map(c => c._id === id ? { ...c, dueValue: c.dueValue - amount } : c)`. */
  function Paid(cs: seq<ClientCustomer>, id: ObjectId, amount: int): (r: seq<ClientCustomer>)
    ensures |r| == |cs|
    ensures forall i | 0 <= i < |cs| ::
      r[i] == if cs[i].customer.id == id then cs[i].(dueValue := LocalPay(cs[i].dueValue, amount)) else cs[i]
  {
    seq(|cs|, i requires 0 <= i < |cs| =>
      if cs[i].customer.id == id then cs[i].(dueValue := LocalPay(cs[i].dueValue, amount)) else cs[i])
  }

  /** `prev.map(c => c._id === id ? { ...c, dueValue: c.dueValue + amount } : c)`. */
  function DueAdded(cs: seq<ClientCustomer>, id: ObjectId, amount: int): (r: seq<ClientCustomer>)
    ensures |r| == |cs|
    ensures forall i | 0 <= i < |cs| ::
      r[i] == if cs[i].customer.id == id then cs[i].(dueValue := LocalAdd(cs[i].dueValue, amount)) else cs[i]
  {
    seq(|cs|, i requires 0 <= i < |cs| =>
      if cs[i].customer.id == id then cs[i].(dueValue := LocalAdd(cs[i].dueValue, amount)) else cs[i])
  }

  /** Locally, paying what was just added gives the list back, and so does
      adding back what was just paid. */
  lemma PaidUndoesDueAdded(cs: seq<ClientCustomer>, id: ObjectId, amount: int)
    ensures Paid(DueAdded(cs, id, amount), id, amount) == cs
    ensures DueAdded(Paid(cs, id, amount), id, amount) == cs
  {
    var added := DueAdded(cs, id, amount);
    var paid := Paid(cs, id, amount);
    assert forall i | 0 <= i < |cs| :: added[i].customer == cs[i].customer && paid[i].customer == cs[i].customer;
  }

  /** `{ ...c, ...response.data }`: the customer's fields are replaced by the
      response's, and the due and last payment it did not send are kept. */
  function MergeCustomer(c: ClientCustomer, updated: C.Customer): ClientCustomer {
    c.(customer := updated)
  }

  /** `prev.map(c => c._id === id ? { ...c, ...response.data } : c)`. */
  function Updated(cs: seq<ClientCustomer>, id: ObjectId, updated: C.Customer): (r: seq<ClientCustomer>)
    ensures |r| == |cs|
    ensures forall i | 0 <= i < |cs| :: r[i] == if cs[i].customer.id == id then MergeCustomer(cs[i], updated) else cs[i]
  {
    seq(|cs|, i requires 0 <= i < |cs| => if cs[i].customer.id == id then MergeCustomer(cs[i], updated) else cs[i])
  }

  /** Every update changes only customers with that id, and keeps their
      reported due. */
  lemma UpdatersTouchOnlyId(cs: seq<ClientCustomer>, id: ObjectId, amount: int, updated: C.Customer)
    ensures forall i | 0 <= i < |cs| && cs[i].customer.id != id ::
      Paid(cs, id, amount)[i] == cs[i] && DueAdded(cs, id, amount)[i] == cs[i] && Updated(cs, id, updated)[i] == cs[i]
    ensures forall i | 0 <= i < |cs| :: Updated(cs, id, updated)[i].dueValue == cs[i].dueValue
  {
  }

  /** `err.response?.data?.message || fallback`. */
  function ErrorText(message: Option<string>, fallback: string): (r: string)
    ensures message.Some? && message.value != [] ==> r == message.value
    ensures message.None? || message.value == [] ==> r == fallback
  {
    if message.Some? && message.value != [] then message.value else fallback
  }

  const FetchFailed: string := "Failed to fetch customers"

  /** The outcome of a request: the response, or the server's message. */
  datatype Outcome<T> = Answered(body: T) | Failed(message: Option<string>)

  class CustomerStore {
    var customers: seq<ClientCustomer>
    var loading: bool
    var error: Option<string>

    constructor ()
      ensures customers == [] && !loading && error == None
    {
      customers := [];
      loading := false;
      error := None;
    }

    /** `fetchCustomers`: replaces the whole list with the response, or records
        the error message and keeps the list. */
    method FetchCustomers(outcome: Outcome<seq<CustomerController.CustomerRow>>)
      modifies this
      ensures outcome.Answered? ==> customers == FromRows(outcome.body) && error == old(error)
      ensures outcome.Failed? ==> customers == old(customers) && error == Some(ErrorText(outcome.message, FetchFailed))
      ensures !loading
    {
      loading := true;
      match outcome {
        case Answered(rows) =>
          customers := FromRows(rows);
        case Failed(message) =>
          error := Some(ErrorText(message, FetchFailed));
      }
      loading := false;
    }

    /** `createCustomer`: appends the created customer, which carries no due. */
    method CreateCustomer(response: Option<C.Customer>) returns (ok: bool)
      modifies this
      ensures ok <==> response.Some?
      ensures customers == if ok then old(customers) + [ClientCustomer(response.value, None, None)] else old(customers)
      ensures loading == old(loading) && error == old(error)
    {
      ok := response.Some?;
      if ok {
        customers := customers + [ClientCustomer(response.value, None, None)];
      }
    }

    /** `updateCustomer`: merges the response into the customer with that id. */
    method UpdateCustomer(id: ObjectId, response: Option<C.Customer>) returns (ok: bool)
      modifies this
      ensures ok <==> response.Some?
      ensures customers == if ok then Updated(old(customers), id, response.value) else old(customers)
      ensures loading == old(loading) && error == old(error)
    {
      ok := response.Some?;
      if ok {
        customers := Updated(customers, id, response.value);
      }
    }

    /** `recordPayment`: lowers the customer's due by the amount, with no floor. */
    method RecordPayment(id: ObjectId, amount: int, succeeded: bool) returns (ok: bool)
      modifies this
      ensures ok == succeeded
      ensures customers == if ok then Paid(old(customers), id, amount) else old(customers)
      ensures loading == old(loading) && error == old(error)
    {
      ok := succeeded;
      if ok {
        customers := Paid(customers, id, amount);
      }
    }

    /** `addDue`: raises the customer's due by the amount. */
    method AddDue(id: ObjectId, amount: int, succeeded: bool) returns (ok: bool)
      modifies this
      ensures ok == succeeded
      ensures customers == if ok then DueAdded(old(customers), id, amount) else old(customers)
      ensures loading == old(loading) && error == old(error)
    {
      ok := succeeded;
      if ok {
        customers := DueAdded(customers, id, amount);
      }
    }
  }
}
