/**
 * The records the notifications read, as a graph of values. Each
 * relationship the models declare (`belongsTo`, `hasOneThrough`) is the
 * optional record it yields when loaded; a nullable column is an `Option`.
 */
module Records {
  import opened Wrappers

  /** A point in time; how it is rendered is left to the caller. */
  datatype Timestamp = Timestamp(epochSeconds: int)

  datatype User = User(id: int, firstName: Option<string>, lastName: Option<string>, email: string)

  /** `Customer::user` is a `belongsTo` and may find no user. */
  datatype Customer = Customer(id: int, user: Option<User>)

  /** `Order::customer` is a `belongsTo`. */
  datatype Order = Order(id: int, customer: Option<Customer>)

  /** The record behind `Policy::provider`; its `name` column may be null. */
  datatype Provider = Provider(id: int, name: Option<string>)

  /**
   * A policy. `customerId` is the raw nullable `customer_id` column and
   * `customer` what the `customer` relationship loads for it.
   */
  datatype Policy = Policy(
    id: int,
    customerId: Option<int>,
    customer: Option<Customer>,
    provider: Option<Provider>,
    createdAt: Timestamp)

  /**
   * A payment. The amount is in cents (the column is cast to two decimals).
   * `payMethod` is the `method` column. `order` is the `order` relationship; `userRelation` is whatever the
   * `user` relationship yields, kept abstract. There is no `policy`
   * relationship on a payment.
   */
  datatype Payment = Payment(
    id: int,
    reference: string,
    amountCents: int,
    payMethod: string,
    status: string,
    paidAt: Option<Timestamp>,
    createdAt: Timestamp,
    order: Option<Order>,
    userRelation: Option<User>)

  /**
   * A policy as Eloquent loads it: `belongsTo` finds nothing for a null
   * `customer_id`, and a loaded customer is the one that id names.
   */
  predicate Loaded(p: Policy) {
    (p.customerId.None? ==> p.customer.None?) &&
    (p.customer.Some? ==> p.customerId == Some(p.customer.value.id))
  }

  /** The user of an optional customer: none when either link is missing. */
  function CustomerUser(c: Option<Customer>): (u: Option<User>)
    ensures u.Some? <==> c.Some? && c.value.user.Some?
    ensures u.Some? ==> u == c.value.user
  {
    match c
    case Some(customer) => customer.user
    case None => None
  }

  /** `Payment::customer`, a `hasOneThrough` the order: the order's customer, if both exist. */
  function PaymentCustomer(p: Payment): (c: Option<Customer>)
    ensures c.Some? <==> p.order.Some? && p.order.value.customer.Some?
    ensures c.Some? ==> c == p.order.value.customer
  {
    match p.order
    case Some(o) => o.customer
    case None => None
  }
}
