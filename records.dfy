/**
 * Record shapes of the shared schema (users, contacts, quotes, shipments, tracking events).
 * Dates are milliseconds since the epoch; a nullable column is an `Option`.
 */
module Records {
  import opened Wrappers

  /**
   * A user is a plain JavaScript object: the handlers copy it with spreads and drop fields
   * with rest patterns, so it is modelled as a map from field name to value.
   */
  type UserRecord = map<string, string>

  /** `user[field] === value`; a missing field is `undefined`, which equals no string. */
  predicate FieldIs(user: UserRecord, field: string, value: string)
  {
    field in user && user[field] == value
  }

  /** The object without `field`, as a rest pattern `{ field, ...rest }` leaves it. */
  function Without(user: UserRecord, field: string): (rest: UserRecord)
    ensures field !in rest
    ensures forall f :: f in rest <==> f in user && f != field
    ensures forall f :: f in rest ==> rest[f] == user[f]
  {
    user - {field}
  }

  /** `value || null` on an optional text column: the empty string is falsy. */
  function TextOrNull(v: Option<string>): (r: Option<string>)
    ensures r.Some? <==> v.Some? && v.value != ""
    ensures r.Some? ==> r == v
  {
    if v.Some? && v.value != "" then v else None
  }

  /** `value || null` on an optional integer column: 0 is falsy. */
  function IntOrNull(v: Option<int>): (r: Option<int>)
    ensures r.Some? <==> v.Some? && v.value != 0
    ensures r.Some? ==> r == v
  {
    if v.Some? && v.value != 0 then v else None
  }

  datatype InsertContact = InsertContact(
    name: string, email: string, phone: Option<string>, serviceType: Option<string>, message: string)

  datatype Contact = Contact(
    id: string, name: string, email: string, phone: Option<string>, serviceType: Option<string>,
    message: string, createdAt: Option<int>)

  datatype InsertQuote = InsertQuote(
    name: string, email: string, phone: Option<string>, serviceType: string, origin: string,
    destination: string, weight: Option<int>, dimensions: Option<string>, requirements: Option<string>)

  datatype Quote = Quote(
    id: string, name: string, email: string, phone: Option<string>, serviceType: string,
    origin: string, destination: string, weight: Option<int>, dimensions: Option<string>,
    requirements: Option<string>, createdAt: Option<int>)

  datatype Shipment = Shipment(
    id: string, trackingNumber: string, serviceType: string, status: string, origin: string,
    destination: string, estimatedDelivery: Option<int>, createdAt: Option<int>, updatedAt: Option<int>)

  datatype TrackingEvent = TrackingEvent(
    id: string, shipmentId: Option<string>, status: string, location: Option<string>,
    description: string, timestamp: Option<int>)

  /** `new Date(e.timestamp!).getTime()`: a null timestamp becomes the epoch, 0. */
  function TimeKey(e: TrackingEvent): int
  {
    match e.timestamp
    case Some(t) => t
    case None => 0
  }
}
