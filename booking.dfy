/** What a client posts to either payment-intent endpoint, and what the payment
    processor can answer. The body arrives already decoded: JSON text and its
    parser are not modelled, only their outcome. */
module Booking {
  import opened Wrappers

  /** Every customer field is optional (`undefined` when the client left it out). */
  datatype CustomerDetails = CustomerDetails(
    firstName: Option<string>,
    lastName: Option<string>,
    email: Option<string>,
    phone: Option<string>,
    address: Option<string>,
    suburb: Option<string>,
    postcode: Option<string>,
    preferredDate: Option<string>,
    notes: Option<string>)

  /** The nine customer keys, as both endpoints name them in the metadata. */
  const CustomerKeys: set<string> :=
    {"firstName", "lastName", "email", "phone", "address", "suburb", "postcode", "preferredDate", "notes"}

  /** A JSON amount as the endpoints read it: left out, `null`, or a number. */
  datatype JsonNumber = Undefined | Null | Number(value: real)

  /** A decoded request object. `amount` is a number of dollars; JSON values of
      another type in any field are not modelled. */
  datatype BookingRequest = BookingRequest(
    amount: JsonNumber,
    customerDetails: Option<CustomerDetails>,
    paymentIntentId: Option<string>,
    includeCprSign: Option<bool>)

  /** The object `{}` decodes to. */
  const EmptyRequest := BookingRequest(Undefined, None, None, None)

  /** The request body as the endpoint sees it after decoding:
      `Missing` is an absent or empty body; `Malformed` a body whose decoding
      throws (text that is not JSON, or the JSON `null`, which cannot be
      destructured), with the thrown error's message; `Json` a decoded object. */
  datatype Payload = Missing | Malformed(message: string) | Json(request: BookingRequest)

  /** A value thrown by a callee: an `Error` instance carries a message. */
  datatype Thrown = ErrorObject(message: string) | NonError

  /** The processor's intent record, as far as the endpoints read it. */
  datatype Intent = Intent(id: string, clientSecret: string)

  /** What the processor's one call in a request resolves to, or the value it throws. */
  datatype ProcessorReply = Returned(intent: Intent) | Threw(thrown: Thrown)

  /** JavaScript truthiness of an optional string: present and non-empty. */
  predicate TruthyString(s: Option<string>) {
    s.Some? && s.value != ""
  }

  /** JavaScript truthiness of an optional boolean. */
  predicate TruthyBool(b: Option<bool>) {
    b == Some(true)
  }

  /** `s || ''` for an optional string. */
  function OrEmpty(s: Option<string>): (r: string)
    ensures TruthyString(s) ==> r == s.value
    ensures !TruthyString(s) ==> r == ""
    ensures s.Some? ==> r == s.value
  {
    s.GetOr("")
  }

  /** `customerDetails?.[key]` for one of the nine customer keys. */
  function Field(details: Option<CustomerDetails>, key: string): Option<string>
  {
    match details
    case None => None
    case Some(d) =>
      if key == "firstName" then d.firstName
      else if key == "lastName" then d.lastName
      else if key == "email" then d.email
      else if key == "phone" then d.phone
      else if key == "address" then d.address
      else if key == "suburb" then d.suburb
      else if key == "postcode" then d.postcode
      else if key == "preferredDate" then d.preferredDate
      else if key == "notes" then d.notes
      else None
  }
}
