/** The framework route that creates or updates a payment intent. Unlike the
    serverless handler it trusts the client's amount, branches on the
    client-held intent id, and hides every failure behind one fixed message. */
module ApiRoute {
  import opened Wrappers
  import opened Booking
  import opened Http

  /** The framework's JSON responses also name their media type. */
  const RouteHeaders: Headers := NoStore + map["content-type" := "application/json"]

  const FailureMessage := "Error creating payment intent"

  const ServiceName := "Pool Compliance Inspection"

  /** The one processor call a request makes. An amount of `None` is the
      `NaN` that a left-out amount turns into. */
  datatype ProcessorCall =
    | Update(id: string, amount: Option<int>, updateMetadata: map<string, Option<string>>)
    | Create(amount: Option<int>, currency: string, automaticPaymentMethods: bool, createMetadata: map<string, string>)

  datatype Outcome = Outcome(response: Response, call: Option<ProcessorCall>)

  /** `Math.round(x)`: the nearest integer, halves rounded up. */
  function Round(x: real): (r: int)
    ensures r as real - 0.5 <= x < r as real + 0.5
  {
    (x + 0.5).Floor
  }

  /** `Math.round(amount * 100)`: arithmetic on `undefined` gives `NaN`, and
      `null` counts as `0`. */
  function AmountInCents(amount: JsonNumber): (cents: Option<int>)
    ensures cents.None? <==> amount.Undefined?
    ensures amount.Null? ==> cents == Some(0)
    ensures amount.Number? ==> cents.Some? && cents.value as real - 0.5 <= amount.value * 100.0 < cents.value as real + 0.5
  {
    match amount
    case Undefined => None
    case Null => Some(0)
    case Number(dollars) => Some(Round(dollars * 100.0))
  }

  /** A whole number of cents, written as dollars, converts back exactly. */
  lemma CentsRoundTrip(cents: int)
    ensures AmountInCents(Number(cents as real / 100.0)) == Some(cents)
  {
  }

  /** Update metadata: the nine customer fields passed through, absent ones included. */
  function UpdateMetadata(details: Option<CustomerDetails>): (m: map<string, Option<string>>)
    ensures m.Keys == CustomerKeys
    ensures forall k :: k in CustomerKeys ==> m[k] == Field(details, k)
  {
    map k | k in CustomerKeys :: Field(details, k)
  }

  /** Create metadata: only the service and the clock. */
  function CreateMetadata(timestamp: string): (m: map<string, string>)
    ensures m.Keys == {"service", "timestamp"}
    ensures m["service"] == ServiceName && m["timestamp"] == timestamp
  {
    map["service" := ServiceName, "timestamp" := timestamp]
  }

  /** The call a decoded request leads to. */
  function CallFor(request: BookingRequest, timestamp: string): (call: ProcessorCall)
    ensures call.Update? <==> TruthyString(request.paymentIntentId)
    ensures call.Update? ==> call.id == request.paymentIntentId.value
    ensures call.amount == AmountInCents(request.amount)
    ensures call.Update? ==> call.updateMetadata == UpdateMetadata(request.customerDetails)
    ensures call.Create? ==> call.currency == "aud" && call.automaticPaymentMethods
    ensures call.Create? ==> call.createMetadata == CreateMetadata(timestamp)
  {
    var cents := AmountInCents(request.amount);
    if TruthyString(request.paymentIntentId) then
      Update(request.paymentIntentId.value, cents, UpdateMetadata(request.customerDetails))
    else
      Create(cents, "aud", true, CreateMetadata(timestamp))
  }

  /** `POST`. `processor` is what the one call resolves to. */
  function Post(body: Payload, timestamp: string, processor: ProcessorReply): (out: Outcome)
    // every response, success or failure, forbids caching
    ensures Carries(out.response.headers, NoStore)
    // a body that does not decode (an empty one included) makes no call
    ensures out.call.None? <==> !body.Json?
    ensures out.call.Some? ==> out.call.value == CallFor(body.request, timestamp)
    // success echoes the intent the processor returned, from whichever call was made
    ensures out.response.status == 200 <==> body.Json? && processor.Returned?
    ensures out.response.status == 200 ==>
      out.response.body == IntentJson(processor.intent.clientSecret, processor.intent.id)
    // every failure is the same 500, with no detail
    ensures out.response.status != 200 ==> out.response == Response(500, RouteHeaders, ErrorJson(FailureMessage))
  {
    assert "content-type" !in NoStore;
    if !body.Json? then
      Outcome(Response(500, RouteHeaders, ErrorJson(FailureMessage)), None)
    else
      var call := CallFor(body.request, timestamp);
      match processor
      case Returned(intent) =>
        Outcome(Response(200, RouteHeaders, IntentJson(intent.clientSecret, intent.id)), Some(call))
      case Threw(_) =>
        Outcome(Response(500, RouteHeaders, ErrorJson(FailureMessage)), Some(call))
  }

  /** Whatever the processor threw, the caller sees the same response: no error detail leaks. */
  lemma FailureHidesDetail(body: Payload, timestamp: string, t1: Thrown, t2: Thrown)
    ensures Post(body, timestamp, Threw(t1)).response == Post(body, timestamp, Threw(t2)).response
  {
  }

  /** The amount is not checked locally: zero, negative and missing amounts reach the processor. */
  lemma NoAmountValidation(request: BookingRequest, timestamp: string, processor: ProcessorReply)
    ensures Post(Json(request), timestamp, processor).call == Some(CallFor(request, timestamp))
    ensures CallFor(request, timestamp).amount == AmountInCents(request.amount)
  {
  }
}
