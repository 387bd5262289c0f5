/** The serverless payment-intent endpoint: a classifier from (method, decoded
    body, processor reply) to a response, together with the one processor call
    it made, if any. Prices are fixed on the server in integer cents; the
    client's `amount` is only checked for being positive. */
module NetlifyHandler {
  import opened Wrappers
  import opened Booking
  import opened Http
  import Decimal

  /** Cross-origin headers on every response (the CORS protocol of the WHATWG Fetch Standard). */
  const CorsHeaders: Headers := map[
    "Access-Control-Allow-Origin" := "*",
    "Access-Control-Allow-Headers" := "Content-Type, Authorization",
    "Access-Control-Allow-Methods" := "POST, OPTIONS",
    "Access-Control-Allow-Credentials" := "true"]

  const JsonHeaders: Headers := CorsHeaders + map["Content-Type" := "application/json"]

  const SuccessHeaders: Headers := JsonHeaders + NoStore

  /** The headers added to a JSON or a successful response never override a cross-origin one. */
  lemma ResponseHeadersCarryCors()
    ensures Carries(JsonHeaders, CorsHeaders)
    ensures Carries(SuccessHeaders, CorsHeaders) && Carries(SuccessHeaders, NoStore)
  {
    assert "Content-Type" !in CorsHeaders;
    assert "Cache-Control" !in JsonHeaders && "Pragma" !in JsonHeaders;
  }

  /** Prices in cents: the inspection, and the optional CPR sign. */
  const BasePrice: nat := 21000
  const CprSignPrice: nat := 3000

  const ServiceName := "Pool Compliance Inspection"

  datatype Event = Event(httpMethod: string, body: Payload)

  /** The arguments of the processor's create call. */
  datatype CreateParams = CreateParams(
    amount: nat,
    currency: string,
    automaticPaymentMethods: bool,
    metadata: map<string, string>)

  /** The response, and the create call made on the way to it. */
  datatype Outcome = Outcome(response: Response, call: Option<CreateParams>)

  /** The decoded request; an absent or empty body is read as `{}`. */
  function Requested(body: Payload): BookingRequest
    requires !body.Malformed?
  {
    if body.Missing? then EmptyRequest else body.request
  }

  /** Negation of `!amount || amount <= 0`. */
  predicate ValidAmount(amount: JsonNumber) {
    amount.Number? && amount.value > 0.0
  }

  function CprSignAmount(includeCprSign: Option<bool>): (cents: nat)
    ensures cents == 0 || cents == CprSignPrice
    ensures cents == CprSignPrice <==> TruthyBool(includeCprSign)
  {
    if TruthyBool(includeCprSign) then CprSignPrice else 0
  }

  /** The charge: $210, or $240 with the CPR sign, whatever the client claims. */
  function TotalAmount(includeCprSign: Option<bool>): (cents: nat)
    ensures cents == 21000 || cents == 24000
    ensures cents == 24000 <==> TruthyBool(includeCprSign)
  {
    BasePrice + CprSignAmount(includeCprSign)
  }

  /** `String(cents / 100)` for a whole number of dollars. */
  function Dollars(cents: nat): (s: string)
    requires cents % 100 == 0
    ensures Decimal.AllDigits(s) && Decimal.ParseNat(s) * 100 == cents
  {
    Decimal.ParseNatToString(cents / 100);
    Decimal.NatToString(cents / 100)
  }

  /** The non-customer keys of the metadata. */
  const PricingKeys: set<string> :=
    {"service", "includeCprSign", "baseAmount", "cprSignAmount", "totalAmount", "timestamp"}

  lemma KeysDisjoint()
    ensures CustomerKeys !! PricingKeys
  {
  }

  /** The nine customer fields, each `customerDetails?.field || ''`. */
  function CustomerMetadata(details: Option<CustomerDetails>): (m: map<string, string>)
    ensures m.Keys == CustomerKeys
    ensures forall k :: k in CustomerKeys ==> m[k] == OrEmpty(Field(details, k))
  {
    map k | k in CustomerKeys :: OrEmpty(Field(details, k))
  }

  /** The service name, the add-on flag, the three dollar amounts and the clock. */
  function PricingMetadata(includeCprSign: Option<bool>, timestamp: string): (m: map<string, string>)
    ensures m.Keys == PricingKeys
    ensures m["service"] == ServiceName && m["timestamp"] == timestamp
    ensures m["includeCprSign"] == (if TruthyBool(includeCprSign) then "yes" else "no")
    ensures Decimal.AllDigits(m["baseAmount"]) && Decimal.AllDigits(m["cprSignAmount"]) && Decimal.AllDigits(m["totalAmount"])
    ensures Decimal.ParseNat(m["totalAmount"]) == Decimal.ParseNat(m["baseAmount"]) + Decimal.ParseNat(m["cprSignAmount"])
    ensures Decimal.ParseNat(m["totalAmount"]) * 100 == TotalAmount(includeCprSign)
  {
    var base := BasePrice;
    var cprSign := CprSignAmount(includeCprSign);
    var total := base + cprSign;
    map[
      "service" := ServiceName,
      "includeCprSign" := if TruthyBool(includeCprSign) then "yes" else "no",
      "baseAmount" := Dollars(base),
      "cprSignAmount" := Dollars(cprSign),
      "totalAmount" := Dollars(total),
      "timestamp" := timestamp]
  }

  /** The metadata of the create call: a fixed set of keys, every customer
      field defaulted to `''`, and dollar amounts that add up. */
  function Metadata(details: Option<CustomerDetails>, includeCprSign: Option<bool>, timestamp: string): (m: map<string, string>)
    ensures m.Keys == CustomerKeys + PricingKeys
    ensures forall k :: k in CustomerKeys ==> m[k] == OrEmpty(Field(details, k))
    ensures forall k :: k in PricingKeys ==> m[k] == PricingMetadata(includeCprSign, timestamp)[k]
  {
    KeysDisjoint();
    CustomerMetadata(details) + PricingMetadata(includeCprSign, timestamp)
  }

  /** `error instanceof Error ? error.message : 'Unknown error'` */
  function ErrorMessage(thrown: Thrown): string {
    match thrown
    case ErrorObject(message) => message
    case NonError => "Unknown error"
  }

  function Failure(thrown: Thrown): Response {
    Response(500, JsonHeaders, ErrorJson(ErrorMessage(thrown)))
  }

  /** The handler. `timestamp` is the clock reading the metadata records;
      `stripe` is what the create call yields if it is made. */
  function Handle(event: Event, timestamp: string, stripe: ProcessorReply): (out: Outcome)
    // a preflight is answered the same way whatever else the request holds
    ensures event.httpMethod == "OPTIONS" ==> out == Outcome(Response(204, CorsHeaders, EmptyBody), None)
    ensures event.httpMethod != "OPTIONS" && event.httpMethod != "POST" ==>
      out == Outcome(Response(405, CorsHeaders, ErrorJson("Method not allowed")), None)
    // every response carries the cross-origin headers
    ensures Carries(out.response.headers, CorsHeaders)
    // the processor is called exactly when a POST decodes and has a positive amount
    ensures out.call.Some? <==>
      event.httpMethod == "POST" && !event.body.Malformed? && ValidAmount(Requested(event.body).amount)
    ensures out.response.status == 400 <==>
      event.httpMethod == "POST" && !event.body.Malformed? && !ValidAmount(Requested(event.body).amount)
    ensures out.response.status == 400 ==> out.response == Response(400, CorsHeaders, ErrorJson("Invalid amount"))
    // the charge and its metadata depend only on the add-on flag, the customer details and the clock
    ensures out.call.Some? ==>
      var request := Requested(event.body);
      out.call.value == CreateParams(TotalAmount(request.includeCprSign), "aud", true,
                                     Metadata(request.customerDetails, request.includeCprSign, timestamp))
    // success hands back only the client secret, uncached
    ensures out.response.status == 200 <==> out.call.Some? && stripe.Returned?
    ensures out.response.status == 200 ==>
      out.response == Response(200, SuccessHeaders, SecretJson(stripe.intent.clientSecret))
    // a decoding error or a processor failure is a 500 that forwards the message
    ensures out.response.status == 500 <==>
      event.httpMethod == "POST" && (event.body.Malformed? || (out.call.Some? && stripe.Threw?))
    ensures out.response.status == 500 && event.body.Malformed? ==>
      out.response == Failure(ErrorObject(event.body.message))
    ensures out.response.status == 500 && out.call.Some? ==> out.response == Failure(stripe.thrown)
  {
    ResponseHeadersCarryCors();
    if event.httpMethod == "OPTIONS" then
      Outcome(Response(204, CorsHeaders, EmptyBody), None)
    else if event.httpMethod != "POST" then
      Outcome(Response(405, CorsHeaders, ErrorJson("Method not allowed")), None)
    else if event.body.Malformed? then
      Outcome(Failure(ErrorObject(event.body.message)), None)
    else
      var request := Requested(event.body);
      if !ValidAmount(request.amount) then
        Outcome(Response(400, CorsHeaders, ErrorJson("Invalid amount")), None)
      else
        var params := CreateParams(TotalAmount(request.includeCprSign), "aud", true,
                                   Metadata(request.customerDetails, request.includeCprSign, timestamp));
        match stripe
        case Returned(intent) => Outcome(Response(200, SuccessHeaders, SecretJson(intent.clientSecret)), Some(params))
        case Threw(thrown) => Outcome(Failure(thrown), Some(params))
  }

  /** `String(210)`, `String(240)`, `String(30)` and `String(0)`. */
  lemma DollarStrings()
    ensures Dollars(21000) == "210" && Dollars(24000) == "240"
    ensures Dollars(3000) == "30" && Dollars(0) == "0"
  {
    assert Decimal.DigitChar(0) == '0' && Decimal.DigitChar(1) == '1' && Decimal.DigitChar(2) == '2';
    assert Decimal.DigitChar(3) == '3' && Decimal.DigitChar(4) == '4';
    assert Decimal.NatToString(21) == "2" + "1";
    assert Decimal.NatToString(24) == "2" + "4";
    assert Decimal.NatToString(210) == "21" + "0";
    assert Decimal.NatToString(240) == "24" + "0";
    assert Decimal.NatToString(30) == "3" + "0";
  }

  /** The dollar amounts are rendered as "210"/"0"/"210", or "210"/"30"/"240" with the CPR sign. */
  lemma PricingStrings(includeCprSign: Option<bool>, timestamp: string)
    ensures var m := PricingMetadata(includeCprSign, timestamp);
      m["baseAmount"] == "210"
      && m["cprSignAmount"] == (if TruthyBool(includeCprSign) then "30" else "0")
      && m["totalAmount"] == (if TruthyBool(includeCprSign) then "240" else "210")
  {
    DollarStrings();
  }

  /** Two POSTs that differ only in the amount they claim are charged alike,
      as long as both amounts pass the positivity check. */
  lemma ChargeIgnoresClientAmount(request: BookingRequest, claimed: real, timestamp: string, stripe: ProcessorReply)
    requires ValidAmount(request.amount) && claimed > 0.0
    ensures Handle(Event("POST", Json(request)), timestamp, stripe)
         == Handle(Event("POST", Json(request.(amount := Number(claimed)))), timestamp, stripe)
  {
  }

  /** An absent body is read as `{}`, which has no amount: a 400 and no processor call. */
  lemma MissingBodyIsInvalidAmount(timestamp: string, stripe: ProcessorReply)
    ensures Handle(Event("POST", Missing), timestamp, stripe)
         == Outcome(Response(400, CorsHeaders, ErrorJson("Invalid amount")), None)
  {
  }
}
