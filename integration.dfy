/** The checkout page posts its create request to the serverless endpoint.
    These lemmas follow one request from the page into the handler. */
module Integration {
  import opened Wrappers
  import opened Booking
  import opened FormValidation
  import Checkout
  import NetlifyHandler

  /** The request object the endpoint decodes from the page's JSON body. */
  function Posted(request: Checkout.IntentRequest): (r: BookingRequest)
    ensures r.amount == Number(request.amount as real) && r.includeCprSign == Some(request.includeCprSign)
    ensures r.paymentIntentId.None?
  {
    var d := request.customerDetails;
    BookingRequest(
      Number(request.amount as real),
      Some(CustomerDetails(Some(d.firstName), Some(d.lastName), Some(d.email), Some(d.phone), Some(d.address),
                           Some(d.suburb), Some(d.postcode), Some(d.preferredDate), Some(d.notes))),
      None,
      Some(request.includeCprSign))
  }

  /** The create call's metadata records each form field of a posted request
      under its own name. */
  lemma PostedMetadata(request: Checkout.IntentRequest, timestamp: string)
    ensures var m := NetlifyHandler.Metadata(Posted(request).customerDetails, Some(request.includeCprSign), timestamp);
      var d := request.customerDetails;
      m["firstName"] == d.firstName && m["lastName"] == d.lastName && m["email"] == d.email
      && m["phone"] == d.phone && m["address"] == d.address && m["suburb"] == d.suburb
      && m["postcode"] == d.postcode && m["preferredDate"] == d.preferredDate && m["notes"] == d.notes
  {
    var details := Posted(request).customerDetails;
    var d := request.customerDetails;
    assert "firstName" in CustomerKeys && Field(details, "firstName") == Some(d.firstName);
    assert "lastName" in CustomerKeys && Field(details, "lastName") == Some(d.lastName);
    assert "email" in CustomerKeys && Field(details, "email") == Some(d.email);
    assert "phone" in CustomerKeys && Field(details, "phone") == Some(d.phone);
    assert "address" in CustomerKeys && Field(details, "address") == Some(d.address);
    assert "suburb" in CustomerKeys && Field(details, "suburb") == Some(d.suburb);
    assert "postcode" in CustomerKeys && Field(details, "postcode") == Some(d.postcode);
    assert "preferredDate" in CustomerKeys && Field(details, "preferredDate") == Some(d.preferredDate);
    assert "notes" in CustomerKeys && Field(details, "notes") == Some(d.notes);
  }

  /** The first submit's request is always charged: the handler accepts its
      amount, charges exactly the total the page showed (in cents), and records
      every form field in the metadata. */
  lemma FirstSubmitIsCharged(s: Checkout.State, data: FormData, fetch: Checkout.FetchReply,
                             confirm: Checkout.ConfirmReply, timestamp: string, stripe: ProcessorReply)
    requires s.clientSecret == ""
    ensures var r := Checkout.Submit(s, data, fetch, confirm).effects[0].request;
      var out := NetlifyHandler.Handle(NetlifyHandler.Event("POST", Json(Posted(r))), timestamp, stripe);
      out.call.Some?
      && out.call.value.amount == Checkout.Total(s.includeCprSign) * 100
      && var m := out.call.value.metadata;
      m["firstName"] == data.firstName && m["lastName"] == data.lastName && m["email"] == data.email
      && m["phone"] == data.phone && m["address"] == data.address && m["suburb"] == data.suburb
      && m["postcode"] == data.postcode && m["preferredDate"] == data.preferredDate && m["notes"] == data.notes
  {
    var r := Checkout.Submit(s, data, fetch, confirm).effects[0].request;
    assert r == Checkout.IntentRequest(Checkout.Total(s.includeCprSign), s.includeCprSign, data);
    var request := Posted(r);
    var out := NetlifyHandler.Handle(NetlifyHandler.Event("POST", Json(request)), timestamp, stripe);
    assert out.call.value.metadata ==
      NetlifyHandler.Metadata(request.customerDetails, request.includeCprSign, timestamp);
    PostedMetadata(r, timestamp);
  }

  /** After the intent exists, switching the CPR sign on or off sends nothing:
      the intent keeps the amount it was created with, while the page's total
      changes. */
  lemma AddOnChangeAfterIntentIsNotSent(s: Checkout.State, checked: bool, data: FormData,
                                       fetch: Checkout.FetchReply, confirm: Checkout.ConfirmReply)
    requires s.clientSecret != ""
    ensures var r := Checkout.Submit(s.(includeCprSign := checked), data, fetch, confirm);
      forall e :: e in r.effects ==> !e.RequestIntent?
  {
  }
}
