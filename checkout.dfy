/** The checkout page's submit logic. The first submit asks the payment-intent
    endpoint for an intent and keeps its client secret; the next submit
    confirms the payment with the processor and, on success, leaves for the
    success page. The page state is a `CheckoutClient` object; what one submit
    does to it is the function `Submit`. */
module Checkout {
  import opened Wrappers
  import opened FormValidation

  /** Prices in whole dollars. */
  const BasePrice: nat := 210
  const CprSignPrice: nat := 30

  const SuccessPath := "/checkout/success"

  const FallbackMessage := "Error processing your booking. Please try again."

  /** The price shown and posted: $210, or $240 with the CPR sign. */
  function Total(includeCprSign: bool): (dollars: nat)
    ensures dollars == 210 || dollars == 240
    ensures dollars == 240 <==> includeCprSign
  {
    BasePrice + (if includeCprSign then CprSignPrice else 0)
  }

  /** The body of the create request. */
  datatype IntentRequest = IntentRequest(amount: nat, includeCprSign: bool, customerDetails: FormData)

  /** What the create request resolves to: the request itself throws, or a
      response arrives whose body may not decode. A body without a client
      secret is read as an empty secret. */
  datatype FetchReply =
    | FetchRejected(message: string)
    | HttpReply(ok: bool, json: ReplyBody)

  datatype ReplyBody = Unreadable(message: string) | ReplyJson(error: Option<string>, clientSecret: string)

  /** What confirming with the processor's client library does: the page's
      confirm hook may not be installed yet; or it throws; or it settles with a
      status. */
  datatype ConfirmReply = NotInstalled | ConfirmRejected(message: string) | Settled(status: string)

  /** The page's outward actions, in order. */
  datatype Effect = RequestIntent(request: IntentRequest) | ConfirmPayment | Navigate(path: string)

  /** The component state. `error` is `null` as `None`. */
  datatype State = State(clientSecret: string, isSubmitting: bool, error: Option<string>, includeCprSign: bool)

  const Initial := State("", false, None, false)

  /** The state after a submit, and the actions it took. */
  datatype Step = Step(state: State, effects: seq<Effect>)

  /** The message of the error the create phase throws, if it throws. */
  function CreateFailure(reply: FetchReply): (message: Option<string>)
    ensures message.None? <==>
      reply.HttpReply? && reply.ok && reply.json.ReplyJson?
      && !(reply.json.error.Some? && reply.json.error.value != "")
  {
    match reply
    case FetchRejected(m) => Some(m)
    case HttpReply(ok, json) =>
      if !ok then Some("Failed to create payment intent")
      else
        match json
        case Unreadable(m) => Some(m)
        case ReplyJson(err, _) => if err.Some? && err.value != "" then Some(err.value) else None
  }

  /** The message of the error the confirm phase throws, if it throws. */
  function ConfirmFailure(reply: ConfirmReply): (message: Option<string>)
    ensures message.None? <==> reply == Settled("succeeded")
    ensures reply.Settled? && reply.status != "succeeded" ==> message == Some("Payment failed")
  {
    match reply
    case NotInstalled => Some("Payment form not initialized")
    case ConfirmRejected(m) => Some(m)
    case Settled(status) => if status == "succeeded" then None else Some("Payment failed")
  }

  /** `error.message || 'Error processing your booking. Please try again.'` */
  function Shown(message: string): (text: string)
    ensures text != ""
    ensures message != "" ==> text == message
  {
    if message != "" then message else FallbackMessage
  }

  /** One run of `onSubmit` from state `s` with the given outcomes of the two
      outward calls. */
  function Submit(s: State, data: FormData, fetch: FetchReply, confirm: ConfirmReply): (r: Step)
    // the flag is down and the add-on choice is untouched on every exit path
    ensures !r.state.isSubmitting && r.state.includeCprSign == s.includeCprSign
    // an error shown is never blank
    ensures r.state.error.Some? ==> r.state.error.value != ""
    // without a secret: exactly one create request, for the total shown
    ensures s.clientSecret == "" ==>
      r.effects == [RequestIntent(IntentRequest(Total(s.includeCprSign), s.includeCprSign, data))]
    ensures s.clientSecret == "" ==>
      (r.state.error.None? <==> CreateFailure(fetch).None?)
      && r.state.clientSecret == (if CreateFailure(fetch).None? then fetch.json.clientSecret else s.clientSecret)
    // with a secret: no create request, the secret is kept, and only success navigates
    ensures s.clientSecret != "" ==>
      r.state.clientSecret == s.clientSecret
      && (forall e :: e in r.effects ==> !e.RequestIntent?)
      && (Navigate(SuccessPath) in r.effects <==> confirm == Settled("succeeded"))
      && (r.state.error.None? <==> confirm == Settled("succeeded"))
    ensures s.clientSecret != "" && confirm.Settled? && confirm.status != "succeeded" ==>
      r.state.error == Some("Payment failed")
    // the message shown is the failing phase's own message
    ensures s.clientSecret == "" && CreateFailure(fetch).Some? ==>
      r.state.error == Some(Shown(CreateFailure(fetch).value))
    ensures s.clientSecret != "" && ConfirmFailure(confirm).Some? ==>
      r.state.error == Some(Shown(ConfirmFailure(confirm).value))
  {
    var busy := s.(isSubmitting := true, error := None);
    if s.clientSecret == "" then
      var created := [RequestIntent(IntentRequest(Total(s.includeCprSign), s.includeCprSign, data))];
      match CreateFailure(fetch)
      case Some(m) => Step(busy.(isSubmitting := false, error := Some(Shown(m))), created)
      case None => Step(busy.(isSubmitting := false, clientSecret := fetch.json.clientSecret), created)
    else
      var confirmed := if confirm.NotInstalled? then [] else [ConfirmPayment];
      match ConfirmFailure(confirm)
      case Some(m) => Step(busy.(isSubmitting := false, error := Some(Shown(m))), confirmed)
      case None => Step(busy.(isSubmitting := false), confirmed + [Navigate(SuccessPath)])
  }

  /** `handleSubmit(onSubmit)`: the handler runs only when every field passes its rule. */
  function SubmitForm(s: State, data: FormData, fetch: FetchReply, confirm: ConfirmReply): (r: Step)
    ensures FormErrors(data) != map[] ==> r == Step(s, [])
    ensures FormErrors(data) == map[] ==> r == Submit(s, data, fetch, confirm)
  {
    if FormErrors(data) != map[] then Step(s, []) else Submit(s, data, fetch, confirm)
  }

  /** One submit attempt: the form values and the outcomes of the outward calls. */
  datatype Attempt = Attempt(data: FormData, fetch: FetchReply, confirm: ConfirmReply)

  /** A sequence of submits, with the actions of all of them. */
  function Run(s: State, attempts: seq<Attempt>): (r: Step)
    decreases |attempts|
  {
    if attempts == [] then Step(s, [])
    else
      var first := Submit(s, attempts[0].data, attempts[0].fetch, attempts[0].confirm);
      var rest := Run(first.state, attempts[1..]);
      Step(rest.state, first.effects + rest.effects)
  }

  /** Once the page holds a client secret it keeps it, and no later submit asks
      for another intent: one checkout session never creates two competing intents. */
  lemma {:induction false} SecretHeldNoNewIntent(s: State, attempts: seq<Attempt>)
    requires s.clientSecret != ""
    ensures Run(s, attempts).state.clientSecret == s.clientSecret
    ensures forall e :: e in Run(s, attempts).effects ==> !e.RequestIntent?
    decreases |attempts|
  {
    if attempts != [] {
      var first := Submit(s, attempts[0].data, attempts[0].fetch, attempts[0].confirm);
      SecretHeldNoNewIntent(first.state, attempts[1..]);
    }
  }

  /** Every submit run ends with the flag down, whatever the outcomes. */
  lemma {:induction false} RunEndsIdle(s: State, attempts: seq<Attempt>)
    requires attempts != [] || !s.isSubmitting
    ensures !Run(s, attempts).state.isSubmitting
    decreases |attempts|
  {
    if |attempts| > 1 {
      var first := Submit(s, attempts[0].data, attempts[0].fetch, attempts[0].confirm);
      RunEndsIdle(first.state, attempts[1..]);
    }
  }

  /** The page state and the actions it has taken so far. */
  class CheckoutClient {
    var clientSecret: string
    var isSubmitting: bool
    var error: Option<string>
    var includeCprSign: bool
    ghost var effects: seq<Effect>

    function Snapshot(): State
      reads this
    {
      State(clientSecret, isSubmitting, error, includeCprSign)
    }

    constructor ()
      ensures Snapshot() == Initial && effects == []
    {
      clientSecret := "";
      isSubmitting := false;
      error := None;
      includeCprSign := false;
      effects := [];
    }

    /** The CPR-sign checkbox. */
    method SetIncludeCprSign(checked: bool)
      modifies this
      ensures Snapshot() == old(Snapshot()).(includeCprSign := checked)
      ensures effects == old(effects)
    {
      includeCprSign := checked;
    }

    /** `onSubmit`. `inFlight` is the state the page shows while the outward
        call is awaited: busy, with no error. */
    method OnSubmit(data: FormData, fetch: FetchReply, confirm: ConfirmReply) returns (ghost inFlight: State)
      modifies this
      ensures inFlight == old(Snapshot()).(isSubmitting := true, error := None)
      ensures Snapshot() == Submit(old(Snapshot()), data, fetch, confirm).state
      ensures effects == old(effects) + Submit(old(Snapshot()), data, fetch, confirm).effects
    {
      isSubmitting := true;
      error := None;
      inFlight := Snapshot();
      if clientSecret == "" {
        effects := effects + [RequestIntent(IntentRequest(Total(includeCprSign), includeCprSign, data))];
        var failure := CreateFailure(fetch);
        if failure.Some? {
          error := Some(Shown(failure.value));
        } else {
          clientSecret := fetch.json.clientSecret;
        }
      } else {
        if !confirm.NotInstalled? {
          effects := effects + [ConfirmPayment];
        }
        var failure := ConfirmFailure(confirm);
        if failure.Some? {
          error := Some(Shown(failure.value));
        } else {
          effects := effects + [Navigate(SuccessPath)];
        }
      }
      isSubmitting := false;
    }

    /** The form's submit event: validation first, then `onSubmit` if every field passes. */
    method HandleSubmit(data: FormData, fetch: FetchReply, confirm: ConfirmReply)
      modifies this
      ensures Snapshot() == SubmitForm(old(Snapshot()), data, fetch, confirm).state
      ensures effects == old(effects) + SubmitForm(old(Snapshot()), data, fetch, confirm).effects
    {
      if FormErrors(data) == map[] {
        var _ := OnSubmit(data, fetch, confirm);
      }
    }
  }
}
