# Payment-intent flow of the pool-inspection booking site, in Dafny

This project models the decision logic of a small booking site for
pool-safety inspections. The site takes payment through a card processor.
The model covers four pieces:

- **The serverless endpoint** (`netlify/functions/create-payment-intent.ts`).
  It answers a CORS preflight with 204. It refuses any verb other than `OPTIONS`
  and `POST` with 405 and a non-positive or missing amount with 400. It charges a fixed
  price in cents: 21000, plus 3000 for the CPR sign. The client's amount is not
  used for the charge. The create call carries metadata of a fixed shape, with
  every customer field defaulted to `''` and the dollar amounts written as
  decimal strings. Success returns only the client secret, uncached. A thrown
  `Error` becomes a 500 that forwards its message; any other thrown value
  becomes a 500 with "Unknown error". The model is the total
  function `NetlifyHandler.Handle` from (method, decoded body, clock, processor
  reply) to (response, the create call made or none).
- **The framework route** (`app/api/create-payment-intent/route.ts`). This is
  a separate implementation of the same endpoint. It branches on
  `paymentIntentId`: update that intent or create a new one. It converts the
  client's amount with `Math.round(amount * 100)` and does not check it. It
  attaches no-store headers (RFC 9111, sections 5.2.2.2, 5.2.2.5 and 5.4) to
  every response. Every failure gives one fixed message. The model is
  `ApiRoute.Post`. It is not reconciled with the serverless endpoint.
- **The checkout page** (`app/checkout/CheckoutClient.tsx`). It shows a total
  of $210 or $240. Its submit has two phases. Without a client secret, it
  requests an intent and stores the secret. With a secret, it confirms the
  payment and either goes to `/checkout/success` or shows an error. Its
  `isSubmitting`/`error` bookkeeping runs on every path. Three inputs carry
  patterns: email, Australian phone and four-digit postcode. The page state is
  the class `Checkout.CheckoutClient`. Its methods are proved against the
  function `Checkout.Submit`, and the lemmas are proved about that function.
  Each pattern is a recogniser that reads the input the way the regular
  expression does. Each is proved equivalent to a plain description of the
  strings it accepts.
- **The image loader** (`image-loader.js`). A `src` that starts with `"http"`
  passes through unchanged. Any other `src` gets a `/` prefix.

The processor, `fetch` and the processor's client-side confirmation are
parameters. Each is the reply to the one call that is made: an intent, a
status, or a thrown value. The request body arrives decoded, as
`Booking.Payload`. `Missing` is an absent or empty body. `Malformed` is a body
whose decoding throws. `Json` is a decoded object. Amounts are exact rationals
(`real`) and prices are integers, so no floating-point arithmetic is involved.

Files: `wrappers.dfy` (Option), `decimal.dfy` (`String(n)` for naturals and
its inverse), `http.dfy` (response shapes), `booking.dfy` (the request and
processor datatypes shared by both endpoints), `netlify_handler.dfy`,
`api_route.dfy`, `form_validation.dfy`, `checkout.dfy`, `integration.dfy`
(follows the page's create request into the serverless endpoint) and
`image_loader.dfy`.

Behaviour of the code worth noting:

- A body that does not decode gets a 500 from both endpoints. The serverless
  endpoint forwards the parser's message. The route gives its fixed message.
- The route also gets a 500 for an absent body, because its decoder throws on
  an empty body. The serverless endpoint reads an absent body as `{}` and gets
  a 400.
- Neither endpoint races the processor call against a timer.
- The serverless endpoint allows the methods `POST, OPTIONS`. The route sends
  no CORS headers.
- The route's update branch does not recompute the price. It sends the
  client's converted amount and passes the customer fields through unchanged,
  absent ones included, with no `''` default.

## Model

| member | source | states |
|---|---|---|
| `Decimal.NatToString` | netlify/functions/create-payment-intent.ts:102-104 | `String(n)` of a whole number below 2^53 (the endpoint renders only 0, 30, 210 and 240) is a non-empty run of digits that starts with `0` only when it is `"0"`, and has one digit exactly when n < 10 |
| `Decimal.ParseNatToString` | netlify/functions/create-payment-intent.ts:102-104 | reading back the numeral that `String(n)` prints gives n |
| `Decimal.NatToStringInjective` | netlify/functions/create-payment-intent.ts:102-104 | different amounts never render as the same string |
| `Booking.TruthyString` | app/api/create-payment-intent/route.ts:21 | `if (paymentIntentId)`: the string is present and non-empty |
| `Booking.TruthyBool` | netlify/functions/create-payment-intent.ts:74 | `body.includeCprSign ? … : …`, here and again for the metadata flag at line 101: among JSON booleans only `true` is truthy; absent and `null` are falsy |
| `Booking.Field` | netlify/functions/create-payment-intent.ts:92-100 | `customerDetails?.k`: the named field, or absent when there are no details; the route reads it the same way at app/api/create-payment-intent/route.ts:26-34 |
| `Booking.OrEmpty` | netlify/functions/create-payment-intent.ts:92-100 | `field \|\| ''` is the value when it is present and non-empty, otherwise `''` |
| `NetlifyHandler.Requested` | netlify/functions/create-payment-intent.ts:57 | `event.body \|\| '{}'`: an absent or empty body is read as the empty request; `MissingBodyIsInvalidAmount` and `Handle` state its effect |
| `NetlifyHandler.ValidAmount` | netlify/functions/create-payment-intent.ts:60 | the negation of `!amount \|\| amount <= 0`: a number greater than zero; `Handle` calls the processor exactly when it holds |
| `NetlifyHandler.CprSignAmount` | netlify/functions/create-payment-intent.ts:74 | the add-on costs 0 or 3000 cents, and 3000 exactly when `includeCprSign` is truthy |
| `NetlifyHandler.TotalAmount` | netlify/functions/create-payment-intent.ts:69-75 | the charge is base plus add-on, always 21000 or 24000 cents, and 24000 exactly when `includeCprSign` is true |
| `NetlifyHandler.Dollars` | netlify/functions/create-payment-intent.ts:102-104 | a whole number of dollars renders as a numeral whose value times 100 is the amount in cents |
| `NetlifyHandler.ResponseHeadersCarryCors` | netlify/functions/create-payment-intent.ts:109-130 | the JSON and success header sets keep every CORS header unchanged; the success set also holds both no-store headers |
| `NetlifyHandler.CustomerMetadata` | netlify/functions/create-payment-intent.ts:92-100 | exactly the nine customer keys, each the supplied value or `''` |
| `NetlifyHandler.PricingMetadata` | netlify/functions/create-payment-intent.ts:90-106 | service name, `"yes"`/`"no"` add-on flag, the clock, and three decimal amounts in which total = base + add-on and total × 100 is the charge |
| `NetlifyHandler.Metadata` | netlify/functions/create-payment-intent.ts:90-106 | the metadata always has all fifteen keys: the customer ones with their defaults and the pricing ones as above |
| `NetlifyHandler.Handle` | netlify/functions/create-payment-intent.ts:38-134 | `OPTIONS` gives 204 with the CORS headers and an empty body, whatever the body holds. Any other non-`POST` verb gives 405 "Method not allowed". Every response carries the CORS headers. The processor is called exactly when a `POST` decodes and has a positive amount. Otherwise a decoded `POST` gives 400 "Invalid amount". The call charges `TotalAmount` in "aud" with automatic payment methods and `Metadata`. 200 happens exactly when the call returns; it has the success headers and only the client secret. A decoding or processor error gives 500 with the error's message, or "Unknown error" |
| `NetlifyHandler.ErrorMessage` | netlify/functions/create-payment-intent.ts:123 | an `Error` gives its own message, anything else "Unknown error"; `Handle` sends it in every 500 |
| `NetlifyHandler.Failure` | netlify/functions/create-payment-intent.ts:121-132 | a 500 with the CORS and `Content-Type` headers and the body `{error: ErrorMessage(thrown)}` |
| `NetlifyHandler.DollarStrings` | netlify/functions/create-payment-intent.ts:102-104 | 21000, 24000, 3000 and 0 cents render as "210", "240", "30" and "0" |
| `NetlifyHandler.PricingStrings` | netlify/functions/create-payment-intent.ts:101-104 | the amounts are "210"/"0"/"210", or "210"/"30"/"240" with the CPR sign |
| `NetlifyHandler.ChargeIgnoresClientAmount` | netlify/functions/create-payment-intent.ts:58-85 | two posts that differ only in their positive client amount get the same response and the same call |
| `NetlifyHandler.MissingBodyIsInvalidAmount` | netlify/functions/create-payment-intent.ts:57-66 | an absent body reads as `{}`: 400 "Invalid amount" and no processor call |
| `ApiRoute.Round` | app/api/create-payment-intent/route.ts:19 | `Math.round` gives the integer r with r − ½ ≤ x < r + ½ |
| `ApiRoute.AmountInCents` | app/api/create-payment-intent/route.ts:19 | a number becomes the nearest whole number of cents, halves rounded up; `null` becomes 0 cents; a left-out amount stays not-a-number |
| `ApiRoute.CentsRoundTrip` | app/api/create-payment-intent/route.ts:19 | an amount that is a whole number of cents converts back exactly |
| `ApiRoute.UpdateMetadata` | app/api/create-payment-intent/route.ts:25-35 | update metadata has exactly the nine customer keys, each passed through unchanged, absent values included |
| `ApiRoute.CreateMetadata` | app/api/create-payment-intent/route.ts:55-58 | create metadata has only `service` and `timestamp` |
| `ApiRoute.CallFor` | app/api/create-payment-intent/route.ts:19-59 | a truthy `paymentIntentId` gives one update of that id, otherwise one create in "aud" with automatic payment methods; both carry the converted amount and their branch's metadata |
| `ApiRoute.Post` | app/api/create-payment-intent/route.ts:13-84 | every response carries the no-store headers. A body that does not decode makes no call; otherwise exactly the one `CallFor` call is made. 200 happens exactly when that call returns, with the returned intent's secret and id. Every other outcome is the same 500 "Error creating payment intent" |
| `ApiRoute.FailureHidesDetail` | app/api/create-payment-intent/route.ts:71-82 | whatever the processor throws, the caller sees the same response |
| `ApiRoute.NoAmountValidation` | app/api/create-payment-intent/route.ts:19-50 | any decoded request, whatever its amount, reaches the processor with the converted amount |
| `FormValidation.DigitsThenEndIff` | app/checkout/CheckoutClient.tsx:205 | `[0-9]{n}$` accepts exactly the strings of n ASCII digits |
| `FormValidation.PostcodeMatches` | app/checkout/CheckoutClient.tsx:205 | the recogniser for `/^[0-9]{4}$/`; it accepts what `PostcodeAccepted` states: exactly four ASCII digits |
| `FormValidation.PostcodeAccepted` | app/checkout/CheckoutClient.tsx:205 | a postcode matches exactly when it is four ASCII digits |
| `FormValidation.GroupsThenEndIff` | app/checkout/CheckoutClient.tsx:160 | `(?:[ -]?[0-9]){n}$` accepts exactly the strings made of digits and separators in which every separator is followed by a digit and there are n digits |
| `FormValidation.PhoneMatches` | app/checkout/CheckoutClient.tsx:160 | the recogniser for `/^(?:\+?61\|0)[2-478](?:[ -]?[0-9]){8}$/`; it accepts what `PhoneAccepted` states |
| `FormValidation.PhoneAccepted` | app/checkout/CheckoutClient.tsx:160 | a phone number matches exactly when it is `+61`, `61` or `0`, then one of 2, 3, 4, 7, 8, then eight digits, each optionally preceded by one space or hyphen |
| `FormValidation.EmailMatches` | app/checkout/CheckoutClient.tsx:140 | the recogniser for the email pattern, splitting at the first `@` and the last `.`; it accepts what `EmailAccepted` states: exactly the strings `EmailSpec` describes |
| `FormValidation.EmailAccepted` | app/checkout/CheckoutClient.tsx:140 | the recogniser agrees with the expression: some split into local part, `@`, domain, `.` and two or more letters exists, case-insensitively |
| `FormValidation.FieldError` | app/checkout/CheckoutClient.tsx:137-142 | an empty value gets the `required` message; a non-empty value that fails the pattern gets the pattern message; no error exactly when the value is non-empty and matches |
| `FormValidation.EmailError` | app/checkout/CheckoutClient.tsx:137-142 | no error exactly when the email matches its pattern; otherwise "Email is required" or "Invalid email address" |
| `FormValidation.PhoneError` | app/checkout/CheckoutClient.tsx:157-162 | no error exactly when the phone has the Australian shape; otherwise "Phone number is required" or "Invalid Australian phone number" |
| `FormValidation.PostcodeError` | app/checkout/CheckoutClient.tsx:202-207 | no error exactly when the postcode is four digits; otherwise "Postcode is required" or "Invalid postcode" |
| `FormValidation.Rule` | app/checkout/CheckoutClient.tsx:110-236 | the `register` options of each field applied to its value: `required` alone for the five plain fields, the pattern rules for email, phone and postcode, none for `notes`; `FormErrors` states what they accept together |
| `FormValidation.FormErrors` | app/checkout/CheckoutClient.tsx:110-236 | the form has no errors exactly when the five required fields are non-empty and email, phone and postcode pass their patterns; `notes` never has an error |
| `Checkout.Total` | app/checkout/CheckoutClient.tsx:39-41 | the total is 210 or 240, and 240 exactly when the CPR sign is included |
| `Checkout.CreateFailure` | app/checkout/CheckoutClient.tsx:50-70 | the create phase succeeds exactly when the response is ok, its body decodes, and it holds no non-empty `error` |
| `Checkout.ConfirmFailure` | app/checkout/CheckoutClient.tsx:77-87 | the confirm phase succeeds exactly on status "succeeded"; any other status fails with "Payment failed" |
| `Checkout.Shown` | app/checkout/CheckoutClient.tsx:89 | the error shown is never blank, and it is the thrown message when that message is non-empty |
| `Checkout.Submit` | app/checkout/CheckoutClient.tsx:43-93 | `isSubmitting` is false on every exit, and an error shown is never blank. Without a secret, exactly one create request is sent, with `amount = total` and the add-on flag. Success stores the returned secret and clears the error. A failure keeps the secret and sets an error. With a secret, no create request is sent and the secret is kept. The page navigates to the success page exactly on status "succeeded", and the error is "Payment failed" on any other status. The error shown after a failed phase is that phase's own message, or the fallback when the message is empty |
| `Checkout.SubmitForm` | app/checkout/CheckoutClient.tsx:103 | a form with field errors changes nothing and sends nothing; a valid form runs the submit |
| `Checkout.SecretHeldNoNewIntent` | app/checkout/CheckoutClient.tsx:48-74 | once a secret is held, any number of later submits keep it and never request another intent |
| `Checkout.RunEndsIdle` | app/checkout/CheckoutClient.tsx:90-91 | after any sequence of submits, `isSubmitting` is false |
| `Checkout.CheckoutClient.constructor` | app/checkout/CheckoutClient.tsx:28-31 | the page starts with no secret, not submitting, no error, no add-on, and nothing sent |
| `Checkout.CheckoutClient.SetIncludeCprSign` | app/checkout/CheckoutClient.tsx:247 | the checkbox changes only the add-on flag |
| `Checkout.CheckoutClient.OnSubmit` | app/checkout/CheckoutClient.tsx:43-93 | while the call is awaited, the page is busy and shows no error; afterwards the state is `Submit`'s, and its actions are appended |
| `Checkout.CheckoutClient.HandleSubmit` | app/checkout/CheckoutClient.tsx:103 | validation first, then `onSubmit`; the new state and actions are `SubmitForm`'s |
| `Integration.Posted` | app/checkout/CheckoutClient.tsx:55-59 | the posted body carries the total as the amount, the add-on flag and no intent id |
| `Integration.PostedMetadata` | netlify/functions/create-payment-intent.ts:92-100 | each of the nine form fields the page posts lands in the create call's metadata under its own name, with its value unchanged |
| `Integration.FirstSubmitIsCharged` | app/checkout/CheckoutClient.tsx:49-60 | the first submit's request always passes the serverless endpoint's amount check; it is charged the page's total × 100 cents, and every form field is recorded in the metadata |
| `Integration.AddOnChangeAfterIntentIsNotSent` | app/checkout/CheckoutClient.tsx:49 | once an intent exists, changing the CPR sign and submitting again sends no request, so the intent keeps the amount it was created with |
| `ImageLoader.Load` | image-loader.js:1-9 | a `src` with prefix `"http"` is returned as it is; any other `src` becomes `"/" + src` |
| `ImageLoader.IgnoresSizeAndQuality` | image-loader.js:1-9 | width and quality never affect the result |
| `ImageLoader.ResultShape` | image-loader.js:3-8 | every result ends with `src` and either starts with `"http"` or starts with `/` |
| `ImageLoader.LocalRewriteIsNotIdempotent` | image-loader.js:8 | loading a rewritten local path again adds a second `/` |
| `ImageLoader.HttpNamedLocalFilePassesThrough` | image-loader.js:3 | the prefix test passes `"http-logo.png"` through unchanged |

## Left out

- Processor calls (`paymentIntents.create`/`update`), `fetch` and the client-side payment confirmation are network calls. Each is a parameter holding the reply to the one call made. The processor's own behaviour is not modelled, for example rejecting a `NaN` amount or an unknown id.
- JSON text, `JSON.parse` and `req.json()` are not modelled. The body arrives decoded. A body that decodes to `null` counts as one whose decoding throws, because destructuring it throws. Other JSON values that are not objects (numbers, strings, arrays) are not modelled. Neither are field values of an unexpected JSON type, such as a numeric string amount or a non-string id.
- Floating point: amounts are exact rationals. `Math.round(amount * 100)` is exact round-half-up on rationals, with no IEEE rounding of the product. `String(cents / 100)` is modelled only for whole dollars, the only amounts the serverless endpoint renders.
- The credential checks and SDK construction at module load, in both endpoints, are environment access at import time.
- `new Date().toISOString()` is the `timestamp` parameter. `console.log` and `console.error` are left out.
- ApiRoute.UpdateMetadata: a customer field sent as JSON `null` is read as left out (`None`), so the model does not tell apart the `null` and `undefined` values the route forwards to the processor. The serverless endpoint turns both into `''`, so its metadata is unaffected.
- Decimal.NatToString: matches JavaScript's `String(n)` only below 2^53. Above that, JavaScript prints the shortest digits that round-trip the double, and from 10^21 on it uses exponent notation. The endpoint renders only 0, 30, 210 and 240 dollars.
- The processor's `client_secret` is always a string in the model. A `null` secret is not modelled.
- The framework's JSON response adds a `content-type` header and uses status 200 by default. The route's modelled responses (`ApiRoute.RouteHeaders`) include both. The rest of the framework's response handling is not modelled.
- The checkout page applies each state update at once, in order. React's batching, re-rendering, hooks and async interleaving are left out. Two submits in flight at once, and the last-write-wins race between two updates of one intent, are not modelled.
- Checkout: `router.push` is the `Navigate` action. A decoded reply without a `clientSecret` is read as the empty secret: both are falsy, so the next submit requests a new intent either way.
- The browser's own constraint check on the `type="email"` input, which can block the submit event before the form's rules run, is not modelled.
- `components/PaymentForm.tsx` is not part of this model. It installs the confirm hook on `window`, and the hook is the `ConfirmReply` parameter. `components/Cart.tsx`, `components/Header.tsx`, `components/AddToCartButton.tsx`, `components/Providers.tsx` and `next.config.mjs` are rendering and configuration and are not part of this model. The cart operations live in `context/CartContext`, which is not part of this model either.
