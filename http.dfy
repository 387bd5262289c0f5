/** Response shapes shared by the two server-side endpoints. A JSON body is kept
    as the object it encodes rather than as text. */
module Http {

  /** Header name to header value, as the response literal spells them. */
  type Headers = map<string, string>

  datatype JsonBody =
    | EmptyBody                                          // ''
    | ErrorJson(error: string)                           // { error }
    | SecretJson(clientSecret: string)                   // { clientSecret }
    | IntentJson(clientSecret: string, paymentIntentId: string)

  datatype Response = Response(status: nat, headers: Headers, body: JsonBody)

  /** Forbids storing the response anywhere and forces revalidation
      (sections 5.2.2.2, 5.2.2.5 and 5.4 of RFC 9111). */
  const NoStore: Headers := map["Cache-Control" := "no-store, must-revalidate", "Pragma" := "no-cache"]

  /** Every header of `part` is in `whole` with the same value. */
  predicate Carries(whole: Headers, part: Headers) {
    forall name :: name in part ==> name in whole && whole[name] == part[name]
  }
}
