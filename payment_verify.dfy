/**
 * The decision made by the payment-verification route
 * (POST .../razorpay/verify): required fields, then the comparison of the
 * supplied signature with the hex HMAC-SHA256 of `orderId|paymentId` under
 * the configured secret.
 */
module PaymentVerify {
  import opened Wrappers
  import opened Http

  /**
   * HMAC-SHA256 (RFC 2104 over FIPS 180-4), hex-encoded, as a parameter:
   * `Hmac(key, message)` is the digest Node's crypto module would produce.
   */
  type Hmac = (string, string) -> string

  /**
   * The request as the handler sees it: either reading the JSON body (or
   * destructuring it, when it is `null`) threw, or each of the three
   * fields is present or absent.
   */
  datatype VerifyRequest =
    | Unreadable(cause: Thrown)
    | Payload(orderId: Option<string>, paymentId: Option<string>, signature: Option<string>)

  const MissingFields := "Missing payment verification fields"
  const InvalidSignature := "Invalid signature"
  const Verified := "Payment verified successfully"
  const VerificationFailed := "Verification failed"

  /** A field passes the `!field` test: present and not the empty string. */
  predicate Present(field: Option<string>) {
    field.Some? && field.value != ""
  }

  /** `process.env.RAZORPAY_KEY_SECRET || ""` */
  function SigningKey(secret: Option<string>): string {
    secret.GetOr("")
  }

  /** The signature the gateway is expected to have produced for this order and payment. */
  function ExpectedSignature(hmac: Hmac, secret: Option<string>, orderId: string, paymentId: string): string {
    hmac(SigningKey(secret), orderId + "|" + paymentId)
  }

  /** The handler's response, as a function of the request, the secret and the HMAC. */
  function VerifyPayment(request: VerifyRequest, secret: Option<string>, hmac: Hmac): (r: Response)
    ensures r.status == 200 || r.status == 400 || r.status == 500
    ensures request.Unreadable? ==>
              r == Response(500, MessageBody(CaughtMessage(request.cause, VerificationFailed)))
    ensures request.Payload? && !(Present(request.orderId) && Present(request.paymentId) && Present(request.signature)) ==>
              r == Response(400, MessageBody(MissingFields))
    ensures r.status == 200 <==>
              && request.Payload?
              && Present(request.orderId) && Present(request.paymentId) && Present(request.signature)
              && request.signature.value == ExpectedSignature(hmac, secret, request.orderId.value, request.paymentId.value)
    ensures r.status == 200 ==> r.body == SuccessBody(Verified)
  {
    match request
    case Unreadable(cause) =>
      Response(500, MessageBody(CaughtMessage(cause, VerificationFailed)))
    case Payload(orderId, paymentId, signature) =>
      if !Present(orderId) || !Present(paymentId) || !Present(signature) then
        Response(400, MessageBody(MissingFields))
      else if ExpectedSignature(hmac, secret, orderId.value, paymentId.value) != signature.value then
        Response(400, MessageBody(InvalidSignature))
      else
        Response(200, SuccessBody(Verified))
  }

  /** When a field is missing the HMAC is never consulted: any two HMACs give the same answer. */
  lemma MissingFieldsNeverSign(request: VerifyRequest, secret: Option<string>, h1: Hmac, h2: Hmac)
    requires request.Payload?
    requires !Present(request.orderId) || !Present(request.paymentId) || !Present(request.signature)
    ensures VerifyPayment(request, secret, h1) == VerifyPayment(request, secret, h2)
  {
  }

  /**
   * Verification fails closed: a complete request whose signature differs
   * from the expected one at any position, or in length, is rejected as
   * an invalid signature.
   */
  lemma TamperedSignatureRejected(orderId: string, paymentId: string, signature: string,
                                  secret: Option<string>, hmac: Hmac, i: nat)
    requires orderId != "" && paymentId != "" && signature != ""
    requires var expected := ExpectedSignature(hmac, secret, orderId, paymentId);
             |signature| != |expected| || (i < |signature| && signature[i] != expected[i])
    ensures VerifyPayment(Payload(Some(orderId), Some(paymentId), Some(signature)), secret, hmac)
            == Response(400, MessageBody(InvalidSignature))
  {
  }

  /** The signature the gateway computes for a completed payment is accepted. */
  lemma GenuineSignatureAccepted(orderId: string, paymentId: string, secret: Option<string>, hmac: Hmac)
    requires orderId != "" && paymentId != ""
    requires ExpectedSignature(hmac, secret, orderId, paymentId) != ""
    ensures var signature := ExpectedSignature(hmac, secret, orderId, paymentId);
            VerifyPayment(Payload(Some(orderId), Some(paymentId), Some(signature)), secret, hmac)
            == Response(200, SuccessBody(Verified))
  {
  }

  /** An unset secret and an empty secret sign with the same (empty) key. */
  lemma UnsetSecretIsEmptyKey(request: VerifyRequest, hmac: Hmac)
    ensures VerifyPayment(request, None, hmac) == VerifyPayment(request, Some(""), hmac)
  {
  }

  /**
   * The signed message joins the two identifiers with `|` and nothing else, so
   * identifiers that themselves contain `|` can share a signature: a signature
   * valid for order `o|x` and payment `p` is valid for order `o` and payment `x|p`.
   */
  lemma SeparatorIsAmbiguous(o: string, x: string, p: string, signature: string,
                             secret: Option<string>, hmac: Hmac)
    requires o != "" && p != "" && signature != ""
    ensures VerifyPayment(Payload(Some(o + "|" + x), Some(p), Some(signature)), secret, hmac)
            == VerifyPayment(Payload(Some(o), Some(x + "|" + p), Some(signature)), secret, hmac)
  {
    assert (o + "|" + x) + "|" + p == o + "|" + (x + "|" + p);
  }
}
