/** The part of the Razorpay client the billing handlers use:
    `orders.create(options)`. The client itself is outside the model; the
    handlers receive it as a function from the options to its reply. */
module RazorpayClient {
  import opened Common

  /** The receipt text is the prefix, the user id, `_`, the timestamp in
      milliseconds and the suffix, in that order. */
  datatype Receipt = Receipt(prefix: string, user: UserId, at: Millis, suffix: string)

  /** The order notes the webhook later reads back. */
  datatype Notes = Notes(userId: UserId, planType: string, email: string)

  /** `orderOptions`: `amount` is in paise. */
  datatype OrderOptions = OrderOptions(
    amount: int,
    currency: string,
    receipt: Receipt,
    paymentCapture: int,
    notes: Notes)

  /** The gateway order the client returns. */
  datatype GatewayOrder = GatewayOrder(id: string, currency: string, amount: int, receipt: Receipt)

  /** A rejected call: the gateway's `error.description` (empty when
      absent), the HTTP `statusCode` it carries, and the error's message. */
  datatype GatewayError = GatewayError(description: string, statusCode: Option<int>, message: string)

  /** What `orders.create` gives back: an order (or nothing), or a thrown error. */
  datatype GatewayReply = Created(order: Option<GatewayOrder>) | Failed(error: GatewayError)

  const Inr: string := "INR"

  /** Paise per rupee. */
  const PaisePerRupee: int := 100
}
