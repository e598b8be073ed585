/** `createRazorpayPayment`: checks a plan payment request, builds the
    gateway order for it, and maps the gateway's failures to HTTP errors. */
module RazorpayController {
  import opened Common
  import opened UserModel
  import opened RazorpayClient

  /** The request body: the amount in rupees, the currency and the plan. */
  datatype PaymentRequest = PaymentRequest(amount: Option<int>, currency: Option<string>, planType: string)

  /** How the handler ends: refused with an HTTP error, with the gateway
      order created (the success reply is not part of the handler), or
      with no reply at all when a gateway error is logged and swallowed. */
  datatype PaymentOutcome = Refused(status: int) | OrderCreated(order: GatewayOrder) | NoReply

  /** The plans that are paid for through the gateway. */
  predicate PayablePlan(planType: string)
  {
    planType == EarlyBirdPlan || planType == PaidPlan
  }

  /** The checks before the gateway call: 402 without a user, then 400
      for a missing, zero or negative amount, then 400 for a plan that is
      not paid for. */
  function Validate(principal: Option<Principal>, req: PaymentRequest): (r: Result<int, int>)
    ensures r.Ok? <==> principal.Some? && req.amount.Some? && req.amount.value > 0 && PayablePlan(req.planType)
    ensures r.Ok? ==> r.value == req.amount.value
    ensures principal.None? ==> r == Err(402)
    ensures principal.Some? && r.Err? ==> r == Err(400)
  {
    if principal.None? then Err(402)
    else if req.amount.None? || req.amount.value <= 0 then Err(400)
    else if !PayablePlan(req.planType) then Err(400)
    else Ok(req.amount.value)
  }

  /** `orderOptions`: the amount in paise, the currency (rupees unless
      the request names one), automatic capture, and notes naming the user,
      the plan and the user's email. The receipt text ends in a space. */
  function PaymentOptions(p: Principal, rupees: int, req: PaymentRequest, now: Millis): (o: OrderOptions)
    ensures o.amount == rupees * PaisePerRupee
    ensures o.currency == (if req.currency.Some? then req.currency.value else Inr)
    ensures o.paymentCapture == 1
    ensures o.notes.userId == p.id && o.notes.planType == req.planType && o.notes.email == p.email
    ensures o.receipt.user == p.id && o.receipt.at == now
  {
    OrderOptions(rupees * PaisePerRupee, if req.currency.Some? then req.currency.value else Inr,
                 Receipt("reciept", p.id, now, " "), 1, Notes(p.id, req.planType, p.email))
  }

  /** The `catch` block: a gateway error with a description is answered
      with its status code (500 when it has none), an error with only a
      message with 500; anything else is logged and no reply is sent. */
  function GatewayErrorStatus(e: GatewayError): (r: Option<int>)
    ensures r.Some? <==> e.description != [] || e.message != []
    ensures r.Some? && r.value != 500 ==> e.description != [] && e.statusCode == Some(r.value)
  {
    if e.description != [] then Some(if e.statusCode.Some? && e.statusCode.value != 0 then e.statusCode.value else 500)
    else if e.message != [] then Some(500)
    else None
  }

  /** An empty reply from the gateway raises a 500 inside the `try`,
      which the `catch` answers by its message, still 500. */
  const NoOrderError: GatewayError := GatewayError([], None, "Error creating Razorpay order: No response from API.")

  function CreateRazorpayPayment(principal: Option<Principal>, req: PaymentRequest, now: Millis,
                                 create: OrderOptions -> GatewayReply): (r: PaymentOutcome)
    ensures Validate(principal, req).Err? ==> r == Refused(Validate(principal, req).error)
    ensures r.OrderCreated? ==>
      && Validate(principal, req).Ok?
      && create(PaymentOptions(principal.value, req.amount.value, req, now)) == Created(Some(r.order))
    ensures r.NoReply? ==> Validate(principal, req).Ok?
  {
    match Validate(principal, req)
    case Err(status) => Refused(status)
    case Ok(rupees) =>
      var options := PaymentOptions(principal.value, rupees, req, now);
      match create(options)
      case Created(Some(order)) => OrderCreated(order)
      case Created(None) => Refused(GatewayErrorStatus(NoOrderError).value)
      case Failed(e) =>
        match GatewayErrorStatus(e)
        case Some(status) => Refused(status)
        case None => NoReply
  }

  /** A valid request reaches the gateway with a positive amount in paise;
      an order it returns ends the handler with that order, and every
      failure there is answered with an error status except an error with
      neither description nor message. */
  lemma GatewayOutcomes(p: Principal, req: PaymentRequest, now: Millis, create: OrderOptions -> GatewayReply)
    requires Validate(Some(p), req).Ok?
    ensures var options := PaymentOptions(p, req.amount.value, req, now);
      var r := CreateRazorpayPayment(Some(p), req, now, create);
      && options.amount == 100 * req.amount.value && options.amount > 0
      && (create(options).Created? && create(options).order.Some? ==> r == OrderCreated(create(options).order.value))
      && (create(options) == Created(None) ==> r == Refused(500))
      && (create(options).Failed? && GatewayErrorStatus(create(options).error).Some? ==>
            r == Refused(GatewayErrorStatus(create(options).error).value))
      && (create(options).Failed? && create(options).error.description == [] && create(options).error.message != [] ==>
            r == Refused(500))
      && (create(options).Failed? ==>
            (r.NoReply? <==> create(options).error.description == [] && create(options).error.message == []))
      && (create(options).Failed? && create(options).error.description != [] ==>
            r == Refused(if create(options).error.statusCode.Some? && create(options).error.statusCode.value != 0
                         then create(options).error.statusCode.value else 500))
  {
  }
}
