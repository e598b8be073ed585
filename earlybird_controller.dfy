/** The billing handlers: the Early Bird status, plan selection (Free,
    Early Bird and Paid) and the Razorpay webhook that activates a paid
    plan. Amounts are whole rupees; the gateway is sent paise. */
module EarlyBirdController {
  import opened Common
  import opened EarlyBirdModel
  import opened UserModel
  import opened RazorpayClient

  // ---------------------------------------------------------------------
  // The offer's status.
  // ---------------------------------------------------------------------

  datatype EarlyBirdStatus = EarlyBirdStatus(
    isActive: bool,
    isAvailable: bool,
    maxUsers: int,
    usersClaimed: int,
    availableSlots: int,
    offerType: OfferType,
    discountedAmount: int,
    durationDays: int)

  /** The offer can still be claimed: it is active and has a free slot.
      Plan selection refuses an Early Bird claim exactly when this fails. */
  predicate Open(c: EarlyBirdConfig)
  {
    c.isActive && c.usersClaimed < c.maxUsers
  }

  /** The stored configuration, or the default one created on first use. */
  function ConfigOrDefault(config: Option<EarlyBirdConfig>): EarlyBirdConfig
  {
    if config.Some? then config.value else DefaultConfig()
  }

  /** `getEarlyBirdStatus`'s reply for a configuration: the slots left
      (never negative, none when inactive), and available exactly when a
      claim would pass the eligibility check. */
  function StatusOf(c: EarlyBirdConfig): (s: EarlyBirdStatus)
    ensures s.availableSlots >= 0
    ensures s.isAvailable <==> Open(c)
    ensures Open(c) ==> s.availableSlots == c.maxUsers - c.usersClaimed
    ensures !Open(c) ==> s.availableSlots == 0
    ensures s.isActive == c.isActive && s.maxUsers == c.maxUsers && s.usersClaimed == c.usersClaimed
    ensures s.offerType == c.offerType && s.discountedAmount == c.discountedAmount
    ensures s.durationDays == c.durationDays
  {
    var slots := if c.isActive then (if c.maxUsers - c.usersClaimed > 0 then c.maxUsers - c.usersClaimed else 0) else 0;
    EarlyBirdStatus(c.isActive, slots > 0, c.maxUsers, c.usersClaimed, slots,
                    c.offerType, c.discountedAmount, c.durationDays)
  }

  // ---------------------------------------------------------------------
  // Plan selection.
  // ---------------------------------------------------------------------

  /** The body of `POST /billing/process-plan`: the plan name and, for the
      Paid plan, an optional amount. */
  datatype PlanRequest = PlanRequest(planType: string, amount: Option<int>)

  datatype BillingError =
    | Unauthorized
    | InvalidPlan
    | UserNotFound
    | OfferUnavailable
    | AlreadyClaimed
    | InvalidAmount
    | GatewayFailure

  function StatusCode(e: BillingError): (code: int)
    ensures code == 400 <==> e.InvalidPlan? || e.AlreadyClaimed? || e.InvalidAmount?
    ensures code == 401 <==> e.Unauthorized?
    ensures code == 403 <==> e.OfferUnavailable?
    ensures code == 404 <==> e.UserNotFound?
    ensures code == 500 <==> e.GatewayFailure?
  {
    match e
    case Unauthorized => 401
    case InvalidPlan => 400
    case UserNotFound => 404
    case OfferUnavailable => 403
    case AlreadyClaimed => 400
    case InvalidAmount => 400
    case GatewayFailure => 500
  }

  datatype PlanReply =
    | SwitchedToFree
    | EarlyBirdActivated(durationDays: int)
    | ProceedToPayment(order: GatewayOrder)

  /** The user's subscription afterwards (`None` when there was no such
      user), the configuration afterwards, and the reply. */
  datatype PlanOutcome = PlanOutcome(user: Option<Subscription>, config: Option<EarlyBirdConfig>, reply: Result<PlanReply, BillingError>)

  /** The Paid plan's price when the request names none. */
  const DefaultPaidAmount: int := 1999

  /** `req.body.amount || 1999`: a missing or zero amount takes the default. */
  function PaidAmount(amount: Option<int>): (a: int)
    ensures amount.None? || amount.value == 0 ==> a == DefaultPaidAmount
    ensures amount.Some? && amount.value != 0 ==> a == amount.value
  {
    if amount.None? || amount.value == 0 then DefaultPaidAmount else amount.value
  }

  /** The order a plan's payment is created with: the amount in paise,
      rupees as the currency, automatic capture, and notes that tell the
      webhook whom to activate and on which plan. */
  function PlanOptions(rupees: int, prefix: string, p: Principal, planType: string, now: Millis): OrderOptions
  {
    OrderOptions(rupees * PaisePerRupee, Inr, Receipt(prefix, p.id, now, ""), 1, Notes(p.id, planType, p.email))
  }

  /** Any failure of the gateway call, or an order without an id, is a 500. */
  function PaymentReply(g: GatewayReply): Result<PlanReply, BillingError>
  {
    if g.Created? && g.order.Some? then Ok(ProceedToPayment(g.order.value)) else Err(GatewayFailure)
  }

  /** The subscription a free Early Bird claim grants. */
  function EarlyBirdGrant(c: EarlyBirdConfig, now: Millis): Subscription
  {
    Subscription(EarlyBirdPlan, Some(now + c.durationDays * MsPerDay), true)
  }

  /** The Early Bird branch of plan selection for a found user `u`: the
      configuration is created if missing, then the offer must be open and
      unclaimed by `u`; a free offer is granted at once, a discounted one
      goes to the gateway. */
  function EarlyBirdChoice(p: Principal, u: Subscription, config: Option<EarlyBirdConfig>,
                           now: Millis, create: OrderOptions -> GatewayReply): (o: PlanOutcome)
    ensures o.user.Some? && o.config.Some?
    ensures o.reply.Err? ==> o.user == Some(u)
    ensures o.config != Some(ConfigOrDefault(config)) ==> o.reply.Ok? && o.reply.value.EarlyBirdActivated?
  {
    var c := ConfigOrDefault(config);
    if !Open(c) then PlanOutcome(Some(u), Some(c), Err(OfferUnavailable))
    else if u.quotaUsed then PlanOutcome(Some(u), Some(c), Err(AlreadyClaimed))
    else if c.offerType == Free then
      PlanOutcome(Some(EarlyBirdGrant(c, now)), Some(c.(usersClaimed := c.usersClaimed + 1)),
                  Ok(EarlyBirdActivated(c.durationDays)))
    else
      var reply := create(PlanOptions(c.discountedAmount, "eb_", p, EarlyBirdPlan, now));
      PlanOutcome(Some(u), Some(c), PaymentReply(reply))
  }

  /** `processPlanSelection` on values: `user` is the signed-in user's
      subscription when that user is found, `config` the stored Early Bird
      configuration, `create` the gateway's `orders.create`. */
  function SelectPlan(principal: Option<Principal>, user: Option<Subscription>, config: Option<EarlyBirdConfig>,
                      req: PlanRequest, now: Millis, create: OrderOptions -> GatewayReply): (o: PlanOutcome)
    ensures principal.None? ==> o == PlanOutcome(user, config, Err(Unauthorized))
    ensures principal.Some? && !IsSubscriptionStatus(req.planType) ==> o == PlanOutcome(user, config, Err(InvalidPlan))
    ensures principal.Some? && IsSubscriptionStatus(req.planType) && user.None? ==> o == PlanOutcome(user, config, Err(UserNotFound))
    ensures o.user.Some? <==> user.Some?
    ensures o.reply.Err? ==> o.user == user
    ensures o.user != user ==> req.planType == FreePlan || req.planType == EarlyBirdPlan
  {
    if principal.None? then PlanOutcome(user, config, Err(Unauthorized))
    else if !IsSubscriptionStatus(req.planType) then PlanOutcome(user, config, Err(InvalidPlan))
    else if user.None? then PlanOutcome(user, config, Err(UserNotFound))
    else if req.planType == FreePlan then
      PlanOutcome(Some(Subscription(FreePlan, None, false)), config, Ok(SwitchedToFree))
    else if req.planType == EarlyBirdPlan then EarlyBirdChoice(principal.value, user.value, config, now, create)
    else
      var amount := PaidAmount(req.amount);
      if amount <= 0 then PlanOutcome(user, config, Err(InvalidAmount))
      else
        var reply := create(PlanOptions(amount, "paid_", principal.value, PaidPlan, now));
        PlanOutcome(user, config, PaymentReply(reply))
  }

  /** Downgrading to Free clears the expiry and the claim flag, whatever
      the user had before; the configuration is not touched. */
  lemma FreePlanResets(p: Principal, u: Subscription, config: Option<EarlyBirdConfig>, amount: Option<int>,
                       now: Millis, create: OrderOptions -> GatewayReply)
    ensures var o := SelectPlan(Some(p), Some(u), config, PlanRequest(FreePlan, amount), now, create);
      && o.reply == Ok(SwitchedToFree)
      && o.user == Some(Subscription(FreePlan, None, false))
      && o.config == config
  {
  }

  /** An Early Bird request is checked before anything changes: 403 when
      the offer is closed, then 400 when this user has claimed it already.
      Either way the user is untouched, and the only change to the
      configuration is the default one being created when none existed. */
  lemma EarlyBirdRefusals(p: Principal, u: Subscription, config: Option<EarlyBirdConfig>, amount: Option<int>,
                          now: Millis, create: OrderOptions -> GatewayReply)
    ensures var o := SelectPlan(Some(p), Some(u), config, PlanRequest(EarlyBirdPlan, amount), now, create);
      var c := ConfigOrDefault(config);
      && (!Open(c) ==> o == PlanOutcome(Some(u), Some(c), Err(OfferUnavailable)))
      && (Open(c) && u.quotaUsed ==> o == PlanOutcome(Some(u), Some(c), Err(AlreadyClaimed)))
      && (o.reply.Err? ==> o.user == Some(u) && o.config == Some(c))
  {
  }

  /** A free Early Bird claim grants the plan for the configured number of
      days, marks the user's claim and takes exactly one slot. */
  lemma FreeEarlyBirdClaim(p: Principal, u: Subscription, config: Option<EarlyBirdConfig>, amount: Option<int>,
                           now: Millis, create: OrderOptions -> GatewayReply)
    requires Open(ConfigOrDefault(config)) && !u.quotaUsed && ConfigOrDefault(config).offerType == Free
    ensures var o := SelectPlan(Some(p), Some(u), config, PlanRequest(EarlyBirdPlan, amount), now, create);
      var c := ConfigOrDefault(config);
      && o.reply == Ok(EarlyBirdActivated(c.durationDays))
      && o.user == Some(Subscription(EarlyBirdPlan, Some(now + c.durationDays * MsPerDay), true))
      && o.config == Some(c.(usersClaimed := c.usersClaimed + 1))
  {
  }

  /** The discounted Early Bird and the Paid plan only ask the gateway for
      an order: the amount in paise and rupees as the currency, automatic
      capture, notes naming the user and the plan. No user changes, and the
      reply is the gateway's order or a 500. */
  lemma PaymentPlansPersistNothing(p: Principal, u: Subscription, config: Option<EarlyBirdConfig>, req: PlanRequest,
                                   now: Millis, create: OrderOptions -> GatewayReply)
    requires req.planType == PaidPlan || (req.planType == EarlyBirdPlan && Open(ConfigOrDefault(config))
      && !u.quotaUsed && ConfigOrDefault(config).offerType == Discounted)
    ensures var o := SelectPlan(Some(p), Some(u), config, req, now, create);
      var rupees := if req.planType == PaidPlan then PaidAmount(req.amount) else ConfigOrDefault(config).discountedAmount;
      var options := PlanOptions(rupees, if req.planType == PaidPlan then "paid_" else "eb_", p, req.planType, now);
      && o.user == Some(u)
      && (req.planType == PaidPlan ==> o.config == config)
      && (rupees > 0 || req.planType == EarlyBirdPlan ==>
           && options.amount == rupees * 100 && options.currency == "INR" && options.paymentCapture == 1
           && options.notes == Notes(p.id, req.planType, p.email)
           && o.reply == (if create(options).Created? && create(options).order.Some?
                          then Ok(ProceedToPayment(create(options).order.value)) else Err(GatewayFailure)))
  {
  }

  /** The Paid plan: a missing or zero amount means 1999 rupees; a negative
      one is refused with 400 before the gateway is called. */
  lemma PaidAmountRule(p: Principal, u: Subscription, config: Option<EarlyBirdConfig>, amount: Option<int>,
                       now: Millis, create: OrderOptions -> GatewayReply)
    ensures var o := SelectPlan(Some(p), Some(u), config, PlanRequest(PaidPlan, amount), now, create);
      && (amount.Some? && amount.value < 0 <==> o == PlanOutcome(Some(u), config, Err(InvalidAmount)))
      && (amount.None? ==> o.reply == PaymentReply(create(PlanOptions(DefaultPaidAmount, "paid_", p, PaidPlan, now))))
  {
  }

  /** The claim counter moves only on a successful free claim, and then by
      one; so when it was within `maxUsers` it stays within it. */
  lemma ClaimCounter(principal: Option<Principal>, user: Option<Subscription>, config: Option<EarlyBirdConfig>,
                     req: PlanRequest, now: Millis, create: OrderOptions -> GatewayReply)
    ensures var o := SelectPlan(principal, user, config, req, now, create);
      var before := if config.Some? then config.value.usersClaimed else 0;
      && (o.config.Some? ==> o.config.value.usersClaimed == before || o.config.value.usersClaimed == before + 1)
      && (o.config.Some? && o.config.value.usersClaimed == before + 1 <==> o.reply.Ok? && o.reply.value.EarlyBirdActivated?)
      && (o.config.Some? && o.config != config ==> o.config.value == ConfigOrDefault(config).(usersClaimed := o.config.value.usersClaimed))
      && ((config.Some? ==> config.value.usersClaimed <= config.value.maxUsers) ==>
          (o.config.Some? ==> o.config.value.usersClaimed <= o.config.value.maxUsers))
      && (config.Some? && Valid(config.value) ==> o.config.Some? && Valid(o.config.value))
  {
  }

  /** Once a user's Early Bird claim has gone through, asking again is
      refused (403 if the offer has closed meanwhile, 400 otherwise) and
      changes nothing. */
  lemma ClaimOnce(p: Principal, u: Subscription, config: Option<EarlyBirdConfig>, amount: Option<int>,
                  now: Millis, later: Millis, create: OrderOptions -> GatewayReply)
    requires SelectPlan(Some(p), Some(u), config, PlanRequest(EarlyBirdPlan, amount), now, create).reply.Ok?
    requires ConfigOrDefault(config).offerType == Free
    ensures var first := SelectPlan(Some(p), Some(u), config, PlanRequest(EarlyBirdPlan, amount), now, create);
      var second := SelectPlan(Some(p), first.user, first.config, PlanRequest(EarlyBirdPlan, amount), later, create);
      && second.reply in {Err(OfferUnavailable), Err(AlreadyClaimed)}
      && second.user == first.user && second.config == first.config
  {
  }

  /** With one slot left, of two different users asking in turn the first
      gets the plan and the second is refused with 403. */
  lemma LastSlotScenario(a: Principal, b: Principal, ua: Subscription, ub: Subscription, now: Millis,
                         create: OrderOptions -> GatewayReply)
    requires !ua.quotaUsed && !ub.quotaUsed
    ensures var c := EarlyBirdConfig(1, 0, true, Free, 0, 30);
      var first := SelectPlan(Some(a), Some(ua), Some(c), PlanRequest(EarlyBirdPlan, None), now, create);
      var second := SelectPlan(Some(b), Some(ub), first.config, PlanRequest(EarlyBirdPlan, None), now, create);
      && first.reply == Ok(EarlyBirdActivated(30))
      && second.reply == Err(OfferUnavailable) && StatusCode(second.reply.error) == 403
      && second.config == Some(c.(usersClaimed := 1))
  {
  }

  /** Downgrading clears the claim flag, so a user who claimed the free
      Early Bird, switched to Free and asks again gets it a second time
      while slots remain. */
  lemma ReclaimAfterDowngrade(p: Principal, u: Subscription, c: EarlyBirdConfig, now: Millis,
                              create: OrderOptions -> GatewayReply)
    requires c.offerType == Free && c.isActive && c.usersClaimed + 2 <= c.maxUsers && !u.quotaUsed
    ensures var eb := PlanRequest(EarlyBirdPlan, None);
      var first := SelectPlan(Some(p), Some(u), Some(c), eb, now, create);
      var free := SelectPlan(Some(p), first.user, first.config, PlanRequest(FreePlan, None), now, create);
      var again := SelectPlan(Some(p), free.user, free.config, eb, now, create);
      && first.reply.Ok? && again.reply.Ok?
      && again.config == Some(c.(usersClaimed := c.usersClaimed + 2))
  {
  }

  // ---------------------------------------------------------------------
  // The Razorpay webhook.
  // ---------------------------------------------------------------------

  /** How the slot-counter update's filter fares against the stored
      configuration: it matches it, matches nothing, or the update throws
      (the filter compares the counter with a string). */
  datatype CounterFilter = Matches | Misses | Throws

  /** The parts of the webhook body the handler reads. `notes` is `None`
      when the payload, the payment or its notes are missing; a missing
      `planType` is the empty string. */
  datatype PaymentNotes = PaymentNotes(userId: Option<UserId>, planType: string)
  datatype WebhookBody = WebhookBody(event: string, notes: Option<PaymentNotes>)

  /** A user's subscription and the configuration after an event. */
  datatype Billed = Billed(user: Subscription, config: Option<EarlyBirdConfig>)

  /** The plan length a webhook grants unless the Early Bird says otherwise. */
  const WebhookPlanDays: int := 30

  /** `findOneAndUpdate({ isActive: true, usersClaimed: … }, { $inc: { usersClaimed: 1 } })`:
      one more slot taken, only on an active configuration the filter matches. */
  function TakeSlot(config: Option<EarlyBirdConfig>, filter: CounterFilter): (r: Option<EarlyBirdConfig>)
    ensures r.Some? <==> config.Some?
    ensures r != config <==> config.Some? && config.value.isActive && filter.Matches?
    ensures r != config ==> r.value == config.value.(usersClaimed := config.value.usersClaimed + 1)
  {
    if config.Some? && config.value.isActive && filter.Matches? then
      Some(config.value.(usersClaimed := config.value.usersClaimed + 1))
    else config
  }

  /** The Early Bird length a discounted configuration sets, if any. */
  function DiscountedDays(config: Option<EarlyBirdConfig>): Option<int>
  {
    if config.Some? && config.value.offerType == Discounted && config.value.durationDays != 0
    then Some(config.value.durationDays) else None
  }

  /** The Early Bird length a payment event grants under a configuration:
      the discounted offer's own length, otherwise 30 days. */
  function ExpiryDays(config: Option<EarlyBirdConfig>): int
  {
    var days := DiscountedDays(config);
    if days.Some? then days.value else WebhookPlanDays
  }

  /** The payment-event handling as the source writes it: status and a
      30-day expiry first; then, only for an Early Bird user who has not
      claimed yet, the claim flag, one slot, and the discounted offer's own
      length. When the slot update throws, nothing is saved. */
  function CaptureAsWritten(u: Subscription, config: Option<EarlyBirdConfig>, planType: string,
                            filter: CounterFilter, now: Millis): (b: Billed)
    // any other plan, and every later event of an Early Bird user, runs 30 days
    ensures planType != EarlyBirdPlan || u.quotaUsed ==>
      b == Billed(Subscription(planType, Some(now + WebhookPlanDays * MsPerDay), u.quotaUsed), config)
    // a thrown slot update saves nothing
    ensures planType == EarlyBirdPlan && !u.quotaUsed && filter.Throws? ==> b == Billed(u, config)
    // the claiming event takes the slot and gets the discounted length when there is one
    ensures planType == EarlyBirdPlan && !u.quotaUsed && !filter.Throws? ==>
      && b.config == TakeSlot(config, filter)
      && b.user.status == EarlyBirdPlan && b.user.quotaUsed
      && b.user.expiresAt == Some(now + ExpiryDays(b.config) * MsPerDay)
  {
    if planType == EarlyBirdPlan && !u.quotaUsed then
      if filter.Throws? then Billed(u, config)
      else
        var c := TakeSlot(config, filter);
        Billed(Subscription(planType, Some(now + ExpiryDays(c) * MsPerDay), true), c)
    else Billed(Subscription(planType, Some(now + WebhookPlanDays * MsPerDay), u.quotaUsed), config)
  }

  /** The same handling with the discounted offer's length applied to
      every Early Bird payment event, not only to the one that takes the
      slot. */
  function Capture(u: Subscription, config: Option<EarlyBirdConfig>, planType: string,
                   filter: CounterFilter, now: Millis): (b: Billed)
    // every Early Bird event that saves gets the discounted length when there is one
    ensures planType == EarlyBirdPlan && !(!u.quotaUsed && filter.Throws?) ==>
      && b.user.status == EarlyBirdPlan && b.user.quotaUsed
      && b.user.expiresAt == Some(now + ExpiryDays(b.config) * MsPerDay)
    ensures (b.user == u && b.config == config) || b.user.status == planType
    ensures b.config != config ==> planType == EarlyBirdPlan && !u.quotaUsed && b.user.quotaUsed
    ensures planType == EarlyBirdPlan && b.user != u ==> b.user.quotaUsed
    ensures planType != EarlyBirdPlan ==>
      b == Billed(Subscription(planType, Some(now + WebhookPlanDays * MsPerDay), u.quotaUsed), config)
  {
    if planType == EarlyBirdPlan then
      if !u.quotaUsed && filter.Throws? then Billed(u, config)
      else
        var c := if u.quotaUsed then config else TakeSlot(config, filter);
        Billed(Subscription(planType, Some(now + ExpiryDays(c) * MsPerDay), true), c)
    else Billed(Subscription(planType, Some(now + WebhookPlanDays * MsPerDay), u.quotaUsed), config)
  }

  /** Razorpay reports one payment as both `payment.authorized` and
      `payment.captured`. As written, the second event of a discounted
      Early Bird payment finds the claim flag set, keeps the 30-day expiry
      and so undoes the offer's own length. */
  lemma ReplayShortensEarlyBird()
    ensures var u := Subscription(FreePlan, None, false);
      var c := EarlyBirdConfig(100, 0, true, Discounted, 499, 90);
      var first := CaptureAsWritten(u, Some(c), EarlyBirdPlan, Matches, 0);
      var second := CaptureAsWritten(first.user, first.config, EarlyBirdPlan, Matches, 0);
      && first.user.expiresAt == Some(90 * MsPerDay)
      && second.user.expiresAt == Some(30 * MsPerDay)
      && second.user != first.user
  {
  }

  /** Applying the same payment event again, at the same moment, changes
      nothing more: no second slot and the same expiry. */
  lemma CaptureIdempotent(u: Subscription, config: Option<EarlyBirdConfig>, planType: string,
                          filter: CounterFilter, again: CounterFilter, now: Millis)
    requires !filter.Throws?
    ensures var first := Capture(u, config, planType, filter, now);
      Capture(first.user, first.config, planType, again, now) == first
  {
  }

  /** Where the two versions agree: on the event that takes the slot, and
      on every other plan. */
  lemma CaptureAgreesOnFirstClaim(u: Subscription, config: Option<EarlyBirdConfig>, planType: string,
                                  filter: CounterFilter, now: Millis)
    requires planType != EarlyBirdPlan || !u.quotaUsed
    ensures Capture(u, config, planType, filter, now) == CaptureAsWritten(u, config, planType, filter, now)
  {
  }

  /** Where they part: a later Early Bird event under a discounted offer
      whose length is not 30 days. The code as written resets the expiry to
      30 days from that event; the corrected handling keeps the offer's
      length. */
  lemma CaptureDiffersOnReplay(u: Subscription, config: Option<EarlyBirdConfig>,
                               filter: CounterFilter, now: Millis)
    requires u.quotaUsed && DiscountedDays(config).Some? && DiscountedDays(config).value != WebhookPlanDays
    ensures CaptureAsWritten(u, config, EarlyBirdPlan, filter, now).user.expiresAt == Some(now + WebhookPlanDays * MsPerDay)
    ensures Capture(u, config, EarlyBirdPlan, filter, now).user.expiresAt == Some(now + DiscountedDays(config).value * MsPerDay)
    ensures Capture(u, config, EarlyBirdPlan, filter, now) != CaptureAsWritten(u, config, EarlyBirdPlan, filter, now)
  {
  }

  /** A user takes at most one slot however many events arrive, and only an
      active configuration is counted; when the filter matches only with a
      free slot, `usersClaimed` stays within `maxUsers`. */
  lemma CaptureSlots(u: Subscription, config: Option<EarlyBirdConfig>, planType: string,
                     filter: CounterFilter, now: Millis)
    ensures var b := Capture(u, config, planType, filter, now);
      && (b.config != config ==>
            config.Some? && config.value.isActive
            && b.config == Some(config.value.(usersClaimed := config.value.usersClaimed + 1)))
      && (u.quotaUsed ==> b.config == config)
      && (config.Some? && config.value.usersClaimed <= config.value.maxUsers
          && (filter.Matches? ==> config.value.usersClaimed < config.value.maxUsers) ==>
          b.config.value.usersClaimed <= b.config.value.maxUsers)
  {
  }

  /** The signature check: a signature header and a secret are present
      and the HMAC-SHA256 hex digest of the body under the secret equals the
      header. */
  predicate SignatureValid(signature: string, secret: string, bodyText: string, hmac: (string, string) -> string)
  {
    signature != [] && secret != [] && hmac(secret, bodyText) == signature
  }

  predicate IsPaymentEvent(event: string)
  {
    event == "payment.authorized" || event == "payment.captured"
  }

  /** The HTTP status, the subscription of the user the notes name (when
      found) afterwards, and the configuration afterwards. */
  datatype WebhookOutcome = WebhookOutcome(status: int, user: Option<Subscription>, config: Option<EarlyBirdConfig>)

  /** A payment event whose notes name a user id and a plan, for a user
      that was found. */
  predicate Applies(body: WebhookBody, user: Option<Subscription>)
  {
    && IsPaymentEvent(body.event)
    && body.notes.Some? && body.notes.value.userId.Some? && body.notes.value.planType != []
    && user.Some?
  }

  /** `handleRazorpayWebhook` on values: `user` is the subscription of the
      active user the notes name, if any. */
  function Webhook(signature: string, secret: string, bodyText: string, body: WebhookBody,
                   hmac: (string, string) -> string, user: Option<Subscription>,
                   config: Option<EarlyBirdConfig>, filter: CounterFilter, now: Millis): (o: WebhookOutcome)
    ensures o.status == 400 <==> !SignatureValid(signature, secret, bodyText, hmac)
    ensures o.status != 400 ==> o.status == 200
    ensures o.user.Some? <==> user.Some?
    ensures o.status == 400 || !IsPaymentEvent(body.event) ==> o.user == user && o.config == config
    ensures o.user != user ==> body.notes.Some? && body.notes.value.userId.Some? && body.notes.value.planType != []
    // a signed payment event without notes, a user id, a plan or a found user changes nothing
    ensures !Applies(body, user) ==> o.user == user && o.config == config
    // the configuration moves only by one slot, on a first Early Bird claim of a found user
    ensures o.config != config ==>
      && o.status == 200 && IsPaymentEvent(body.event)
      && body.notes.Some? && body.notes.value.userId.Some? && user.Some?
      && body.notes.value.planType == EarlyBirdPlan && !user.value.quotaUsed
      && o.config == TakeSlot(config, filter)
  {
    if !SignatureValid(signature, secret, bodyText, hmac) then WebhookOutcome(400, user, config)
    else if Applies(body, user) then
      var b := Capture(user.value, config, body.notes.value.planType, filter, now);
      WebhookOutcome(200, Some(b.user), b.config)
    else WebhookOutcome(200, user, config)
  }

  /** Only a correctly signed payment event for a known user changes
      anything; the status then names the plan from the notes. */
  lemma WebhookEffects(signature: string, secret: string, bodyText: string, body: WebhookBody,
                       hmac: (string, string) -> string, u: Subscription,
                       config: Option<EarlyBirdConfig>, filter: CounterFilter, now: Millis)
    requires SignatureValid(signature, secret, bodyText, hmac) && IsPaymentEvent(body.event)
    requires body.notes.Some? && body.notes.value.userId.Some? && body.notes.value.planType != []
    requires !(body.notes.value.planType == EarlyBirdPlan && !u.quotaUsed && filter.Throws?)
    ensures var o := Webhook(signature, secret, bodyText, body, hmac, Some(u), config, filter, now);
      && o.status == 200
      && o.user.value.status == body.notes.value.planType
      && o.user.value == Capture(u, config, body.notes.value.planType, filter, now).user
      && o.config == Capture(u, config, body.notes.value.planType, filter, now).config
      && (body.notes.value.planType == EarlyBirdPlan ==>
            o.user.value.quotaUsed && o.user.value.expiresAt == Some(now + ExpiryDays(o.config) * MsPerDay))
      && (body.notes.value.planType != EarlyBirdPlan ==>
          o.user == Some(Subscription(body.notes.value.planType, Some(now + 30 * MsPerDay), u.quotaUsed)))
  {
  }

  // ---------------------------------------------------------------------
  // The stored users and the configuration.
  // ---------------------------------------------------------------------

  class Billing {
    var users: map<UserId, UserDocument>
    var config: Option<EarlyBirdConfig>

    constructor (users: map<UserId, UserDocument>, config: Option<EarlyBirdConfig>)
      requires forall k :: k in users ==> users[k].id == k
      ensures this.users == users && this.config == config
      ensures Valid()
    {
      this.users := users;
      this.config := config;
    }

    /** Every user is stored under its own id. */
    predicate Valid()
      reads this
    {
      forall k :: k in users ==> users[k].id == k
    }

    /** `User.findById(id)`'s subscription, for an active user. */
    function Account(id: UserId): Option<Subscription>
      reads this, users.Values
    {
      if id in users && users[id].active then Some(users[id].Sub()) else None
    }

    /** The signed-in user's subscription, when that user is found. */
    function Signed(principal: Option<Principal>): (r: Option<Subscription>)
      reads this, users.Values
      ensures r.Some? ==> principal.Some? && principal.value.id in users
    {
      if principal.Some? then Account(principal.value.id) else None
    }

    /** The subscription of the active user a webhook's notes name. */
    function Named(body: WebhookBody): (r: Option<Subscription>)
      reads this, users.Values
      ensures r.Some? ==> body.notes.Some? && body.notes.value.userId.Some? && body.notes.value.userId.value in users
    {
      if body.notes.Some? && body.notes.value.userId.Some? then Account(body.notes.value.userId.value) else None
    }

    /** The document `User.findById(id)` returns, as a frame. */
    function Holder(id: UserId): set<UserDocument>
      reads this, users.Values
    {
      if id in users && users[id].active then {users[id]} else {}
    }

    /** `getEarlyBirdStatus`: creates the default configuration on first
        use and reports on it. */
    method GetEarlyBirdStatus() returns (s: EarlyBirdStatus)
      modifies this`config
      ensures config == Some(ConfigOrDefault(old(config)))
      ensures s == StatusOf(config.value)
    {
      if config.None? {
        config := Some(DefaultConfig());
      }
      s := StatusOf(config.value);
    }

    /** `processPlanSelection`: the user document and the configuration
        change as `SelectPlan` says; no other user and no other field. */
    method ProcessPlanSelection(principal: Option<Principal>, req: PlanRequest, now: Millis,
                                create: OrderOptions -> GatewayReply)
      returns (r: Result<PlanReply, BillingError>)
      requires Valid()
      modifies this`config, if principal.Some? then Holder(principal.value.id) else {}
      ensures var o := SelectPlan(principal, old(Signed(principal)), old(config), req, now, create);
        && r == o.reply && config == o.config
        && (o.user.Some? ==> users[principal.value.id].Sub() == o.user.value)
      ensures forall k :: k in users && (principal.None? || k != principal.value.id) ==> users[k].Sub() == old(users[k].Sub())
      ensures forall k :: k in users ==> users[k].Details() == old(users[k].Details())
    {
      if principal.None? {
        return Err(Unauthorized);
      }
      var p := principal.value;
      if !IsSubscriptionStatus(req.planType) {
        return Err(InvalidPlan);
      }
      var found := FindActive(users, p.id);
      if found.None? {
        return Err(UserNotFound);
      }
      var user := found.value;
      if req.planType == FreePlan {
        SwitchToFree(user);
        return Ok(SwitchedToFree);
      }
      if req.planType == EarlyBirdPlan {
        r := SelectEarlyBird(p, user, now, create);
        return;
      }
      var amount := PaidAmount(req.amount);
      if amount <= 0 {
        return Err(InvalidAmount);
      }
      var reply := create(PlanOptions(amount, "paid_", p, PaidPlan, now));
      r := PaymentReply(reply);
    }

    /** The Free branch of `processPlanSelection`: no expiry, and the
        claim flag is reset. */
    method SwitchToFree(user: UserDocument)
      modifies user`subscriptionStatus, user`subscriptionExpiresAt, user`earlyBirdQuotaUsed
      ensures user.Sub() == Subscription(FreePlan, None, false)
    {
      user.subscriptionStatus := FreePlan;
      user.subscriptionExpiresAt := None;
      user.earlyBirdQuotaUsed := false;
    }

    /** The Early Bird branch of `processPlanSelection` for the found
        `user`: only its subscription fields and the configuration change. */
    method SelectEarlyBird(p: Principal, user: UserDocument, now: Millis, create: OrderOptions -> GatewayReply)
      returns (r: Result<PlanReply, BillingError>)
      modifies this`config, user`subscriptionStatus, user`subscriptionExpiresAt, user`earlyBirdQuotaUsed
      ensures var o := EarlyBirdChoice(p, old(user.Sub()), old(config), now, create);
        r == o.reply && config == o.config && user.Sub() == o.user.value
    {
      if config.None? {
        config := Some(DefaultConfig());
      }
      var c := config.value;
      if !c.isActive || c.usersClaimed >= c.maxUsers {
        return Err(OfferUnavailable);
      }
      if user.earlyBirdQuotaUsed {
        return Err(AlreadyClaimed);
      }
      if c.offerType == Free {
        user.subscriptionStatus := EarlyBirdPlan;
        user.subscriptionExpiresAt := Some(now + c.durationDays * MsPerDay);
        user.earlyBirdQuotaUsed := true;
        config := Some(c.(usersClaimed := c.usersClaimed + 1));
        return Ok(EarlyBirdActivated(c.durationDays));
      }
      var reply := create(PlanOptions(c.discountedAmount, "eb_", p, EarlyBirdPlan, now));
      r := PaymentReply(reply);
    }

    /** `handleRazorpayWebhook`, with the Early Bird length applied as
        `Capture` does. A rejected signature changes nothing. */
    method HandleRazorpayWebhook(signature: string, secret: string, bodyText: string, body: WebhookBody,
                                 hmac: (string, string) -> string, filter: CounterFilter, now: Millis)
      returns (status: int)
      requires Valid()
      modifies this`config, if body.notes.Some? && body.notes.value.userId.Some? then Holder(body.notes.value.userId.value) else {}
      ensures var o := Webhook(signature, secret, bodyText, body, hmac, old(Named(body)), old(config), filter, now);
        && status == o.status && config == o.config
        && (o.user.Some? ==> users[body.notes.value.userId.value].Sub() == o.user.value)
      ensures forall k :: k in users && (body.notes.None? || body.notes.value.userId != Some(k)) ==>
        users[k].Sub() == old(users[k].Sub())
      ensures forall k :: k in users ==> users[k].Details() == old(users[k].Details())
    {
      if signature == [] || secret == [] {
        return 400;
      }
      var digest := hmac(secret, bodyText);
      if digest != signature {
        return 400;
      }
      if !IsPaymentEvent(body.event) || body.notes.None? {
        return 200;
      }
      var notes := body.notes.value;
      if notes.userId.None? || notes.planType == [] {
        return 200;
      }
      var found := FindActive(users, notes.userId.value);
      if found.None? {
        return 200;
      }
      ApplyPaymentEvent(found.value, notes.planType, filter, now);
      status := 200;
    }

    /** A payment event for the found `user`, as `Capture` says: only its
        subscription fields and the configuration change. */
    method ApplyPaymentEvent(user: UserDocument, planType: string, filter: CounterFilter, now: Millis)
      modifies this`config, user`subscriptionStatus, user`subscriptionExpiresAt, user`earlyBirdQuotaUsed
      ensures var b := Capture(old(user.Sub()), old(config), planType, filter, now);
        user.Sub() == b.user && config == b.config
    {
      if planType == EarlyBirdPlan && !user.earlyBirdQuotaUsed && filter.Throws? {
        return;
      }
      var claiming := planType == EarlyBirdPlan && !user.earlyBirdQuotaUsed;
      user.subscriptionStatus := planType;
      user.subscriptionExpiresAt := Some(now + WebhookPlanDays * MsPerDay);
      if planType == EarlyBirdPlan {
        if claiming {
          user.earlyBirdQuotaUsed := true;
          config := TakeSlot(config, filter);
        }
        var days := DiscountedDays(config);
        if days.Some? {
          user.subscriptionExpiresAt := Some(now + days.value * MsPerDay);
        }
      }
    }
  }
}
