/** The payment routes: user registration with an optional promo code, the
    checkout session, promo-code validation, the payment-processor webhook
    and the admin route that creates promo codes. The read-only decisions are
    functions over the tables; the routes that write are methods of `Store`. */
module Payment {
  import opened Wrappers
  import opened PyStr
  import opened Models

  const SECONDS_PER_DAY := 86400
  const TRIAL_DAYS := 14

  /** An `HTTPException`, or the 500 response of the catch-all handler. */
  datatype HttpError = HttpError(status: int, detail: string)

  const EMAIL_TAKEN := HttpError(400, "Email already registered")
  const INVALID_PROMO := HttpError(400, "Invalid promo code")
  const PROMO_EXPIRED := HttpError(400, "Promo code has expired")
  const PROMO_EXHAUSTED := HttpError(400, "Promo code usage limit reached")
  const USER_NOT_FOUND := HttpError(404, "User not found")
  const ALREADY_SUBSCRIBED := HttpError(400, "User already has active subscription")
  const PROMO_NOT_FOUND := HttpError(404, "Promo code not found")
  const PROMO_EXISTS := HttpError(400, "Promo code already exists")
  const INTERNAL_ERROR := HttpError(500, "Internal server error")

  // ---------------------------------------------------------------------------
  // Lookups
  // ---------------------------------------------------------------------------

  predicate EmailRegistered(users: seq<User>, email: string)
  {
    exists k :: 0 <= k < |users| && users[k].email == email
  }

  function UserIndexByEmail(users: seq<User>, email: string): Option<nat>
  {
    FirstIndex(users, (u: User) => u.email == email)
  }

  function UserIndexById(users: seq<User>, id: Id): Option<nat>
  {
    FirstIndex(users, (u: User) => u.id == id)
  }

  function SubscriptionIndexOfUser(subs: seq<Subscription>, userId: Id): Option<nat>
  {
    FirstIndex(subs, (s: Subscription) => s.userId == userId)
  }

  function SubscriptionIndexByStripeId(subs: seq<Subscription>, stripeId: string): Option<nat>
  {
    FirstIndex(subs, (s: Subscription) => s.stripeSubscriptionId == Some(stripeId))
  }

  /** Python truthiness of an optional string: present and non-empty. */
  predicate Supplied(code: Option<string>)
  {
    code.Some? && code.value != ""
  }

  /** Whether the user with this email has a subscription whose status is
      exactly "active". */
  predicate ActiveSubscriber(users: seq<User>, subs: seq<Subscription>, email: string)
  {
    exists u, k :: 0 <= u < |users| && 0 <= k < |subs| && users[u].email == email
                   && subs[k].userId == users[u].id && subs[k].status == ACTIVE
  }

  /** With emails unique, the email lookup finds the one user with that
      email, or reports that there is none. */
  lemma UserByEmailIsUnique(users: seq<User>, email: string)
    requires UsersConstraints(users)
    ensures UserIndexByEmail(users, email).Some? <==> EmailRegistered(users, email)
    ensures forall u :: 0 <= u < |users| && users[u].email == email ==> UserIndexByEmail(users, email) == Some(u)
  {
    var i := UserIndexByEmail(users, email);
    forall u | 0 <= u < |users| && users[u].email == email ensures i == Some(u) {
      assert i.Some?;
      if i.value < u {
        assert users[i.value].email == users[u].email;
      }
    }
  }

  /** With one subscription per user, the subscription lookup finds the
      user's only subscription. */
  lemma SubscriptionOfUserIsUnique(subs: seq<Subscription>, userId: Id)
    requires SubscriptionConstraints(subs)
    ensures forall k :: 0 <= k < |subs| && subs[k].userId == userId ==> SubscriptionIndexOfUser(subs, userId) == Some(k)
  {
    var i := SubscriptionIndexOfUser(subs, userId);
    forall k | 0 <= k < |subs| && subs[k].userId == userId ensures i == Some(k) {
      assert i.Some?;
      if i.value < k {
        assert subs[i.value].userId == subs[k].userId;
      }
    }
  }

  // ---------------------------------------------------------------------------
  // Promo-code validity
  // ---------------------------------------------------------------------------

  /** The filter `code == input.upper() AND is_active`. */
  predicate MatchesCode(p: PromoCode, input: string)
  {
    p.code == Upper(input) && p.isActive
  }

  function ActivePromoIndex(promos: seq<PromoCode>, input: string): Option<nat>
  {
    FirstIndex(promos, (p: PromoCode) => MatchesCode(p, input))
  }

  /** With codes unique, the lookup finds the one active promo with the
      upper-cased code. */
  lemma ActivePromoIsUnique(promos: seq<PromoCode>, input: string)
    requires PromoConstraints(promos)
    ensures forall k :: 0 <= k < |promos| && MatchesCode(promos[k], input) ==> ActivePromoIndex(promos, input) == Some(k)
  {
    var i := ActivePromoIndex(promos, input);
    forall k | 0 <= k < |promos| && MatchesCode(promos[k], input) ensures i == Some(k) {
      if i.value < k {
        assert promos[i.value].code == promos[k].code;
      }
    }
  }

  /** `valid_until and valid_until < now`: no expiry date never expires. */
  function IsExpired(p: PromoCode, now: int): (expired: bool)
    ensures p.validUntil.None? ==> !expired
    ensures p.validUntil.Some? && now <= p.validUntil.value ==> !expired
    ensures expired ==> p.validUntil.Some? && p.validUntil.value < now
    ensures p.validUntil.Some? && p.validUntil.value < now ==> expired
  {
    p.validUntil.Some? && p.validUntil.value < now
  }

  /** `max_uses and times_used >= max_uses`: a limit of None or 0 is no limit. */
  function LimitReached(p: PromoCode): (reached: bool)
    ensures p.maxUses.None? || p.maxUses == Some(0) ==> !reached
    ensures p.maxUses.Some? && p.timesUsed < p.maxUses.value ==> !reached
    ensures reached ==> p.maxUses.Some? && p.timesUsed >= p.maxUses.value
    ensures p.maxUses.Some? && p.maxUses.value != 0 && p.timesUsed >= p.maxUses.value ==> reached
  {
    p.maxUses.Some? && p.maxUses.value != 0 && p.timesUsed >= p.maxUses.value
  }

  /** An expired promo stays expired as the clock moves on. */
  lemma ExpiryIsFinal(p: PromoCode, now: int, later: int)
    requires IsExpired(p, now) && now <= later
    ensures IsExpired(p, later)
  {
  }

  /** Counting a use never takes a promo back under its limit. */
  lemma UseKeepsLimitReached(p: PromoCode)
    requires LimitReached(p)
    ensures LimitReached(p.(timesUsed := p.timesUsed + 1))
  {
  }

  datatype PromoRejection = NotFound | Expired | Exhausted

  /** The checks shared by validation and registration, in their order:
      no active promo with that code, then expiry, then the usage limit. */
  function CheckPromo(promos: seq<PromoCode>, input: string, now: int): (r: Result<PromoCode, PromoRejection>)
    ensures r == Err(NotFound) <==> forall k :: 0 <= k < |promos| ==> !MatchesCode(promos[k], input)
    ensures r.Ok? ==> r.value in promos && MatchesCode(r.value, input) && !IsExpired(r.value, now) && !LimitReached(r.value)
    ensures r == Err(Expired) ==> exists k :: 0 <= k < |promos| && MatchesCode(promos[k], input) && IsExpired(promos[k], now)
    ensures r == Err(Exhausted) ==>
              exists k :: 0 <= k < |promos| && MatchesCode(promos[k], input) && !IsExpired(promos[k], now) && LimitReached(promos[k])
  {
    match ActivePromoIndex(promos, input)
    case None => Err(NotFound)
    case Some(i) =>
      var p := promos[i];
      if IsExpired(p, now) then Err(Expired)
      else if LimitReached(p) then Err(Exhausted)
      else Ok(p)
  }

  /** With codes unique, the verdict is decided by the one promo whose code
      matches, and an expired promo is reported as expired whatever its usage. */
  lemma CheckPromoOfMatch(promos: seq<PromoCode>, input: string, now: int, k: nat)
    requires PromoConstraints(promos)
    requires k < |promos| && MatchesCode(promos[k], input)
    ensures CheckPromo(promos, input, now) ==
              if IsExpired(promos[k], now) then Err(Expired)
              else if LimitReached(promos[k]) then Err(Exhausted)
              else Ok(promos[k])
  {
    ActivePromoIsUnique(promos, input);
  }

  /** With codes unique, a code is accepted exactly when an active promo with
      that upper-cased code exists, has not expired and is under its limit. */
  lemma PromoAcceptedIff(promos: seq<PromoCode>, input: string, now: int)
    requires PromoConstraints(promos)
    ensures CheckPromo(promos, input, now).Ok? <==>
              exists k :: 0 <= k < |promos| && MatchesCode(promos[k], input) && !IsExpired(promos[k], now) && !LimitReached(promos[k])
  {
    if k :| 0 <= k < |promos| && MatchesCode(promos[k], input) {
      CheckPromoOfMatch(promos, input, now, k);
    }
  }

  /** What `validate_promo_code` returns for an accepted code. */
  datatype PromoOffer = PromoOffer(
    code: string,
    discountType: string,
    discountValue: real,
    description: Option<string>,
    firstMonthOnly: bool,
    durationMonths: Option<int>)

  /** `validate_promo_code`: 404 when no active promo has the code, 400 when it
      has expired or is used up, otherwise the promo's terms. */
  function ValidatePromoCode(promos: seq<PromoCode>, input: string, now: int): (r: Result<PromoOffer, HttpError>)
    ensures r.Ok? <==> CheckPromo(promos, input, now).Ok?
    ensures r == Err(PROMO_NOT_FOUND) <==> forall k :: 0 <= k < |promos| ==> !MatchesCode(promos[k], input)
    ensures r == Err(PROMO_EXPIRED) <==> CheckPromo(promos, input, now) == Err(Expired)
    ensures r == Err(PROMO_EXHAUSTED) <==> CheckPromo(promos, input, now) == Err(Exhausted)
    ensures r.Err? ==> r.error == PROMO_NOT_FOUND || r.error == PROMO_EXPIRED || r.error == PROMO_EXHAUSTED
    ensures r.Ok? ==>
              var p := CheckPromo(promos, input, now).value;
              r.value == PromoOffer(p.code, p.discountType, p.discountValue, p.description, p.firstMonthOnly, p.durationMonths)
    ensures r.Ok? ==> r.value.code == Upper(input)
    ensures r.Ok? ==> exists k :: 0 <= k < |promos| && MatchesCode(promos[k], input) && r.value.discountValue == promos[k].discountValue
  {
    match CheckPromo(promos, input, now)
    case Err(NotFound) => Err(PROMO_NOT_FOUND)
    case Err(Expired) => Err(PROMO_EXPIRED)
    case Err(Exhausted) => Err(PROMO_EXHAUSTED)
    case Ok(p) => Ok(PromoOffer(p.code, p.discountType, p.discountValue, p.description, p.firstMonthOnly, p.durationMonths))
  }

  /** `max_uses or "unlimited"`, as the create route reports it. */
  datatype UsesLabel = Unlimited | UpTo(n: int)

  function UsesLabelOf(maxUses: Option<int>): (shown: UsesLabel)
    ensures shown == Unlimited <==> maxUses.None? || maxUses.value == 0
    ensures shown.UpTo? ==> maxUses == Some(shown.n)
  {
    if maxUses.None? || maxUses.value == 0 then Unlimited else UpTo(maxUses.value)
  }

  /** A promo labelled unlimited can never reach its usage limit, and one
      with a label can, so the label and the validity check agree. */
  lemma UnlimitedNeverExhausted(p: PromoCode)
    ensures UsesLabelOf(p.maxUses) == Unlimited <==> forall t :: !LimitReached(p.(timesUsed := t))
  {
    if UsesLabelOf(p.maxUses) != Unlimited {
      assert LimitReached(p.(timesUsed := p.maxUses.value));
    }
  }

  /** A promo just created with an expiry date and a limit that is not used
      up by zero uses is accepted, up to its expiry, under any spelling of its
      code that upper-cases to the stored code. */
  lemma NewPromoAccepted(promos: seq<PromoCode>, p: PromoCode, input: string, now: int)
    requires forall k :: 0 <= k < |promos| ==> promos[k].code != p.code
    requires p == NewPromoCode(p.id, p.code, p.discountValue, p.maxUses, p.durationMonths,
                               p.validUntil, p.description, p.validFrom)
    requires p.code == Upper(input)
    requires p.validUntil.Some? ==> now <= p.validUntil.value
    requires p.maxUses.Some? ==> p.maxUses.value >= 0
    ensures CheckPromo(promos + [p], input, now) == Ok(p)
  {
    var all := promos + [p];
    assert MatchesCode(all[|promos|], input);
    var i := ActivePromoIndex(all, input);
    assert i == Some(|promos|);
  }

  // ---------------------------------------------------------------------------
  // Registration
  // ---------------------------------------------------------------------------

  /** The read-only part of `register_user`: the email must be new, and a
      promo code, when one is given, must pass the promo checks. The result is
      the discount to report: the promo's value, or 0.0 without a promo. */
  function RegisterCheck(users: seq<User>, promos: seq<PromoCode>, email: string,
                         promoCode: Option<string>, now: int): (r: Result<real, HttpError>)
    ensures r == Err(EMAIL_TAKEN) <==> EmailRegistered(users, email)
    ensures r.Ok? <==> !EmailRegistered(users, email) && (!Supplied(promoCode) || CheckPromo(promos, promoCode.value, now).Ok?)
    ensures r.Ok? && !Supplied(promoCode) ==> r.value == 0.0
    ensures r.Ok? && Supplied(promoCode) ==> r.value == CheckPromo(promos, promoCode.value, now).value.discountValue
    ensures r == Err(INVALID_PROMO) <==>
              !EmailRegistered(users, email) && Supplied(promoCode) && CheckPromo(promos, promoCode.value, now) == Err(NotFound)
    ensures r == Err(PROMO_EXPIRED) <==>
              !EmailRegistered(users, email) && Supplied(promoCode) && CheckPromo(promos, promoCode.value, now) == Err(Expired)
    ensures r == Err(PROMO_EXHAUSTED) <==>
              !EmailRegistered(users, email) && Supplied(promoCode) && CheckPromo(promos, promoCode.value, now) == Err(Exhausted)
    ensures r.Err? ==> r.error.status == 400
  {
    if UserIndexByEmail(users, email).Some? then Err(EMAIL_TAKEN)
    else if !Supplied(promoCode) then Ok(0.0)
    else
      match CheckPromo(promos, promoCode.value, now)
      case Err(NotFound) => Err(INVALID_PROMO)
      case Err(Expired) => Err(PROMO_EXPIRED)
      case Err(Exhausted) => Err(PROMO_EXHAUSTED)
      case Ok(p) => Ok(p.discountValue)
  }

  /** The registration body. `email` is the address after `EmailStr`
      validation and normalisation. */
  datatype RegisterRequest = RegisterRequest(
    email: string,
    password: string,
    fullName: string,
    companyName: Option<string>,
    shopifyStoreUrl: Option<string>,
    promoCode: Option<string>)

  /** The body of a successful registration (the access token aside). */
  datatype Registration = Registration(userId: Id, email: string, promoApplied: bool, discount: real)

  // ---------------------------------------------------------------------------
  // Checkout
  // ---------------------------------------------------------------------------

  /** The payment-processor customer to bill. */
  datatype CustomerChoice = CreateCustomer | ReuseCustomer(customerId: string)

  /** A new customer unless the user's subscription carries a non-empty
      customer id, which is then reused. */
  function CustomerFor(sub: Option<Subscription>): (c: CustomerChoice)
    ensures c.ReuseCustomer? <==> sub.Some? && sub.value.stripeCustomerId.Some? && sub.value.stripeCustomerId.value != ""
    ensures c.ReuseCustomer? ==> sub.value.stripeCustomerId == Some(c.customerId)
  {
    if sub.None? || sub.value.stripeCustomerId.None? || sub.value.stripeCustomerId.value == "" then CreateCustomer
    else ReuseCustomer(sub.value.stripeCustomerId.value)
  }

  /** The coupon requested from the payment processor for a redeemed promo. */
  datatype CouponRequest = CouponRequest(percentOff: real, duration: string, durationInMonths: int)

  /** Only percent promos get a coupon. It repeats for `durationMonths` months
      when that is set and non-zero, and otherwise applies once (the month
      count then being 1). */
  function CouponFor(p: PromoCode): (c: Option<CouponRequest>)
    ensures c.Some? <==> p.discountType == PERCENT
    ensures c.Some? ==> c.value.percentOff == p.discountValue
    ensures c.Some? ==> (c.value.duration == "repeating" <==> p.durationMonths.Some? && p.durationMonths.value != 0)
    ensures c.Some? ==> c.value.duration == "repeating" || c.value.duration == "once"
    ensures c.Some? ==> c.value.durationInMonths != 0
    ensures c.Some? && c.value.duration == "repeating" ==> p.durationMonths == Some(c.value.durationInMonths)
    ensures c.Some? && c.value.duration == "once" ==> c.value.durationInMonths == 1
  {
    if p.discountType != PERCENT then None
    else if p.durationMonths.Some? && p.durationMonths.value != 0 then
      Some(CouponRequest(p.discountValue, "repeating", p.durationMonths.value))
    else
      Some(CouponRequest(p.discountValue, "once", 1))
  }

  /** The promo table after checkout with `promoCode`: the first active promo
      with that code has its use counted, with no check of expiry or limit. */
  function Redeemed(promos: seq<PromoCode>, promoCode: Option<string>): (after: seq<PromoCode>)
    ensures |after| == |promos|
    ensures forall k :: 0 <= k < |promos| ==>
              after[k] == promos[k]
              || (Supplied(promoCode) && MatchesCode(promos[k], promoCode.value)
                  && after[k] == promos[k].(timesUsed := promos[k].timesUsed + 1))
    ensures forall i, j :: 0 <= i < j < |promos| && after[i] != promos[i] ==> after[j] == promos[j]
    ensures (Supplied(promoCode) && exists k :: 0 <= k < |promos| && MatchesCode(promos[k], promoCode.value))
              ==> after != promos
  {
    if !Supplied(promoCode) then promos
    else
      match ActivePromoIndex(promos, promoCode.value)
      case None => promos
      case Some(i) => promos[i := promos[i].(timesUsed := promos[i].timesUsed + 1)]
  }

  /** With codes unique, checkout adds exactly one use to the promo whose code
      matches, even an expired or used-up one, and leaves every other promo,
      and every other column, as it was. */
  lemma RedeemedCountsOneUse(promos: seq<PromoCode>, promoCode: Option<string>)
    requires PromoConstraints(promos)
    ensures |Redeemed(promos, promoCode)| == |promos|
    ensures forall k :: 0 <= k < |promos| ==>
              Redeemed(promos, promoCode)[k] ==
                if Supplied(promoCode) && MatchesCode(promos[k], promoCode.value)
                then promos[k].(timesUsed := promos[k].timesUsed + 1)
                else promos[k]
  {
    if Supplied(promoCode) {
      ActivePromoIsUnique(promos, promoCode.value);
    }
  }

  /** The checkout session handed to the payment processor. */
  datatype CheckoutPlan = CheckoutPlan(
    userId: Id,
    customer: CustomerChoice,
    coupon: Option<CouponRequest>,
    trialPeriodDays: int,
    promoMetadata: string)

  /** The decisions of `create_checkout_session`: 404 for an unknown email,
      400 when the user's subscription is "active", and otherwise the session
      to open, for that user, with a 14-day trial, the coupon of the first
      active promo with the code (if any) and the code as metadata. */
  function Checkout(users: seq<User>, promos: seq<PromoCode>, subs: seq<Subscription>,
                    promoCode: Option<string>, email: string): (r: Result<CheckoutPlan, HttpError>)
    requires UsersConstraints(users) && PromoConstraints(promos) && SubscriptionConstraints(subs)
    ensures r == Err(USER_NOT_FOUND) <==> !EmailRegistered(users, email)
    ensures r == Err(ALREADY_SUBSCRIBED) <==> ActiveSubscriber(users, subs, email)
    ensures r.Err? ==> r == Err(USER_NOT_FOUND) || r == Err(ALREADY_SUBSCRIBED)
    ensures r.Ok? ==> exists u :: 0 <= u < |users| && users[u].email == email && users[u].id == r.value.userId
    ensures r.Ok? ==>
              (r.value.customer.ReuseCustomer? <==>
                 exists k :: 0 <= k < |subs| && subs[k].userId == r.value.userId
                             && subs[k].stripeCustomerId.Some? && subs[k].stripeCustomerId.value != "")
    ensures r.Ok? && r.value.customer.ReuseCustomer? ==>
              exists k :: 0 <= k < |subs| && subs[k].userId == r.value.userId
                          && subs[k].stripeCustomerId == Some(r.value.customer.customerId)
    ensures r.Ok? ==>
              (r.value.coupon.Some? <==>
                 Supplied(promoCode) && exists k :: 0 <= k < |promos| && MatchesCode(promos[k], promoCode.value)
                                                    && promos[k].discountType == PERCENT)
    ensures r.Ok? && r.value.coupon.Some? ==>
              exists k :: 0 <= k < |promos| && MatchesCode(promos[k], promoCode.value)
                          && r.value.coupon.value == CouponFor(promos[k]).value
    ensures r.Ok? ==> r.value.trialPeriodDays == TRIAL_DAYS
    ensures r.Ok? ==> r.value.promoMetadata == if promoCode.Some? then promoCode.value else ""
  {
    UserByEmailIsUnique(users, email);
    match UserIndexByEmail(users, email)
    case None => Err(USER_NOT_FOUND)
    case Some(u) =>
      var user := users[u];
      SubscriptionOfUserIsUnique(subs, user.id);
      var s := SubscriptionIndexOfUser(subs, user.id);
      if s.Some? && subs[s.value].status == ACTIVE then Err(ALREADY_SUBSCRIBED)
      else
        var p := if Supplied(promoCode) then ActivePromoIndex(promos, promoCode.value) else None;
        ActivePromoIsUnique(promos, if promoCode.Some? then promoCode.value else "");
        var coupon := if p.Some? then CouponFor(promos[p.value]) else None;
        var sub := if s.Some? then Some(subs[s.value]) else None;
        Ok(CheckoutPlan(user.id, CustomerFor(sub), coupon, TRIAL_DAYS,
                        if promoCode.Some? then promoCode.value else ""))
  }

  /** Only an "active" subscription blocks checkout: a registered user whose
      subscription is trialing, canceled or past due gets a session. */
  lemma InactiveSubscriberMayCheckOut(users: seq<User>, promos: seq<PromoCode>, subs: seq<Subscription>,
                                      promoCode: Option<string>, u: nat, k: nat)
    requires UsersConstraints(users) && PromoConstraints(promos) && SubscriptionConstraints(subs)
    requires u < |users| && k < |subs| && subs[k].userId == users[u].id
    requires subs[k].status in {TRIALING, CANCELED, PAST_DUE}
    ensures Checkout(users, promos, subs, promoCode, users[u].email).Ok?
  {
  }

  // ---------------------------------------------------------------------------
  // Webhook events
  // ---------------------------------------------------------------------------

  const CHECKOUT_COMPLETED := "checkout.session.completed"
  const SUBSCRIPTION_UPDATED := "customer.subscription.updated"
  const SUBSCRIPTION_DELETED := "customer.subscription.deleted"

  /** The fields of the event's data object that the handler reads. */
  datatype EventData = EventData(
    metadataUserId: Id,
    customer: Option<string>,
    subscription: Option<string>,
    id: string,
    status: string,
    currentPeriodStart: int,
    currentPeriodEnd: int)

  /** An event whose signature has already been verified. */
  datatype Event = Event(eventType: string, data: EventData)

  /** The subscription row after a completed checkout: the processor's ids,
      status "trialing" and a trial ending 14 days after `now`. */
  function StartTrial(s: Subscription, data: EventData, now: int): (r: Subscription)
    ensures r.status == TRIALING && r.trialEndsAt == Some(now + TRIAL_DAYS * SECONDS_PER_DAY)
    ensures r.stripeCustomerId == data.customer && r.stripeSubscriptionId == data.subscription
    ensures r.(stripeCustomerId := s.stripeCustomerId, stripeSubscriptionId := s.stripeSubscriptionId,
               status := s.status, trialEndsAt := s.trialEndsAt) == s
  {
    s.(stripeCustomerId := data.customer, stripeSubscriptionId := data.subscription,
       status := TRIALING, trialEndsAt := Some(now + TRIAL_DAYS * SECONDS_PER_DAY))
  }

  /** What `create_promo_code` reports. */
  datatype PromoCreated = PromoCreated(code: string, discountValue: real, maxUses: UsesLabel, validUntil: int)

  predicate CodeTaken(promos: seq<PromoCode>, code: string)
  {
    exists k :: 0 <= k < |promos| && promos[k].code == code
  }

  /** Every stored code is upper-case: the create route stores codes that way. */
  predicate CodesUpperCase(promos: seq<PromoCode>)
  {
    forall k :: 0 <= k < |promos| ==> Upper(promos[k].code) == promos[k].code
  }

  /** Since stored codes are upper-case, looking up the upper-cased input
      finds a code exactly when one is equal to it ignoring case. */
  lemma DuplicateCheckIgnoresCase(promos: seq<PromoCode>, input: string)
    requires CodesUpperCase(promos)
    ensures CodeTaken(promos, Upper(input)) <==> exists k :: 0 <= k < |promos| && Upper(promos[k].code) == Upper(input)
  {
    if k :| 0 <= k < |promos| && promos[k].code == Upper(input) {
      UpperIdempotent(input);
      assert Upper(promos[k].code) == Upper(input);
    }
  }

  // ---------------------------------------------------------------------------
  // The store
  // ---------------------------------------------------------------------------

  /** The database: one sequence of rows per table, in insertion order. */
  class Store {
    var users: seq<User>
    var promos: seq<PromoCode>
    var subs: seq<Subscription>

    ghost predicate Valid()
      reads this
    {
      Consistent(users, promos, subs) && CodesUpperCase(promos)
    }

    constructor ()
      ensures Valid() && users == [] && promos == [] && subs == []
    {
      users, promos, subs := [], [], [];
    }

    /** `register_user`. The new user's id and password hash come from the
        uuid generator and the password hasher. Nothing but `users` changes,
        and it gains one row exactly when the checks pass. */
    method RegisterUser(request: RegisterRequest, userId: Id, passwordHash: string, now: int)
      returns (r: Result<Registration, HttpError>)
      requires Valid()
      requires !HasUserId(users, userId)
      modifies this`users
      ensures Valid()
      ensures var check := RegisterCheck(old(users), promos, request.email, request.promoCode, now);
              match check
              case Err(e) => r == Err(e) && users == old(users)
              case Ok(discount) =>
                && r == Ok(Registration(userId, request.email, Supplied(request.promoCode), discount))
                && users == old(users) + [NewUser(userId, request.email, passwordHash, Some(request.fullName),
                                                  request.companyName, request.shopifyStoreUrl)]
    {
      var check := RegisterCheck(users, promos, request.email, request.promoCode, now);
      if check.Err? {
        return Err(check.error);
      }
      var user := NewUser(userId, request.email, passwordHash, Some(request.fullName),
                          request.companyName, request.shopifyStoreUrl);
      AddUserKeepsConsistent(users, promos, subs, user);
      users := users + [user];
      r := Ok(Registration(userId, request.email, Supplied(request.promoCode), check.value));
    }

    /** `create_checkout_session`, short of the calls to the payment
        processor: the session is planned as `Checkout` decides, and the use
        of the promo is counted only when the session is planned. */
    method CreateCheckoutSession(promoCode: Option<string>, currentUserEmail: string)
      returns (r: Result<CheckoutPlan, HttpError>)
      requires Valid()
      modifies this`promos
      ensures Valid()
      ensures r == Checkout(users, old(promos), subs, promoCode, currentUserEmail)
      ensures promos == if r.Ok? then Redeemed(old(promos), promoCode) else old(promos)
    {
      r := Checkout(users, promos, subs, promoCode, currentUserEmail);
      if r.Ok? && Supplied(promoCode) {
        var p := ActivePromoIndex(promos, promoCode.value);
        if p.Some? {
          var i := p.value;
          var counted := promos[i].(timesUsed := promos[i].timesUsed + 1);
          SetPromoKeepsConsistent(users, promos, subs, i, counted);
          promos := promos[i := counted];
        }
      }
    }

    /** `stripe_webhook`, after the signature check: dispatch on the event
        type. Unknown event types change nothing. */
    method HandleWebhook(event: Event, newSubscriptionId: Id, now: int) returns (r: Result<(), HttpError>)
      requires Valid()
      requires !HasSubscriptionId(subs, newSubscriptionId)
      modifies this`subs
      ensures Valid()
      ensures r.Err? ==> r == Err(INTERNAL_ERROR) && subs == old(subs)
      ensures event.eventType == CHECKOUT_COMPLETED ==> CheckoutCompletedEffect(old(subs), event.data, newSubscriptionId, now, r)
      ensures event.eventType == SUBSCRIPTION_UPDATED ==> r.Ok? && UpdatedEffect(old(subs), event.data)
      ensures event.eventType == SUBSCRIPTION_DELETED ==> r.Ok? && DeletedEffect(old(subs), event.data, now)
      ensures event.eventType !in {CHECKOUT_COMPLETED, SUBSCRIPTION_UPDATED, SUBSCRIPTION_DELETED} ==>
                r.Ok? && subs == old(subs)
    {
      r := Ok(());
      if event.eventType == CHECKOUT_COMPLETED {
        r := CompleteCheckout(event.data, newSubscriptionId, now);
      } else if event.eventType == SUBSCRIPTION_UPDATED {
        UpdateSubscription(event.data);
      } else if event.eventType == SUBSCRIPTION_DELETED {
        CancelSubscription(event.data, now);
      }
    }

    /** The table after a "checkout.session.completed" event, as the handler
        leaves it: nothing changes for an unknown user; otherwise the user's
        subscription (a new row with the defaults if there is none) is put on
        trial, unless its Stripe ids would repeat another row's, in which
        case the commit fails and nothing changes. */
    ghost predicate CheckoutCompletedEffect(before: seq<Subscription>, data: EventData, newSubscriptionId: Id, now: int,
                                            r: Result<(), HttpError>)
      reads this
    {
      var userId := data.metadataUserId;
      var at := SubscriptionIndexOfUser(before, userId);
      var row := StartTrial(if at.Some? then before[at.value] else NewSubscription(newSubscriptionId, userId), data, now);
      if !HasUserId(users, userId) then r.Ok? && subs == before
      else if !StripeIdsFree(before, at, row) then r.Err? && subs == before
      else r.Ok? && subs == if at.Some? then before[at.value := row] else before + [row]
    }

    /** "customer.subscription.updated": the subscription with that Stripe id,
        if any, takes the event's status and billing period. */
    ghost predicate UpdatedEffect(before: seq<Subscription>, data: EventData)
      reads this
    {
      match SubscriptionIndexByStripeId(before, data.id)
      case None => subs == before
      case Some(k) =>
        subs == before[k := before[k].(status := data.status,
                                       currentPeriodStart := Some(data.currentPeriodStart),
                                       currentPeriodEnd := Some(data.currentPeriodEnd))]
    }

    /** "customer.subscription.deleted": the subscription with that Stripe id,
        if any, is canceled as of `now`. */
    ghost predicate DeletedEffect(before: seq<Subscription>, data: EventData, now: int)
      reads this
    {
      match SubscriptionIndexByStripeId(before, data.id)
      case None => subs == before
      case Some(k) => subs == before[k := before[k].(status := CANCELED, canceledAt := Some(now))]
    }

    /** "checkout.session.completed". After success the user has exactly one
        subscription, and it is on trial until 14 days after `now`. */
    method CompleteCheckout(data: EventData, newSubscriptionId: Id, now: int) returns (r: Result<(), HttpError>)
      requires Valid()
      requires !HasSubscriptionId(subs, newSubscriptionId)
      modifies this`subs
      ensures Valid()
      ensures CheckoutCompletedEffect(old(subs), data, newSubscriptionId, now, r)
      ensures r.Err? ==> r == Err(INTERNAL_ERROR)
      ensures r.Ok? && HasUserId(users, data.metadataUserId) ==>
                exists k :: 0 <= k < |subs| && subs[k].userId == data.metadataUserId && subs[k].status == TRIALING
                  && subs[k].trialEndsAt == Some(now + TRIAL_DAYS * SECONDS_PER_DAY)
      ensures forall k :: 0 <= k < |subs| && subs[k].userId == data.metadataUserId ==>
                SubscriptionIndexOfUser(subs, data.metadataUserId) == Some(k)
    {
      r := Ok(());
      var userId := data.metadataUserId;
      var u := UserIndexById(users, userId);
      if u.Some? {
        var at := SubscriptionIndexOfUser(subs, userId);
        var base := if at.Some? then subs[at.value] else NewSubscription(newSubscriptionId, userId);
        var row := StartTrial(base, data, now);
        if !StripeIdsFree(subs, at, row) {
          r := Err(INTERNAL_ERROR);
        } else if at.Some? {
          SetSubscriptionKeepsConsistent(users, promos, subs, at.value, row);
          subs := subs[at.value := row];
        } else {
          AddSubscriptionKeepsConsistent(users, promos, subs, row);
          subs := subs + [row];
          assert subs[|subs| - 1] == row;
        }
      }
      SubscriptionOfUserIsUnique(subs, userId);
    }

    /** "customer.subscription.updated". */
    method UpdateSubscription(data: EventData)
      requires Valid()
      modifies this`subs
      ensures Valid()
      ensures UpdatedEffect(old(subs), data)
    {
      var k := SubscriptionIndexByStripeId(subs, data.id);
      if k.Some? {
        var i := k.value;
        var row := subs[i].(status := data.status,
                            currentPeriodStart := Some(data.currentPeriodStart),
                            currentPeriodEnd := Some(data.currentPeriodEnd));
        KeepIdsKeepsConsistent(users, promos, subs, i, row);
        subs := subs[i := row];
      }
    }

    /** "customer.subscription.deleted". */
    method CancelSubscription(data: EventData, now: int)
      requires Valid()
      modifies this`subs
      ensures Valid()
      ensures DeletedEffect(old(subs), data, now)
    {
      var k := SubscriptionIndexByStripeId(subs, data.id);
      if k.Some? {
        var i := k.value;
        var row := subs[i].(status := CANCELED, canceledAt := Some(now));
        KeepIdsKeepsConsistent(users, promos, subs, i, row);
        subs := subs[i := row];
      }
    }

    /** `create_promo_code`. The code is stored upper-cased, so a code equal
        to a stored one ignoring case is refused; otherwise one percent promo
        is added, valid for `validDays` days from `now`. */
    method CreatePromoCode(code: string, discountValue: real, description: Option<string>,
                           maxUses: Option<int>, durationMonths: Option<int>, validDays: int,
                           promoId: Id, now: int)
      returns (r: Result<PromoCreated, HttpError>)
      requires Valid()
      requires !HasPromoId(promos, promoId)
      modifies this`promos
      ensures Valid()
      ensures r == Err(PROMO_EXISTS) <==> CodeTaken(old(promos), Upper(code))
      ensures r.Err? ==> r == Err(PROMO_EXISTS) && promos == old(promos)
      ensures r.Ok? ==>
                var validUntil := now + validDays * SECONDS_PER_DAY;
                && promos == old(promos) + [NewPromoCode(promoId, Upper(code), discountValue, maxUses, durationMonths,
                                                         Some(validUntil), description, now)]
                && r.value == PromoCreated(Upper(code), discountValue, UsesLabelOf(maxUses), validUntil)
    {
      if CodeTaken(promos, Upper(code)) {
        return Err(PROMO_EXISTS);
      }
      var validUntil := now + validDays * SECONDS_PER_DAY;
      var promo := NewPromoCode(promoId, Upper(code), discountValue, maxUses, durationMonths,
                                Some(validUntil), description, now);
      UpperIdempotent(code);
      AddPromoKeepsConsistent(users, promos, subs, promo);
      promos := promos + [promo];
      r := Ok(PromoCreated(promo.code, discountValue, UsesLabelOf(maxUses), validUntil));
    }
  }
}
