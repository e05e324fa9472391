/** The three tables the payment routes read and write (`users`,
    `subscriptions`, `promo_codes`), their column defaults, the constraints
    the schema declares on them, and `query.filter(...).first()`. */
module Models {
  import opened Wrappers

  /** Primary keys are generated strings (uuid4). */
  type Id = string

  // ---------------------------------------------------------------------------
  // Rows
  // ---------------------------------------------------------------------------

  /** A row of `users`. `email` and `passwordHash` are NOT NULL. */
  datatype User = User(
    id: Id,
    email: string,
    passwordHash: string,
    fullName: Option<string>,
    companyName: Option<string>,
    shopifyStoreUrl: Option<string>,
    isActive: bool,
    isVerified: bool)

  /** A row of `subscriptions`. Timestamps are seconds on the server clock. */
  datatype Subscription = Subscription(
    id: Id,
    userId: Id,
    stripeCustomerId: Option<string>,
    stripeSubscriptionId: Option<string>,
    stripePriceId: Option<string>,
    status: string,
    planName: string,
    monthlyPrice: real,
    promoCodeId: Option<Id>,
    discountPercent: real,
    monthlyMessageLimit: int,
    messagesUsedThisMonth: int,
    trialEndsAt: Option<int>,
    currentPeriodStart: Option<int>,
    currentPeriodEnd: Option<int>,
    canceledAt: Option<int>)

  /** A row of `promo_codes`. `maxUses == None` means unlimited use. */
  datatype PromoCode = PromoCode(
    id: Id,
    code: string,
    discountType: string,
    discountValue: real,
    maxUses: Option<int>,
    timesUsed: int,
    isActive: bool,
    validFrom: int,
    validUntil: Option<int>,
    firstMonthOnly: bool,
    durationMonths: Option<int>,
    description: Option<string>)

  // Subscription states, as the payment processor names them.
  const TRIALING := "trialing"
  const ACTIVE := "active"
  const CANCELED := "canceled"
  const PAST_DUE := "past_due"

  const PERCENT := "percent"
  const BASIC_PLAN := "basic"

  // ---------------------------------------------------------------------------
  // Rows as inserted, with the column defaults filled in
  // ---------------------------------------------------------------------------

  function NewUser(id: Id, email: string, passwordHash: string, fullName: Option<string>,
                   companyName: Option<string>, shopifyStoreUrl: Option<string>): (u: User)
    ensures u.id == id && u.email == email && u.passwordHash == passwordHash
    ensures u.fullName == fullName && u.companyName == companyName && u.shopifyStoreUrl == shopifyStoreUrl
    ensures u.isActive && !u.isVerified
  {
    User(id, email, passwordHash, fullName, companyName, shopifyStoreUrl, true, false)
  }

  function NewSubscription(id: Id, userId: Id): (s: Subscription)
    ensures s.id == id && s.userId == userId
    ensures s.status == TRIALING && s.planName == BASIC_PLAN && s.monthlyPrice == 79.0
    ensures s.discountPercent == 0.0 && s.monthlyMessageLimit == 999999 && s.messagesUsedThisMonth == 0
    ensures s.stripeCustomerId.None? && s.stripeSubscriptionId.None? && s.promoCodeId.None?
    ensures s.stripePriceId.None? && s.trialEndsAt.None? && s.currentPeriodStart.None?
    ensures s.currentPeriodEnd.None? && s.canceledAt.None?
  {
    Subscription(id, userId, None, None, None, TRIALING, BASIC_PLAN, 79.0, None, 0.0,
                 999999, 0, None, None, None, None)
  }

  /** `validFrom` defaults to the insertion time `now`. */
  function NewPromoCode(id: Id, code: string, discountValue: real, maxUses: Option<int>,
                        durationMonths: Option<int>, validUntil: Option<int>,
                        description: Option<string>, now: int): (p: PromoCode)
    ensures p.id == id && p.code == code && p.discountValue == discountValue
    ensures p.discountType == PERCENT && p.timesUsed == 0 && p.isActive && !p.firstMonthOnly
    ensures p.validFrom == now && p.validUntil == validUntil && p.maxUses == maxUses
    ensures p.durationMonths == durationMonths && p.description == description
  {
    PromoCode(id, code, PERCENT, discountValue, maxUses, 0, true, now, validUntil, false,
              durationMonths, description)
  }

  // ---------------------------------------------------------------------------
  // Schema constraints
  // ---------------------------------------------------------------------------

  predicate HasUserId(users: seq<User>, id: Id)
  {
    exists k :: 0 <= k < |users| && users[k].id == id
  }

  predicate HasSubscriptionId(subs: seq<Subscription>, id: Id)
  {
    exists k :: 0 <= k < |subs| && subs[k].id == id
  }

  predicate HasPromoId(promos: seq<PromoCode>, id: Id)
  {
    exists k :: 0 <= k < |promos| && promos[k].id == id
  }

  /** `users.id` is the primary key and `users.email` is UNIQUE. */
  predicate UsersConstraints(users: seq<User>)
  {
    forall i, j :: 0 <= i < j < |users| ==> users[i].id != users[j].id && users[i].email != users[j].email
  }

  /** `promo_codes.id` is the primary key and `promo_codes.code` is UNIQUE. */
  predicate PromoConstraints(promos: seq<PromoCode>)
  {
    forall i, j :: 0 <= i < j < |promos| ==> promos[i].id != promos[j].id && promos[i].code != promos[j].code
  }

  /** `subscriptions.id` is the primary key and the two Stripe ids are UNIQUE
      (NULLs never collide). A user has at most one subscription: the schema
      does not declare that, but the routes keep it by looking a user's
      subscription up before inserting one. */
  predicate SubscriptionConstraints(subs: seq<Subscription>)
  {
    forall i, j :: 0 <= i < j < |subs| ==>
      && subs[i].id != subs[j].id
      && subs[i].userId != subs[j].userId
      && (subs[i].stripeCustomerId.Some? ==> subs[i].stripeCustomerId != subs[j].stripeCustomerId)
      && (subs[i].stripeSubscriptionId.Some? ==> subs[i].stripeSubscriptionId != subs[j].stripeSubscriptionId)
  }

  /** `subscriptions.user_id` is a NOT NULL foreign key into `users`. */
  predicate SubscriptionsReferenceUsers(users: seq<User>, subs: seq<Subscription>)
  {
    forall k :: 0 <= k < |subs| ==> HasUserId(users, subs[k].userId)
  }

  predicate Consistent(users: seq<User>, promos: seq<PromoCode>, subs: seq<Subscription>)
  {
    && UsersConstraints(users)
    && PromoConstraints(promos)
    && SubscriptionConstraints(subs)
    && SubscriptionsReferenceUsers(users, subs)
  }

  // ---------------------------------------------------------------------------
  // Writes that keep the constraints
  // ---------------------------------------------------------------------------

  /** Inserting a user with a fresh id and an unused email. */
  lemma AddUserKeepsConsistent(users: seq<User>, promos: seq<PromoCode>, subs: seq<Subscription>, user: User)
    requires Consistent(users, promos, subs)
    requires !HasUserId(users, user.id)
    requires forall k :: 0 <= k < |users| ==> users[k].email != user.email
    ensures Consistent(users + [user], promos, subs)
  {
    var all := users + [user];
    forall k | 0 <= k < |subs| ensures HasUserId(all, subs[k].userId) {
      var j :| 0 <= j < |users| && users[j].id == subs[k].userId;
      assert all[j] == users[j];
    }
  }

  /** Inserting a promo with a fresh id and an unused code. */
  lemma AddPromoKeepsConsistent(users: seq<User>, promos: seq<PromoCode>, subs: seq<Subscription>, promo: PromoCode)
    requires Consistent(users, promos, subs)
    requires !HasPromoId(promos, promo.id)
    requires forall k :: 0 <= k < |promos| ==> promos[k].code != promo.code
    ensures Consistent(users, promos + [promo], subs)
  {
  }

  /** Rewriting a promo without touching its id or code. */
  lemma SetPromoKeepsConsistent(users: seq<User>, promos: seq<PromoCode>, subs: seq<Subscription>, k: nat, promo: PromoCode)
    requires Consistent(users, promos, subs)
    requires k < |promos| && promo.id == promos[k].id && promo.code == promos[k].code
    ensures Consistent(users, promos[k := promo], subs)
  {
  }

  /** Whether `row` may hold its Stripe ids next to every row of `subs` other
      than the one at position `skip`. */
  predicate StripeIdsFree(subs: seq<Subscription>, skip: Option<nat>, row: Subscription)
  {
    forall k :: 0 <= k < |subs| && skip != Some(k) ==>
      && (row.stripeCustomerId.Some? ==> subs[k].stripeCustomerId != row.stripeCustomerId)
      && (row.stripeSubscriptionId.Some? ==> subs[k].stripeSubscriptionId != row.stripeSubscriptionId)
  }

  /** Rewriting a subscription in place, keeping its id and user, with Stripe
      ids no other row holds. */
  lemma SetSubscriptionKeepsConsistent(users: seq<User>, promos: seq<PromoCode>, subs: seq<Subscription>,
                                       k: nat, row: Subscription)
    requires Consistent(users, promos, subs)
    requires k < |subs| && row.id == subs[k].id && row.userId == subs[k].userId
    requires StripeIdsFree(subs, Some(k), row)
    ensures Consistent(users, promos, subs[k := row])
  {
    var all := subs[k := row];
    forall i, j | 0 <= i < j < |all|
      ensures all[i].stripeCustomerId.Some? ==> all[i].stripeCustomerId != all[j].stripeCustomerId
      ensures all[i].stripeSubscriptionId.Some? ==> all[i].stripeSubscriptionId != all[j].stripeSubscriptionId
    {
      if i == k {
        assert all[j] == subs[j];
      } else if j == k {
        assert all[i] == subs[i];
      }
    }
  }

  /** A rewrite that keeps the id, the user and both Stripe ids of a row. */
  lemma KeepIdsKeepsConsistent(users: seq<User>, promos: seq<PromoCode>, subs: seq<Subscription>,
                               k: nat, row: Subscription)
    requires Consistent(users, promos, subs)
    requires k < |subs| && row.id == subs[k].id && row.userId == subs[k].userId
    requires row.stripeCustomerId == subs[k].stripeCustomerId && row.stripeSubscriptionId == subs[k].stripeSubscriptionId
    ensures Consistent(users, promos, subs[k := row])
  {
    forall j | 0 <= j < |subs| && j != k
      ensures row.stripeCustomerId.Some? ==> subs[j].stripeCustomerId != row.stripeCustomerId
      ensures row.stripeSubscriptionId.Some? ==> subs[j].stripeSubscriptionId != row.stripeSubscriptionId
    {
    }
    SetSubscriptionKeepsConsistent(users, promos, subs, k, row);
  }

  /** Inserting the first subscription of an existing user, with a fresh id
      and Stripe ids no row holds. */
  lemma AddSubscriptionKeepsConsistent(users: seq<User>, promos: seq<PromoCode>, subs: seq<Subscription>, row: Subscription)
    requires Consistent(users, promos, subs)
    requires !HasSubscriptionId(subs, row.id) && HasUserId(users, row.userId)
    requires forall k :: 0 <= k < |subs| ==> subs[k].userId != row.userId
    requires StripeIdsFree(subs, None, row)
    ensures Consistent(users, promos, subs + [row])
  {
    var all := subs + [row];
    forall k | 0 <= k < |all| ensures HasUserId(users, all[k].userId) {
      if k < |subs| {
        assert all[k] == subs[k];
      }
    }
  }

  // ---------------------------------------------------------------------------
  // Queries
  // ---------------------------------------------------------------------------

  /** `query.filter(matches).first()`: the position of the first row that
      matches, or `None` when no row does. */
  function FirstIndex<T>(rows: seq<T>, matches: T -> bool): (r: Option<nat>)
    ensures r.Some? ==> r.value < |rows| && matches(rows[r.value])
    ensures r.Some? ==> forall k :: 0 <= k < r.value ==> !matches(rows[k])
    ensures r.None? <==> forall k :: 0 <= k < |rows| ==> !matches(rows[k])
  {
    if rows == [] then None
    else if matches(rows[0]) then Some(0)
    else
      match FirstIndex(rows[1..], matches)
      case None => None
      case Some(i) => Some(i + 1)
  }
}
