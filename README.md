# Payment core of the chatbot SaaS backend, in Dafny

This project models the payment side of the backend: registering a user with
an optional promo code, opening a checkout session, validating a promo code,
reacting to the payment processor's webhook events, and the admin route that
creates promo codes. It also models the three tables these routes use
(`users`, `subscriptions`, `promo_codes`) with their defaults and schema
constraints, and the `cors_origins_list` setting with its defaults.

- `wrappers.dfy` (module `Wrappers`): `Option` for nullable columns, `Result`
  for a route's response or the HTTP error it raises.
- `pystr.dfy` (module `PyStr`): the Python string built-ins the core relies
  on, namely `str.upper()`, `str.strip()`, `str.split(sep)` and `sep.join`.
- `config.dfy` (module `Config`): the settings record, `cors_origins_list`
  and the default constants.
- `models.dfy` (module `Models`):
  - the three row types, and the rows as inserted with their column defaults
    (`NewUser`, `NewSubscription`, `NewPromoCode`);
  - the UNIQUE, primary-key and foreign-key constraints of the schema, and
    the invariant "a user has at most one subscription", as one predicate,
    `Consistent`. The schema does not declare that invariant: `user_id` is
    not UNIQUE, and `uselist=False` only shapes what the ORM returns. The
    routes keep it by looking a user's subscription up before inserting one;
  - lemmas that each kind of write keeps `Consistent`;
  - `query.filter(...).first()` as `FirstIndex`.
- `payment.dfy` (module `Payment`):
  - the read-only decisions as functions over the tables: promo checks,
    registration checks, checkout planning, promo validation;
  - the routes that write as methods of the class `Store`, which holds the
    three tables as sequence fields. Every method keeps `Store.Valid()`, that
    is `Consistent` plus "stored codes are upper-case", and states the
    whole new state of the tables it modifies.

Time is whole seconds on the server clock, and `now` is a parameter. Generated
ids (uuid4) and the password hash are parameters too. Floating-point columns
are `real`. The registration email is the address after `EmailStr`
normalisation; the checkout route's `current_user_email` is a plain string
and is compared as given.

The webhook handler's own code returns `{"status": "success"}` for every
verified event. Its `db.commit()`, however, raises when the new Stripe
customer or subscription id is already held by another subscription: both
columns are UNIQUE. The application's catch-all exception handler then
answers 500 "Internal server error". The model follows the code: that one
case fails with 500 and leaves the table unchanged. Every other verified
event succeeds.

## Model

| member | source | states |
|---|---|---|
| PyStr.Upper | backend/app/routes/payment.py:54 | `upper()` keeps the length and upper-cases character by character; no lower-case ASCII letter remains |
| PyStr.UpperIdempotent | backend/app/routes/payment.py:305-310 | upper-casing twice is upper-casing once, so a code stored upper-cased is found by any spelling that upper-cases to it |
| PyStr.TrimLeft | backend/app/config.py:51 | the left half of `strip()`: the result is a suffix, all that is dropped is whitespace, and the result does not start with whitespace |
| PyStr.TrimRight | backend/app/config.py:51 | the right half of `strip()`: the result is a prefix, all that is dropped is whitespace, and the result does not end with whitespace |
| PyStr.Strip | backend/app/config.py:51 | `strip()` gives a contiguous slice with only whitespace outside it, neither starting nor ending with whitespace |
| PyStr.Split | backend/app/config.py:51 | `split(",")` gives at least one piece and no piece contains the separator |
| PyStr.SplitCount | backend/app/config.py:49-51 | `split` gives exactly one piece more than there are separators |
| PyStr.JoinSplit | backend/app/config.py:51 | joining the pieces with the separator gives back the original string, so order and content are kept |
| PyStr.SplitJoin | backend/app/config.py:51 | splitting a join of separator-free pieces gives back exactly those pieces |
| Config.Settings.CorsOriginsList | backend/app/config.py:48-51 | (commas + 1) entries; entry i is piece i of the comma split, stripped; no entry holds a comma or starts or ends with whitespace |
| Config.StripKeepsOut | backend/app/config.py:51 | stripping never introduces a character, so no origin can hold a comma |
| Config.TwoOrigins | backend/app/config.py:49-51 | two clean origins joined by a comma are listed back as exactly those two |
| Config.DefaultCorsOrigins | backend/app/config.py:34 | the default setting yields exactly `["http://localhost:3000", "http://localhost:5173"]` |
| Config.AccessTokenLifetimeIsOneWeek | backend/app/config.py:27 | the default of 10080 minutes equals 7 * 24 * 60 |
| Models.NewUser | backend/app/models.py:14-25 | a new user row holds the given id, email, hash, full name, company name and store URL, is active and is not verified |
| Models.NewSubscription | backend/app/models.py:39-58 | a new subscription is "trialing" on the "basic" plan at 79.0, with no discount, a 999999-message limit and no messages used; its Stripe ids, price id, promo, trial end, billing period and cancel date are all NULL |
| Models.NewPromoCode | backend/app/models.py:77-94 | a new promo is a "percent" promo with 0 uses, active, not first-month-only, valid from its insertion time, holding the given code, value, limit, expiry, duration and description |
| Models.FirstIndex | backend/app/routes/payment.py:44 | `.first()`: the first matching row's position, or None exactly when no row matches |
| Models.AddUserKeepsConsistent | backend/app/models.py:17-18 | inserting a user with a fresh id and an unused email keeps every constraint |
| Models.AddPromoKeepsConsistent | backend/app/models.py:77-78 | inserting a promo with a fresh id and an unused code keeps every constraint |
| Models.SetPromoKeepsConsistent | backend/app/models.py:77-78 | rewriting a promo's other columns keeps every constraint |
| Models.SetSubscriptionKeepsConsistent | backend/app/models.py:39-44 | rewriting a subscription with Stripe ids no other row holds keeps both UNIQUE columns, the key and the user link |
| Models.KeepIdsKeepsConsistent | backend/app/models.py:39-44 | a rewrite that keeps both Stripe ids keeps every constraint |
| Models.AddSubscriptionKeepsConsistent | backend/app/models.py:31-44 | inserting the first subscription of an existing user, with unused Stripe ids, keeps one subscription per user and the foreign key |
| Payment.UserByEmailIsUnique | backend/app/models.py:18 | with emails UNIQUE, the email lookup finds the one user with that email, or none exactly when none is registered |
| Payment.SubscriptionOfUserIsUnique | backend/app/routes/payment.py:248-251 | with at most one subscription per user (the invariant the webhook keeps by looking up before inserting), the lookup finds the user's only subscription |
| Payment.ActivePromoIsUnique | backend/app/models.py:78 | with codes UNIQUE, the promo lookup finds the one active promo with the code |
| Payment.IsExpired | backend/app/routes/payment.py:202 | expired exactly when there is an expiry date strictly before now: no expiry date never expires, and a promo is still valid at its expiry instant |
| Payment.ExpiryIsFinal | backend/app/routes/payment.py:202 | an expired promo stays expired at every later time |
| Payment.LimitReached | backend/app/routes/payment.py:205 | reached exactly when the limit is set, non-zero and at or below the uses so far: a limit of None or 0 is never reached |
| Payment.UseKeepsLimitReached | backend/app/routes/payment.py:128 | counting another use never takes a promo back under its limit |
| Payment.CheckPromo | backend/app/routes/payment.py:192-206 | not found exactly when no active promo has the upper-cased code; an accepted promo matches, is not expired and is under its limit; expiry is checked before the limit |
| Payment.CheckPromoOfMatch | backend/app/routes/payment.py:192-206 | with codes unique, the verdict is that of the matching promo: expired first, then limit reached, else accepted |
| Payment.PromoAcceptedIff | backend/app/routes/payment.py:192-206 | a code is accepted if and only if an active promo with the code exists, has not expired and is under its limit |
| Payment.ValidatePromoCode | backend/app/routes/payment.py:186-216 | 404 "Promo code not found" exactly when no active promo matches; 400 "Promo code has expired" exactly when it has expired; 400 "Promo code usage limit reached" exactly when it is unexpired and used up; on success the promo's own code, type, value, description, first-month flag and duration; the promo table is read-only here |
| Payment.UsesLabelOf | backend/app/routes/payment.py:327 | "unlimited" exactly when `max_uses` is None or 0, otherwise the limit itself |
| Payment.UnlimitedNeverExhausted | backend/app/models.py:85 | a limit of None or 0 ("unlimited") can never be reached, and any other limit can be |
| Payment.NewPromoAccepted | backend/app/routes/payment.py:309-317 | a freshly created promo (0 uses, active) whose `max_uses` is None or non-negative is accepted until it expires, under any spelling of its code |
| Payment.RegisterCheck | backend/app/routes/payment.py:44-70 | 400 "Email already registered" exactly when the email exists; otherwise, for a non-empty code, "Invalid promo code", "Promo code has expired" and "Promo code usage limit reached" each exactly for the matching promo verdict; the discount is the promo's value, or 0.0 without a code |
| Payment.CustomerFor | backend/app/routes/payment.py:141-152 | the existing customer id is reused exactly when the user's subscription has a non-empty one |
| Payment.CouponFor | backend/app/routes/payment.py:131-138 | a coupon exactly for percent promos, at the promo's percentage: "repeating" for `duration_months` months when that is non-zero, otherwise "once" with a month count of 1 |
| Payment.Redeemed | backend/app/routes/payment.py:120-129 | the promo table keeps its length; at most one promo changes, and only by one more use of an active promo with the code; when such a promo exists, one does change |
| Payment.RedeemedCountsOneUse | backend/app/routes/payment.py:120-129 | checkout adds exactly one use to the promo with the code, even an expired or used-up one; every other promo is unchanged |
| Payment.Checkout | backend/app/routes/payment.py:108-172 | 404 exactly for an unknown email; 400 exactly when the user's subscription is "active"; otherwise a 14-day trial session for that user, with the customer reused exactly when one is on file and a coupon exactly when an active percent promo matches |
| Payment.StartTrial | backend/app/routes/payment.py:253-256 | the row takes the event's customer and subscription ids, status "trialing" and a trial end 14 days after now; every other column is kept |
| Payment.InactiveSubscriberMayCheckOut | backend/app/routes/payment.py:114-116 | a registered user whose subscription is "trialing", "canceled" or "past_due" is not refused: only "active" blocks checkout |
| Payment.DuplicateCheckIgnoresCase | backend/app/routes/payment.py:305-307 | since stored codes are upper-case, the duplicate check refuses any code equal to a stored one ignoring case |
| Payment.Store.RegisterUser | backend/app/routes/payment.py:36-95 | on an error no user is added; on success exactly the new user row is appended with its defaults; promos are never touched; the constraints still hold |
| Payment.Store.CreateCheckoutSession | backend/app/routes/payment.py:98-183 | answers as `Checkout` does; the promo table changes only on success, and then exactly as `Redeemed`; the constraints still hold |
| Payment.Store.HandleWebhook | backend/app/routes/payment.py:239-286 | dispatches the three event types to their effects; any other event type changes nothing and succeeds; the only error is 500, with nothing changed |
| Payment.Store.CompleteCheckout | backend/app/routes/payment.py:239-258 | an unknown user changes nothing; otherwise the user's subscription, created with the defaults if missing, gets the processor's ids, "trialing" and a trial end 14 days after now, unless those Stripe ids clash with another row, in which case the commit fails with 500 and nothing changes; on success the user has exactly one subscription |
| Payment.Store.UpdateSubscription | backend/app/routes/payment.py:260-272 | the subscription with the event's id, if any, takes the event's status and period; nothing else changes |
| Payment.Store.CancelSubscription | backend/app/routes/payment.py:274-284 | the subscription with the event's id, if any, becomes "canceled" with `canceled_at` = now; nothing else changes |
| Payment.Store.CreatePromoCode | backend/app/routes/payment.py:290-329 | refused exactly when the upper-cased code is stored; otherwise one percent promo is appended with the upper-cased code, 0 uses, active, valid until now + valid days; codes stay unique and upper-case |

## Left out

- Calls to the payment processor are not modelled: creating the customer, the coupon and the checkout session, and the returned URL and session id. `CheckoutPlan` records what would be requested.
- A failure of those calls is not modelled. In the source the promo use is already committed before they run.
- Webhook signature verification and payload parsing (the 400 "Invalid payload" and "Invalid signature" answers) are not modelled. The handler receives an already verified `Event`.
- A webhook payload with a missing field (a `KeyError` in Python, answered 500) is not modelled. `EventData` always holds every field the handler reads.
- The access token issued by `register_user` is not modelled: JWT signing is a foreign call. The password hash is a parameter, and so are the generated uuid4 ids.
- The `EmailStr` validation and normalisation of the registration email (surrounding whitespace stripped, domain lower-cased) are not modelled: `RegisterRequest.email` is the already normalised address, so the duplicate check compares normalised addresses while checkout compares the email exactly as passed.
- The `created_at` and `updated_at` columns and their on-update behaviour are not modelled.
- The `promo_code_id` foreign key of `subscriptions` is not modelled. `register_user` computes that id but never stores it, so registration links no promo to the user.
- The coupon's display name and the "N% off" message of the create route are float-to-string formatting and are not modelled. `PromoCreated` keeps the discount value itself.
- Python floats are modelled as `real`, without rounding.
- Datetimes are whole seconds. The local-time conversion of `datetime.fromtimestamp`, and the `OverflowError` that `timedelta` raises for a huge number of days, are not modelled.
- PyStr.Upper: maps only the ASCII letters. Python's full Unicode case mapping (including multi-character results such as "ß" to "SS") is not modelled.
- Concurrent requests and transaction isolation are not modelled: each route runs alone against the tables. A UNIQUE violation at commit is modelled only where one request alone can cause it, which is the webhook's Stripe ids.
- The `stores`, `conversations` and `messages` tables are not part of this model. Neither are the chat routes, the rest of the application set-up or the database-inspection script.
- The settings other than `cors_origins` and `access_token_expire_minutes` are not part of this model. Neither is loading them from the environment.
- The `valid_days` default of 90 on the create route is a default of the HTTP parameter: `Store.CreatePromoCode` always receives `validDays` explicitly.
- Store.CreatePromoCode: column widths are not modelled, so a `max_uses` or `duration_months` outside the database's integer range, whose insert fails with 500 in the source, is stored by the model.
