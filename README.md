# Lider payment service: ledger, deposits and reports in Dafny

This project models the payment core of the Lider payment service.

The service keeps two stores:
- a ledger of payment records (`Payment`);
- user records holding a `deposit` balance and an optional embedded Stripe billing record, which has a customer id and a list of saved cards.

On top of those stores it does the work below.

**Payments service.** It stores generic payment records and marks them SUCCEEDED or FAILED. It also charges a meeting's service fee against a user's deposit.

**PayPal service.**
- Records a PENDING top-up and attaches the PayPal order to it.
- Fulfils that top-up once, crediting the deposit with the recorded amount.

**Stripe service.**
- Card top-ups: a PENDING record, the payment-intent request with its guards, the intent-status mapping, and the deposit credit.
- Card activation: an OTP drawn from `A-Z0-9`, carried in the statement descriptor `lider-<otp>`, checked against the intent and an expiry time.
- Payment-intent verification.
- The saved-card list: list, soft-remove, attach, and create the Stripe customer.

**Reports.**
- Per-day or per-month "Amount In" / "Amount Out" series of a user's ledger, with missing days or months filled with zero records and the result sorted by date.
- The user's all-time totals.

**Utilities and validation.** The OTP generator, `filteredObject`, the two request validators (top-up amount; service-fee request), and the two schemas.

The model is built as follows.
- **The store** is a class, `Repository.AppRepository`. Its `entries` field is a sequence of ledger records in insertion order, with increasing ids. Its `users` field maps user ids to user records.
- **The service methods** are methods on service classes that modify that store. Each states its whole new state.
- **Mongo filters and `$set` patches** are the datatypes `Where` and `Patch`.
- **Replies that come from outside** are parameters of each method:
  - Stripe and PayPal replies, each as a `Result` so that a failed call is an input too, except the one reply the source ignores (the default update of `attachPaymentMethod`);
  - the mocked user profile;
  - the current time;
  - the `Math.random()` draws.
- **The read side** consists of:
  - the `$match`/`$group`/`$sort` pipeline, modelled as functions over the ledger sequence;
  - the service's `reduce`, the gap-filling loops and the OTP loop, modelled as methods with loop invariants, each proved equal to a specification function;
  - lemmas that prove the properties of those functions.

The model follows the code as written. Three places reproduce a visible mistake (see "## Findings"); for each there is also a corrected definition with its intended property proved. The service methods (`RequestActiveStripeCard`, `ActiveCard`, `CheckPaymentIntent`, `CreateCustomer`) call the as-written behaviour, because that is what the service does. The corrected members stand next to them.

## Model

| member | source | states |
|---|---|---|
| Strings.NatToString | src/helper/helper/helper.service.ts:40-41 | the decimal text of a number is non-empty and made of digits |
| Strings.IntToString | src/helper/helper/helper.service.ts:41 | `${year}` is non-empty, and is the decimal text for a non-negative year |
| Strings.PadStart | src/helper/helper/helper.service.ts:40 | `padStart(width, fill)` has length max(len, width), ends with the text and is filled with `fill` before it |
| Strings.Split | src/helper/helper/helper.service.ts:25-26 | `split(sep)` has at least one field, and exactly one iff the separator does not occur |
| Strings.SplitWithoutSeparator | src/helper/helper/helper.service.ts:25-26 | a text without the separator splits into itself alone |
| Strings.SplitAtFirstSeparator | src/helper/helper/helper.service.ts:25-26 | `a + sep + b` splits into `a` followed by the fields of `b` |
| Strings.SplitOfFieldCharacter | src/helper/helper/helper.service.ts:25-26 | a leading non-separator character heads the first field |
| Strings.SplitFirstFieldShorter | src/helper/helper/helper.service.ts:25-26 | with a separator present, the first field is strictly shorter than the text |
| Strings.LeadingDigits | src/helper/helper/helper.service.ts:29-30 | the longest digit prefix: a prefix, all digits, and followed by a non-digit if anything |
| Strings.ParseInt | src/helper/helper/helper.service.ts:29-33 | `parseInt`: an optional sign and the leading digits, or NaN (a definition; `ParseIntOfDigits`, `ParseIntPadded` and `ParseIntNaN` state it) |
| Strings.NatToStringDigits | src/helper/helper/helper.service.ts:40 | the decimal text of n is all digits and its value is n |
| Strings.LeadingZerosValue | src/helper/helper/helper.service.ts:29-30 | leading zeros do not change the value `parseInt` reads |
| Strings.PaddedDigits | src/helper/helper/helper.service.ts:40 | a zero-padded number is all digits with the number's value |
| Strings.ParseIntOfDigits | src/helper/helper/helper.service.ts:29-30 | `parseInt` of an all-digit text is its value |
| Strings.ParseIntPadded | src/helper/helper/helper.service.ts:29-40 | `parseInt` reads back a zero-padded month |
| Strings.ParseIntNaN | src/helper/helper/helper.service.ts:29-30 | an empty text, or one not starting with a digit or sign, is NaN (the `undefined` of a missing field is handled by `Helper.DateField`) |
| Strings.LexLessIrreflexive | src/helper/helper/helper.service.ts:63 | the string `>` order is irreflexive |
| Strings.LexLessTransitive | src/helper/helper/helper.service.ts:63 | the string order is transitive |
| Strings.LexLessTotal | src/helper/helper/helper.service.ts:63 | any two different dates are ordered one way or the other |
| Strings.LexLeqTransitive | src/helper/helper/helper.service.ts:63 | the non-strict order the sorted result follows is transitive |
| Strings.LexLeqTotal | src/helper/helper/helper.service.ts:63 | the non-strict order is total |
| Calendar.Pad2 | src/helper/helper/helper.service.ts:40 | a month padded to two digits has at least two characters |
| Calendar.DayOf | src/modules/statistics/statistic.service.ts:59-62 | the UTC day of a time: the day whose midnight is the latest one not after it, before 1970 as well |
| Calendar.IsoYear | src/helper/helper/helper.service.ts:93 | the year part of `toISOString`: four characters starting with a digit for years 0 to 9999; otherwise at least seven characters, starting with '+' exactly when the year is above 9999 and with '-' exactly when it is negative |
| Calendar.CivilFromDays | src/helper/helper/helper.service.ts:93 | the proleptic Gregorian date of a day number, as `toISOString` writes it (a definition; `EpochIsNewYear1970` and `LeapDay2024` check it) |
| Calendar.DayLabel | src/helper/helper/helper.service.ts:93 | `toISOString().slice(0, 10)` and `%Y-%m-%d` of a day (a definition; `DayLabelFields` states it parses back) |
| Calendar.MonthLabel | src/helper/helper/helper.service.ts:40-41 | `${year}-${MM}`, the label the month filling looks for (a definition) |
| Calendar.MonthKey | src/modules/statistics/statistic.service.ts:59-62 | `$dateToString` with `%Y-%m` of a day (a definition; `MonthKeyIsMonthLabel` relates it to the label) |
| Calendar.YearKey | src/modules/statistics/statistic.service.ts:26-29 | `$dateToString` with `%Y` of a day (a definition; the yearly format is never chosen, see `GranularityOf`) |
| Calendar.EpochIsNewYear1970 | src/helper/helper/helper.service.ts:93 | day 0 is 1970-01-01 in the civil calendar `toISOString` writes |
| Calendar.LeapDay2024 | src/helper/helper/helper.service.ts:93 | day 19782 is 2024-02-29: one spot check that the civil conversion counts the leap day of 2024 |
| Calendar.MonthKeyIsMonthLabel | src/modules/statistics/statistic.service.ts:59-62 | for four-digit years the `%Y-%m` bucket key equals the `${year}-${MM}` label the month filling checks |
| Schemas.NewUser | src/database/schemas/user.schema.ts:64-65 | a new user record has deposit 0, no Stripe customer and no cards |
| Schemas.FitsSchema | src/database/schemas/transaction.schema.ts:15-33 | the ledger schema's required `userId`, `operator` and `type`, and `description` of at most 2000 characters (a predicate) |
| Schemas.UniqueCustomerIds | src/database/schemas/user.schema.ts:69 | the unique index: no two users hold the same Stripe customer id (a predicate, kept by `AppRepository.Valid`) |
| Repository.Apply | src/modules/payments/services/paypal-payments.service.ts:63-74 | a `$set` patch overwrites just the fields it gives and keeps id, owner, amount, operator, type, method, description and fees |
| Repository.Matches | src/modules/payments/services/paypal-payments.service.ts:88-96 | a record matches a filter iff it agrees with every field the filter gives (a predicate; the filter semantics of `getOne` and `updateOne`) |
| Repository.FirstMatch | src/modules/payments/services/paypal-payments.service.ts:88-96 | the index of the first record matching a filter, or none iff no record matches |
| Repository.Lookup | src/modules/payments/services/paypal-payments.service.ts:88-100 | `getOne` returns a matching record of the store, or nothing iff none matches |
| Repository.UpdateFirst | src/modules/payments/services/paypal-payments.service.ts:121-131 | `updateOne` keeps the number of records |
| Repository.UpdateFirstEffect | src/modules/payments/services/paypal-payments.service.ts:121-131 | `updateOne` patches exactly the first matching record and leaves every other record unchanged |
| Repository.UpdateFirstNoMatch | src/modules/payments/services/stripe-payments.service.ts:569-582 | `updateOne` with no matching record silently changes nothing |
| Repository.UpdateFirstAppended | src/modules/payments/services/paypal-payments.service.ts:54-74 | patching a record just appended, when no older record matches, patches that record alone |
| Repository.UpdateFirstById | src/modules/payments/services/paypal-payments.service.ts:121-131 | a filter on a record's own id patches that record and nothing else |
| Repository.ById | src/modules/payments/services/payments.service.ts:33 | the filter `{_id: id}` matches exactly the records with that id |
| Repository.UpdateByIdEffect | src/modules/payments/services/payments.service.ts:31-49 | an update by id patches the record with that id and keeps all others |
| Repository.UpdateFirstKeepsIds | src/modules/payments/services/stripe-payments.service.ts:569-582 | no update changes a record's id |
| Repository.FirstCard | src/modules/payments/services/stripe-payments.service.ts:209-222 | the position of the first saved card with an id, or none iff there is none |
| Repository.SoftRemove | src/modules/payments/services/stripe-payments.service.ts:209-222 | a soft removal keeps the list's length, and only stamps `removedAt` on a card |
| Repository.SoftRemoveEffect | src/modules/payments/services/stripe-payments.service.ts:209-222 | exactly the first card with the id gets `removedAt`; all others are unchanged |
| Repository.EnsureUser | src/modules/payments/services/stripe-payments.service.ts:628-641 | after `getOne` and, when missing, `createOne`: the user exists, a known user is unchanged, a new one is the schema default, and no other user changes |
| Repository.WithCustomer | src/modules/payments/services/stripe-payments.service.ts:653-662 | the `$set` of customer id and connection time: that user gets both and keeps deposit and cards; every other user is unchanged and no user is added |
| Repository.AppRepository.constructor | src/database/app.repository.ts:6-11 | the store starts with no records and no users |
| Repository.AppRepository.Valid | src/database/schemas/user.schema.ts:69 | the store invariant: record ids unique and increasing, all below the next fresh id, and the unique index on the Stripe customer id (a predicate every method keeps) |
| Repository.AppRepository.NewObjectId | src/modules/payments/services/payments.service.ts:78 | `new ObjectId()` is fresh and larger than every id handed out |
| Repository.AppRepository.InsertOne | src/modules/payments/services/payments.service.ts:79-93 | a record with a caller-made id is appended with the creation time |
| Repository.AppRepository.CreateOne | src/modules/payments/services/paypal-payments.service.ts:54-56 | `createOne` appends one record with a fresh id and the creation time |
| Repository.AppRepository.GetOne | src/modules/payments/services/paypal-payments.service.ts:88-96 | `getOne` is the first match of the filter |
| Repository.AppRepository.UpdateOne | src/modules/payments/services/paypal-payments.service.ts:121-131 | the ledger becomes the first-match update of the old ledger |
| Repository.AppRepository.GetUser | src/modules/payments/services/paypal-payments.service.ts:102-106 | the user record, or nothing for an unknown user |
| Repository.AppRepository.SetDeposit | src/modules/payments/services/payments.service.ts:71-76 | the deposit of that user alone is overwritten; an unknown user changes nothing |
| Repository.AppRepository.IncDeposit | src/modules/payments/services/paypal-payments.service.ts:133-138 | `$inc` adds to that user's deposit alone |
| Repository.AppRepository.CreateUser | src/modules/payments/services/stripe-payments.service.ts:634-641 | a new user record with the schema defaults is added |
| Repository.AppRepository.PushCard | src/modules/payments/services/stripe-payments.service.ts:266-278 | `$push` appends the card to that user's list alone |
| Repository.AppRepository.MarkCardRemoved | src/modules/payments/services/stripe-payments.service.ts:209-222 | the positional update stamps the first card with the id, or changes nothing when there is none |
| Repository.AppRepository.SetStripeCustomer | src/modules/payments/services/stripe-payments.service.ts:653-662 | the customer id and the connection time are stored on that user alone (`WithCustomer`), unless another user has the id, when the unique index refuses the write and nothing changes |
| Dtos.RoundHalfUp | src/modules/payments/dtos/request-payment.dto.ts:7 | `Math.round` is within half of its argument, halves rounding up |
| Dtos.RoundToCents | src/modules/payments/dtos/request-payment.dto.ts:7 | the rounded amount is a whole number of cents within half a cent of the input |
| Dtos.RoundToCentsIdempotent | src/modules/payments/dtos/request-payment.dto.ts:7 | rounding a rounded amount changes nothing |
| Dtos.TransformedAmount | src/modules/payments/dtos/request-payment.dto.ts:7 | the `@Transform`: a missing amount stays missing, NaN stays NaN, a number is rounded to cents (a definition) |
| Dtos.ToNumber | src/modules/payments/dtos/request-payment.dto.ts:7 | the number `value * 100` starts from: NaN for undefined and, in this model, for strings (a definition; see Left out) |
| Dtos.AmountFailures | src/modules/payments/dtos/request-payment.dto.ts:7-11 | the decorators that fail on the transformed amount (a definition; `ValidateRequestPayment` states its meaning) |
| Dtos.ValidateRequestPayment | src/modules/payments/dtos/request-payment.dto.ts:7-11 | accepted iff present, numeric and 10 <= rounded <= 100000; the value is the rounded amount; a refusal names a failed constraint |
| Dtos.ValidatedAmountIsValid | src/modules/payments/dtos/request-payment.dto.ts:10-11 | an accepted amount lies within both bounds |
| Dtos.NonNumericAmountRejected | src/modules/payments/dtos/request-payment.dto.ts:8-9 | a missing or non-numeric amount fails `@IsNumber` |
| Dtos.BelowMinimumRejected | src/modules/payments/dtos/request-payment.dto.ts:11 | a rounded amount under 10 fails `@Min` with 'Minimum amount is 10' |
| Dtos.RoundingBeforeBounds | src/modules/payments/dtos/request-payment.dto.ts:7-11 | both bounds are inclusive and rounding comes first: 9.996 passes as 10, 9.994 and 100000.005 fail (exact arithmetic; see Left out) |
| Dtos.ValidateChargeServiceFee | src/modules/payments/dtos/charge-service-fee.dto.ts:4-15 | accepted iff both ids are non-empty strings and the amount is a number >= 0; any refusal names a failed field |
| Dtos.FeeFailures | src/modules/payments/dtos/charge-service-fee.dto.ts:4-15 | the field and decorator pairs that fail on a service-fee body (a definition; `ValidateChargeServiceFee` states its meaning) |
| Dtos.NotEmpty | src/modules/payments/dtos/charge-service-fee.dto.ts:4 | `@IsNotEmpty()`: neither `''`, `null` nor `undefined` (a definition; `StringFailures` and `ValidateChargeServiceFee` state it) |
| Dtos.StringFailures | src/modules/payments/dtos/charge-service-fee.dto.ts:4-10 | `@IsNotEmpty() @IsString()` of one id: no failure exactly when the value is a non-empty string, and every failure names that field |
| Dtos.ValidChargeServiceFee | src/modules/payments/dtos/charge-service-fee.dto.ts:4-15 | a validated service-fee request: non-empty ids and an amount >= 0 (a predicate) |
| Dtos.ZeroFeeAccepted | src/modules/payments/dtos/charge-service-fee.dto.ts:14 | a zero fee passes `@Min(0)` |
| CommonUtil.OtpChar | src/shared/utils/common.util.ts:2-5 | every drawn character is from A-Z0-9 and is never '-' |
| CommonUtil.GenerateActiveCardOtp | src/shared/utils/common.util.ts:1-8 | the OTP has exactly `length` characters, the k-th from the k-th draw, all from A-Z0-9, without '-' |
| CommonUtil.FilteredObject | src/shared/utils/common.util.ts:14-20 | exactly the keys whose value is not `undefined` are kept, with unchanged values |
| CommonUtil.FilteredObjectKeepsNull | src/shared/utils/common.util.ts:16 | a `null` value is kept |
| CommonUtil.FilteredObjectIdempotent | src/shared/utils/common.util.ts:14-20 | filtering twice equals filtering once |
| CommonUtil.FilteredObjectIdentity | src/shared/utils/common.util.ts:14-20 | an object without `undefined` values passes unchanged |
| PaymentsService.IdToString | src/modules/payments/services/payments.service.ts:91 | the text of a record id is non-empty |
| PaymentsService.PaymentRecord | src/modules/payments/services/payments.service.ts:17-21 | `{...createPaymentDto, paymentBy}`: the given fields and the payer, with no owner, operator or type |
| PaymentsService.ServiceFeeRecord | src/modules/payments/services/payments.service.ts:78-92 | the fee record: a SUCCEEDED SERVICE_CHARGE debit of the fee, for the user and meeting, whose transactionId is its own id, and it fits the ledger schema |
| PaymentsService.TopUpRecord | src/modules/payments/services/paypal-payments.service.ts:40-53 | the top-up record: a PENDING USER_TOP_UP credit of the amount, by the chosen method, with the 0.03 fee rates, without transactionId, and it fits the schema |
| PaymentsService.ResolvedAs | src/modules/payments/services/payments.service.ts:31-49 | the patch of `markPaymentSuccess` and `markPaymentFailed`: applied to any record it sets the given status and `isResolved: true` and leaves every other field as it was |
| PaymentsService.PaymentsService.constructor | src/modules/payments/services/payments.service.ts:15 | the service writes through the given store |
| PaymentsService.PaymentsService.Create | src/modules/payments/services/payments.service.ts:17-21 | one record holding exactly the given fields plus `paymentBy` is appended; users unchanged |
| PaymentsService.PaymentsService.MarkPaymentSuccess | src/modules/payments/services/payments.service.ts:31-39 | the record with the id becomes SUCCEEDED and resolved whatever its status; nothing else changes |
| PaymentsService.PaymentsService.MarkPaymentFailed | src/modules/payments/services/payments.service.ts:41-49 | the same with FAILED |
| PaymentsService.PaymentsService.ChargeServiceFee | src/modules/payments/services/payments.service.ts:57-94 | unknown user or deposit < fee: refused before any write; otherwise only that user's deposit drops by the fee (staying >= 0, so deposit == fee leaves 0) and exactly the fee record is appended |
| PaypalPayments.PendingOrder | src/modules/payments/services/paypal-payments.service.ts:88-96 | the filter matches exactly the user's PENDING PayPal top-ups carrying the order id |
| PaypalPayments.PendingById | src/modules/payments/services/paypal-payments.service.ts:121-125 | the filter matches exactly the PENDING record with the id |
| PaypalPayments.SettleAt | src/modules/payments/services/paypal-payments.service.ts:121-131 | settling the PENDING record at k changes that record's status to SUCCEEDED and nothing else |
| PaypalPayments.PaypalPaymentsService.constructor | src/modules/payments/services/paypal-payments.service.ts:15-18 | the service writes through the given store |
| PaypalPayments.PaypalPaymentsService.RequestPayment | src/modules/payments/services/paypal-payments.service.ts:35-84 | exactly one PENDING PayPal credit of the amount is appended; once the order exists that same record, still PENDING, gets the order id and the order; no deposit changes |
| PaypalPayments.PaypalPaymentsService.FulfillPaypalPayment | src/modules/payments/services/paypal-payments.service.ts:86-143 | no PENDING record: no change; failed lookup or failed capture of an APPROVED order: no change; otherwise the record becomes SUCCEEDED and the deposit grows by the recorded amount (a non-APPROVED order is not captured) |
| PaypalPayments.PaypalPaymentsService.SettleOrder | src/modules/payments/services/paypal-payments.service.ts:121-138 | the record at k becomes SUCCEEDED, then the deposit grows by its amount iff the user record exists |
| PaypalPayments.PaypalPaymentsService.FulfillTwice | src/modules/payments/services/paypal-payments.service.ts:88-138 | two fulfils of one order, each with its own PayPal replies, credit at most once; after a credited first call the ledger holds the one settled record, the deposit the one credit, and the second call returns with no change |
| StripePayments.TopUpStatus | src/modules/payments/services/stripe-payments.service.ts:699-704 | 'succeeded' maps to SUCCEEDED, 'canceled' to FAILED, every other status to PENDING |
| StripePayments.ActiveCardStatus | src/modules/payments/services/stripe-payments.service.ts:476-496 | Succeeded maps to SUCCEEDED, RequiresAction to INCOMPLETE, everything else to FAILED |
| StripePayments.StatementDescriptor | src/modules/payments/services/stripe-payments.service.ts:448 | `lider-${otp}` holds a '-' and is six characters longer than the OTP |
| StripePayments.OtpFromDescriptor | src/modules/payments/services/stripe-payments.service.ts:560 | `split('-')[1]` is undefined iff the descriptor holds no '-' |
| StripePayments.OtpRoundTrip | src/modules/payments/services/stripe-payments.service.ts:560 | `split('-')[1]` of the descriptor `lider-<otp>` written at line 448 gives the OTP back iff the OTP holds no '-' |
| StripePayments.GeneratedOtpRoundTrip | src/modules/payments/services/stripe-payments.service.ts:560 | every OTP over A-Z0-9 survives the round trip through the descriptor written at line 448 |
| StripePayments.TotalCharged | src/modules/payments/services/stripe-payments.service.ts:688 | the charged total is amount + 3% + 3%, more than the amount |
| StripePayments.TopUpIntentRequest | src/modules/payments/services/stripe-payments.service.ts:733-772 | no customer, a failed lookup or no default method: the matching error; otherwise the request charges the total in cents to that customer's default method, with 3-D Secure iff total >= 250 |
| StripePayments.ThreeDSecureFromAmount | src/modules/payments/services/stripe-payments.service.ts:762 | 3-D Secure is forced iff the requested amount is at least 250/1.06 |
| StripePayments.CardCheck | src/modules/payments/services/stripe-payments.service.ts:513-522 | the card passes iff its customer id is strictly equal to the profile's (`===`, so `null` and a missing id differ) and it is not ACTIVE; a foreign card is refused as not owned |
| StripePayments.DetachedCardNotOwned | src/modules/payments/services/stripe-payments.service.ts:513-517 | a card attached to no customer (`null`) is refused for a profile without a customer id (`undefined`) |
| StripePayments.UnresolvedActivation | src/modules/payments/services/stripe-payments.service.ts:523-535 | the filter matches exactly this user's unresolved activation payments of this card |
| StripePayments.ActivationChecksPass | src/modules/payments/services/stripe-payments.service.ts:388-410 | the checks `activeCard` makes before writing (a predicate) |
| StripePayments.OtpCheck | src/modules/payments/services/stripe-payments.service.ts:552-568 | passes iff the intent succeeded, its descriptor carries this OTP and now <= expiry (strict `>` test); an unfinished intent is reported as such |
| StripePayments.OtpAcceptedUntilExpiry | src/modules/payments/services/stripe-payments.service.ts:560-567 | a sent OTP is accepted up to its expiry second and refused as expired one second later |
| StripePayments.ActivationRecord | src/modules/payments/services/stripe-payments.service.ts:454-473 | the activation record is one `getPaymentHistoryActiveCard` finds (this card, this user, ACTIVE_CARD, unresolved), with the fee, the intent id and the mapped status |
| StripePayments.ActivationReplyFor | src/modules/payments/services/stripe-payments.service.ts:476-510 | the answer to an activation payment: the intent id for SUCCEEDED, the client secret for INCOMPLETE, and a verification failure otherwise (a definition) |
| StripePayments.ActivationRecordOutsideSchema | src/modules/payments/services/stripe-payments.service.ts:454-473 | the activation record sets no userId, operator or type, and so does not fit the ledger schema |
| StripePayments.SwappedUpdateKeepsUnresolved | src/modules/payments/services/stripe-payments.service.ts:569-582 | as written, the history update never changes an unresolved record |
| StripePayments.FailedActivationBlocksRetry | src/modules/payments/services/stripe-payments.service.ts:569-582 | as written, after a FAILED activation payment the retry's SUCCEEDED record is never found; with the intended update it is |
| StripePayments.SwappedUpdateRelabelsOtherRecord | src/modules/payments/services/stripe-payments.service.ts:569-582 | as written, another user's resolved SUCCEEDED top-up is relabelled as this card's unresolved activation |
| StripePayments.ClaimAsActivation | src/modules/payments/services/stripe-payments.service.ts:569-582 | the as-written update's patch: the activation fields of this card and user, unresolved (a definition) |
| StripePayments.SwappedActivationUpdate | src/modules/payments/services/stripe-payments.service.ts:569-582 | the as-written update keeps the number of records and every id |
| StripePayments.ResolveActivationUpdate | src/modules/payments/services/stripe-payments.service.ts:569-582 | the intended update keeps the number of records and every id |
| StripePayments.ResolveActivationEffect | src/modules/payments/services/stripe-payments.service.ts:569-582 | the intended update (the one the comment at line 370 describes) touches only a record of this card and user, and leaves none unresolved when there was one |
| StripePayments.SwappedIntentUpdate | src/modules/payments/services/stripe-payments.service.ts:604-620 | the as-written update keeps the number of records, every id and every status |
| StripePayments.IntentStatusUpdate | src/modules/payments/services/stripe-payments.service.ts:604-620 | the intended update keeps the number of records and every id |
| StripePayments.SwappedIntentUpdateMisses | src/modules/payments/services/stripe-payments.service.ts:604-620 | as written, the intent's own PENDING record stays PENDING, while an unrelated SUCCEEDED record gets the intent id |
| StripePayments.IntentStatusUpdateEffect | src/modules/payments/services/stripe-payments.service.ts:604-620 | the intended update changes no transaction id and sets the status of the first record with the intent id alone |
| StripePayments.CardViews | src/modules/payments/services/stripe-payments.service.ts:70-84 | one row per listed method, same id, card and verification, flagged default iff it is the customer's default |
| StripePayments.AtMostOneDefault | src/modules/payments/services/stripe-payments.service.ts:70-84 | with distinct ids at most one row is the default |
| StripePayments.FirstOther | src/modules/payments/services/stripe-payments.service.ts:196-198 | the first listed method other than the removed one, or none iff there is no other |
| StripePayments.SelectedAsWritten | src/modules/payments/services/stripe-payments.service.ts:628-633 | the misspelt `select: 'billing.stripe'` returns no customer id |
| StripePayments.SelectedBillings | src/modules/payments/services/stripe-payments.service.ts:628-633 | selecting `billings.stripe` keeps the customer id and the cards |
| StripePayments.SelectionTypoHidesCustomer | src/modules/payments/services/stripe-payments.service.ts:628-651 | a user with a customer id comes back without it |
| StripePayments.CustomerIdUnused | src/database/schemas/user.schema.ts:69 | no other user holds the customer id, so the unique index admits it (a predicate) |
| StripePayments.StripePaymentsService.constructor | src/modules/payments/services/stripe-payments.service.ts:42-48 | the store plus the OTP lifetime and activation fee, taken as constants |
| StripePayments.StripePaymentsService.RequestPaymentIntent | src/modules/payments/services/stripe-payments.service.ts:669-731 | the PENDING Stripe credit is appended first; a refused guard or failed Stripe call leaves it PENDING without credit; otherwise that record gets the intent id and mapped status, and the deposit grows by the requested amount iff SUCCEEDED |
| StripePayments.StripePaymentsService.RecordIntent | src/modules/payments/services/stripe-payments.service.ts:699-721 | the newest record gets the intent id and mapped status; the deposit grows by the amount iff SUCCEEDED |
| StripePayments.StripePaymentsService.CreateActiveCardPayment | src/modules/payments/services/stripe-payments.service.ts:421-511 | the OTP round-trips through the descriptor and expires at now + lifetime; once Stripe answers, an unresolved record with the mapped status is stored in all three cases, and FAILED is then refused |
| StripePayments.StripePaymentsService.UpdatePaymentHistoryActiveCard | src/modules/payments/services/stripe-payments.service.ts:569-582 | the ledger becomes the as-written swapped update; users unchanged |
| StripePayments.StripePaymentsService.ResolvePaymentHistoryActiveCard | src/modules/payments/services/stripe-payments.service.ts:569-582 | the ledger becomes the intended resolving update; users unchanged |
| StripePayments.StripePaymentsService.RequestActiveStripeCard | src/modules/payments/services/stripe-payments.service.ts:358-386 | a failed lookup or check changes nothing and draws no OTP; otherwise the OTP is the drawn characters and round-trips through the descriptor, an existing unresolved record gets the (as-written) history update, then the activation payment is made |
| StripePayments.StripePaymentsService.ActiveCard | src/modules/payments/services/stripe-payments.service.ts:388-419 | a failed check (card, unresolved SUCCEEDED activation record, intent, OTP on time) changes nothing; once the checks pass the history update is made, and the call gives the ACTIVE metadata iff Stripe accepts the metadata update; a refused update is reported as an error, where the source returns the wrapper's error object as its answer (see Left out) |
| StripePayments.StripePaymentsService.CheckPaymentIntent | src/modules/payments/services/stripe-payments.service.ts:595-625 | as written: a succeeded intent puts its id on the first SUCCEEDED record; a payment-method failure on the first FAILED; any other status changes nothing and fails |
| StripePayments.StripePaymentsService.CheckPaymentIntentCorrected | src/modules/payments/services/stripe-payments.service.ts:595-625 | the record carrying the intent id takes the verified status |
| StripePayments.StripePaymentsService.FindStripeCardsByUser | src/modules/payments/services/stripe-payments.service.ts:49-85 | no customer gives an empty list; otherwise the card rows, or the Stripe error |
| StripePayments.StripePaymentsService.RemoveStripeCard | src/modules/payments/services/stripe-payments.service.ts:178-228 | the result on every path: no user, no customer, each failed Stripe call (default lookup, list, default update when there is another method, detach), no card record, or success; success soft-deletes the card record alone, every failure writes nothing, and the new default sent is the first other listed method |
| StripePayments.StripePaymentsService.AttachPaymentMethod | src/modules/payments/services/stripe-payments.service.ts:234-281 | the attached card is appended to the user's list, and the request to make it the default is made iff the list already held a record |
| StripePayments.StripePaymentsService.CreateCustomer | src/modules/payments/services/stripe-payments.service.ts:627-667 | as written: the users map on every path; a missing user is created with deposit 0 and stays created; a new customer is always created and stored with the connection time, keeping the deposit and cards, unless another user holds its id; a failed creation writes nothing more |
| StripePayments.StripePaymentsService.CreateCustomerCorrected | src/modules/payments/services/stripe-payments.service.ts:627-667 | a user with a customer keeps it and nothing is written; otherwise the users map and result of `CreateCustomer` on each path: created and stored, refused as a duplicate, or Stripe's error |
| Helper.Mb2Bytes | src/helper/helper/helper.service.ts:5-7 | mb times 1048576 |
| Helper.Gaps | src/helper/helper/helper.service.ts:43-55 | two added records per missing label |
| Helper.Missing | src/helper/helper/helper.service.ts:43-55 | the records one label adds: none exactly when the label is present, and otherwise records of that label with amount 0 |
| Helper.GapsAdded | src/helper/helper/helper.service.ts:43-55 | an added record is a zero record of a label of the range that is not present |
| Helper.GapsMissing | src/helper/helper/helper.service.ts:43-55 | every missing label gets both its 'Amount In' and 'Amount Out' zero records |
| Helper.GapsAppend | src/helper/helper/helper.service.ts:33-57 | the gaps of two consecutive ranges are the gaps of each, in order |
| Helper.GapsPerLabel | src/helper/helper/helper.service.ts:43-55 | a missing label gets exactly one zero record of each flow per time it occurs in the range |
| Helper.InsertByDate | src/helper/helper/helper.service.ts:63 | insertion adds exactly the one record |
| Helper.InsertByDateSorted | src/helper/helper/helper.service.ts:63 | insertion into a date-sorted series keeps it sorted |
| Helper.SortByDate | src/helper/helper/helper.service.ts:63 | the result is sorted by date and a permutation of the input (the same sort is at line 117) |
| Helper.FilledProperties | src/helper/helper/helper.service.ts:60-65 | the filled series is sorted, is the data plus the gaps as a multiset, has length data + 2 x missing, keeps every record and covers every label |
| Helper.Filled | src/helper/helper/helper.service.ts:59-65 | the data plus the gaps of the labels, sorted by date (a definition; `FilledProperties` states what it promises) |
| Helper.FilledKeeps | src/helper/helper/helper.service.ts:60 | every record of the series is kept unchanged (likewise line 114) |
| Helper.FilledCovers | src/helper/helper/helper.service.ts:43-55 | every label of the range has a record |
| Helper.FilledOnlyAdded | src/helper/helper/helper.service.ts:43-55 | an added record is a zero record of a label the series lacked |
| Helper.Labels | src/helper/helper/helper.service.ts:39 | the labels of periods first to last number last - first + 1, or 0 |
| Helper.LabelsAt | src/helper/helper/helper.service.ts:92-110 | the k-th label is that of period first + k |
| Helper.LabelsCovered | src/helper/helper/helper.service.ts:92-110 | every period of the range has a record after filling |
| Helper.LabelsOnlyAdded | src/helper/helper/helper.service.ts:92-110 | an added record is a zero record of some period of the range |
| Helper.LabelsOnlyPeriods | src/helper/helper/helper.service.ts:92-110 | a label of the range is the label of a period in it |
| Helper.FillMissingMonths | src/helper/helper/helper.service.ts:9-66 | the result is the month filling of the split and parsed bounds |
| Helper.MonthsFilled | src/helper/helper/helper.service.ts:9-66 | the month filling of the parsed bounds (a definition; `MonthsFilledCover` and `MonthsOnlyAdded` state it) |
| Helper.FillMonthsWith | src/helper/helper/helper.service.ts:10-65 | the loops give the data plus the gaps of the visited months, sorted |
| Helper.PresentDates | src/helper/helper/helper.service.ts:16-18 | the set of dates is exactly the dates of the data (likewise lines 75-77) |
| Helper.FillYears | src/helper/helper/helper.service.ts:33-57 | the outer loop appends the gaps of every visited year's months, in order |
| Helper.YearBlocksNone | src/helper/helper/helper.service.ts:33 | no year before the first is visited |
| Helper.YearBlocksStep | src/helper/helper/helper.service.ts:33-57 | one more year appends that year's months and their gaps |
| Helper.FillMonthsOfYear | src/helper/helper/helper.service.ts:35-56 | one year appends the gaps of its months from startMonth to endMonth |
| Helper.StartMonth | src/helper/helper/helper.service.ts:35 | the first month of a year: the parsed month of `from` in its year, January after (a definition; `FillMonthsOfYear` and `YearMonthsCover` state it) |
| Helper.EndMonth | src/helper/helper/helper.service.ts:36 | the last month of a year: the parsed month of `to` in its year, December before (a definition; `FillMonthsOfYear` and `YearMonthsCover` state it) |
| Helper.FillYear | src/helper/helper/helper.service.ts:39-56 | the inner loop appends the gaps of the months first to last |
| Helper.YearBlocksCover | src/helper/helper/helper.service.ts:33-57 | a month within a visited year's bounds is visited |
| Helper.YearMonthsCover | src/helper/helper/helper.service.ts:35-41 | a month between the year's first and last month has its label |
| Helper.MonthLabelsCover | src/helper/helper/helper.service.ts:25-41 | every (year, month) from `from`'s to `to`'s is visited, for real months |
| Helper.MonthLabelsParsed | src/helper/helper/helper.service.ts:25-33 | once both years parse, the visited months are the year blocks of the parsed bounds |
| Helper.MonthsFilledCover | src/helper/helper/helper.service.ts:33-57 | every month from `from`'s to `to`'s has a record in the output |
| Helper.MonthsOnlyAdded | src/helper/helper/helper.service.ts:43-55 | an added record is a zero record of a visited month the series lacked |
| Helper.RangeCover | src/helper/helper/helper.service.ts:33-41 | a month between the parsed bounds is visited |
| Helper.MonthsNaNYearAddsNothing | src/helper/helper/helper.service.ts:29-33 | a bound whose year is NaN adds nothing; the result is the sorted input |
| Helper.MonthsReversedAddNothing | src/helper/helper/helper.service.ts:33-39 | when `from`'s month is after `to`'s, no month is visited and the result is the sorted input |
| Helper.RangeReversed | src/helper/helper/helper.service.ts:33-39 | a reversed range of real months visits nothing |
| Helper.LeadingFields | src/helper/helper/helper.service.ts:25-26 | the first two '-' fields of `y-m-rest` are y and m |
| Helper.DateField | src/helper/helper/helper.service.ts:25-30 | `parseInt` of a field of `split('-')`, where a missing field is `undefined` and reads as NaN (a definition; `LeadingFields` and `DayLabelFields` state it) |
| Helper.PaddedHasNoDash | src/helper/helper/helper.service.ts:40 | a zero-padded number holds no '-' |
| Helper.DayLabelFields | src/helper/helper/helper.service.ts:25-30 | a `YYYY-MM-DD` label parses back to its year and month |
| Helper.FillMissingDays | src/helper/helper/helper.service.ts:68-120 | the result is the day filling of the range |
| Helper.DaysFilled | src/helper/helper/helper.service.ts:68-118 | the day filling of the range (a definition; `DaysFilledRange` states it) |
| Helper.FillDaysWith | src/helper/helper/helper.service.ts:90-111 | the loop gives the data plus the gaps of the days from..to, sorted |
| Helper.DaysFilledRange | src/helper/helper/helper.service.ts:90-111 | every day of the range has a record, an added record is a zero record of such a day, and an empty range adds nothing |
| Statistics.Rows | src/modules/statistics/statistic.service.ts:52-55 | one row per ledger record, in order |
| Statistics.CreditOf | src/modules/statistics/statistic.service.ts:67-77 | the `$cond` on `$operator`: a record's amount when it is '+', and 0 for '-' or a missing operator |
| Statistics.DebitOf | src/modules/statistics/statistic.service.ts:78-88 | the `$cond` on `$operator`: a record's amount when it is '-', and 0 for '+' or a missing operator |
| Statistics.InWindow | src/modules/statistics/statistic.service.ts:34-50 | the `$match` of the report: a record of the user (by `userId`) whose time lies from the first second of the first day to the last second of the last day, whatever its status (a predicate; `WindowMembers` states it) |
| Statistics.Window | src/modules/statistics/statistic.service.ts:17-50 | the matched records are a subsequence of the ledger |
| Statistics.WindowMembers | src/modules/statistics/statistic.service.ts:17-50 | a record is matched iff it is the user's and its time is in the day range; its status plays no part |
| Statistics.WindowDays | src/modules/statistics/statistic.service.ts:34-50 | a matched record's day lies in the range |
| Statistics.Keys | src/modules/statistics/statistic.service.ts:57-63 | one key per bucket |
| Statistics.KeysAdded | src/modules/statistics/statistic.service.ts:57-63 | a record adds its key to the keys and nothing else |
| Statistics.Absorb | src/modules/statistics/statistic.service.ts:57-89 | one record into its key's bucket: the first time kept, its amount added to In for '+' and to Out for '-'; with no bucket yet, a new one starting at the record's time (a definition) |
| Statistics.AddToGroups | src/modules/statistics/statistic.service.ts:57-89 | a record joins its key's bucket, or opens a new one at the end (a definition; `AddToGroupsLookup` and `AddToGroupsTotals` state it) |
| Statistics.Groups | src/modules/statistics/statistic.service.ts:56-90 | `$group` over the matched records in their order (a definition; `GroupsLookup`, `GroupSums` and `GroupsTotals` state it) |
| Statistics.BucketOfKeys | src/modules/statistics/statistic.service.ts:57-63 | a key has a bucket iff it is among the keys |
| Statistics.AddToGroupsLookup | src/modules/statistics/statistic.service.ts:57-89 | adding a record keeps the keys distinct and changes only its own bucket, which absorbs it |
| Statistics.NoRowsNoSums | src/modules/statistics/statistic.service.ts:67-88 | a key without records has zero sums |
| Statistics.GroupsLookup | src/modules/statistics/statistic.service.ts:52-90 | `$group` keys are distinct; a key's bucket exists iff some record has it, with the first record's time and that key's sums |
| Statistics.GroupSums | src/modules/statistics/statistic.service.ts:64-88 | every bucket holds its key's first time, the sum of its '+' amounts and the sum of its '-' amounts; 'none' counts in neither |
| Statistics.AddToGroupsTotals | src/modules/statistics/statistic.service.ts:67-88 | one record adds its credit to the In total and its debit to the Out total |
| Statistics.GroupsTotals | src/modules/statistics/statistic.service.ts:67-88 | the buckets' sums add up to the credits and debits of all matched records |
| Statistics.InsertBucket | src/modules/statistics/statistic.service.ts:91-95 | insertion adds exactly the one bucket |
| Statistics.InsertBucketSorted | src/modules/statistics/statistic.service.ts:91-95 | insertion keeps the buckets sorted by first time |
| Statistics.SortBuckets | src/modules/statistics/statistic.service.ts:91-95 | `$sort` is ascending by first time and a permutation of the buckets |
| Statistics.Flattened | src/modules/statistics/statistic.service.ts:105-117 | two records per bucket |
| Statistics.FlattenedAt | src/modules/statistics/statistic.service.ts:105-117 | bucket i gives records 2i (In) and 2i+1 (Out) with its key and sums, in bucket order |
| Statistics.FlattenedDates | src/modules/statistics/statistic.service.ts:105-117 | the series has a record for a date iff a bucket has that key |
| Statistics.Flatten | src/modules/statistics/statistic.service.ts:105-117 | the `reduce` builds exactly the flattened series |
| Statistics.GranularityOf | src/modules/statistics/statistic.service.ts:26-32 | monthly iff the range exceeds 45 days, otherwise daily; never yearly |
| Statistics.KeyFunction | src/modules/statistics/statistic.service.ts:26-32 | the `$dateToString` format of a granularity, as a key of the record time (a definition) |
| Statistics.ChooseFormat | src/modules/statistics/statistic.service.ts:26-32 | the format the three assignments leave is that granularity |
| Statistics.Series | src/modules/statistics/statistic.service.ts:52-117 | the `$match`, `$group`, `$sort` and `reduce` of the report (a definition; `SeriesSums` states it) |
| Statistics.Report | src/modules/statistics/statistic.service.ts:16-134 | `statisticAmountInAmountOut` on the ledger (a definition; `ReportGranularity`, `DefaultReport` and the daily and monthly lemmas state it) |
| Statistics.ReportIgnoresStatus | src/modules/statistics/statistic.service.ts:17-50 | records that differ only in status give the same report |
| Statistics.SeriesSums | src/modules/statistics/statistic.service.ts:52-117 | each sorted bucket gives its In and Out records with the sums of its key's records |
| Statistics.ReportGranularity | src/modules/statistics/statistic.service.ts:119-132 | a range over 45 days is the month-filled monthly series, any other the day-filled daily series |
| Statistics.DefaultReport | src/modules/statistics/statistic.service.ts:20-25 | with no bounds the report is the daily series of today - 7 to today, day-filled |
| Statistics.Given | src/modules/statistics/statistic.service.ts:20-25 | `query.from` / `query.to` is truthy: present and not the empty text (a definition; `DefaultReport` states it) |
| Statistics.BoundText | src/modules/statistics/statistic.service.ts:20-25 | a bound's text: the query's when given, otherwise the `YYYY-MM-DD` label of its default day (a definition; `DefaultReport` states it) |
| Statistics.BoundDay | src/modules/statistics/statistic.service.ts:20-25 | a bound's day: the given text read as a date, otherwise its default day (a definition; `DefaultReport` states it) |
| Statistics.DailyReportHasDay | src/modules/statistics/statistic.service.ts:126-132 | a daily report has a record for every day of its range |
| Statistics.DailyReportRecord | src/modules/statistics/statistic.service.ts:126-132 | a daily report's record is a series record or a zero record of a day in range |
| Statistics.DailyReportKeeps | src/modules/statistics/statistic.service.ts:126-132 | a daily report keeps every series record |
| Statistics.MonthlyReportCoversMonths | src/modules/statistics/statistic.service.ts:119-125 | a monthly report with day-label bounds has a record for every month between them |
| Statistics.TotalsAppend | src/modules/statistics/statistic.service.ts:136-178 | one more record changes the totals iff it is the user's and SUCCEEDED, adding its credit and debit |
| Statistics.TotalsWithoutSettled | src/modules/statistics/statistic.service.ts:173-178 | without SUCCEEDED records the totals are zeros |
| Statistics.Settled | src/modules/statistics/statistic.service.ts:139-142 | the `$match` of the totals: the user's SUCCEEDED records (a definition) |
| Statistics.TotalsOf | src/modules/statistics/statistic.service.ts:136-179 | `statisticTotal` (a definition; `TotalsAppend` and `TotalsWithoutSettled` state it) |
| Statistics.StatisticService.constructor | src/modules/statistics/statistic.service.ts:11-14 | the service reads the given store |
| Statistics.StatisticService.StatisticAmountInAmountOut | src/modules/statistics/statistic.service.ts:16-134 | the report of the stored ledger for the user, query, today and date reading |
| Statistics.StatisticService.StatisticTotal | src/modules/statistics/statistic.service.ts:136-179 | the one-element totals of the user's SUCCEEDED records |

## Left out

- Network, databases and SDKs. The Stripe and PayPal SDK wrappers (`stripe.service.ts`, `paypal.service.ts`), Redis and axios are not part of this model. Their results are `Result` parameters of the methods; the reply of `updateStripeCustomer` in `attachPaymentMethod` is not, because the source ignores it.
- The user profile. `user.service.ts` is a mock; the profile it returns is a parameter (`Profile`).
- The wiring. Controllers, modules, providers and configuration only route HTTP requests and wire dependencies.
- The constants. `OTP_STRIPE_CARD_EXPIRED` and `STRIPE_ACTIVE_CARD_FEE` come from a constants file that is not part of this model. They are constructor constants of `StripePaymentsService`.
- The base repository, including `transaction.repository.ts` paging and search. The base class is not part of this model. Its primitives are given the semantics the services need: append with a fresh id; first match; first-match update that silently does nothing; `$inc`.
- Mongoose schema enforcement on write is not applied by `createOne`. `Schemas.FitsSchema` states the constraints instead, and `ActivationRecordOutsideSchema` shows which record breaks them.
- The `paymentMethod` maxlength of 100. The enum values hold by construction.
- The `logs`, `customId`, `email` and PayPal billing fields. No modelled operation reads them.
- Concurrency. The read-modify-write of the deposit in `chargeServiceFee`, and the `$inc` that follows a conditional update in `fulfillPaypalPayment`, are modelled as sequential steps.
- Floating point. Amounts are exact reals, so the 0.03 rates, `* 1.06`, `Math.round(v * 100) / 100` and `toFixed` are exact.
- Dtos.ToNumber treats every string body value as non-numeric. In JavaScript `"12" * 100` is 1200, so a numeric string would pass `@Transform`, and its result would then pass `@IsNumber`. The model refuses all strings.
- Dtos.ValidateRequestPayment: class-validator's default messages are not modelled. Only the custom `@Min` message is.
- StripePayments.TopUpIntentRequest: the request charges `Math.round(total * 100)` cents, as `createPaymentIntent` writes it. `convertToSmallestUnit`, used for the activation payment, is not part of this model, and so its amount is not modelled.
- Dtos.RoundingBeforeBounds: stated in exact arithmetic. In IEEE doubles `9.995 * 100` is 999.4999999999999, so `Math.round` gives 999 and 9.995 is refused, while exact rounding would accept it; the inputs the lemma names behave the same in both.
- PaypalPayments.PaypalPaymentsService.FulfillTwice assumes the ledger holds one PENDING record of the order. Nothing in the source enforces it: `transactionId` has no unique index (the ledger schema indexes only `userId`). It holds when PayPal returns a fresh order id for every `requestPayment`. With two PENDING records of one order, two fulfils would credit twice.
- PaymentsService.PaymentsService.MarkPaymentSuccess and MarkPaymentFailed do not return the updated document that `findOneAndUpdate` hands back.
- StripePayments.StripePaymentsService.CreateActiveCardPayment: the record's `description`, the text of `generateDescription`, is left unset.
- StripePayments.StripePaymentsService.ActiveCard: when Stripe refuses the final metadata update, the source does not throw; it returns the wrapper's error object as the call's answer. The model reports that case as a `Processor` error, so it does not model the shape of that answer.
- StripePayments.OtpCheck reports a missing statement descriptor as `MissingRecord`; the source throws a TypeError from `split`, which `activeCard` turns into a BadRequest.
- Statistics.GroupsLookup: `$first` is taken over the matched records in insertion order. Mongo does not fix the order of `$match`'s output without a `$sort`, so the first time of a bucket may in fact come from any of its records.
- Clocks, time zones and ObjectId timestamps are not modelled:
  - days are day numbers since 1970-01-01 UTC;
  - `moment`, `new Date(text)` and ObjectId encoding (`createMongoIdByTimestamp`, not part of this model) become a `parseDay` parameter and the record's `createdAt`;
  - the time of day inside a query text is not modelled.
- Statistics.Report requires both bounds to read as dates. An invalid date would make `createMongoIdByTimestamp` produce an id the model does not have. `GranularityOf` still handles the NaN difference.
- Statistics.MonthlyReportCoversMonths is stated only for bounds written as `YYYY-MM-DD` with four-digit years, which are the labels the service writes by default.
- Helper.SortByDate: JavaScript's `sort` with a comparator that never returns 0 leaves the order of equal dates open. The model keeps insertion order; the contract fixes only sortedness and permutation.
- Statistics.SortBuckets: Mongo's order for equal first times is open. The model keeps insertion order.
- Strings.ParseInt: leading blanks, `0x` prefixes and numbers beyond the safe-integer range are not modelled.
- Calendar.DayLabel: for a year outside 0-9999 the label keeps `toISOString`'s signed six-digit year and the whole date after it. The `.slice(0, 10)` at src/helper/helper/helper.service.ts:93 would cut that text to 10 characters, and the model does not cut it. For those years the label also does not match moment's `YYYY` (src/modules/statistics/statistic.service.ts:21-24) or Mongo's `%Y`. For years 0-9999 all three forms agree.
- Schemas.UniqueCustomerIds: the unique index is modelled on the stored customer ids only. A Mongo index that is not sparse would also reject a second user without a customer id, and that is not modelled.
- Schemas.User: no lower bound is put on `deposit`, because the schema sets none. Non-negativity comes only from the `ChargeServiceFee` guard.
- Other operations of the services that are not part of this model:
  - `findPaymentsByCurrentUser` and `getPaymentUser` (paging and plain reads);
  - `findStripeCardByPaymentId`, `createStripeCustomerIfNotExists`, `createPaymentMethodForCustomerIfNotExists`, `addStripeCard`, `setDefaultCard`, `getSetupIntentToken`, `createPaymentIntentCampaign`, `getPaymentIntent`;
  - `createOrder`, `capturePaymentOrder`, `getOrder`, `getCapturePaymentDetail`, which are direct calls to the processor wrappers.
- `getSearchPattern`, a regular-expression wrapper, and `generateDescription` and `parseObjectId`, which are not part of this model.

## Findings

| source | as written | input that shows it | evidently intended | confidence | as-written member | corrected member |
|---|---|---|---|---|---|---|
| src/modules/payments/services/stripe-payments.service.ts:569-582 | `updateOne` gets `where: {status: SUCCEEDED, isResolved: true}` and `data: {methodId, paymentBy, action: ACTIVE_CARD, isResolved: false}`, so filter and data are swapped | ledger `[failed]`, where `failed` is an unresolved FAILED activation record of card c, then a retry appending a SUCCEEDED record; `activeCard` still finds `failed` and refuses. Separately, another user's resolved SUCCEEDED top-up is relabelled as c's unresolved activation | resolve this card's unresolved activation record: filter on methodId/paymentBy/action/isResolved false, set isResolved true | not executed | StripePayments.FailedActivationBlocksRetry | StripePayments.ResolveActivationEffect |
| src/modules/payments/services/stripe-payments.service.ts:605-608, 616-619 | `updateOne` gets `where: {status}` and `data: {transactionId: intentId}` | ledger `[theirs (SUCCEEDED, pi_old), mine (PENDING, pi_new)]` with intent pi_new succeeded: `mine` stays PENDING and `theirs` gets transactionId pi_new | the record with transactionId = intent id takes the verified status | not executed | StripePayments.SwappedIntentUpdateMisses | StripePayments.IntentStatusUpdateEffect |
| src/modules/payments/services/stripe-payments.service.ts:632 | `select: 'billing.stripe'` names a path the user schema does not have (it is `billings`) | a user whose `billings.stripe.customerId` is set comes back without it, so `createCustomer` creates a second Stripe customer and overwrites the stored id | `select: 'billings.stripe'`, so an existing customer is retrieved and kept | not executed | StripePayments.SelectionTypoHidesCustomer | StripePayments.StripePaymentsService.CreateCustomerCorrected |
