/** The Stripe side of src/modules/payments/services/stripe-payments.service.ts:
    the card top-up (`requestPaymentIntent` and the guards of
    `createPaymentIntent`), the card-activation flow (`requestActiveStripeCard`,
    `createActiveCardPayment`, `activeCard`, `validateOTPActiveCard`,
    `updatePaymentHistoryActiveCard`), `checkPaymentIntent`, and the
    embedded card list (`findStripeCardsByUser`, `removeStripeCard`,
    `attachPaymentMethod`, `createCustomer`).  Every Stripe reply and the
    mocked user profile are parameters. */
module StripePayments {
  import opened Wrappers
  import opened Strings
  import opened Schemas
  import opened Errors
  import opened Repository
  import opened Dtos
  import opened CommonUtil
  import opened PaymentsService

  /** The status of a Stripe payment intent: the six values of
      `StripePaymentStatus`, and `requires_capture`, which Stripe can also
      return and the enum does not name. */
  datatype IntentStatus =
    | IntentCanceled | IntentProcessing | IntentRequiresAction | IntentRequiresConfirmation
    | IntentRequiresPaymentMethod | IntentSucceeded | IntentRequiresCapture

  /** The fields of a payment intent the services read. */
  datatype PaymentIntent = PaymentIntent(
    id: string,
    status: IntentStatus,
    clientSecret: Option<string>,
    paymentMethod: Option<string>,
    statementDescriptor: Option<string>)

  /** The ledger status `requestPaymentIntent` records for an intent. */
  function TopUpStatus(s: IntentStatus): (r: Status)
    ensures r == Succeeded <==> s == IntentSucceeded
    ensures r == Failed <==> s == IntentCanceled
    ensures r == Pending <==> s != IntentSucceeded && s != IntentCanceled
  {
    if s == IntentSucceeded then Succeeded
    else if s == IntentCanceled then Failed
    else Pending
  }

  /** The ledger status `createActiveCardPayment` records for an intent. */
  function ActiveCardStatus(s: IntentStatus): (r: Status)
    ensures r == Succeeded <==> s == IntentSucceeded
    ensures r == Incomplete <==> s == IntentRequiresAction
    ensures r == Failed <==> s != IntentSucceeded && s != IntentRequiresAction
  {
    match s
    case IntentSucceeded => Succeeded
    case IntentRequiresAction => Incomplete
    case _ => Failed
  }

  // ---------------------------------------------------------------- OTP

  const DescriptorPrefix := "lider"

  /** `lider-${otp}`, the statement descriptor that carries the OTP. */
  function StatementDescriptor(otp: string): (d: string)
    ensures '-' in d && |d| == |DescriptorPrefix| + 1 + |otp|
  {
    assert (DescriptorPrefix + "-" + otp)[|DescriptorPrefix|] == '-';
    DescriptorPrefix + "-" + otp
  }

  /** `statement_descriptor.split('-')[1]`; `undefined` when the text has
      no '-'. */
  function OtpFromDescriptor(d: string): (r: Option<string>)
    ensures r.None? <==> '-' !in d
  {
    var parts := Split(d, '-');
    if |parts| >= 2 then Some(parts[1]) else None
  }

  /** The descriptor gives the OTP back exactly when the OTP holds no '-'. */
  lemma {:induction false} OtpRoundTrip(otp: string)
    ensures OtpFromDescriptor(StatementDescriptor(otp)) == Some(otp) <==> '-' !in otp
  {
    assert StatementDescriptor(otp) == DescriptorPrefix + ['-'] + otp;
    SplitAtFirstSeparator(DescriptorPrefix, '-', otp);
    assert Split(StatementDescriptor(otp), '-')[1] == Split(otp, '-')[0];
    if '-' in otp {
      SplitFirstFieldShorter(otp, '-');
    } else {
      SplitWithoutSeparator(otp, '-');
    }
  }

  /** Every OTP the generator can produce survives the round trip. */
  lemma GeneratedOtpRoundTrip(otp: string)
    requires forall k :: 0 <= k < |otp| ==> otp[k] in Chars
    ensures OtpFromDescriptor(StatementDescriptor(otp)) == Some(otp)
  {
    OtpRoundTrip(otp);
  }

  // ------------------------------------------------------------- top-up

  /** The charged total: the amount plus the 3% service and 3% tax rates. */
  function TotalCharged(amount: real): (t: real)
    ensures t == amount * 1.06
    ensures amount > 0.0 ==> t > amount
  {
    amount + 0.03 * amount + 0.03 * amount
  }

  const ThreeDSecureThreshold := 250.0

  datatype ThreeDSecure = ThreeDSecureAny | ThreeDSecureAutomatic

  /** The payment intent `createPaymentIntent` asks Stripe for. */
  datatype IntentRequest = IntentRequest(
    amountCents: int,
    currency: string,
    customer: string,
    paymentMethod: string,
    threeDSecure: ThreeDSecure,
    userId: UserId,
    transactionId: Id)

  /** `createPaymentIntent`'s guards and request: the user needs a Stripe
      customer id and that customer a default payment method; the request
      charges the total in cents and forces 3-D Secure from 250 up.
      `customerDefault` is the customer's default payment method as Stripe
      returned it. */
  function TopUpIntentRequest(u: User, uid: UserId, total: real, transactionId: Id,
                              customerDefault: Result<Option<string>, string>): (r: Result<IntentRequest, Error>)
    ensures CustomerIdOf(u).None? ==> r == Err(StripeCustomerNotExist)
    ensures CustomerIdOf(u).Some? && customerDefault.Err? ==> r == Err(Processor(customerDefault.error))
    ensures CustomerIdOf(u).Some? && customerDefault == Ok(None) ==> r == Err(MissingDefaultPaymentMethod)
    ensures r.Ok? <==> CustomerIdOf(u).Some? && customerDefault.Ok? && customerDefault.value.Some?
    ensures r.Ok? ==>
      && r.value.amountCents == RoundHalfUp(total * 100.0)
      && r.value.customer == CustomerIdOf(u).value
      && r.value.paymentMethod == customerDefault.value.value
      && (r.value.threeDSecure == ThreeDSecureAny <==> total >= ThreeDSecureThreshold)
      && r.value.transactionId == transactionId && r.value.userId == uid
  {
    match CustomerIdOf(u)
    case None => Err(StripeCustomerNotExist)
    case Some(customer) =>
      match customerDefault
      case Err(m) => Err(Processor(m))
      case Ok(None) => Err(MissingDefaultPaymentMethod)
      case Ok(Some(pm)) =>
        Ok(IntentRequest(RoundHalfUp(total * 100.0), "usd", customer, pm,
                         if total >= ThreeDSecureThreshold then ThreeDSecureAny else ThreeDSecureAutomatic,
                         uid, transactionId))
  }

  /** In terms of the requested amount, 3-D Secure is forced from
      250 / 1.06 (about 235.85) up. */
  lemma ThreeDSecureFromAmount(amount: real)
    ensures TotalCharged(amount) >= ThreeDSecureThreshold <==> amount >= 12500.0 / 53.0
  {
  }

  /** The reply of `requestPaymentIntent`. */
  datatype TopUpReply = TopUpReply(paymentIntentId: string, clientSecret: Option<string>, paymentMethodId: Option<string>)

  // ----------------------------------------------------- card activation

  /** StripeCardStatus, kept in the Stripe payment method's metadata. */
  datatype CardStatus = CardPending | CardActive

  datatype CardMetadata = CardMetadata(status: Option<CardStatus>, otpExpiredAt: Option<Time>, country: Option<string>)

  /** A customer id as JavaScript holds it: a missing field (`undefined`),
      `null`, or a text.  Stripe writes `null` on a payment method attached
      to no customer; a profile without the field reads as `undefined`.
      Equality of these values is JavaScript's strict `===`. */
  datatype NullableId = AbsentId | NullId | SomeId(id: string)

  /** `findStripeCardByPaymentId`'s reply. */
  datatype StripeCard = StripeCard(paymentMethodId: string, stripeCustomerId: NullableId, metadata: CardMetadata)

  /** The fields of the user profile the flow reads. */
  datatype Profile = Profile(id: UserId, stripeCustomerId: NullableId)

  /** `validateUserOwnership` then `validateActiveCardStatus`; ownership is
      the strict `!==` of the two customer ids. */
  function CardCheck(card: StripeCard, profile: Profile): (r: Option<Error>)
    ensures r.None? <==> card.stripeCustomerId == profile.stripeCustomerId && card.metadata.status != Some(CardActive)
    ensures card.stripeCustomerId != profile.stripeCustomerId ==> r == Some(NotCardOwner)
  {
    if card.stripeCustomerId != profile.stripeCustomerId then Some(NotCardOwner)
    else if card.metadata.status == Some(CardActive) then Some(CardAlreadyApproved)
    else None
  }

  /** A card attached to no customer (Stripe's `null`) is not owned by a
      profile that has no customer id (`undefined`), since
      `null !== undefined`. */
  lemma DetachedCardNotOwned(card: StripeCard, profile: Profile)
    requires card.stripeCustomerId == NullId && profile.stripeCustomerId == AbsentId
    ensures CardCheck(card, profile) == Some(NotCardOwner)
  {
  }

  /** `getPaymentHistoryActiveCard`'s filter: the unresolved activation
      payment of this card by this user. */
  function UnresolvedActivation(paymentMethodId: string, uid: UserId): (w: Where)
    ensures forall e :: Matches(e, w) <==>
      e.methodId == Some(paymentMethodId) && e.paymentBy == Some(uid) &&
      e.action == Some(ActiveCard) && e.isResolved == Some(false)
  {
    AnyEntry.(methodId := Some(paymentMethodId), paymentBy := Some(uid), action := Some(ActiveCard), isResolved := Some(false))
  }

  /** `validateOTPActiveCard`: the intent must have succeeded, its
      descriptor must carry this OTP, and the OTP must not have expired
      (`now > otpExpiredAt`; with no expiry recorded it never expires). */
  function OtpCheck(otp: string, intent: PaymentIntent, metadata: CardMetadata, now: Time): (r: Option<Error>)
    ensures r.None? <==>
      && intent.status == IntentSucceeded
      && intent.statementDescriptor.Some?
      && OtpFromDescriptor(intent.statementDescriptor.value) == Some(otp)
      && (metadata.otpExpiredAt.Some? ==> now <= metadata.otpExpiredAt.value)
    ensures intent.status != IntentSucceeded ==> r == Some(IntentNotCompleted)
  {
    if intent.status != IntentSucceeded then Some(IntentNotCompleted)
    // the source calls `split` on the missing descriptor, which throws a
    // TypeError; the model reports the missing value
    else if intent.statementDescriptor.None? then Some(MissingRecord)
    else if OtpFromDescriptor(intent.statementDescriptor.value) != Some(otp) then Some(OtpInvalid)
    else if metadata.otpExpiredAt.Some? && now > metadata.otpExpiredAt.value then Some(OtpExpired)
    else None
  }

  /** An OTP sent with a descriptor is accepted on time, and refused one
      second after its expiry. */
  lemma OtpAcceptedUntilExpiry(otp: string, intent: PaymentIntent, metadata: CardMetadata, now: Time)
    requires forall k :: 0 <= k < |otp| ==> otp[k] in Chars
    requires intent.status == IntentSucceeded && intent.statementDescriptor == Some(StatementDescriptor(otp))
    requires metadata.otpExpiredAt.Some?
    ensures OtpCheck(otp, intent, metadata, now).None? <==> now <= metadata.otpExpiredAt.value
    ensures OtpCheck(otp, intent, metadata, metadata.otpExpiredAt.value + 1) == Some(OtpExpired)
  {
    GeneratedOtpRoundTrip(otp);
  }

  /** The ledger record of an activation payment: the fee, by this user,
      for this card, unresolved, with the status the intent maps to; it is
      the record `getPaymentHistoryActiveCard` looks for.  The text of
      `generateDescription` is not modelled, so `description` is left
      unset. */
  function ActivationRecord(paymentMethodId: string, paymentBy: UserId, fee: real, intentId: string, status: Status): (e: Entry)
    ensures Matches(e, UnresolvedActivation(paymentMethodId, paymentBy))
    ensures e.amount == fee && e.transactionId == Some(intentId) && e.status == status && e.description.None?
  {
    PaymentRecord(PaymentData(Some(paymentMethodId), Some(ActiveCard), None, fee, Some("usd"),
                              Some(intentId), Some(false), status), paymentBy)
  }

  /** The activation record sets neither `userId`, `operator` nor `type`,
      all three required by the ledger schema. */
  lemma ActivationRecordOutsideSchema(paymentMethodId: string, paymentBy: UserId, fee: real, intentId: string, status: Status)
    ensures ActivationRecord(paymentMethodId, paymentBy, fee, intentId, status).userId.None?
    ensures !FitsSchema(ActivationRecord(paymentMethodId, paymentBy, fee, intentId, status))
  {
  }

  /** What the activation flow answers. */
  datatype ActivationReply = PaymentSuccessful(intentId: string) | SecureRequired(clientSecret: Option<string>) | OtpSent

  /** The reply to a recorded activation payment of the given status. */
  function ActivationReplyFor(intent: PaymentIntent, status: Status): Result<ActivationReply, Error>
  {
    if status == Succeeded then Ok(PaymentSuccessful(intent.id))
    else if status == Incomplete then Ok(SecureRequired(intent.clientSecret))
    else Err(PaymentVerificationFailed)
  }

  // ------------------------------------- updatePaymentHistoryActiveCard

  /** As written, `updatePaymentHistoryActiveCard` passes its filter as the
      data and its data as the filter: it selects the first SUCCEEDED,
      resolved record of any user ... */
  const SucceededResolved := AnyEntry.(status := Some(Succeeded), isResolved := Some(true))

  /** ... and writes the activation fields onto it, marking it unresolved. */
  function ClaimAsActivation(paymentMethodId: string, uid: UserId): Patch
  {
    NoChange.(methodId := Some(paymentMethodId), paymentBy := Some(uid), action := Some(ActiveCard), isResolved := Some(false))
  }

  function SwappedActivationUpdate(s: seq<Entry>, paymentMethodId: string, uid: UserId): (r: seq<Entry>)
    ensures |r| == |s| && forall i :: 0 <= i < |s| ==> r[i].id == s[i].id
  {
    UpdateFirstKeepsIds(s, SucceededResolved, ClaimAsActivation(paymentMethodId, uid));
    UpdateFirst(s, SucceededResolved, ClaimAsActivation(paymentMethodId, uid))
  }

  /** The as-written update never touches an unresolved record, so the
      activation record it is meant to resolve stays unresolved. */
  lemma SwappedUpdateKeepsUnresolved(s: seq<Entry>, paymentMethodId: string, uid: UserId)
    ensures |SwappedActivationUpdate(s, paymentMethodId, uid)| == |s|
    ensures forall i :: 0 <= i < |s| && s[i].isResolved != Some(true) ==>
      SwappedActivationUpdate(s, paymentMethodId, uid)[i] == s[i]
  {
    forall i | 0 <= i < |s| && s[i].isResolved != Some(true)
      ensures SwappedActivationUpdate(s, paymentMethodId, uid)[i] == s[i]
    {
      UpdateFirstEffect(s, SucceededResolved, ClaimAsActivation(paymentMethodId, uid), i);
    }
  }

  /** The intended update: resolve this card's unresolved activation
      record.  Swapping the source's filter and data back would also set
      `status: SUCCEEDED`; that is left out, since `activeCard` only gets
      here for a SUCCEEDED record. */
  function ResolveActivationUpdate(s: seq<Entry>, paymentMethodId: string, uid: UserId): (r: seq<Entry>)
    ensures |r| == |s| && forall i :: 0 <= i < |s| ==> r[i].id == s[i].id
  {
    UpdateFirstKeepsIds(s, UnresolvedActivation(paymentMethodId, uid), NoChange.(isResolved := Some(true)));
    UpdateFirst(s, UnresolvedActivation(paymentMethodId, uid), NoChange.(isResolved := Some(true)))
  }

  /** The intended update resolves the record and touches no record of
      another card or user; when there was one unresolved record, none is
      left. */
  lemma ResolveActivationEffect(s: seq<Entry>, paymentMethodId: string, uid: UserId)
    ensures |ResolveActivationUpdate(s, paymentMethodId, uid)| == |s|
    ensures forall i :: 0 <= i < |s| && !Matches(s[i], UnresolvedActivation(paymentMethodId, uid)) ==>
      ResolveActivationUpdate(s, paymentMethodId, uid)[i] == s[i]
    ensures (forall i, j :: 0 <= i < j < |s| ==>
              !(Matches(s[i], UnresolvedActivation(paymentMethodId, uid)) && Matches(s[j], UnresolvedActivation(paymentMethodId, uid)))) ==>
      forall i :: 0 <= i < |s| ==> !Matches(ResolveActivationUpdate(s, paymentMethodId, uid)[i], UnresolvedActivation(paymentMethodId, uid))
  {
    var w := UnresolvedActivation(paymentMethodId, uid);
    var p := NoChange.(isResolved := Some(true));
    forall i | 0 <= i < |s|
      ensures ResolveActivationUpdate(s, paymentMethodId, uid)[i] ==
        if Matches(s[i], w) && forall j :: 0 <= j < i ==> !Matches(s[j], w) then Apply(s[i], p) else s[i]
    {
      UpdateFirstEffect(s, w, p, i);
    }
  }

  /** A card whose first activation payment failed can never be activated
      as written: the failed record stays unresolved, so the retry's fresh
      SUCCEEDED record is never the one `activeCard` finds.  Resolving
      instead lets the retry's record be found. */
  lemma FailedActivationBlocksRetry(paymentMethodId: string, uid: UserId, fee: real)
    ensures
      var failed := ActivationRecord(paymentMethodId, uid, fee, "pi_1", Failed).(id := 0);
      var retry := ActivationRecord(paymentMethodId, uid, fee, "pi_2", Succeeded).(id := 1);
      var w := UnresolvedActivation(paymentMethodId, uid);
      && Lookup(SwappedActivationUpdate([failed], paymentMethodId, uid) + [retry], w) == Some(failed)
      && Lookup(ResolveActivationUpdate([failed], paymentMethodId, uid) + [retry], w) == Some(retry)
  {
    var failed := ActivationRecord(paymentMethodId, uid, fee, "pi_1", Failed).(id := 0);
    var retry := ActivationRecord(paymentMethodId, uid, fee, "pi_2", Succeeded).(id := 1);
    var w := UnresolvedActivation(paymentMethodId, uid);
    assert !Matches(failed, SucceededResolved);
    assert SwappedActivationUpdate([failed], paymentMethodId, uid) == [failed];
    assert Matches(failed, w);
    var resolved := Apply(failed, NoChange.(isResolved := Some(true)));
    assert ResolveActivationUpdate([failed], paymentMethodId, uid) == [resolved];
    assert !Matches(resolved, w);
    assert Matches(retry, w);
    assert ([resolved] + [retry])[1] == retry;
  }

  /** As written, a resolved SUCCEEDED top-up of another user is relabelled
      as this user's unresolved activation payment. */
  lemma SwappedUpdateRelabelsOtherRecord(paymentMethodId: string, uid: UserId, other: UserId)
    ensures
      var topUp := TopUpRecord(other, 50.0, Stripe).(status := Succeeded, isResolved := Some(true));
      var after := SwappedActivationUpdate([topUp], paymentMethodId, uid)[0];
      && after.userId == Some(other)
      && Matches(after, UnresolvedActivation(paymentMethodId, uid))
  {
    var topUp := TopUpRecord(other, 50.0, Stripe).(status := Succeeded, isResolved := Some(true));
    assert Matches(topUp, SucceededResolved);
    assert FirstMatch([topUp], SucceededResolved) == Some(0);
  }

  // ------------------------------------------------- checkPaymentIntent

  /** As written, `checkPaymentIntent` selects the first record with the
      given status and writes the intent id onto it. */
  function SwappedIntentUpdate(s: seq<Entry>, intentId: string, status: Status): (r: seq<Entry>)
    ensures |r| == |s| && forall i :: 0 <= i < |s| ==> r[i].id == s[i].id && r[i].status == s[i].status
  {
    UpdateFirstKeepsIds(s, AnyEntry.(status := Some(status)), NoChange.(transactionId := Some(intentId)));
    UpdateFirst(s, AnyEntry.(status := Some(status)), NoChange.(transactionId := Some(intentId)))
  }

  /** The intended update: the record carrying the intent id takes the
      status. */
  function IntentStatusUpdate(s: seq<Entry>, intentId: string, status: Status): (r: seq<Entry>)
    ensures |r| == |s| && forall i :: 0 <= i < |s| ==> r[i].id == s[i].id
  {
    UpdateFirstKeepsIds(s, AnyEntry.(transactionId := Some(intentId)), NoChange.(status := Some(status)));
    UpdateFirst(s, AnyEntry.(transactionId := Some(intentId)), NoChange.(status := Some(status)))
  }

  /** As written, the intent's own PENDING record is left PENDING while an
      unrelated SUCCEEDED record loses its transaction id. */
  lemma SwappedIntentUpdateMisses(uid: UserId, other: UserId)
    ensures
      var mine := TopUpRecord(uid, 20.0, Stripe).(id := 1, transactionId := Some("pi_new"));
      var theirs := TopUpRecord(other, 30.0, Stripe).(id := 0, status := Succeeded, transactionId := Some("pi_old"));
      var after := SwappedIntentUpdate([theirs, mine], "pi_new", Succeeded);
      && after[1].status == Pending
      && after[0].transactionId == Some("pi_new")
  {
    var mine := TopUpRecord(uid, 20.0, Stripe).(id := 1, transactionId := Some("pi_new"));
    var theirs := TopUpRecord(other, 30.0, Stripe).(id := 0, status := Succeeded, transactionId := Some("pi_old"));
    assert Matches(theirs, AnyEntry.(status := Some(Succeeded)));
    assert FirstMatch([theirs, mine], AnyEntry.(status := Some(Succeeded))) == Some(0);
  }

  /** The intended update changes no record's transaction id, and the
      first record carrying the intent id, alone, takes the status. */
  lemma IntentStatusUpdateEffect(s: seq<Entry>, intentId: string, status: Status)
    ensures |IntentStatusUpdate(s, intentId, status)| == |s|
    ensures forall i :: 0 <= i < |s| ==> IntentStatusUpdate(s, intentId, status)[i].transactionId == s[i].transactionId
    ensures forall i :: 0 <= i < |s| ==>
      IntentStatusUpdate(s, intentId, status)[i] ==
        if s[i].transactionId == Some(intentId) && forall j :: 0 <= j < i ==> s[j].transactionId != Some(intentId)
        then s[i].(status := status) else s[i]
  {
    var w := AnyEntry.(transactionId := Some(intentId));
    forall i | 0 <= i < |s|
      ensures IntentStatusUpdate(s, intentId, status)[i] ==
        if s[i].transactionId == Some(intentId) && forall j :: 0 <= j < i ==> s[j].transactionId != Some(intentId)
        then s[i].(status := status) else s[i]
    {
      UpdateFirstEffect(s, w, NoChange.(status := Some(status)), i);
    }
  }

  // ---------------------------------------------------------- card list

  datatype CardDetails = CardDetails(brand: string, last4: string, expMonth: int, expYear: int)

  /** A payment method as Stripe lists it. */
  datatype ListedMethod = ListedMethod(id: string, card: CardDetails, verifiedAt: Option<string>)

  /** One row of `findStripeCardsByUser`. */
  datatype CardView = CardView(card: CardDetails, paymentMethodId: string, isDefault: bool, verifiedAt: Option<string>)

  /** The `paymentMethods.data.map(...)` of `findStripeCardsByUser`. */
  function CardViews(listed: seq<ListedMethod>, defaultMethod: Option<string>): (r: seq<CardView>)
    ensures |r| == |listed|
    ensures forall i :: 0 <= i < |r| ==>
      && r[i].paymentMethodId == listed[i].id && r[i].card == listed[i].card
      && r[i].verifiedAt == listed[i].verifiedAt
      && (r[i].isDefault <==> defaultMethod == Some(listed[i].id))
  {
    if |listed| == 0 then []
    else [CardView(listed[0].card, listed[0].id, defaultMethod == Some(listed[0].id), listed[0].verifiedAt)]
         + CardViews(listed[1..], defaultMethod)
  }

  /** With distinct listed ids, at most one card is shown as the default. */
  lemma AtMostOneDefault(listed: seq<ListedMethod>, defaultMethod: Option<string>)
    requires forall i, j :: 0 <= i < j < |listed| ==> listed[i].id != listed[j].id
    ensures forall i, j :: 0 <= i < j < |listed| ==> !(CardViews(listed, defaultMethod)[i].isDefault && CardViews(listed, defaultMethod)[j].isDefault)
  {
  }

  /** `paymentMethods.data.find(item => item.id !== paymentMethodId)`. */
  function FirstOther(ids: seq<string>, paymentMethodId: string): (r: Option<string>)
    ensures r.Some? ==> r.value in ids && r.value != paymentMethodId
    ensures r.None? <==> forall k :: 0 <= k < |ids| ==> ids[k] == paymentMethodId
    ensures r.Some? ==> exists k :: 0 <= k < |ids| && ids[k] == r.value && forall j :: 0 <= j < k ==> ids[j] == paymentMethodId
  {
    if |ids| == 0 then None
    else if ids[0] != paymentMethodId then Some(ids[0])
    else
      var rest := FirstOther(ids[1..], paymentMethodId);
      if rest.Some? then
        ghost var k :| 0 <= k < |ids[1..]| && ids[1..][k] == rest.value && forall j :: 0 <= j < k ==> ids[1..][j] == paymentMethodId;
        assert ids[k + 1] == rest.value;
        rest
      else rest
  }

  /** The payment method `attachPaymentMethod` gets back from Stripe. */
  datatype AttachedMethod = AttachedMethod(id: string, fingerprint: string, billingDetails: BillingDetails)

  /** The reply of `removeStripeCard`. */
  datatype RemovedCard = RemovedCard(paymentMethodId: string, stripeCustomerId: Option<string>)

  /** What `createCustomer` returns: the customer it retrieved or created. */
  datatype CustomerRef = Retrieved(id: string) | Created(id: string)

  /** `select: 'billing.stripe'` names a path the user schema does not have
      (it is `billings`), so the record comes back without its billing. */
  function SelectedAsWritten(u: User): (r: User)
    ensures CustomerIdOf(r).None? && r.deposit == u.deposit
  {
    User(u.deposit, None)
  }

  /** `select: 'billings.stripe'` keeps the billing. */
  function SelectedBillings(u: User): (r: User)
    ensures CustomerIdOf(r) == CustomerIdOf(u) && CardsOf(r) == CardsOf(u)
  {
    u
  }

  /** The misspelt projection hides an existing customer id. */
  lemma SelectionTypoHidesCustomer(customerId: string)
    ensures
      var u := User(0.0, Some(StripeBilling(Some(customerId), None, [])));
      CustomerIdOf(u) == Some(customerId) && CustomerIdOf(SelectedAsWritten(u)).None?
  {
  }

  /** The checks of `activeCard` before anything is written: the card is
      the profile's and not active, this card's unresolved activation record
      exists and is SUCCEEDED, Stripe returned its intent, and the OTP is
      valid for it. */
  predicate ActivationChecksPass(s: seq<Entry>, paymentMethodId: string, uid: UserId, otp: string, profile: Profile,
                                 found: Result<StripeCard, string>, fetched: Result<PaymentIntent, string>, now: Time)
  {
    && found.Ok? && CardCheck(found.value, profile).None?
    && Lookup(s, UnresolvedActivation(paymentMethodId, uid)).Some?
    && Lookup(s, UnresolvedActivation(paymentMethodId, uid)).value.status == Succeeded
    && fetched.Ok? && OtpCheck(otp, fetched.value, found.value.metadata, now).None?
  }

  /** No user other than `uid` holds the customer id, so the unique index
      on `billings.stripe.customerId` lets `uid` take it. */
  predicate CustomerIdUnused(users: map<UserId, User>, uid: UserId, customerId: string)
  {
    forall v :: v in users && v != uid ==> CustomerIdOf(users[v]) != Some(customerId)
  }

  class StripePaymentsService {
    const repo: AppRepository
    /** OTP_STRIPE_CARD_EXPIRED: seconds an activation OTP stays valid. */
    const otpExpiry: int
    /** STRIPE_ACTIVE_CARD_FEE: the amount of the activation payment. */
    const activeCardFee: real

    constructor (repo: AppRepository, otpExpiry: int, activeCardFee: real)
      ensures this.repo == repo && this.otpExpiry == otpExpiry && this.activeCardFee == activeCardFee
    {
      this.repo := repo;
      this.otpExpiry := otpExpiry;
      this.activeCardFee := activeCardFee;
    }

    /** `requestPaymentIntent`.  The PENDING Stripe credit is recorded
        before Stripe is asked; a refused guard or a failed Stripe call
        leaves it PENDING with no credit.  Otherwise that same record gets
        the intent id and the mapped status, and the deposit grows by the
        requested amount (not the charged total) exactly when the status is
        SUCCEEDED. */
    method RequestPaymentIntent(amount: real, uid: UserId, now: Time,
                                customerDefault: Result<Option<string>, string>,
                                created: Result<PaymentIntent, string>)
      returns (r: Result<TopUpReply, Error>, sent: Option<IntentRequest>)
      requires repo.Valid() && ValidTopUpAmount(amount)
      modifies repo
      ensures repo.Valid()
      ensures uid !in old(repo.users) ==>
        r == Err(MissingRecord) && sent.None? && repo.entries == old(repo.entries) && repo.users == old(repo.users)
      ensures uid in old(repo.users) ==>
        var e := TopUpRecord(uid, amount, Stripe).(id := old(repo.nextId), createdAt := now);
        var q := TopUpIntentRequest(old(repo.users)[uid], uid, TotalCharged(amount), e.id, customerDefault);
        && sent == (if q.Ok? then Some(q.value) else None)
        && (q.Err? ==> r == Err(q.error) && repo.entries == old(repo.entries) + [e] && repo.users == old(repo.users))
        && (q.Ok? && created.Err? ==>
              r == Err(Processor(created.error)) && repo.entries == old(repo.entries) + [e] && repo.users == old(repo.users))
        && (q.Ok? && created.Ok? ==>
              var intent := created.value;
              var st := TopUpStatus(intent.status);
              && r == Ok(TopUpReply(intent.id, intent.clientSecret, intent.paymentMethod))
              && repo.entries == old(repo.entries) + [e.(transactionId := Some(intent.id), status := st)]
              && repo.users == if st == Succeeded
                   then old(repo.users)[uid := old(repo.users)[uid].(deposit := old(repo.users)[uid].deposit + amount)]
                   else old(repo.users))
    {
      sent := None;
      var user := repo.GetUser(uid);
      if user.None? {
        return Err(MissingRecord), None;
      }
      var e := repo.CreateOne(TopUpRecord(uid, amount, Stripe), now);
      var q := TopUpIntentRequest(user.value, uid, TotalCharged(amount), e.id, customerDefault);
      if q.Err? {
        return Err(q.error), None;
      }
      sent := Some(q.value);
      if created.Err? {
        return Err(Processor(created.error)), sent;
      }
      var intent := created.value;
      ghost var before := repo.entries;
      RecordIntent(uid, amount, intent);
      assert before[|before| - 1 := e.(transactionId := Some(intent.id), status := TopUpStatus(intent.status))] ==
        old(repo.entries) + [e.(transactionId := Some(intent.id), status := TopUpStatus(intent.status))];
      r := Ok(TopUpReply(intent.id, intent.clientSecret, intent.paymentMethod));
    }

    /** The writes of `requestPaymentIntent` once Stripe has created the
        intent: the last record, the one just created, gets the intent id
        and the mapped status, and the deposit grows by `amount` when that
        status is SUCCEEDED. */
    method RecordIntent(uid: UserId, amount: real, intent: PaymentIntent)
      requires repo.Valid() && |repo.entries| > 0 && uid in repo.users
      modifies repo
      ensures repo.Valid()
      ensures var n := |old(repo.entries)| - 1;
        repo.entries == old(repo.entries)[n := old(repo.entries)[n].(transactionId := Some(intent.id), status := TopUpStatus(intent.status))]
      ensures repo.users == if TopUpStatus(intent.status) == Succeeded
        then old(repo.users)[uid := old(repo.users)[uid].(deposit := old(repo.users)[uid].deposit + amount)]
        else old(repo.users)
    {
      var st := TopUpStatus(intent.status);
      var patch := NoChange.(transactionId := Some(intent.id), status := Some(st));
      var id := repo.entries[|repo.entries| - 1].id;
      UpdateFirstById(repo.entries, |repo.entries| - 1, ById(id), patch);
      repo.UpdateOne(ById(id), patch);
      if st == Succeeded {
        repo.IncDeposit(uid, amount);
      }
    }

    /** `createActiveCardPayment`.  A fresh OTP is drawn and sent to Stripe
        as the descriptor `lider-<otp>`, valid until `now + otpExpiry`.
        Once Stripe has answered, an unresolved activation record with the
        mapped status is stored in every case; a FAILED one is then
        refused. */
    method CreateActiveCardPayment(card: StripeCard, profile: Profile, draws: seq<real>, now: Time,
                                   metadataUpdate: Result<(), string>, created: Result<PaymentIntent, string>)
      returns (r: Result<ActivationReply, Error>, otp: string, otpMetadata: CardMetadata)
      requires repo.Valid()
      requires |draws| == DefaultOtpLength && forall k :: 0 <= k < |draws| ==> IsDraw(draws[k])
      modifies repo
      ensures repo.Valid()
      ensures |otp| == DefaultOtpLength && (forall k :: 0 <= k < |otp| ==> otp[k] == OtpChar(draws[k]))
      ensures OtpFromDescriptor(StatementDescriptor(otp)) == Some(otp)
      ensures otpMetadata == card.metadata.(otpExpiredAt := Some(now + otpExpiry))
      ensures repo.users == old(repo.users)
      ensures metadataUpdate.Err? ==> r == Err(Processor(metadataUpdate.error)) && repo.entries == old(repo.entries)
      ensures metadataUpdate.Ok? && created.Err? ==> r == Err(Processor(created.error)) && repo.entries == old(repo.entries)
      ensures metadataUpdate.Ok? && created.Ok? ==>
        var st := ActiveCardStatus(created.value.status);
        && repo.entries == old(repo.entries) + [ActivationRecord(card.paymentMethodId, profile.id, activeCardFee, created.value.id, st).(id := old(repo.nextId), createdAt := now)]
        && r == ActivationReplyFor(created.value, st)
    {
      otp := GenerateActiveCardOtp(DefaultOtpLength, draws);
      GeneratedOtpRoundTrip(otp);
      otpMetadata := card.metadata.(otpExpiredAt := Some(now + otpExpiry));
      if metadataUpdate.Err? {
        return Err(Processor(metadataUpdate.error)), otp, otpMetadata;
      }
      if created.Err? {
        return Err(Processor(created.error)), otp, otpMetadata;
      }
      var intent := created.value;
      var st := ActiveCardStatus(intent.status);
      var history := repo.CreateOne(ActivationRecord(card.paymentMethodId, profile.id, activeCardFee, intent.id, st), now);
      r := ActivationReplyFor(intent, st);
    }

    /** `updatePaymentHistoryActiveCard`, as written (see
        `SwappedActivationUpdate`). */
    method UpdatePaymentHistoryActiveCard(paymentMethodId: string, uid: UserId)
      requires repo.Valid()
      modifies repo`entries
      ensures repo.Valid()
      ensures repo.entries == SwappedActivationUpdate(old(repo.entries), paymentMethodId, uid)
      ensures repo.users == old(repo.users)
    {
      repo.UpdateOne(SucceededResolved, ClaimAsActivation(paymentMethodId, uid));
    }

    /** The intended `updatePaymentHistoryActiveCard`. */
    method ResolvePaymentHistoryActiveCard(paymentMethodId: string, uid: UserId)
      requires repo.Valid()
      modifies repo`entries
      ensures repo.Valid()
      ensures repo.entries == ResolveActivationUpdate(old(repo.entries), paymentMethodId, uid)
      ensures repo.users == old(repo.users)
    {
      repo.UpdateOne(UnresolvedActivation(paymentMethodId, uid), NoChange.(isResolved := Some(true)));
    }

    /** `requestActiveStripeCard`: the card must belong to the profile and
        not be active yet; an existing unresolved activation record is
        passed to `updatePaymentHistoryActiveCard` (which, as written, does
        not resolve it), then a new activation payment is made. */
    method RequestActiveStripeCard(paymentMethodId: string, uid: UserId, profile: Profile,
                                   found: Result<StripeCard, string>, draws: seq<real>, now: Time,
                                   metadataUpdate: Result<(), string>, created: Result<PaymentIntent, string>)
      returns (r: Result<ActivationReply, Error>, otp: string)
      requires repo.Valid()
      requires |draws| == DefaultOtpLength && forall k :: 0 <= k < |draws| ==> IsDraw(draws[k])
      modifies repo
      ensures repo.Valid()
      ensures repo.users == old(repo.users)
      ensures found.Err? ==> r == Err(Processor(found.error)) && repo.entries == old(repo.entries) && otp == ""
      ensures found.Ok? && CardCheck(found.value, profile).Some? ==>
        r == Err(CardCheck(found.value, profile).value) && repo.entries == old(repo.entries) && otp == ""
      ensures found.Ok? && CardCheck(found.value, profile).None? ==>
        |otp| == DefaultOtpLength && (forall k :: 0 <= k < |otp| ==> otp[k] == OtpChar(draws[k])) &&
        OtpFromDescriptor(StatementDescriptor(otp)) == Some(otp)
      ensures found.Ok? && CardCheck(found.value, profile).None? ==>
        var s1 := if Lookup(old(repo.entries), UnresolvedActivation(paymentMethodId, uid)).Some?
                  then SwappedActivationUpdate(old(repo.entries), paymentMethodId, uid) else old(repo.entries);
        if metadataUpdate.Err? then r == Err(Processor(metadataUpdate.error)) && repo.entries == s1
        else if created.Err? then r == Err(Processor(created.error)) && repo.entries == s1
        else
          var st := ActiveCardStatus(created.value.status);
          && repo.entries == s1 + [ActivationRecord(found.value.paymentMethodId, profile.id, activeCardFee, created.value.id, st).(id := old(repo.nextId), createdAt := now)]
          && r == (if st == Succeeded then Ok(OtpSent) else ActivationReplyFor(created.value, st))
    {
      otp := "";
      if found.Err? {
        return Err(Processor(found.error)), otp;
      }
      var card := found.value;
      var check := CardCheck(card, profile);
      if check.Some? {
        return Err(check.value), otp;
      }
      var history := repo.GetOne(UnresolvedActivation(paymentMethodId, uid));
      if history.Some? {
        UpdatePaymentHistoryActiveCard(paymentMethodId, uid);
      }
      var otpMetadata;
      r, otp, otpMetadata := CreateActiveCardPayment(card, profile, draws, now, metadataUpdate, created);
      if r.Ok? && !r.value.SecureRequired? {
        r := Ok(OtpSent);
      }
    }

    /** `activeCard`, with `validateOTPActiveCard`.  The checks pass only
        when the card is the profile's and not yet active, an unresolved
        activation record exists and is SUCCEEDED, its intent succeeded,
        and the OTP matches and has not expired; a failed check changes
        nothing.  Once they pass the history update is made, and the card's
        metadata is sent to Stripe with the status ACTIVE (`updated` is
        that call's reply).  The source hands a failed reply back as its
        answer instead of throwing; here it is a `Processor` error, and the
        history update stays made. */
    method ActiveCard(paymentMethodId: string, uid: UserId, otp: string, profile: Profile,
                      found: Result<StripeCard, string>, fetched: Result<PaymentIntent, string>, now: Time,
                      updated: Result<(), string>)
      returns (r: Result<CardMetadata, Error>)
      requires repo.Valid()
      modifies repo
      ensures repo.Valid()
      ensures repo.users == old(repo.users)
      ensures ActivationChecksPass(old(repo.entries), paymentMethodId, uid, otp, profile, found, fetched, now) ==>
        && repo.entries == SwappedActivationUpdate(old(repo.entries), paymentMethodId, uid)
        && r == if updated.Ok? then Ok(found.value.metadata.(status := Some(CardActive)))
                else Err(Processor(updated.error))
      ensures !ActivationChecksPass(old(repo.entries), paymentMethodId, uid, otp, profile, found, fetched, now) ==>
        r.Err? && repo.entries == old(repo.entries)
      ensures found.Ok? && CardCheck(found.value, profile).None? &&
              Lookup(old(repo.entries), UnresolvedActivation(paymentMethodId, uid)).None? ==>
        r == Err(ActiveCardPaymentNotFound)
    {
      if found.Err? {
        return Err(Processor(found.error));
      }
      var card := found.value;
      var check := CardCheck(card, profile);
      if check.Some? {
        return Err(check.value);
      }
      var history := repo.GetOne(UnresolvedActivation(paymentMethodId, uid));
      if history.None? {
        return Err(ActiveCardPaymentNotFound);
      }
      if history.value.status != Succeeded {
        return Err(PaymentNotCompleted);
      }
      // `fetched` is Stripe's answer for the record's transaction id
      if fetched.Err? {
        return Err(Processor(fetched.error));
      }
      var otpError := OtpCheck(otp, fetched.value, card.metadata, now);
      if otpError.Some? {
        return Err(otpError.value);
      }
      UpdatePaymentHistoryActiveCard(paymentMethodId, uid);
      if updated.Err? {
        return Err(Processor(updated.error));
      }
      r := Ok(card.metadata.(status := Some(CardActive)));
    }

    /** `checkPaymentIntent`, as written (see `SwappedIntentUpdate`). */
    method CheckPaymentIntent(intentId: string, fetched: Result<PaymentIntent, string>)
      returns (r: Result<string, Error>)
      requires repo.Valid()
      modifies repo
      ensures repo.Valid()
      ensures repo.users == old(repo.users)
      ensures fetched.Err? ==> r == Err(Processor(fetched.error)) && repo.entries == old(repo.entries)
      ensures fetched.Ok? && fetched.value.status == IntentSucceeded ==>
        r == Ok(intentId) && repo.entries == SwappedIntentUpdate(old(repo.entries), intentId, Succeeded)
      ensures fetched.Ok? && fetched.value.status == IntentRequiresPaymentMethod ==>
        r == Err(PaymentVerificationFailed) && repo.entries == SwappedIntentUpdate(old(repo.entries), intentId, Failed)
      ensures fetched.Ok? && fetched.value.status != IntentSucceeded && fetched.value.status != IntentRequiresPaymentMethod ==>
        r == Err(PaymentVerificationFailed) && repo.entries == old(repo.entries)
    {
      if fetched.Err? {
        return Err(Processor(fetched.error));
      }
      if fetched.value.status == IntentSucceeded {
        repo.UpdateOne(AnyEntry.(status := Some(Succeeded)), NoChange.(transactionId := Some(intentId)));
        return Ok(intentId);
      }
      if fetched.value.status == IntentRequiresPaymentMethod {
        repo.UpdateOne(AnyEntry.(status := Some(Failed)), NoChange.(transactionId := Some(intentId)));
      }
      r := Err(PaymentVerificationFailed);
    }

    /** The intended `checkPaymentIntent`: the intent's own record takes the
        verified status. */
    method CheckPaymentIntentCorrected(intentId: string, fetched: Result<PaymentIntent, string>)
      returns (r: Result<string, Error>)
      requires repo.Valid()
      modifies repo
      ensures repo.Valid()
      ensures repo.users == old(repo.users)
      ensures fetched.Err? ==> r == Err(Processor(fetched.error)) && repo.entries == old(repo.entries)
      ensures fetched.Ok? && fetched.value.status == IntentSucceeded ==>
        r == Ok(intentId) && repo.entries == IntentStatusUpdate(old(repo.entries), intentId, Succeeded)
      ensures fetched.Ok? && fetched.value.status == IntentRequiresPaymentMethod ==>
        r == Err(PaymentVerificationFailed) && repo.entries == IntentStatusUpdate(old(repo.entries), intentId, Failed)
      ensures fetched.Ok? && fetched.value.status != IntentSucceeded && fetched.value.status != IntentRequiresPaymentMethod ==>
        r == Err(PaymentVerificationFailed) && repo.entries == old(repo.entries)
    {
      if fetched.Err? {
        return Err(Processor(fetched.error));
      }
      if fetched.value.status == IntentSucceeded {
        repo.UpdateOne(AnyEntry.(transactionId := Some(intentId)), NoChange.(status := Some(Succeeded)));
        return Ok(intentId);
      }
      if fetched.value.status == IntentRequiresPaymentMethod {
        repo.UpdateOne(AnyEntry.(transactionId := Some(intentId)), NoChange.(status := Some(Failed)));
      }
      r := Err(PaymentVerificationFailed);
    }

    /** `findStripeCardsByUser`: no customer id gives an empty list;
        otherwise every listed method, flagged default when it is the
        customer's default. */
    method FindStripeCardsByUser(uid: UserId, customerDefault: Result<Option<string>, string>,
                                 listed: Result<seq<ListedMethod>, string>)
      returns (r: Result<seq<CardView>, Error>)
      ensures uid !in repo.users ==> r == Err(MissingRecord)
      ensures uid in repo.users && CustomerIdOf(repo.users[uid]).None? ==> r == Ok([])
      ensures uid in repo.users && CustomerIdOf(repo.users[uid]).Some? ==>
        r == if customerDefault.Err? then Err(Processor(customerDefault.error))
             else if listed.Err? then Err(Processor(listed.error))
             else Ok(CardViews(listed.value, customerDefault.value))
    {
      var user := repo.GetUser(uid);
      if user.None? {
        return Err(MissingRecord);
      }
      if CustomerIdOf(SelectedBillings(user.value)).None? {
        return Ok([]);
      }
      if customerDefault.Err? {
        return Err(Processor(customerDefault.error));
      }
      if listed.Err? {
        return Err(Processor(listed.error));
      }
      r := Ok(CardViews(listed.value, customerDefault.value));
    }

    /** `removeStripeCard`: a soft delete.  When the card is the customer's
        default, the first other listed method is made the default
        (`newDefault` is the id sent with `customers.update`, whose reply is
        `updatedDefault`); the card is detached, then its record gets
        `removedAt` and stays in the list.  Every Stripe call that fails
        stops the removal before anything is written. */
    method RemoveStripeCard(paymentMethodId: string, uid: UserId, now: Time,
                            customerDefault: Result<Option<string>, string>,
                            listed: Result<seq<string>, string>, updatedDefault: Result<(), string>,
                            detached: Result<(), string>)
      returns (r: Result<RemovedCard, Error>, newDefault: Option<string>)
      requires repo.Valid()
      modifies repo
      ensures repo.Valid()
      ensures repo.entries == old(repo.entries)
      ensures uid !in old(repo.users) ==> r == Err(MissingRecord)
      ensures uid in old(repo.users) && CustomerIdOf(old(repo.users)[uid]).None? ==> r == Err(NoStripeCustomerId)
      ensures uid in old(repo.users) && CustomerIdOf(old(repo.users)[uid]).Some? ==>
        var u := old(repo.users)[uid];
        var isDefault := customerDefault.Ok? && customerDefault.value == Some(paymentMethodId);
        r == if customerDefault.Err? then Err(Processor(customerDefault.error))
             else if isDefault && listed.Err? then Err(Processor(listed.error))
             else if isDefault && FirstOther(listed.value, paymentMethodId).Some? && updatedDefault.Err?
               then Err(Processor(updatedDefault.error))
             else if detached.Err? then Err(Processor(detached.error))
             else if FirstCard(CardsOf(u), paymentMethodId).None? then Err(MissingRecord)
             else Ok(RemovedCard(paymentMethodId, CustomerIdOf(u)))
      ensures r.Ok? ==>
        && uid in old(repo.users) && FirstCard(CardsOf(old(repo.users)[uid]), paymentMethodId).Some?
        && var u := old(repo.users)[uid];
           repo.users == old(repo.users)[uid := WithBilling(u, BillingOf(u).(paymentMethods := SoftRemove(CardsOf(u), paymentMethodId, now)))]
      ensures r.Err? ==> repo.users == old(repo.users)
      ensures newDefault.Some? ==>
        && customerDefault == Ok(Some(paymentMethodId)) && listed.Ok?
        && newDefault == FirstOther(listed.value, paymentMethodId)
      ensures uid in old(repo.users) && CustomerIdOf(old(repo.users)[uid]).Some? &&
              customerDefault == Ok(Some(paymentMethodId)) && listed.Ok? ==>
        newDefault == FirstOther(listed.value, paymentMethodId)
    {
      newDefault := None;
      var user := repo.GetUser(uid);
      if user.None? {
        return Err(MissingRecord), newDefault;
      }
      if CustomerIdOf(user.value).None? {
        return Err(NoStripeCustomerId), newDefault;
      }
      if customerDefault.Err? {
        return Err(Processor(customerDefault.error)), newDefault;
      }
      if customerDefault.value == Some(paymentMethodId) {
        if listed.Err? {
          return Err(Processor(listed.error)), newDefault;
        }
        newDefault := FirstOther(listed.value, paymentMethodId);
        if newDefault.Some? && updatedDefault.Err? {
          return Err(Processor(updatedDefault.error)), newDefault;
        }
      }
      if detached.Err? {
        return Err(Processor(detached.error)), newDefault;
      }
      var updated := repo.MarkCardRemoved(uid, paymentMethodId, now);
      if updated.None? {
        return Err(MissingRecord), newDefault;
      }
      r := Ok(RemovedCard(paymentMethodId, CustomerIdOf(updated.value)));
    }

    /** `attachPaymentMethod`: the attached card is appended to the user's
        list.  `madeDefault` says that the call asking Stripe to make it the
        customer's default was made, which happens exactly when the list
        already held a record, removed ones included; that call's reply is
        ignored by the source, so it is not an input here. */
    method AttachPaymentMethod(paymentMethodId: string, uid: UserId, now: Time,
                               attached: Result<AttachedMethod, string>)
      returns (r: Result<AttachedMethod, Error>, madeDefault: bool)
      requires repo.Valid()
      modifies repo
      ensures repo.Valid()
      ensures repo.entries == old(repo.entries)
      ensures (uid !in old(repo.users) || old(repo.users)[uid].stripe.None?) ==>
        r == Err(MissingRecord) && !madeDefault && repo.users == old(repo.users)
      ensures uid in old(repo.users) && old(repo.users)[uid].stripe.Some? && attached.Err? ==>
        r == Err(Processor(attached.error)) && !madeDefault && repo.users == old(repo.users)
      ensures uid in old(repo.users) && old(repo.users)[uid].stripe.Some? && attached.Ok? ==>
        var u := old(repo.users)[uid];
        var a := attached.value;
        && r == Ok(a)
        && (madeDefault <==> |CardsOf(u)| > 0)
        && repo.users == old(repo.users)[uid := WithBilling(u, BillingOf(u).(paymentMethods :=
             CardsOf(u) + [CardRecord(a.id, a.fingerprint, a.billingDetails, now, None)]))]
    {
      madeDefault := false;
      var user := repo.GetUser(uid);
      if user.None? || user.value.stripe.None? {
        return Err(MissingRecord), madeDefault;
      }
      if attached.Err? {
        return Err(Processor(attached.error)), madeDefault;
      }
      var a := attached.value;
      madeDefault := |CardsOf(user.value)| > 0;
      repo.PushCard(uid, CardRecord(a.id, a.fingerprint, a.billingDetails, now, None));
      r := Ok(a);
    }

    /** `createCustomer`, as written: because of the misspelt projection
        (`SelectedAsWritten`) an existing customer is never seen, so a new
        Stripe customer is created and replaces the stored id.  A missing
        user is created first, with a zero deposit, and stays created when
        a later step fails. */
    method CreateCustomer(uid: UserId, now: Time, created: Result<string, string>)
      returns (r: Result<CustomerRef, Error>)
      requires repo.Valid()
      modifies repo
      ensures repo.Valid()
      ensures repo.entries == old(repo.entries)
      ensures created.Err? ==>
        r == Err(Processor(created.error)) && repo.users == EnsureUser(old(repo.users), uid)
      ensures created.Ok? && CustomerIdUnused(old(repo.users), uid, created.value) ==>
        r == Ok(Created(created.value)) && repo.users == WithCustomer(EnsureUser(old(repo.users), uid), uid, created.value, now)
      ensures created.Ok? && !CustomerIdUnused(old(repo.users), uid, created.value) ==>
        r == Err(DuplicateCustomerId) && repo.users == EnsureUser(old(repo.users), uid)
    {
      ghost var before := repo.users;
      var user := repo.GetUser(uid);
      if user.None? {
        repo.CreateUser(uid);
        user := Some(NewUser());
      }
      assert repo.users == EnsureUser(before, uid);
      var selected := SelectedAsWritten(user.value);
      // the source retrieves the customer when `selected` has an id; the
      // projection dropped the billing, so it never has one
      assert CustomerIdOf(selected).None?;
      if created.Err? {
        return Err(Processor(created.error));
      }
      var ok := repo.SetStripeCustomer(uid, created.value, now);
      if !ok {
        return Err(DuplicateCustomerId);
      }
      r := Ok(Created(created.value));
    }

    /** The intended `createCustomer`: a user who already has a Stripe
        customer keeps it and nothing is written; otherwise it behaves as
        `CreateCustomer`. */
    method CreateCustomerCorrected(uid: UserId, now: Time, created: Result<string, string>)
      returns (r: Result<CustomerRef, Error>)
      requires repo.Valid()
      modifies repo
      ensures repo.Valid()
      ensures repo.entries == old(repo.entries)
      ensures uid in old(repo.users) && CustomerIdOf(old(repo.users)[uid]).Some? ==>
        r == Ok(Retrieved(CustomerIdOf(old(repo.users)[uid]).value)) && repo.users == old(repo.users)
      ensures !(uid in old(repo.users) && CustomerIdOf(old(repo.users)[uid]).Some?) ==>
        if created.Err? then
          r == Err(Processor(created.error)) && repo.users == EnsureUser(old(repo.users), uid)
        else if CustomerIdUnused(old(repo.users), uid, created.value) then
          r == Ok(Created(created.value)) && repo.users == WithCustomer(EnsureUser(old(repo.users), uid), uid, created.value, now)
        else
          r == Err(DuplicateCustomerId) && repo.users == EnsureUser(old(repo.users), uid)
    {
      ghost var before := repo.users;
      var user := repo.GetUser(uid);
      if user.None? {
        repo.CreateUser(uid);
        user := Some(NewUser());
      }
      assert repo.users == EnsureUser(before, uid);
      var selected := SelectedBillings(user.value);
      if CustomerIdOf(selected).Some? {
        return Ok(Retrieved(CustomerIdOf(selected).value));
      }
      if created.Err? {
        return Err(Processor(created.error));
      }
      var ok := repo.SetStripeCustomer(uid, created.value, now);
      if !ok {
        return Err(DuplicateCustomerId);
      }
      r := Ok(Created(created.value));
    }
  }

}
