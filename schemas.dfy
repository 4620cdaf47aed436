/** The two stored collections: ledger entries (the `Payment` schema of
    src/database/schemas/transaction.schema.ts) and users with their deposit
    and their Stripe billing record (src/database/schemas/user.schema.ts). */
module Schemas {
  import opened Wrappers

  type UserId = string
  /** Entry ids are handed out in increasing order by the store (ObjectIds). */
  type Id = nat
  /** Seconds since the epoch, UTC. */
  type Time = int

  /** PaymentStatus. */
  datatype Status = Pending | Succeeded | Failed | Incomplete

  /** The `operator` field: '+', '-' or 'none'. */
  datatype Operator = Credit | Debit | NoEffect

  function OperatorText(op: Operator): string
  {
    match op
    case Credit => "+"
    case Debit => "-"
    case NoEffect => "none"
  }

  /** TRANSACTION_TYPE; only the two values the services write are named. */
  datatype TransactionType = UserTopUp | ServiceCharge

  /** PaymentMethod. */
  datatype PaymentMethod = Stripe | Paypal

  /** PaymentAction; only the card-activation action is used. */
  datatype PaymentAction = ActiveCard

  /** The part of a PayPal order the services read: its id and its status. */
  datatype PaypalOrder = PaypalOrder(id: string, status: string)

  /** The fee block the top-up requests store in `metadata`. */
  datatype TopUpFees = TopUpFees(service: real, taxCharge: real, amount: real, bankTransferAmount: real)

  /** The keys of the free-form `metadata` object that the services write. */
  datatype Metadata = Metadata(meetingId: Option<string>, fees: Option<TopUpFees>, order: Option<PaypalOrder>)

  const NoMetadata := Metadata(None, None, None)

  /** One stored ledger record.  Fields the schema declares and fields the
      card-activation flow stores through its payment DTO (`paymentBy`,
      `methodId`, `action`, `currency`, `isResolved`) are both present; a
      field a writer leaves out is `None`.  `createdAt` is the schema's
      timestamp, which is also the time encoded in the record's ObjectId. */
  datatype Entry = Entry(
    id: Id,
    createdAt: Time,
    userId: Option<UserId>,
    paymentBy: Option<UserId>,
    amount: real,
    currency: Option<string>,
    operator: Option<Operator>,
    txType: Option<TransactionType>,
    paymentMethod: Option<PaymentMethod>,
    methodId: Option<string>,
    action: Option<PaymentAction>,
    description: Option<string>,
    status: Status,
    isResolved: Option<bool>,
    transactionId: Option<string>,
    metadata: Metadata)

  /** A record with every optional field absent, for writers to fill in. */
  const Blank := Entry(0, 0, None, None, 0.0, None, None, None, None, None, None, None, Pending, None, None, NoMetadata)

  const DescriptionMaxLength := 2000

  /** The schema's constraints on a ledger record: `userId`, `operator` and
      `type` are required (`amount` and `status` always have a value here, and
      `operator`, `type` and `paymentMethod` can only hold enum values by
      construction), and `description` is at most 2000 characters. */
  predicate FitsSchema(e: Entry)
  {
    && e.userId.Some?
    && e.operator.Some?
    && e.txType.Some?
    && (e.description.Some? ==> |e.description.value| <= DescriptionMaxLength)
  }

  /** An embedded payment-method record; `removedAt` marks a soft delete. */
  datatype BillingDetails = BillingDetails(name: Option<string>, email: Option<string>)

  datatype CardRecord = CardRecord(
    id: string,
    fingerprint: string,
    billingDetails: BillingDetails,
    createdAt: Time,
    removedAt: Option<Time>)

  datatype StripeBilling = StripeBilling(
    customerId: Option<string>,
    connectedAt: Option<Time>,
    paymentMethods: seq<CardRecord>)

  /** A user record: the deposit balance and the optional Stripe billing. */
  datatype User = User(deposit: real, stripe: Option<StripeBilling>)

  /** The record a user-create writes: `deposit` takes its default, 0. */
  function NewUser(): (u: User)
    ensures u.deposit == 0.0
    ensures CustomerIdOf(u).None? && CardsOf(u) == []
  {
    User(0.0, None)
  }

  /** `user.billings?.stripe?.customerId`. */
  function CustomerIdOf(u: User): Option<string>
  {
    if u.stripe.Some? then u.stripe.value.customerId else None
  }

  /** `user.billings?.stripe?.paymentMethods`, empty when absent. */
  function CardsOf(u: User): seq<CardRecord>
  {
    if u.stripe.Some? then u.stripe.value.paymentMethods else []
  }

  /** The unique index on `billings.stripe.customerId`. */
  ghost predicate UniqueCustomerIds(users: map<UserId, User>)
  {
    forall a, b :: a in users && b in users && a != b && CustomerIdOf(users[a]).Some? ==>
      CustomerIdOf(users[a]) != CustomerIdOf(users[b])
  }

}
