/** The generic ledger operations of
    src/modules/payments/services/payments.service.ts: storing a payment
    record, marking a record succeeded or failed, and charging a meeting's
    service fee against a user's deposit. */
module PaymentsService {
  import opened Wrappers
  import opened Strings
  import opened Schemas
  import opened Errors
  import opened Repository
  import opened Dtos

  /** The ledger fields of `CreatePaymentDto`; `paymentBy` is supplied by
      the caller. */
  datatype PaymentData = PaymentData(
    methodId: Option<string>,
    action: Option<PaymentAction>,
    description: Option<string>,
    amount: real,
    currency: Option<string>,
    transactionId: Option<string>,
    isResolved: Option<bool>,
    status: Status)

  /** `{...createPaymentDto, paymentBy}`: the record carries the given
      fields and the payer, and no owner (`userId`), operator or type. */
  function PaymentRecord(d: PaymentData, paymentBy: UserId): (e: Entry)
    ensures e.paymentBy == Some(paymentBy) && e.methodId == d.methodId && e.action == d.action
    ensures e.amount == d.amount && e.transactionId == d.transactionId && e.isResolved == d.isResolved && e.status == d.status
    ensures e.userId.None? && e.operator.None? && e.txType.None?
  {
    Blank.(paymentBy := Some(paymentBy), methodId := d.methodId, action := d.action,
           description := d.description, amount := d.amount, currency := d.currency,
           transactionId := d.transactionId, isResolved := d.isResolved, status := d.status)
  }

  /** `newId.toString()`: the text form of a record's id. */
  function IdToString(id: Id): (s: string)
    ensures |s| >= 1
  {
    NatToString(id)
  }

  const ServiceFeeDescription := "service_fee"

  /** The ledger record of a service charge, under the id generated for it. */
  function ServiceFeeRecord(dto: ChargeServiceFeeDto, id: Id): (e: Entry)
    ensures e.id == id && e.userId == Some(dto.userId) && e.amount == dto.amount
    ensures e.operator == Some(Debit) && e.txType == Some(ServiceCharge) && e.status == Succeeded
    ensures e.metadata.meetingId == Some(dto.meetingId)
    ensures e.transactionId == Some(IdToString(e.id))
    ensures FitsSchema(e)
  {
    Blank.(id := id, userId := Some(dto.userId), amount := dto.amount,
           description := Some(ServiceFeeDescription), txType := Some(ServiceCharge),
           status := Succeeded, operator := Some(Debit),
           metadata := NoMetadata.(meetingId := Some(dto.meetingId)),
           transactionId := Some(IdToString(id)))
  }

  /** The PENDING top-up record both processors write before contacting
      the processor: a credit of `amount` with the fixed fee rates 0.03
      recorded in `metadata`. */
  function TopUpRecord(uid: UserId, amount: real, via: PaymentMethod): (e: Entry)
    ensures e.userId == Some(uid) && e.amount == amount && e.status == Pending
    ensures e.operator == Some(Credit) && e.txType == Some(UserTopUp) && e.paymentMethod == Some(via)
    ensures e.transactionId.None? && e.metadata.fees == Some(TopUpFees(0.03, 0.03, amount, 0.03))
    ensures FitsSchema(e)
  {
    Blank.(userId := Some(uid), amount := amount, operator := Some(Credit), txType := Some(UserTopUp),
           paymentMethod := Some(via), status := Pending,
           metadata := NoMetadata.(fees := Some(TopUpFees(0.03, 0.03, amount, 0.03))))
  }

  /** The patch of `markPaymentSuccess` / `markPaymentFailed`. */
  function ResolvedAs(status: Status): (p: Patch)
    ensures forall e: Entry {:trigger Apply(e, p)} :: Apply(e, p) == e.(status := status, isResolved := Some(true))
  {
    NoChange.(status := Some(status), isResolved := Some(true))
  }

  class PaymentsService {
    const repo: AppRepository

    constructor (repo: AppRepository)
      ensures this.repo == repo
    {
      this.repo := repo;
    }

    /** `create`: the record holds exactly the given fields and `paymentBy`. */
    method Create(data: PaymentData, paymentBy: UserId, now: Time) returns (e: Entry)
      requires repo.Valid()
      modifies repo
      ensures repo.Valid()
      ensures e.id == old(repo.nextId) && e.createdAt == now
      ensures e.paymentBy == Some(paymentBy) && e.methodId == data.methodId && e.action == data.action
      ensures e.description == data.description && e.amount == data.amount && e.currency == data.currency
      ensures e.transactionId == data.transactionId && e.isResolved == data.isResolved && e.status == data.status
      ensures e.userId.None? && e.operator.None? && e.txType.None? && e.paymentMethod.None? && e.metadata == NoMetadata
      ensures repo.entries == old(repo.entries) + [e] && repo.users == old(repo.users)
    {
      e := repo.CreateOne(PaymentRecord(data, paymentBy), now);
    }

    /** `markPaymentSuccess(id)`: whatever its prior status, the record with
        that id becomes SUCCEEDED and resolved; no other record changes. */
    method MarkPaymentSuccess(id: Id)
      requires repo.Valid()
      modifies repo
      ensures repo.Valid()
      ensures |repo.entries| == |old(repo.entries)| && repo.users == old(repo.users)
      ensures forall i :: 0 <= i < |repo.entries| ==>
        repo.entries[i] == if old(repo.entries)[i].id == id
          then old(repo.entries)[i].(status := Succeeded, isResolved := Some(true))
          else old(repo.entries)[i]
    {
      UpdateByIdEffect(repo.entries, id, ResolvedAs(Succeeded));
      repo.UpdateOne(ById(id), ResolvedAs(Succeeded));
    }

    /** `markPaymentFailed(id)`: the same with FAILED. */
    method MarkPaymentFailed(id: Id)
      requires repo.Valid()
      modifies repo
      ensures repo.Valid()
      ensures |repo.entries| == |old(repo.entries)| && repo.users == old(repo.users)
      ensures forall i :: 0 <= i < |repo.entries| ==>
        repo.entries[i] == if old(repo.entries)[i].id == id
          then old(repo.entries)[i].(status := Failed, isResolved := Some(true))
          else old(repo.entries)[i]
    {
      UpdateByIdEffect(repo.entries, id, ResolvedAs(Failed));
      repo.UpdateOne(ById(id), ResolvedAs(Failed));
    }

    /** `chargeServiceFee`: an unknown user and an insufficient deposit are
        refused before any write; otherwise the fee is taken from that
        user's deposit alone and exactly one SUCCEEDED debit is appended. */
    method ChargeServiceFee(dto: ChargeServiceFeeDto, now: Time) returns (r: Result<Entry, Error>)
      requires repo.Valid() && ValidChargeServiceFee(dto)
      modifies repo
      ensures repo.Valid()
      ensures dto.userId !in old(repo.users) ==>
        r == Err(UserNotFound) && repo.users == old(repo.users) && repo.entries == old(repo.entries)
      ensures dto.userId in old(repo.users) && old(repo.users)[dto.userId].deposit < dto.amount ==>
        r == Err(NotEnoughDeposit) && repo.users == old(repo.users) && repo.entries == old(repo.entries)
      ensures dto.userId in old(repo.users) && old(repo.users)[dto.userId].deposit >= dto.amount ==>
        && r.Ok?
        && r.value == ServiceFeeRecord(dto, old(repo.nextId)).(createdAt := now)
        && repo.entries == old(repo.entries) + [r.value]
        && repo.users == old(repo.users)[dto.userId := old(repo.users)[dto.userId].(deposit := old(repo.users)[dto.userId].deposit - dto.amount)]
        && repo.users[dto.userId].deposit >= 0.0
    {
      var user := repo.GetUser(dto.userId);
      if user.None? {
        return Err(UserNotFound);
      }
      if user.value.deposit < dto.amount {
        return Err(NotEnoughDeposit);
      }
      repo.SetDeposit(dto.userId, user.value.deposit - dto.amount);
      var newId := repo.NewObjectId();
      var e := repo.InsertOne(ServiceFeeRecord(dto, newId), now);
      return Ok(e);
    }
  }

}
