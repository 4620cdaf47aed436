/** The PayPal top-up of src/modules/payments/services/paypal-payments.service.ts:
    `requestPayment` records a PENDING credit and attaches the PayPal order
    to it; `fulfillPaypalPayment` settles the PENDING record of an order
    once and credits the user's deposit with the recorded amount.  The
    PayPal replies (the created order, the order detail, the capture) are
    parameters. */
module PaypalPayments {
  import opened Wrappers
  import opened Schemas
  import opened Errors
  import opened Repository
  import opened Dtos
  import opened PaymentsService

  /** The reply of `requestPayment`. */
  datatype Checkout = Checkout(orderId: string, amount: real)

  const Approved := "APPROVED"

  /** The filter of `fulfillPaypalPayment`: this user's PENDING PayPal
      top-up carrying the order id. */
  function PendingOrder(uid: UserId, orderId: string): (w: Where)
    ensures forall e :: Matches(e, w) <==>
      e.userId == Some(uid) && e.transactionId == Some(orderId) && e.txType == Some(UserTopUp) &&
      e.paymentMethod == Some(Paypal) && e.status == Pending
  {
    AnyEntry.(userId := Some(uid), transactionId := Some(orderId), txType := Some(UserTopUp),
              paymentMethod := Some(Paypal), status := Some(Pending))
  }

  /** The filter `{_id: id, status: PENDING}`. */
  function PendingById(id: Id): (w: Where)
    ensures forall e :: Matches(e, w) <==> e.id == id && e.status == Pending
  {
    ById(id).(status := Some(Pending))
  }

  /** No two ledger records are the PENDING record of the same order. */
  ghost predicate OrderRecordedOnce(s: seq<Entry>, uid: UserId, orderId: string)
  {
    forall i, j ::
      0 <= i < |s| && 0 <= j < |s| && Matches(s[i], PendingOrder(uid, orderId)) && Matches(s[j], PendingOrder(uid, orderId))
      ==> i == j
  }

  /** Settling the PENDING record at `k` is the only change to the ledger. */
  lemma SettleAt(s: seq<Entry>, k: nat)
    requires IdsIncreasing(s) && k < |s| && s[k].status == Pending
    ensures UpdateFirst(s, PendingById(s[k].id), NoChange.(status := Some(Succeeded))) ==
      s[k := s[k].(status := Succeeded)]
  {
    UpdateFirstById(s, k, PendingById(s[k].id), NoChange.(status := Some(Succeeded)));
  }

  class PaypalPaymentsService {
    const repo: AppRepository

    constructor (repo: AppRepository)
      ensures this.repo == repo
    {
      this.repo := repo;
    }

    /** `requestPayment`: one PENDING PayPal credit of the requested amount
        is appended; once the order exists the same record, still PENDING,
        gets the order id and the order.  No deposit changes. */
    method RequestPayment(amount: real, uid: UserId, now: Time, order: Result<PaypalOrder, string>)
      returns (r: Result<Checkout, Error>)
      requires repo.Valid() && ValidTopUpAmount(amount)
      modifies repo
      ensures repo.Valid()
      ensures repo.users == old(repo.users)
      ensures uid !in old(repo.users) ==> r == Err(MissingRecord) && repo.entries == old(repo.entries)
      ensures uid in old(repo.users) ==>
        var e := TopUpRecord(uid, amount, Paypal).(id := old(repo.nextId), createdAt := now);
        match order
        case Err(m) => r == Err(Processor(m)) && repo.entries == old(repo.entries) + [e]
        case Ok(o) =>
          && r == Ok(Checkout(o.id, amount))
          && repo.entries == old(repo.entries) + [e.(transactionId := Some(o.id), metadata := e.metadata.(order := Some(o)))]
    {
      var user := repo.GetUser(uid);
      if user.None? {
        return Err(MissingRecord);
      }
      var e := repo.CreateOne(TopUpRecord(uid, amount, Paypal), now);
      if order.Err? {
        return Err(Processor(order.error));
      }
      var o := order.value;
      UpdateFirstById(repo.entries, |repo.entries| - 1, PendingById(e.id), NoChange.(transactionId := Some(o.id), order := Some(o)));
      repo.UpdateOne(PendingById(e.id), NoChange.(transactionId := Some(o.id), order := Some(o)));
      return Ok(Checkout(o.id, amount));
    }

    /** `fulfillPaypalPayment`.  Without a PENDING record of the order it
        returns with no change at all.  A failed order lookup, or a failed
        capture of an APPROVED order (the holding-status error), changes
        nothing.  Otherwise the record becomes SUCCEEDED and the deposit
        grows by the amount recorded on it, whatever the order says; an
        order that is not APPROVED is not captured.  A missing user record
        fails only after the record was settled, without a credit. */
    method FulfillPaypalPayment(uid: UserId, orderId: string,
                                detail: Result<PaypalOrder, string>, capture: Result<PaypalOrder, string>)
      returns (r: Result<Option<PaypalOrder>, Error>)
      requires repo.Valid()
      modifies repo
      ensures repo.Valid()
      ensures FirstMatch(old(repo.entries), PendingOrder(uid, orderId)).None? ==>
        r == Ok(None) && repo.entries == old(repo.entries) && repo.users == old(repo.users)
      ensures FirstMatch(old(repo.entries), PendingOrder(uid, orderId)).Some? ==>
        var k := FirstMatch(old(repo.entries), PendingOrder(uid, orderId)).value;
        var settled := old(repo.entries)[k := old(repo.entries)[k].(status := Succeeded)];
        if detail.Err? then
          r == Err(Processor(detail.error)) && repo.entries == old(repo.entries) && repo.users == old(repo.users)
        else if detail.value.status == Approved && capture.Err? then
          r == Err(HoldingStatus) && repo.entries == old(repo.entries) && repo.users == old(repo.users)
        else if uid !in old(repo.users) then
          r == Err(MissingRecord) && repo.entries == settled && repo.users == old(repo.users)
        else
          && r == Ok(Some(if detail.value.status == Approved then capture.value else detail.value))
          && repo.entries == settled
          && repo.users == old(repo.users)[uid := old(repo.users)[uid].(deposit := old(repo.users)[uid].deposit + old(repo.entries)[k].amount)]
    {
      var transaction := repo.GetOne(PendingOrder(uid, orderId));
      if transaction.None? {
        return Ok(None);
      }
      var k := FirstMatch(repo.entries, PendingOrder(uid, orderId)).value;
      var user := repo.GetUser(uid);
      if detail.Err? {
        return Err(Processor(detail.error));
      }
      var order := detail.value;
      if order.status == Approved {
        if capture.Err? {
          return Err(HoldingStatus);
        }
        order := capture.value;
      }
      var credited := SettleOrder(uid, k, user);
      if !credited {
        return Err(MissingRecord);
      }
      return Ok(Some(order));
    }

    /** The writes of `fulfillPaypalPayment` after a good PayPal reply: the
        PENDING record at `k` becomes SUCCEEDED, then, when the user record
        was found, the deposit grows by the record's amount. */
    method SettleOrder(uid: UserId, k: nat, user: Option<User>) returns (credited: bool)
      requires repo.Valid() && k < |repo.entries| && repo.entries[k].status == Pending
      requires user.Some? <==> uid in repo.users
      modifies repo
      ensures repo.Valid()
      ensures credited <==> uid in old(repo.users)
      ensures repo.entries == old(repo.entries)[k := old(repo.entries)[k].(status := Succeeded)]
      ensures repo.users == if credited
        then old(repo.users)[uid := old(repo.users)[uid].(deposit := old(repo.users)[uid].deposit + old(repo.entries)[k].amount)]
        else old(repo.users)
    {
      var id, amount := repo.entries[k].id, repo.entries[k].amount;
      SettleAt(repo.entries, k);
      repo.UpdateOne(PendingById(id), NoChange.(status := Some(Succeeded)));
      if user.None? {
        return false;
      }
      repo.IncDeposit(uid, amount);
      return true;
    }

    /** Two fulfil calls for the same order, each with its own PayPal
        replies, credit the deposit at most once: once the first has
        credited it, the second finds no PENDING record and changes
        nothing, so the ledger and the users are those the first call left.
        This holds when the ledger has one PENDING record of the order. */
    method FulfillTwice(uid: UserId, orderId: string,
                        detail: Result<PaypalOrder, string>, capture: Result<PaypalOrder, string>,
                        detail2: Result<PaypalOrder, string>, capture2: Result<PaypalOrder, string>)
      returns (first: Result<Option<PaypalOrder>, Error>, second: Result<Option<PaypalOrder>, Error>)
      requires repo.Valid() && OrderRecordedOnce(repo.entries, uid, orderId)
      modifies repo
      ensures repo.Valid()
      ensures first.Ok? && first.value.Some? ==>
        && FirstMatch(old(repo.entries), PendingOrder(uid, orderId)).Some?
        && uid in old(repo.users)
        && var k := FirstMatch(old(repo.entries), PendingOrder(uid, orderId)).value;
           && second == Ok(None)
           && repo.entries == old(repo.entries)[k := old(repo.entries)[k].(status := Succeeded)]
           && repo.users == old(repo.users)[uid := old(repo.users)[uid].(deposit := old(repo.users)[uid].deposit + old(repo.entries)[k].amount)]
      ensures repo.users == old(repo.users) ||
        exists k :: 0 <= k < |old(repo.entries)| && uid in old(repo.users) &&
          repo.users == old(repo.users)[uid := old(repo.users)[uid].(deposit := old(repo.users)[uid].deposit + old(repo.entries)[k].amount)]
    {
      ghost var s0 := repo.entries;
      first := FulfillPaypalPayment(uid, orderId, detail, capture);
      if repo.entries != s0 {
        var k := FirstMatch(s0, PendingOrder(uid, orderId)).value;
        assert forall j :: 0 <= j < |repo.entries| ==> !Matches(repo.entries[j], PendingOrder(uid, orderId)) by {
          forall j | 0 <= j < |repo.entries|
            ensures !Matches(repo.entries[j], PendingOrder(uid, orderId))
          {
            if j != k {
              assert repo.entries[j] == s0[j];
            }
          }
        }
      }
      second := FulfillPaypalPayment(uid, orderId, detail2, capture2);
    }
  }

}
