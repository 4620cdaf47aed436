/** The store the services write through (`appRepository.payment` and
    `appRepository.user`).  Its base repository class is not part of this
    model, so its primitives are given the semantics the services rely on:
    `createOne` appends a record with a fresh id, `getOne` returns the first
    record matching a filter or nothing, `updateOne(where, data)` patches the
    first matching record and silently does nothing when none matches, and
    `$inc` adds to the deposit.  Schema validation is not applied by these
    primitives (see `Schemas.FitsSchema`). */
module Repository {
  import opened Wrappers
  import opened Schemas

  /** A Mongo equality filter on ledger records: every field that is given
      must hold that value.  A filter on a field the record lacks does not
      match (`{isResolved: false}` does not match a record with no
      `isResolved`). */
  datatype Where = Where(
    id: Option<Id>,
    userId: Option<UserId>,
    paymentBy: Option<UserId>,
    transactionId: Option<string>,
    txType: Option<TransactionType>,
    paymentMethod: Option<PaymentMethod>,
    methodId: Option<string>,
    action: Option<PaymentAction>,
    status: Option<Status>,
    isResolved: Option<bool>)

  const AnyEntry := Where(None, None, None, None, None, None, None, None, None, None)

  predicate Matches(e: Entry, w: Where)
  {
    && (w.id.Some? ==> e.id == w.id.value)
    && (w.userId.Some? ==> e.userId == w.userId)
    && (w.paymentBy.Some? ==> e.paymentBy == w.paymentBy)
    && (w.transactionId.Some? ==> e.transactionId == w.transactionId)
    && (w.txType.Some? ==> e.txType == w.txType)
    && (w.paymentMethod.Some? ==> e.paymentMethod == w.paymentMethod)
    && (w.methodId.Some? ==> e.methodId == w.methodId)
    && (w.action.Some? ==> e.action == w.action)
    && (w.status.Some? ==> e.status == w.status.value)
    && (w.isResolved.Some? ==> e.isResolved == w.isResolved)
  }

  /** A `$set` patch on ledger records: every field that is given is
      overwritten, the others are kept. */
  datatype Patch = Patch(
    transactionId: Option<string>,
    status: Option<Status>,
    isResolved: Option<bool>,
    methodId: Option<string>,
    paymentBy: Option<UserId>,
    action: Option<PaymentAction>,
    order: Option<PaypalOrder>)

  const NoChange := Patch(None, None, None, None, None, None, None)

  function Override<T>(given: Option<T>, kept: Option<T>): Option<T>
  {
    if given.Some? then given else kept
  }

  /** A patch never touches a record's id, owner, amount, direction, type,
      method or creation time. */
  function Apply(e: Entry, p: Patch): (r: Entry)
    ensures r.id == e.id && r.createdAt == e.createdAt && r.userId == e.userId
    ensures r.amount == e.amount && r.operator == e.operator && r.txType == e.txType
    ensures r.paymentMethod == e.paymentMethod && r.description == e.description
    ensures r.metadata.meetingId == e.metadata.meetingId && r.metadata.fees == e.metadata.fees
    ensures p.status.Some? ==> r.status == p.status.value
    ensures p.status.None? ==> r.status == e.status
  {
    e.(transactionId := Override(p.transactionId, e.transactionId),
       status := if p.status.Some? then p.status.value else e.status,
       isResolved := Override(p.isResolved, e.isResolved),
       methodId := Override(p.methodId, e.methodId),
       paymentBy := Override(p.paymentBy, e.paymentBy),
       action := Override(p.action, e.action),
       metadata := e.metadata.(order := Override(p.order, e.metadata.order)))
  }

  /** The position of the first record that matches, if any. */
  function FirstMatch(s: seq<Entry>, w: Where): (r: Option<nat>)
    ensures r.Some? ==> r.value < |s| && Matches(s[r.value], w)
    ensures r.Some? ==> forall j :: 0 <= j < r.value ==> !Matches(s[j], w)
    ensures r.None? <==> forall j :: 0 <= j < |s| ==> !Matches(s[j], w)
  {
    if |s| == 0 then None
    else if Matches(s[0], w) then Some(0)
    else
      match FirstMatch(s[1..], w)
      case None => None
      case Some(k) => Some(k + 1)
  }

  /** `getOne(where)`. */
  function Lookup(s: seq<Entry>, w: Where): (r: Option<Entry>)
    ensures r.Some? ==> r.value in s && Matches(r.value, w)
    ensures r.None? <==> forall j :: 0 <= j < |s| ==> !Matches(s[j], w)
  {
    match FirstMatch(s, w)
    case None => None
    case Some(k) => Some(s[k])
  }

  /** `updateOne(where, data)`: the first match is patched, nothing else. */
  function UpdateFirst(s: seq<Entry>, w: Where, p: Patch): (r: seq<Entry>)
    ensures |r| == |s|
  {
    match FirstMatch(s, w)
    case None => s
    case Some(k) => s[k := Apply(s[k], p)]
  }

  /** What `updateOne` does, position by position: the first matching record
      is patched, every other record is left as it was, and with no match the
      sequence is unchanged. */
  lemma UpdateFirstEffect(s: seq<Entry>, w: Where, p: Patch, i: nat)
    requires i < |s|
    ensures |UpdateFirst(s, w, p)| == |s|
    ensures UpdateFirst(s, w, p)[i] ==
      if Matches(s[i], w) && forall j :: 0 <= j < i ==> !Matches(s[j], w) then Apply(s[i], p) else s[i]
  {
    var k := FirstMatch(s, w);
    if k.Some? && k.value != i {
      if k.value < i {
        assert Matches(s[k.value], w);
      } else {
        assert !Matches(s[i], w);
      }
    }
  }

  lemma UpdateFirstNoMatch(s: seq<Entry>, w: Where, p: Patch)
    requires forall j :: 0 <= j < |s| ==> !Matches(s[j], w)
    ensures UpdateFirst(s, w, p) == s
  {
  }

  /** Patching the record just appended, when no earlier record matches. */
  lemma UpdateFirstAppended(s: seq<Entry>, e: Entry, w: Where, p: Patch)
    requires forall j :: 0 <= j < |s| ==> !Matches(s[j], w)
    requires Matches(e, w)
    ensures UpdateFirst(s + [e], w, p) == s + [Apply(e, p)]
  {
    var t := s + [e];
    assert forall j :: 0 <= j < |s| ==> !Matches(t[j], w);
    assert Matches(t[|s|], w);
    assert FirstMatch(t, w) == Some(|s|);
  }

  ghost predicate IdsIncreasing(s: seq<Entry>)
  {
    forall i, j :: 0 <= i < j < |s| ==> s[i].id < s[j].id
  }

  /** A filter on `_id` reaches exactly the record with that id. */
  lemma UpdateFirstById(s: seq<Entry>, k: nat, w: Where, p: Patch)
    requires IdsIncreasing(s)
    requires k < |s| && w.id == Some(s[k].id) && Matches(s[k], w)
    ensures UpdateFirst(s, w, p) == s[k := Apply(s[k], p)]
  {
    assert forall j :: 0 <= j < k ==> s[j].id < s[k].id;
    assert FirstMatch(s, w) == Some(k);
  }

  /** The filter `{_id: id}`. */
  function ById(id: Id): (w: Where)
    ensures forall e :: Matches(e, w) <==> e.id == id
  {
    AnyEntry.(id := Some(id))
  }

  /** With unique ids, an update by `_id` patches the record with that id,
      whatever else it holds, and no other record. */
  lemma UpdateByIdEffect(s: seq<Entry>, id: Id, p: Patch)
    requires IdsIncreasing(s)
    ensures |UpdateFirst(s, ById(id), p)| == |s|
    ensures forall i :: 0 <= i < |s| ==>
      UpdateFirst(s, ById(id), p)[i] == if s[i].id == id then Apply(s[i], p) else s[i]
  {
    match FirstMatch(s, ById(id))
    case None =>
    case Some(k) =>
      UpdateFirstById(s, k, ById(id), p);
      assert forall i :: 0 <= i < |s| && i != k ==> s[i].id != s[k].id;
  }

  lemma UpdateFirstKeepsIds(s: seq<Entry>, w: Where, p: Patch)
    ensures forall i :: 0 <= i < |s| ==> UpdateFirst(s, w, p)[i].id == s[i].id
  {
  }

  /** Position of the first embedded card with the given id. */
  function FirstCard(cards: seq<CardRecord>, id: string): (r: Option<nat>)
    ensures r.Some? ==> r.value < |cards| && cards[r.value].id == id
    ensures r.Some? ==> forall j :: 0 <= j < r.value ==> cards[j].id != id
    ensures r.None? <==> forall j :: 0 <= j < |cards| ==> cards[j].id != id
  {
    if |cards| == 0 then None
    else if cards[0].id == id then Some(0)
    else
      match FirstCard(cards[1..], id)
      case None => None
      case Some(k) => Some(k + 1)
  }

  /** `$set: {'billings.stripe.paymentMethods.$.removedAt': now}`: the first
      card with that id is stamped, and every card stays in the list. */
  function SoftRemove(cards: seq<CardRecord>, id: string, now: Time): (r: seq<CardRecord>)
    ensures |r| == |cards|
    ensures forall i :: 0 <= i < |cards| ==> r[i] == cards[i] || r[i] == cards[i].(removedAt := Some(now))
  {
    match FirstCard(cards, id)
    case None => cards
    case Some(k) => cards[k := cards[k].(removedAt := Some(now))]
  }

  /** The soft delete keeps every record, stamps the first one carrying the
      id and leaves all others exactly as they were. */
  lemma SoftRemoveEffect(cards: seq<CardRecord>, id: string, now: Time, i: nat)
    requires i < |cards|
    ensures SoftRemove(cards, id, now)[i] ==
      if cards[i].id == id && forall j :: 0 <= j < i ==> cards[j].id != id
      then cards[i].(removedAt := Some(now)) else cards[i]
  {
    var k := FirstCard(cards, id);
    if k.Some? && k.value != i {
      if k.value < i {
        assert cards[k.value].id == id;
      } else {
        assert cards[i].id != id;
      }
    }
  }

  /** The user record with its Stripe billing replaced by `f` applied to it
      (a missing billing starts empty, as a `$set`/`$push` on a missing path
      creates it). */
  function WithBilling(u: User, b: StripeBilling): User
  {
    u.(stripe := Some(b))
  }

  function BillingOf(u: User): StripeBilling
  {
    if u.stripe.Some? then u.stripe.value else StripeBilling(None, None, [])
  }

  /** The users after `getOne` then, for a missing user, `createOne`: an
      existing record is kept as it is, a missing one starts as the schema
      default. */
  function EnsureUser(users: map<UserId, User>, uid: UserId): (r: map<UserId, User>)
    ensures uid in r && r.Keys == users.Keys + {uid}
    ensures uid in users ==> r == users
    ensures uid !in users ==> r[uid] == NewUser()
    ensures forall v :: v in users && v != uid ==> r[v] == users[v]
  {
    if uid in users then users else users[uid := NewUser()]
  }

  /** The users after `$set` of `billings.stripe.customerId` and
      `billings.stripe.connectedAt` on `uid`: that user gets the customer id
      and the connection time, and keeps its deposit and cards; every other
      user is unchanged. */
  function WithCustomer(users: map<UserId, User>, uid: UserId, customerId: string, now: Time): (r: map<UserId, User>)
    requires uid in users
    ensures r.Keys == users.Keys
    ensures forall v :: v in users && v != uid ==> r[v] == users[v]
    ensures CustomerIdOf(r[uid]) == Some(customerId) && r[uid].stripe.value.connectedAt == Some(now)
    ensures r[uid].deposit == users[uid].deposit && CardsOf(r[uid]) == CardsOf(users[uid])
  {
    users[uid := WithBilling(users[uid], BillingOf(users[uid]).(customerId := Some(customerId), connectedAt := Some(now)))]
  }

  class AppRepository {
    var entries: seq<Entry>
    var users: map<UserId, User>
    var nextId: nat

    /** Ids are unique (increasing in insertion order) and below the next
        fresh id; the unique index on the Stripe customer id holds. */
    ghost predicate Valid()
      reads this
    {
      && IdsIncreasing(entries)
      && (forall i :: 0 <= i < |entries| ==> entries[i].id < nextId)
      && UniqueCustomerIds(users)
    }

    constructor ()
      ensures Valid() && entries == [] && users == map[] && nextId == 0
    {
      entries, users, nextId := [], map[], 0;
    }

    /** `new mongoose.Types.ObjectId()`: an id above every id handed out. */
    method NewObjectId() returns (id: Id)
      requires Valid()
      modifies this`nextId
      ensures Valid()
      ensures id == old(nextId) && nextId == old(nextId) + 1
    {
      id := nextId;
      nextId := nextId + 1;
    }

    /** `createOne` of a record whose `_id` the caller generated. */
    method InsertOne(data: Entry, now: Time) returns (e: Entry)
      requires Valid()
      requires data.id < nextId && forall i :: 0 <= i < |entries| ==> entries[i].id < data.id
      modifies this`entries
      ensures Valid()
      ensures e == data.(createdAt := now)
      ensures entries == old(entries) + [e]
    {
      e := data.(createdAt := now);
      entries := entries + [e];
    }

    /** `createOne`: the record is appended under a fresh id. */
    method CreateOne(data: Entry, now: Time) returns (e: Entry)
      requires Valid()
      modifies this`entries, this`nextId
      ensures Valid()
      ensures e == data.(id := old(nextId), createdAt := now)
      ensures entries == old(entries) + [e] && nextId == old(nextId) + 1
    {
      var id := NewObjectId();
      e := InsertOne(data.(id := id), now);
    }

    method GetOne(w: Where) returns (r: Option<Entry>)
      ensures r == Lookup(entries, w)
    {
      r := Lookup(entries, w);
    }

    method UpdateOne(w: Where, p: Patch)
      requires Valid()
      modifies this`entries
      ensures Valid()
      ensures entries == UpdateFirst(old(entries), w, p)
    {
      UpdateFirstKeepsIds(entries, w, p);
      entries := UpdateFirst(entries, w, p);
    }

    method GetUser(uid: UserId) returns (r: Option<User>)
      ensures r == if uid in users then Some(users[uid]) else None
    {
      r := if uid in users then Some(users[uid]) else None;
    }

    /** `user.updateOne({_id}, {deposit})`. */
    method SetDeposit(uid: UserId, deposit: real)
      requires Valid()
      modifies this`users
      ensures Valid()
      ensures users == if uid in old(users) then old(users)[uid := old(users)[uid].(deposit := deposit)] else old(users)
    {
      if uid in users {
        users := users[uid := users[uid].(deposit := deposit)];
      }
    }

    /** `user.updateOne({_id}, {$inc: {deposit: delta}})`. */
    method IncDeposit(uid: UserId, delta: real)
      requires Valid()
      modifies this`users
      ensures Valid()
      ensures users == if uid in old(users) then old(users)[uid := old(users)[uid].(deposit := old(users)[uid].deposit + delta)] else old(users)
    {
      if uid in users {
        users := users[uid := users[uid].(deposit := users[uid].deposit + delta)];
      }
    }

    /** `user.createOne({_id})`; the caller has just seen that no such user
        exists. */
    method CreateUser(uid: UserId)
      requires Valid() && uid !in users
      modifies this`users
      ensures Valid()
      ensures users == old(users)[uid := NewUser()]
    {
      users := users[uid := NewUser()];
    }

    /** `$push: {'billings.stripe.paymentMethods': card}`. */
    method PushCard(uid: UserId, card: CardRecord)
      requires Valid()
      modifies this`users
      ensures Valid()
      ensures users == if uid in old(users)
        then old(users)[uid := WithBilling(old(users)[uid], BillingOf(old(users)[uid]).(paymentMethods := CardsOf(old(users)[uid]) + [card]))]
        else old(users)
    {
      if uid in users {
        var u := users[uid];
        users := users[uid := WithBilling(u, BillingOf(u).(paymentMethods := CardsOf(u) + [card]))];
      }
    }

    /** `findOneAndUpdate({_id, 'billings.stripe.paymentMethods.id': id},
        {$set: {'billings.stripe.paymentMethods.$.removedAt': now}}, {new: true})`. */
    method MarkCardRemoved(uid: UserId, id: string, now: Time) returns (r: Option<User>)
      requires Valid()
      modifies this`users
      ensures Valid()
      ensures uid in old(users) && FirstCard(CardsOf(old(users)[uid]), id).Some? ==>
        var u := old(users)[uid];
        var u' := WithBilling(u, BillingOf(u).(paymentMethods := SoftRemove(CardsOf(u), id, now)));
        users == old(users)[uid := u'] && r == Some(u')
      ensures !(uid in old(users) && FirstCard(CardsOf(old(users)[uid]), id).Some?) ==>
        users == old(users) && r == None
    {
      if uid in users && FirstCard(CardsOf(users[uid]), id).Some? {
        var u := users[uid];
        var u' := WithBilling(u, BillingOf(u).(paymentMethods := SoftRemove(CardsOf(u), id, now)));
        assert CustomerIdOf(u') == CustomerIdOf(u);
        users := users[uid := u'];
        r := Some(u');
      } else {
        r := None;
      }
    }

    /** `updateOne({_id}, {$set: {'billings.stripe.customerId': id,
        'billings.stripe.connectedAt': now}})`; the unique index refuses a
        customer id another user already holds. */
    method SetStripeCustomer(uid: UserId, customerId: string, now: Time) returns (ok: bool)
      requires Valid()
      modifies this`users
      ensures Valid()
      ensures ok <==> forall v :: v in old(users) && v != uid ==> CustomerIdOf(old(users)[v]) != Some(customerId)
      ensures ok && uid in old(users) ==> users == WithCustomer(old(users), uid, customerId, now)
      ensures !ok || uid !in old(users) ==> users == old(users)
    {
      ok := forall v :: v in users && v != uid ==> CustomerIdOf(users[v]) != Some(customerId);
      if ok && uid in users {
        users := WithCustomer(users, uid, customerId, now);
      }
    }
  }
}
