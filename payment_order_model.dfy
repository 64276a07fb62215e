/** The payment order record and its collection (backend/models/PaymentOrder.js). */
module PaymentOrderModel {

  import opened Base
  import Paytm

  /** The status enum; a new order is `pending`. */
  datatype OrderStatus = Pending | Success | Failed

  function OrderStatusName(s: OrderStatus): string
  {
    match s
    case Pending => "pending"
    case Success => "success"
    case Failed => "failed"
  }

  lemma OrderStatusNameInjective(a: OrderStatus, b: OrderStatus)
    requires OrderStatusName(a) == OrderStatusName(b)
    ensures a == b
  {
  }

  /** An order document. `note`, `utr`, `txnTime` and `providerResponse`
      are optional; the rest are set when the order is created. */
  datatype PaymentOrder = PaymentOrder(
    id: ObjectId,
    user: ObjectId,
    providerAccount: ObjectId,
    internalRef: string,
    clientRef: string,
    amount: real,
    note: Option<string>,
    upiLink: string,
    qrPayload: string,
    status: OrderStatus,
    utr: Option<string>,
    txnTime: Option<Millis>,
    providerResponse: Option<Paytm.PaytmBody>,
    createdAt: Millis,
    updatedAt: Millis)

  predicate IsTerminal(s: OrderStatus)
  {
    s != Pending
  }

  /** A fresh document: the schema's default status `pending`, no settlement
      fields, both timestamps at `now`. */
  function NewOrder(id: ObjectId, user: ObjectId, providerAccount: ObjectId, internalRef: string,
                    clientRef: string, amount: real, note: Option<string>, upiLink: string,
                    qrPayload: string, now: Millis): (o: PaymentOrder)
    ensures o.id == id && o.status == Pending && !IsTerminal(o.status)
    ensures o.utr.None? && o.txnTime.None? && o.providerResponse.None?
    ensures o.createdAt == now && o.updatedAt == now
  {
    PaymentOrder(id, user, providerAccount, internalRef, clientRef, amount, note, upiLink,
                 qrPayload, Pending, None, None, None, now, now)
  }

  /** Two distinct orders the unique indexes refuse to hold together: the
      same `internalRef`, or the same (user, clientRef). */
  predicate IndexClash(a: PaymentOrder, b: PaymentOrder)
  {
    a.internalRef == b.internalRef || (a.user == b.user && a.clientRef == b.clientRef)
  }

  /** The collection's invariants: distinct ids, `internalRef` unique,
      (user, clientRef) unique, and the required strings non-empty. */
  predicate OrdersValid(orders: seq<PaymentOrder>)
  {
    && (forall i :: 0 <= i < |orders| ==> orders[i].internalRef != "" && orders[i].clientRef != "")
    && (forall i, j :: 0 <= i < j < |orders| ==> orders[i].id != orders[j].id && !IndexClash(orders[i], orders[j]))
  }

  predicate ClashesWithOther(orders: seq<PaymentOrder>, o: PaymentOrder)
  {
    exists i :: 0 <= i < |orders| && orders[i].id != o.id && IndexClash(orders[i], o)
  }

  function IndexOfRef(orders: seq<PaymentOrder>, internalRef: string): (r: Option<nat>)
    ensures r.Some? ==> r.value < |orders| && orders[r.value].internalRef == internalRef
    ensures r.None? ==> forall i :: 0 <= i < |orders| ==> orders[i].internalRef != internalRef
  {
    FirstIndex(orders, (o: PaymentOrder) => o.internalRef == internalRef)
  }

  /** `PaymentOrder.findOne({ user, clientRef })`. */
  function FindByClientRef(orders: seq<PaymentOrder>, user: ObjectId, clientRef: string): (r: Option<PaymentOrder>)
    ensures r.Some? ==> r.value in orders && r.value.user == user && r.value.clientRef == clientRef
    ensures r.None? ==> forall o :: o in orders ==> !(o.user == user && o.clientRef == clientRef)
  {
    Find(orders, (o: PaymentOrder) => o.user == user && o.clientRef == clientRef)
  }

  /** `PaymentOrder.create(o)` on the stored sequence: a missing required
      string or a unique-index violation is thrown and nothing is inserted. */
  function InsertOrder(orders: seq<PaymentOrder>, o: PaymentOrder): (r: Result<seq<PaymentOrder>>)
    ensures r.Ok? <==> o.internalRef != "" && o.clientRef != "" && !ClashesWithOther(orders, o)
    ensures r.Ok? ==> r.value == orders + [o]
    ensures r.Err? && o.internalRef != "" && o.clientRef != "" ==> r.error == DuplicateKey
  {
    if o.internalRef == "" || o.clientRef == "" then Err(AppError(None, "ValidationError: required path missing"))
    else if ClashesWithOther(orders, o) then Err(DuplicateKey)
    else Ok(orders + [o])
  }

  lemma InsertKeepsValid(orders: seq<PaymentOrder>, o: PaymentOrder)
    requires OrdersValid(orders) && forall i :: 0 <= i < |orders| ==> orders[i].id < o.id
    ensures InsertOrder(orders, o).Ok? ==> OrdersValid(InsertOrder(orders, o).value)
  {
    if InsertOrder(orders, o).Ok? {
      var s := orders + [o];
      forall i, j | 0 <= i < j < |s|
        ensures s[i].id != s[j].id && !IndexClash(s[i], s[j])
      {
        if j == |orders| {
          assert orders[i].id < o.id;
        }
      }
    }
  }

  /** Replacing a document by one with the same id, `internalRef`, user and
      `clientRef` keeps the collection valid. */
  lemma ReplaceKeepsValid(orders: seq<PaymentOrder>, i: nat, o: PaymentOrder)
    requires OrdersValid(orders) && i < |orders|
    requires o.id == orders[i].id && o.internalRef == orders[i].internalRef
    requires o.user == orders[i].user && o.clientRef == orders[i].clientRef
    ensures OrdersValid(orders[i := o])
  {
    var s := orders[i := o];
    forall p, q | 0 <= p < q < |s|
      ensures s[p].id != s[q].id && !IndexClash(s[p], s[q])
    {
      assert !IndexClash(orders[p], orders[q]);
    }
  }

  /** The orders collection. */
  class OrderCollection {
    var orders: seq<PaymentOrder>
    var nextId: ObjectId

    ghost predicate Valid()
      reads this
    {
      OrdersValid(orders) && forall i :: 0 <= i < |orders| ==> orders[i].id < nextId
    }

    constructor ()
      ensures Valid() && orders == []
    {
      orders := [];
      nextId := 0;
    }

    /** `PaymentOrder.create(...)` with a fresh id. */
    method Create(user: ObjectId, providerAccount: ObjectId, internalRef: string, clientRef: string,
                  amount: real, note: Option<string>, upiLink: string, qrPayload: string,
                  now: Millis) returns (r: Result<PaymentOrder>)
      requires Valid()
      modifies this
      ensures Valid()
      ensures var o := NewOrder(old(nextId), user, providerAccount, internalRef, clientRef, amount, note, upiLink, qrPayload, now);
        match InsertOrder(old(orders), o)
        case Ok(s) => r == Ok(o) && orders == s && nextId == old(nextId) + 1
        case Err(e) => r == Err(e) && orders == old(orders) && nextId == old(nextId)
    {
      var o := NewOrder(nextId, user, providerAccount, internalRef, clientRef, amount, note, upiLink, qrPayload, now);
      InsertKeepsValid(orders, o);
      match InsertOrder(orders, o)
      case Ok(s) =>
        orders := s;
        nextId := nextId + 1;
        r := Ok(o);
      case Err(e) =>
        r := Err(e);
    }

    /** `order.save()` after changing status or settlement fields: the
        document at index `i` is replaced and `updatedAt` becomes `now`. */
    method Save(i: nat, o: PaymentOrder, now: Millis) returns (saved: PaymentOrder)
      requires Valid() && i < |orders|
      requires o.id == orders[i].id && o.internalRef == orders[i].internalRef
      requires o.user == orders[i].user && o.clientRef == orders[i].clientRef
      modifies this
      ensures Valid() && nextId == old(nextId)
      ensures saved == o.(updatedAt := now)
      ensures orders == old(orders)[i := saved]
    {
      saved := o.(updatedAt := now);
      orders := orders[i := saved];
    }
  }
}
