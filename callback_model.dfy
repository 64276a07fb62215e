/** The webhook delivery log and its collection (backend/models/Callback.js). */
module CallbackModel {

  import opened Base
  import PaymentOrderModel

  /** The status enum; a new log is `pending`. */
  datatype LogStatus = Pending | Success | Retry | Failed

  function LogStatusName(s: LogStatus): string
  {
    match s
    case Pending => "pending"
    case Success => "success"
    case Retry => "retry"
    case Failed => "failed"
  }

  lemma LogStatusNameInjective(a: LogStatus, b: LogStatus)
    requires LogStatusName(a) == LogStatusName(b)
    ensures a == b
  {
  }

  /** The JSON body posted to the merchant, kept in the log. */
  datatype Payload = Payload(
    status: PaymentOrderModel.OrderStatus,
    utr: Option<string>,
    ref: string,
    amount: real,
    txnTime: Millis,
    provider: string)

  /** A log document. `nextRetryAt` is optional. No index makes (order,
      status) unique: several logs may exist for one order. */
  datatype CallbackLog = CallbackLog(
    id: ObjectId,
    user: ObjectId,
    order: ObjectId,
    url: string,
    payload: Payload,
    status: LogStatus,
    attempts: nat,
    nextRetryAt: Option<Millis>,
    createdAt: Millis,
    updatedAt: Millis)

  /** A fresh log with the schema's defaults: `pending`, 0 attempts, no retry time. */
  function NewLog(id: ObjectId, user: ObjectId, order: ObjectId, url: string, payload: Payload, now: Millis): (log: CallbackLog)
    ensures log.id == id && log.status == Pending && log.attempts == 0 && log.nextRetryAt.None?
    ensures log.url == url && log.payload == payload && log.order == order && log.user == user
  {
    CallbackLog(id, user, order, url, payload, Pending, 0, None, now, now)
  }

  /** The collection's invariants: distinct ids and a non-empty `url` (required). */
  predicate LogsValid(logs: seq<CallbackLog>)
  {
    && (forall i :: 0 <= i < |logs| ==> logs[i].url != "")
    && (forall i, j :: 0 <= i < j < |logs| ==> logs[i].id != logs[j].id)
  }

  /** The callback logs collection. */
  class CallbackLogCollection {
    var logs: seq<CallbackLog>
    var nextId: ObjectId

    ghost predicate Valid()
      reads this
    {
      LogsValid(logs) && forall i :: 0 <= i < |logs| ==> logs[i].id < nextId
    }

    constructor ()
      ensures Valid() && logs == []
    {
      logs := [];
      nextId := 0;
    }

    /** `CallbackLog.create(...)`: always a new document, never a lookup. */
    method Create(user: ObjectId, order: ObjectId, url: string, payload: Payload, now: Millis) returns (log: CallbackLog)
      requires Valid() && url != ""
      modifies this
      ensures Valid()
      ensures log == NewLog(old(nextId), user, order, url, payload, now)
      ensures logs == old(logs) + [log] && nextId == old(nextId) + 1
    {
      log := NewLog(nextId, user, order, url, payload, now);
      logs := logs + [log];
      nextId := nextId + 1;
    }

    /** `log.save()`: the document at index `i` is replaced. */
    method Save(i: nat, log: CallbackLog, now: Millis) returns (saved: CallbackLog)
      requires Valid() && i < |logs| && log.id == logs[i].id && log.url != ""
      modifies this
      ensures Valid() && nextId == old(nextId)
      ensures saved == log.(updatedAt := now)
      ensures logs == old(logs)[i := saved]
    {
      saved := log.(updatedAt := now);
      logs := logs[i := saved];
    }
  }
}
