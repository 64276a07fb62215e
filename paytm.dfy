/** The Paytm status adapter (backend/utils/providers/paytm.js): normalises
    Paytm's order-status reply. The HTTP request itself is I/O; its outcome
    (the parsed JSON body, or an exception from `fetch`, `response.json()` or
    reading a field of a `null` body) is an input. */
module Paytm {

  import opened Base

  /** The fields of Paytm's JSON reply that the adapter reads; the body is
      kept whole as the raw response. */
  datatype PaytmBody = PaytmBody(STATUS: Option<string>, BANKTXNID: Option<string>, TXNDATE: Option<string>)

  datatype PaytmReply = Replied(body: PaytmBody) | Threw

  /** What every provider adapter returns: `status` is "success" or "pending". */
  datatype ProviderResult = ProviderResult(
    status: string,
    utr: Option<string>,
    txnTime: Option<Millis>,
    rawResponse: Option<PaytmBody>)

  /** `getPaytmStatus`; `parseDate` stands for `new Date(text)`. */
  function GetPaytmStatus(reply: PaytmReply, parseDate: string -> Millis): (r: ProviderResult)
    ensures r.status == "success" || r.status == "pending"
    ensures r.status == "success" <==> reply.Replied? && reply.body.STATUS == Some("TXN_SUCCESS")
    ensures reply.Threw? ==> r == ProviderResult("pending", None, None, None)
    ensures reply.Replied? ==> r.rawResponse == Some(reply.body)
    ensures reply.Replied? ==> (r.utr.None? <==> !Truthy(reply.body.BANKTXNID))
    ensures r.utr.Some? ==> r.utr.value != "" && r.utr == reply.body.BANKTXNID
    ensures reply.Replied? ==> (r.txnTime.None? <==> !Truthy(reply.body.TXNDATE))
    ensures r.txnTime.Some? ==> r.txnTime == Some(parseDate(reply.body.TXNDATE.value))
  {
    match reply
    case Threw => ProviderResult("pending", None, None, None)
    case Replied(data) =>
      ProviderResult(
        if data.STATUS == Some("TXN_SUCCESS") then "success" else "pending",
        if Truthy(data.BANKTXNID) then data.BANKTXNID else None,
        if Truthy(data.TXNDATE) then Some(parseDate(data.TXNDATE.value)) else None,
        Some(data))
  }
}
