/** Provider dispatch (backend/utils/providers/index.js): picks the status
    adapter by provider code, ignoring the case of the code. */
module Providers {

  import opened Base
  import Text
  import opened Paytm

  /** `getProviderStatus(providerCode, merchantId, orderId)`. `paytm` is the
      outcome of the Paytm request for (`merchantId`, `orderId`), consulted
      only when the code selects Paytm. `None` is the `null` returned for an
      unknown provider. */
  function GetProviderStatus(providerCode: string, merchantId: string, orderId: string,
                             paytm: PaytmReply, parseDate: string -> Millis): (r: Option<ProviderResult>)
    ensures r.Some? <==> Text.ToLower(providerCode) == "paytm"
    ensures r.Some? ==> r.value == GetPaytmStatus(paytm, parseDate)
  {
    if Text.ToLower(providerCode) == "paytm" then Some(GetPaytmStatus(paytm, parseDate)) else None
  }

  /** Codes that agree up to the case of letters select the same adapter. */
  lemma DispatchIgnoresCase(c1: string, c2: string, merchantId: string, orderId: string,
                            paytm: PaytmReply, parseDate: string -> Millis)
    requires Text.ToLower(c1) == Text.ToLower(c2)
    ensures GetProviderStatus(c1, merchantId, orderId, paytm, parseDate)
         == GetProviderStatus(c2, merchantId, orderId, paytm, parseDate)
  {
  }

  /** "PAYTM" and "PayTm" both reach the Paytm adapter; "phonepe" has none. */
  lemma DispatchExamples(merchantId: string, orderId: string, paytm: PaytmReply, parseDate: string -> Millis)
    ensures GetProviderStatus("PAYTM", merchantId, orderId, paytm, parseDate).Some?
    ensures GetProviderStatus("PayTm", merchantId, orderId, paytm, parseDate).Some?
    ensures GetProviderStatus("phonepe", merchantId, orderId, paytm, parseDate).None?
  {
    assert Text.ToLower("PAYTM") == "paytm";
    assert Text.ToLower("PayTm") == "paytm";
    assert Text.ToLower("phonepe")[0] == 'p';
    assert Text.ToLower("phonepe") != "paytm" by {
      assert Text.ToLower("phonepe")[1] == 'h';
    }
  }
}
