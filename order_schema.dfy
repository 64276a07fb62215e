/** Request-body rules for order creation (backend/validations/orderSchema.js).
    Bodies arrive typed: a value of the wrong JSON type is outside the model.
    zod's URL check is the parameter `isUrl`. */
module OrderSchema {

  import opened Base
  import OrderService

  datatype OrderBody = OrderBody(amount: real, clientRef: Option<string>, note: Option<string>, redirectUri: Option<string>)

  predicate RedirectOk(b: OrderBody, isUrl: string -> bool)
  {
    b.redirectUri.Some? ==> isUrl(b.redirectUri.value)
  }

  /** `createOrderSchema`, for the merchant API: a positive amount and a
      non-empty `clientRef`. */
  predicate CreateOrderOk(b: OrderBody, isUrl: string -> bool)
  {
    b.amount > 0.0 && b.clientRef.Some? && |b.clientRef.value| >= 1 && RedirectOk(b, isUrl)
  }

  /** `createOrderDashboardSchema`: `clientRef` may be left out, but not sent empty. */
  predicate CreateOrderDashboardOk(b: OrderBody, isUrl: string -> bool)
  {
    b.amount > 0.0 && (b.clientRef.Some? ==> |b.clientRef.value| >= 1) && RedirectOk(b, isUrl)
  }

  /** Every body the merchant API accepts the dashboard accepts too, and the
      dashboard additionally accepts exactly the bodies without a `clientRef`
      that are otherwise valid. Neither accepts a zero or negative amount. */
  lemma DashboardSchemaIsLooser(b: OrderBody, isUrl: string -> bool)
    ensures CreateOrderOk(b, isUrl) ==> CreateOrderDashboardOk(b, isUrl)
    ensures CreateOrderDashboardOk(b, isUrl) && !CreateOrderOk(b, isUrl) <==>
      b.clientRef.None? && b.amount > 0.0 && RedirectOk(b, isUrl)
    ensures b.amount <= 0.0 ==> !CreateOrderOk(b, isUrl) && !CreateOrderDashboardOk(b, isUrl)
  {
  }

  /** On an accepted body the order keeps the client's reference when one is
      sent (an API body always sends one), and falls back to the generated
      reference only on a dashboard body without one. */
  lemma AcceptedClientRefIsUsed(b: OrderBody, isUrl: string -> bool, internalRef: string)
    requires CreateOrderDashboardOk(b, isUrl)
    ensures b.clientRef.Some? ==> OrderService.FinalClientRef(b.clientRef, internalRef) == b.clientRef.value
    ensures b.clientRef.None? ==> OrderService.FinalClientRef(b.clientRef, internalRef) == internalRef
  {
  }
}
