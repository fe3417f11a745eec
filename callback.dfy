/** The payment callback page (ag-gearstore/src/app/payment/callback/page.tsx):
    after the gateway redirects back, `verifyPayment` asks the backend about
    the reference and moves the page from "loading" to "success" or
    "failed". The verification request is not sent here; its outcome is a
    parameter. */
module Callback {
  import opened Base
  import Cart

  datatype Status = Loading | Success | Failed

  /** The parsed reply body: the truthiness of `status`, `data` (kept
      abstract), and `message`. */
  datatype VerifyBody<D> = VerifyBody(status: bool, data: Option<D>, message: Option<string>)

  /** The request threw (network failure or a body that did not parse), or it
      came back with some HTTP status and a parsed body. */
  datatype VerifyReply<D> = VerifyThrown | VerifyReplied(httpStatus: int, body: VerifyBody<D>)

  const VerifyingMessage := "Verifying payment..."
  const NoReferenceMessage := "No payment reference found"
  const SuccessMessage := "Payment successful!"
  const SupportMessage := "Failed to verify payment. Please contact support."
  const PendingOrderKey := "pending_order"

  /** The payment went through: truthy `status` and `data`. */
  predicate Verified<D>(body: VerifyBody<D>) {
    body.status && body.data.Some?
  }

  /** `/api/store/payment/verify/<reference>/`. */
  function VerifyPath(reference: string): (p: string)
    ensures |p| == |reference| + 27
    ensures p[..26] == "/api/store/payment/verify/" && p[|p| - 1] == '/'
    ensures p[26..|p| - 1] == reference
  {
    "/api/store/payment/verify/" + reference + "/"
  }

  class CallbackPage<D> {
    var status: Status
    var message: string
    var orderDetails: Option<D>
    const cart: Cart.CartStore

    constructor (cart: Cart.CartStore)
      ensures this.cart == cart
      ensures status == Loading && message == VerifyingMessage && orderDetails == None
    {
      this.cart := cart;
      status := Loading;
      message := VerifyingMessage;
      orderDetails := None;
    }

    /** `verifyPayment`. Without a reference nothing is requested and the page
        fails. Otherwise only the parsed body decides, never the HTTP status:
        a verified body yields success, its `data` as the order details, an
        empty cart and no `pending_order`; anything else fails and leaves the
        cart and `pending_order` alone. */
    method VerifyPayment(reference: Option<string>, reply: VerifyReply<D>) returns (requested: Option<string>)
      modifies this, cart, cart.storage
      ensures status != Loading
      ensures !Truthy(reference) ==>
        && requested == None && status == Failed && message == NoReferenceMessage
        && orderDetails == old(orderDetails) && cart.items == old(cart.items)
        && cart.storage.entries == old(cart.storage.entries)
      ensures Truthy(reference) ==> requested == Some(VerifyPath(reference.value))
      ensures Truthy(reference) && reply.VerifyReplied? && Verified(reply.body) ==>
        && status == Success && message == SuccessMessage && orderDetails == reply.body.data
        && cart.items == []
        && (cart.initialized ==>
              cart.storage.entries == (old(cart.storage.entries)["cart" := cart.codec.encode([])]) - {PendingOrderKey})
        && (!cart.initialized ==> cart.storage.entries == old(cart.storage.entries) - {PendingOrderKey})
      ensures Truthy(reference) && reply.VerifyReplied? && !Verified(reply.body) ==>
        && status == Failed && message == OrElse(reply.body.message, "Payment verification failed")
      ensures Truthy(reference) && reply.VerifyThrown? ==> status == Failed && message == SupportMessage
      ensures !(Truthy(reference) && reply.VerifyReplied? && Verified(reply.body)) ==>
        && orderDetails == old(orderDetails) && cart.items == old(cart.items)
        && cart.storage.entries == old(cart.storage.entries)
      ensures cart.initialized == old(cart.initialized)
    {
      if !Truthy(reference) {
        status := Failed;
        message := NoReferenceMessage;
        requested := None;
        return;
      }
      requested := Some(VerifyPath(reference.value));
      match reply {
        case VerifyThrown =>
          status := Failed;
          message := SupportMessage;
        case VerifyReplied(_, result) =>
          if result.status && result.data.Some? {
            status := Success;
            message := SuccessMessage;
            orderDetails := result.data;
            cart.ClearCart();
            cart.storage.RemoveItem(PendingOrderKey);
          } else {
            status := Failed;
            message := OrElse(result.message, "Payment verification failed");
          }
      }
    }
  }
}
