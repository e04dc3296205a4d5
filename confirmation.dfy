/** The bank-transfer confirmation page: shows the order saved by the checkout and lets the
    customer report that the transfer was sent. */
module Confirmation {
  import opened JsRuntime
  import opened Entities
  import opened Web

  const LastOrderKey := "lastOrder"
  const ConfirmUrl := LocalApi + "/orders/confirm-payment"
  const SuccessRoute := "/order-success?orderId="

  /** What the page renders: "Loading..." until an order is known, then its details with the
      confirm button, disabled and relabelled while a confirmation is in flight. */
  datatype ConfirmationView = LoadingOrder | Details(order: Order, buttonDisabled: bool, buttonLabel: string)

  function Render(order: Option<Order>, confirming: bool): (v: ConfirmationView)
    ensures v.LoadingOrder? <==> order.None?
    ensures v.Details? ==> v.order == order.value
    ensures v.Details? ==> (v.buttonDisabled <==> confirming)
    ensures v.Details? ==> v.buttonLabel == (if confirming then "Processing..." else "I Have Sent Payment \U{2705}")
  {
    match order
    case None => LoadingOrder
    case Some(o) => Details(o, confirming, if confirming then "Processing..." else "I Have Sent Payment \U{2705}")
  }

  class ConfirmationPage {
    var order: Option<Order>
    var confirming: bool
    const browser: Browser

    constructor (browser: Browser)
      ensures order == None && !confirming && this.browser == browser
    {
      order := None;
      confirming := false;
      this.browser := browser;
    }

    /** The mount effect: a non-empty stored "lastOrder" becomes the order through `decode`
        (`JSON.parse`, where `None` is a text that parses to `null`); otherwise the order
        stays unknown. */
    method Mount(decode: string -> Option<Order>)
      modifies this`order
      ensures Truthy(browser.state.GetItem(LastOrderKey)) ==> order == decode(browser.state.GetItem(LastOrderKey).value)
      ensures !Truthy(browser.state.GetItem(LastOrderKey)) ==> order == old(order)
    {
      var storedOrder := browser.state.GetItem(LastOrderKey);
      if Truthy(storedOrder) {
        order := decode(storedOrder.value);
      }
    }

    /** The first half of `handleConfirmPayment`: nothing without an order; otherwise mark the
        page as confirming and post the order's id. */
    method StartConfirm() returns (sent: bool)
      modifies this`confirming, browser
      ensures sent <==> order.Some?
      ensures !sent ==> confirming == old(confirming) && browser.state == old(browser.state)
      ensures sent ==> confirming && browser.state == old(browser.state).Sent(Post(ConfirmUrl, ConfirmPayment(order.value.id)))
    {
      if order.None? {
        return false;
      }
      confirming := true;
      browser.state := browser.state.Sent(Post(ConfirmUrl, ConfirmPayment(order.value.id)));
      sent := true;
    }

    /** The second half, once the request is answered: on 2xx go to the success page for this
        order; otherwise alert and stay. Every path ends with the page no longer confirming. */
    method FinishConfirm(answer: Response<()>)
      requires confirming && order.Some?
      modifies this`confirming, browser
      ensures !confirming
      ensures answer.Ok? ==> browser.state == old(browser.state).NavigatedTo(SuccessRoute + order.value.id)
      ensures answer.HttpErr? ==>
        browser.state == old(browser.state).Alerted("\U{274C} Error: " + Interpolate(answer.message))
      ensures answer.NetFail? ==>
        browser.state == old(browser.state).Alerted("\U{274C} Failed to confirm payment. Please try again.")
      ensures !answer.Ok? ==> browser.state.navigations == old(browser.state.navigations)
    {
      match answer {
        case Ok(_) =>
          browser.state := browser.state.NavigatedTo(SuccessRoute + order.value.id);
        case HttpErr(message) =>
          browser.state := browser.state.Alerted("\U{274C} Error: " + Interpolate(message));
        case NetFail =>
          browser.state := browser.state.Alerted("\U{274C} Failed to confirm payment. Please try again.");
      }
      confirming := false;
    }
  }

  /** The success URL carries the order id after a fixed prefix, so different orders go to
      different URLs and the id can be read back. */
  lemma SuccessUrlReadsBack(a: string, b: string)
    ensures (SuccessRoute + a)[|SuccessRoute|..] == a
    ensures SuccessRoute + a == SuccessRoute + b ==> a == b
  {
    assert (SuccessRoute + a)[|SuccessRoute|..] == a;
    if SuccessRoute + a == SuccessRoute + b {
      assert (SuccessRoute + b)[|SuccessRoute|..] == b;
    }
  }
}
