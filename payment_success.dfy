/** The page the payment gateway returns to: it needs an `orderId` query parameter and sends
    the visitor back to the menu when there is none. */
module PaymentSuccess {
  import opened JsRuntime
  import opened Web

  /** `URLSearchParams.get(key)`: the value of the first pair named `key`, if any. */
  function QueryGet(query: seq<(string, string)>, key: string): (r: Option<string>)
    ensures r.None? <==> forall i :: 0 <= i < |query| ==> query[i].0 != key
  {
    if query == [] then None
    else if query[0].0 == key then Some(query[0].1)
    else QueryGet(query[1..], key)
  }

  /** A found value is the one of the first pair with that name. */
  lemma {:induction false} QueryGetFirst(query: seq<(string, string)>, key: string)
    requires QueryGet(query, key).Some?
    ensures exists i :: (0 <= i < |query| && query[i] == (key, QueryGet(query, key).value)
      && forall j :: 0 <= j < i ==> query[j].0 != key)
  {
    if query[0].0 != key {
      var v := QueryGet(query, key).value;
      QueryGetFirst(query[1..], key);
      var i :| 0 <= i < |query[1..]| && query[1..][i] == (key, v)
        && forall j :: 0 <= j < i ==> query[1..][j].0 != key;
      assert query[i + 1] == (key, v);
      forall j | 0 <= j < i + 1 ensures query[j].0 != key {
        if j > 0 {
          assert query[j] == query[1..][j - 1];
        }
      }
    } else {
      assert query[0] == (key, QueryGet(query, key).value);
    }
  }

  datatype SuccessView = LoadingSuccess | PaymentSuccessful

  /** The server render, and the first client render, show "Loading..."; after that the
      success message shows, whatever the order id. */
  function Render(isClient: bool): (v: SuccessView)
    ensures v.LoadingSuccess? <==> !isClient
  {
    if isClient then PaymentSuccessful else LoadingSuccess
  }

  class PaymentSuccessPage {
    const orderId: Option<string>
    var isClient: bool
    const browser: Browser

    /** The page as first rendered for a URL with query `query`. */
    constructor (query: seq<(string, string)>, browser: Browser)
      ensures orderId == QueryGet(query, "orderId")
      ensures !isClient && this.browser == browser
    {
      orderId := QueryGet(query, "orderId");
      isClient := false;
      this.browser := browser;
    }

    /** The first effect: the page is now running in the browser. */
    method Hydrate()
      modifies this`isClient
      ensures isClient
    {
      isClient := true;
    }

    /** The second effect: once on the client, a missing or empty order id sends the visitor
        to the menu; before that, or with an order id, nothing happens. */
    method RedirectCheck()
      modifies browser
      ensures isClient && !Truthy(orderId) ==> browser.state == old(browser.state).NavigatedTo("/menu")
      ensures !isClient || Truthy(orderId) ==> browser.state == old(browser.state)
    {
      if isClient && !Truthy(orderId) {
        browser.state := browser.state.NavigatedTo("/menu");
      }
    }
  }
}
