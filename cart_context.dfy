/** The shared cart store (`CartProvider`): a client mirror of the remote cart, refreshed
    wholesale by `fetchCart` and never edited locally. */
module CartContext {
  import opened JsRuntime
  import opened Entities
  import opened Web

  /** `items.reduce((sum, item) => sum + item.quantity, 0)`. */
  function QuantitySum(items: seq<CartItem>): (r: int)
    ensures |items| == 1 ==> r == items[0].quantity
  {
    if items == [] then 0
    else QuantitySum(items[..|items| - 1]) + items[|items| - 1].quantity
  }

  /** What one line adds to the total: its price times its quantity. */
  function LineTotal(line: CartItem): int {
    line.menuItem.price * line.quantity
  }

  /** `items.reduce((sum, item) => sum + item.menuItem.price * item.quantity, 0)`, the total
      shown on the cart and checkout pages. */
  function CartTotal(items: seq<CartItem>): (r: int)
    ensures |items| == 1 ==> r == LineTotal(items[0])
  {
    if items == [] then 0
    else CartTotal(items[..|items| - 1]) + LineTotal(items[|items| - 1])
  }

  /** The count of a cart splits over any division of its lines. */
  lemma {:induction false} QuantitySumAppend(a: seq<CartItem>, b: seq<CartItem>)
    ensures QuantitySum(a + b) == QuantitySum(a) + QuantitySum(b)
  {
    if b == [] {
      assert a + b == a;
    } else {
      assert (a + b)[..|a + b| - 1] == a + b[..|b| - 1];
      QuantitySumAppend(a, b[..|b| - 1]);
    }
  }

  /** The total of a cart splits over any division of its lines. */
  lemma {:induction false} CartTotalAppend(a: seq<CartItem>, b: seq<CartItem>)
    ensures CartTotal(a + b) == CartTotal(a) + CartTotal(b)
  {
    if b == [] {
      assert a + b == a;
    } else {
      assert (a + b)[..|a + b| - 1] == a + b[..|b| - 1];
      CartTotalAppend(a, b[..|b| - 1]);
    }
  }

  /** With every line holding at least one unit, the badge count is at least the number of lines,
      and it is zero only for the empty cart. */
  lemma {:induction false} QuantitySumBounds(items: seq<CartItem>)
    requires forall i :: 0 <= i < |items| ==> items[i].quantity >= 1
    ensures QuantitySum(items) >= |items|
    ensures QuantitySum(items) == 0 <==> items == []
  {
    if items != [] {
      QuantitySumBounds(items[..|items| - 1]);
    }
  }

  /** With non-negative prices and quantities the total is never negative. */
  lemma {:induction false} CartTotalNonNegative(items: seq<CartItem>)
    ensures (forall i :: 0 <= i < |items| ==> items[i].quantity >= 0 && items[i].menuItem.price >= 0) ==>
      CartTotal(items) >= 0
  {
    if items != [] {
      var prefix := items[..|items| - 1];
      assert forall i :: 0 <= i < |prefix| ==> prefix[i] == items[i];
      CartTotalNonNegative(prefix);
    }
  }

  /** `item.id || item._id`: the identifier `addToCart` sends. */
  function MenuItemKey(item: MenuItem): (r: Option<string>)
    ensures Truthy(item.id) ==> r == item.id
    ensures !Truthy(item.id) ==> r == item.mongoId
  {
    if Truthy(item.id) then item.id else item.mongoId
  }

  /** The body of `GET /cart/:userId`; `items` may be missing. */
  datatype CartBody = CartBody(items: Option<seq<CartItem>>)

  /** The mirrored lines after `fetchCart` with answer `reply`, starting from `current`. */
  function FetchedItems(current: seq<CartItem>, userId: Option<string>, reply: Response<CartBody>): (r: seq<CartItem>)
    ensures r != current ==> Truthy(userId) && reply.Ok?
    ensures Truthy(userId) && reply.Ok? && reply.data.items.Some? ==> r == reply.data.items.value
    ensures Truthy(userId) && reply.Ok? && reply.data.items.None? ==> r == []
  {
    if !Truthy(userId) || !reply.Ok? then current
    else if reply.data.items.Some? then reply.data.items.value
    else []
  }

  /** The browser after `fetchCart`: one `GET /cart/:userId` when there is a session. */
  function FetchRequest(state: BrowserState, apiBase: string, userId: Option<string>): BrowserState {
    if Truthy(userId) then state.Sent(Get(apiBase + "/cart/" + userId.value)) else state
  }

  const UserIdKey := "userId"

  /** The session identifier made up when none is stored: "guest_" and the clock in milliseconds. */
  function GuestId(now: nat): (r: string)
    ensures |r| > 6 && r[..6] == "guest_" && AllDigits(r[6..])
    ensures r[6..] == NatToDecimal(now)
  {
    var r := "guest_" + NatToDecimal(now);
    assert r[6..] == NatToDecimal(now);
    r
  }

  /** Guest identifiers made at different instants differ. */
  lemma GuestIdInjective(m: nat, n: nat)
    requires GuestId(m) == GuestId(n)
    ensures m == n
  {
    assert GuestId(m)[6..] == NatToDecimal(m);
    assert GuestId(n)[6..] == NatToDecimal(n);
    NatToDecimalInjective(m, n);
  }

  class CartProvider {
    var cartItems: seq<CartItem>
    var cartCount: int
    var userId: Option<string>
    const browser: Browser
    const apiBase: string

    /** The badge count is always the quantity sum of the mirrored lines. */
    ghost predicate Valid()
      reads this
    {
      cartCount == QuantitySum(cartItems)
    }

    constructor (browser: Browser, apiBase: string)
      ensures Valid()
      ensures cartItems == [] && cartCount == 0 && userId == None
      ensures this.browser == browser && this.apiBase == apiBase
    {
      cartItems := [];
      cartCount := 0;
      userId := None;
      this.browser := browser;
      this.apiBase := apiBase;
    }

    /** The mount effect: reuse the stored identifier, or make a guest one from the clock
        reading `now` and store it. */
    method InitUserId(now: nat)
      requires Valid()
      modifies this`userId, browser
      ensures Valid()
      ensures Truthy(userId)
      ensures Truthy(old(browser.state.GetItem(UserIdKey))) ==>
        userId == old(browser.state.GetItem(UserIdKey)) && browser.state == old(browser.state)
      ensures !Truthy(old(browser.state.GetItem(UserIdKey))) ==>
        userId == Some(GuestId(now)) && browser.state == old(browser.state).Stored(UserIdKey, GuestId(now))
    {
      var saved := browser.state.GetItem(UserIdKey);
      if Truthy(saved) {
        userId := saved;
      } else {
        var newId := GuestId(now);
        browser.state := browser.state.Stored(UserIdKey, newId);
        userId := Some(newId);
      }
    }

    /** `fetchCart`: does nothing without a session; otherwise replaces the mirror with the
        fetched lines, and keeps it when the request fails. */
    method FetchCart(reply: Response<CartBody>)
      requires Valid()
      modifies this`cartItems, this`cartCount, browser
      ensures Valid()
      ensures !Truthy(userId) ==>
        cartItems == old(cartItems) && cartCount == old(cartCount) && browser.state == old(browser.state)
      ensures Truthy(userId) ==> browser.state == old(browser.state).Sent(Get(apiBase + "/cart/" + userId.value))
      ensures Truthy(userId) && reply.Ok? && reply.data.items.Some? ==>
        cartItems == reply.data.items.value && cartCount == QuantitySum(reply.data.items.value)
      ensures Truthy(userId) && reply.Ok? && reply.data.items.None? ==> cartItems == [] && cartCount == 0
      ensures !reply.Ok? ==> cartItems == old(cartItems) && cartCount == old(cartCount)
      ensures cartItems == FetchedItems(old(cartItems), userId, reply)
      ensures browser.state == FetchRequest(old(browser.state), apiBase, userId)
    {
      if !Truthy(userId) {
        return;
      }
      browser.state := browser.state.Sent(Get(apiBase + "/cart/" + userId.value));
      match reply
      case Ok(body) =>
        if body.items.Some? {
          cartItems := body.items.value;
          cartCount := QuantitySum(body.items.value);
        } else {
          cartItems := [];
          cartCount := 0;
        }
      case HttpErr(_) =>
      case NetFail =>
    }

    /** `addToCart`: posts one unit of the item and, on 2xx only, refetches with `refetch`;
        the mirror is never edited any other way. */
    method AddToCart(item: MenuItem, added: Response<()>, refetch: Response<CartBody>)
      requires Valid()
      modifies this`cartItems, this`cartCount, browser
      ensures Valid()
      ensures !Truthy(userId) ==>
        cartItems == old(cartItems) && cartCount == old(cartCount) && browser.state == old(browser.state)
      ensures Truthy(userId) && added.Ok? ==>
        browser.state == old(browser.state)
          .Sent(Post(apiBase + "/cart/add", CartAdd(userId.value, MenuItemKey(item), 1)))
          .Sent(Get(apiBase + "/cart/" + userId.value))
      ensures Truthy(userId) && added.Ok? && refetch.Ok? ==>
        cartItems == (if refetch.data.items.Some? then refetch.data.items.value else [])
      ensures !(added.Ok? && refetch.Ok?) ==> cartItems == old(cartItems) && cartCount == old(cartCount)
      ensures Truthy(userId) && added.HttpErr? ==>
        browser.state == old(browser.state)
          .Sent(Post(apiBase + "/cart/add", CartAdd(userId.value, MenuItemKey(item), 1)))
          .Alerted("Error: " + Or(added.message, "Something went wrong"))
      ensures Truthy(userId) && added.NetFail? ==>
        browser.state == old(browser.state)
          .Sent(Post(apiBase + "/cart/add", CartAdd(userId.value, MenuItemKey(item), 1)))
          .Alerted("Failed to add item to cart")
    {
      if !Truthy(userId) {
        return;
      }
      browser.state := browser.state.Sent(Post(apiBase + "/cart/add", CartAdd(userId.value, MenuItemKey(item), 1)));
      match added
      case Ok(_) =>
        FetchCart(refetch);
      case HttpErr(message) =>
        browser.state := browser.state.Alerted("Error: " + Or(message, "Something went wrong"));
      case NetFail =>
        browser.state := browser.state.Alerted("Failed to add item to cart");
    }
  }

  /** `useCart`: the provider in scope, or the error thrown when there is none. */
  function UseCart(context: Option<CartProvider>): (r: Completion<CartProvider>)
    ensures context.Some? <==> r.Normal?
    ensures r.Normal? ==> r.value == context.value
    ensures r.Throw? ==> r.error == "useCart must be used within a CartProvider"
  {
    match context
    case Some(provider) => Normal(provider)
    case None => Throw("useCart must be used within a CartProvider")
  }
}
