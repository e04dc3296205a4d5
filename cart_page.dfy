/** The cart page: the lines of the shared cart store, their total, and the "X" button that
    asks the backend to drop a line. */
module CartPage {
  import opened JsRuntime
  import opened Entities
  import opened Web
  import opened CartContext

  /** The user id `removeItem` sends, whatever the cart store's session is. */
  const RemoveUserId := "customer123"

  const RemoveUrl := LocalApi + "/cart/remove"

  /** What the page renders. */
  datatype CartView = LoadingCart | EmptyCart | Lines(count: nat, total: int)

  /** The view for the `loading` flag and the mirrored lines. */
  function View(loading: bool, items: seq<CartItem>): (v: CartView)
    ensures v.LoadingCart? <==> loading
    ensures v.EmptyCart? <==> !loading && |items| == 0
    ensures v.Lines? ==> v.count == |items| && v.total == CartTotal(items)
  {
    if loading then LoadingCart
    else if |items| == 0 then EmptyCart
    else Lines(|items|, CartTotal(items))
  }

  /** Each line contributes its price times its quantity, so dropping line `i` lowers the total
      by exactly that line's amount. */
  lemma TotalWithoutLine(items: seq<CartItem>, i: nat)
    requires i < |items|
    ensures CartTotal(items[..i] + items[i + 1..])
      == CartTotal(items) - LineTotal(items[i])
  {
    var before, line, after := items[..i], [items[i]], items[i + 1..];
    assert line + after == items[i..] by {
      assert forall k :: 0 <= k < |line + after| ==> (line + after)[k] == items[i + k];
    }
    assert items == before + (line + after) by {
      assert items == items[..i] + items[i..];
    }
    calc {
      CartTotal(items);
      { CartTotalAppend(before, line + after); }
      CartTotal(before) + CartTotal(line + after);
      { CartTotalAppend(line, after); }
      CartTotal(before) + CartTotal(line) + CartTotal(after);
      { CartTotalAppend(before, after); }
      CartTotal(before + after) + LineTotal(items[i]);
    }
  }

  class CartPage {
    var loading: bool
    const cart: CartProvider

    constructor (cart: CartProvider)
      ensures loading && this.cart == cart
    {
      loading := true;
      this.cart := cart;
    }

    /** The mount effect: refresh the store, then leave the loading view. */
    method LoadCart(reply: Response<CartBody>)
      requires cart.Valid()
      modifies this`loading, cart`cartItems, cart`cartCount, cart.browser
      ensures cart.Valid() && !loading
      ensures cart.cartItems == FetchedItems(old(cart.cartItems), cart.userId, reply)
      ensures cart.browser.state == FetchRequest(old(cart.browser.state), cart.apiBase, cart.userId)
    {
      cart.FetchCart(reply);
      loading := false;
    }

    /** `removeItem` for the line whose button was pressed: posts the fixed user id with the
        line's `menuItem._id`; refetches on 2xx only, and otherwise alerts. */
    method RemoveItem(line: CartItem, answer: Response<()>, refetch: Response<CartBody>)
      requires cart.Valid()
      modifies cart`cartItems, cart`cartCount, cart.browser
      ensures cart.Valid()
      ensures answer.Ok? ==>
        cart.cartItems == FetchedItems(old(cart.cartItems), cart.userId, refetch)
        && cart.browser.state == FetchRequest(old(cart.browser.state).Sent(
          Post(RemoveUrl, CartRemove(RemoveUserId, line.menuItem.mongoId))), cart.apiBase, cart.userId)
      ensures !answer.Ok? ==> cart.cartItems == old(cart.cartItems) && cart.cartCount == old(cart.cartCount)
      ensures answer.HttpErr? ==>
        cart.browser.state == old(cart.browser.state)
          .Sent(Post(RemoveUrl, CartRemove(RemoveUserId, line.menuItem.mongoId)))
          .Alerted("Error: " + Interpolate(answer.message))
      ensures answer.NetFail? ==>
        cart.browser.state == old(cart.browser.state)
          .Sent(Post(RemoveUrl, CartRemove(RemoveUserId, line.menuItem.mongoId)))
          .Alerted("Failed to remove item from cart")
    {
      cart.browser.state := cart.browser.state.Sent(Post(RemoveUrl, CartRemove(RemoveUserId, line.menuItem.mongoId)));
      match answer
      case Ok(_) =>
        cart.FetchCart(refetch);
      case HttpErr(message) =>
        cart.browser.state := cart.browser.state.Alerted("Error: " + Interpolate(message));
      case NetFail =>
        cart.browser.state := cart.browser.state.Alerted("Failed to remove item from cart");
    }

  }
}
