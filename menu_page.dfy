/** The menu page: the catalogue filtered by category and search text, "Add to Cart" buttons
    that show "Added!" for a while, and, for a signed-in admin, editing and deleting items. */
module MenuPage {
  import opened JsRuntime
  import opened Entities
  import opened Web
  import opened CartContext

  /** The query parameters of the menu request, in the order the fetch effect pushes them:
      the category, unencoded, unless it is "all"; then the encoded search text, if any. */
  function QueryParams(category: string, search: string, enc: string -> string): (r: seq<string>)
    ensures |r| == (if category != "all" then 1 else 0) + (if search != "" then 1 else 0)
    ensures category != "all" ==> r[0] == "category=" + category
    ensures search != "" ==> r[|r| - 1] == "search=" + enc(search)
  {
    (if category != "all" then ["category=" + category] else [])
    + (if search != "" then ["search=" + enc(search)] else [])
  }

  /** The URL the fetch effect requests: the menu endpoint, followed by `?` and the
      parameters joined with `&` when there is at least one. */
  function MenuUrl(apiBase: string, category: string, search: string, enc: string -> string): (r: string)
    ensures category == "all" && search == "" <==> r == apiBase + "/menu"
  {
    var params := QueryParams(category, search, enc);
    if params == [] then apiBase + "/menu"
    else
      var r := apiBase + "/menu?" + Join(params, '&');
      assert |r| > |apiBase + "/menu"|;
      r
  }

  /** A filtered URL reads back: after "/menu?" the text splits on `&` into exactly the
      parameters, as long as neither the category nor the encoded search text holds a `&`. */
  lemma MenuUrlQuery(apiBase: string, category: string, search: string, enc: string -> string)
    requires category != "all" || search != ""
    requires '&' !in category && '&' !in enc(search)
    ensures exists q :: (MenuUrl(apiBase, category, search, enc) == apiBase + "/menu?" + q
      && Split(q, '&') == QueryParams(category, search, enc))
  {
    var params := QueryParams(category, search, enc);
    forall i | 0 <= i < |params| ensures '&' !in params[i] {
      var key := if category != "all" && i == 0 then "category=" else "search=";
      var value := if category != "all" && i == 0 then category else enc(search);
      assert params[i] == key + value;
    }
    SplitJoin(params, '&');
    assert MenuUrl(apiBase, category, search, enc) == apiBase + "/menu?" + Join(params, '&');
  }

  /** `handleEditItem`'s form: the item's text fields as they are and its price as text. */
  function FormFromItem(item: MenuItem): (form: ItemForm)
    ensures form.name == item.name && form.description == item.description
    ensures form.category == item.category && form.image == item.image
    ensures IsIntegerLiteral(form.price) && ParseIntegerLiteral(form.price) == item.price
  {
    IntToStringRoundTrip(item.price);
    ItemForm(item.name, item.description, IntToString(item.price), item.category, item.image)
  }

  /** Which parts of the main area render. */
  datatype MenuView = MenuView(loadingBanner: bool, editPanel: bool, grid: bool, noItems: bool)

  function Render(loading: bool, editingItem: Option<MenuItem>, items: seq<MenuItem>): (v: MenuView)
    ensures v.loadingBanner <==> loading
    ensures v.editPanel <==> editingItem.Some?
    ensures v.grid <==> !loading && editingItem.None?
    ensures v.noItems <==> !loading && |items| == 0
  {
    MenuView(loading, editingItem.Some?, !loading && editingItem.None?, !loading && |items| == 0)
  }

  class MenuPage {
    var items: seq<MenuItem>
    var category: string
    var search: string
    var admin: bool
    var loading: bool
    var addedItems: set<Option<string>>
    var editingItem: Option<MenuItem>
    var editForm: ItemForm
    const cart: CartProvider
    const browser: Browser
    const apiBase: string
    /** `encodeURIComponent`, which this model leaves uninterpreted. */
    const enc: string -> string

    constructor (cart: CartProvider, browser: Browser, apiBase: string, enc: string -> string)
      ensures items == [] && category == "all" && search == "" && !admin && !loading
      ensures addedItems == {} && editingItem == None && editForm == ItemForm("", "", "", "food", "")
      ensures this.cart == cart && this.browser == browser && this.apiBase == apiBase && this.enc == enc
    {
      items := [];
      category := "all";
      search := "";
      admin := false;
      loading := false;
      addedItems := {};
      editingItem := None;
      editForm := ItemForm("", "", "", "food", "");
      this.cart := cart;
      this.browser := browser;
      this.apiBase := apiBase;
      this.enc := enc;
    }

    /** The admin check on mount: the stored flag must be exactly "true". */
    method CheckAdmin()
      modifies this`admin
      ensures admin <==> browser.state.GetItem(IsAdminKey) == Some(IsAdminValue)
    {
      admin := browser.state.GetItem(IsAdminKey) == Some(IsAdminValue);
    }

    method SelectCategory(c: string)
      modifies this`category
      ensures category == c
    {
      category := c;
    }

    method SetSearch(s: string)
      modifies this`search
      ensures search == s
    {
      search := s;
    }

    /** The first half of the fetch effect, run on mount and whenever the category or the
        search text changes: show the loading banner and request the filtered menu. */
    method StartFetch()
      modifies this`loading, browser
      ensures loading
      ensures browser.state == old(browser.state).Sent(Get(MenuUrl(apiBase, category, search, enc)))
    {
      loading := true;
      var url := apiBase + "/menu";
      var queryParams: seq<string> := [];
      if category != "all" {
        queryParams := queryParams + ["category=" + category];
      }
      if search != "" {
        queryParams := queryParams + ["search=" + enc(search)];
      }
      if |queryParams| > 0 {
        url := url + "?" + Join(queryParams, '&');
      }
      assert queryParams == QueryParams(category, search, enc);
      assert url == MenuUrl(apiBase, category, search, enc);
      browser.state := browser.state.Sent(Get(url));
    }

    /** The second half: take the parsed body as the items; on either path stop loading. */
    method FinishFetch(reply: Reply<seq<MenuItem>>)
      modifies this`items, this`loading
      ensures !loading
      ensures reply.Json? ==> items == reply.body
      ensures reply.Thrown? ==> items == old(items)
    {
      if reply.Json? {
        items := reply.body;
      }
      loading := false;
    }

    /** Whether the item's "Add to Cart" button is disabled and reads "Added!". */
    predicate AddedShown(item: MenuItem)
      reads this
    {
      item.id in addedItems
    }

    /** The added set is keyed by `id`, so items with the same `id` show "Added!" together. */
    lemma AddedSharedById(a: MenuItem, b: MenuItem)
      requires a.id == b.id
      ensures AddedShown(a) <==> AddedShown(b)
    {
    }

    /** `handleAddToCart`: once `addToCart` has settled (it reports its own failures), mark the
        item as added. */
    method HandleAddToCart(item: MenuItem, added: Response<()>, refetch: Response<CartBody>)
      requires cart.Valid()
      modifies this`addedItems, cart`cartItems, cart`cartCount, cart.browser
      ensures cart.Valid()
      ensures addedItems == old(addedItems) + {item.id}
      ensures AddedShown(item)
      ensures !Truthy(cart.userId) ==>
        cart.cartItems == old(cart.cartItems) && cart.browser.state == old(cart.browser.state)
      ensures Truthy(cart.userId) && added.Ok? ==>
        cart.browser.state == old(cart.browser.state)
          .Sent(Post(cart.apiBase + "/cart/add", CartAdd(cart.userId.value, MenuItemKey(item), 1)))
          .Sent(Get(cart.apiBase + "/cart/" + cart.userId.value))
      ensures added.Ok? && refetch.Ok? && Truthy(cart.userId) ==>
        cart.cartItems == FetchedItems(old(cart.cartItems), cart.userId, refetch)
      ensures !(added.Ok? && refetch.Ok?) ==> cart.cartItems == old(cart.cartItems)
      ensures Truthy(cart.userId) && added.HttpErr? ==>
        cart.browser.state == old(cart.browser.state)
          .Sent(Post(cart.apiBase + "/cart/add", CartAdd(cart.userId.value, MenuItemKey(item), 1)))
          .Alerted("Error: " + Or(added.message, "Something went wrong"))
      ensures Truthy(cart.userId) && added.NetFail? ==>
        cart.browser.state == old(cart.browser.state)
          .Sent(Post(cart.apiBase + "/cart/add", CartAdd(cart.userId.value, MenuItemKey(item), 1)))
          .Alerted("Failed to add item to cart")
    {
      cart.AddToCart(item, added, refetch);
      addedItems := addedItems + {item.id};
    }

    /** The timer that ends "Added!" for one item; the others keep theirs. */
    method ExpireAdded(id: Option<string>)
      modifies this`addedItems
      ensures addedItems == old(addedItems) - {id}
      ensures forall other :: other in old(addedItems) && other != id ==> other in addedItems
    {
      addedItems := addedItems - {id};
    }

    /** `handleEditItem`: open the edit panel for the item with its fields copied in. */
    method HandleEditItem(item: MenuItem)
      modifies this`editingItem, this`editForm
      ensures editingItem == Some(item)
      ensures editForm == FormFromItem(item)
    {
      editingItem := Some(item);
      editForm := FormFromItem(item);
    }

    method CancelEdit()
      modifies this`editingItem
      ensures editingItem == None
    {
      editingItem := None;
    }

    /** `handleUpdateItem`: nothing without an item being edited; otherwise `PUT` the form to
        the item's URL and, on 2xx only, reload the unfiltered menu and close the panel. A
        failure anywhere leaves items and the panel as they were. */
    method HandleUpdateItem(answer: Response<()>, reload: Reply<seq<MenuItem>>)
      modifies this`items, this`editingItem, browser
      ensures old(editingItem).None? ==>
        items == old(items) && editingItem == None && browser.state == old(browser.state)
      ensures old(editingItem).Some? ==> (
        var put := Put(apiBase + "/menu/" + Interpolate(old(editingItem).value.id), ItemFields(editForm));
        if answer.Ok? then
          browser.state == old(browser.state).Sent(put).Sent(Get(apiBase + "/menu"))
        else
          browser.state == old(browser.state).Sent(put))
      ensures old(editingItem).Some? && answer.Ok? && reload.Json? ==>
        items == reload.body && editingItem == None
      ensures !(answer.Ok? && reload.Json?) ==> items == old(items) && editingItem == old(editingItem)
    {
      if editingItem.None? {
        return;
      }
      var item := editingItem.value;
      browser.state := browser.state.Sent(Put(apiBase + "/menu/" + Interpolate(item.id), ItemFields(editForm)));
      if answer.Ok? {
        browser.state := browser.state.Sent(Get(apiBase + "/menu"));
        if reload.Json? {
          items := reload.body;
          editingItem := None;
        }
      }
    }

    /** `handleDeleteItem`: nothing unless the dialog was confirmed; otherwise `DELETE` the
        item, whatever the status, and reload the unfiltered menu unless the request failed. */
    method HandleDeleteItem(item: MenuItem, confirmed: bool, deleted: Reply<()>, reload: Reply<seq<MenuItem>>)
      modifies this`items, browser
      ensures !confirmed ==> items == old(items) && browser.state == old(browser.state)
      ensures confirmed && deleted.Thrown? ==>
        items == old(items) && browser.state == old(browser.state).Sent(Delete(apiBase + "/menu/" + Interpolate(item.id)))
      ensures confirmed && deleted.Json? ==>
        browser.state == old(browser.state).Sent(Delete(apiBase + "/menu/" + Interpolate(item.id))).Sent(Get(apiBase + "/menu"))
      ensures confirmed && deleted.Json? && reload.Json? ==> items == reload.body
      ensures reload.Thrown? ==> items == old(items)
    {
      if !confirmed {
        return;
      }
      browser.state := browser.state.Sent(Delete(apiBase + "/menu/" + Interpolate(item.id)));
      if deleted.Thrown? {
        return;
      }
      browser.state := browser.state.Sent(Get(apiBase + "/menu"));
      if reload.Json? {
        items := reload.body;
      }
    }
  }
}
