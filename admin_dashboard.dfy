/** The admin dashboard: a guarded page listing every order and menu item, with payment and
    status actions on orders, and a form for adding menu items. */
module AdminDashboard {
  import opened JsRuntime
  import opened Entities
  import opened Web

  const OrdersUrl := LocalApi + "/orders"
  const DashboardMenuUrl := LocalApi + "/menu"

  /** The empty "add item" form; new items default to the "food" category. */
  const EmptyItemForm := ItemForm("", "", "", "food", "")

  /** Where the guard sends a visitor without the session flag. */
  const GuardRedirect := "/admin"

  datatype Colour = Green | Orange | Red

  /** The background of an order's status badge. */
  function BadgeColour(paymentStatus: string): (c: Colour)
    ensures c == Green <==> paymentStatus == "confirmed"
    ensures c == Orange <==> paymentStatus == "pending"
    ensures c == Red <==> paymentStatus != "confirmed" && paymentStatus != "pending"
  {
    if paymentStatus == "confirmed" then Green
    else if paymentStatus == "pending" then Orange
    else Red
  }

  /** Whether the status selector is offered: for every order not yet confirmed. */
  function ShowsStatusSelect(order: Order): (r: bool)
    ensures r <==> BadgeColour(order.paymentStatus) != Green
  {
    order.paymentStatus != "confirmed"
  }

  /** Whether "Confirm Payment" is offered: only for a pending bank transfer, which always
      wears the orange badge and also has the status selector. */
  function ShowsConfirmPayment(order: Order): (r: bool)
    ensures r <==> order.paymentMethod == PaymentMethod.Transfer.Name() && BadgeColour(order.paymentStatus) == Orange
    ensures r ==> ShowsStatusSelect(order)
  {
    order.paymentMethod == "transfer" && order.paymentStatus == "pending"
  }

  /** The name printed for an order line: the item's name, or "Deleted Item" when the item is
      gone or has an empty name. */
  function LineLabel(line: OrderItem): (r: string)
    ensures r != ""
    ensures line.menuItem.Some? && line.menuItem.value.name != "" ==> r == line.menuItem.value.name
    ensures line.menuItem.None? ==> r == "Deleted Item"
    ensures line.menuItem.Some? && line.menuItem.value.name == "" ==> r == "Deleted Item"
  {
    Or(if line.menuItem.Some? then Some(line.menuItem.value.name) else None, "Deleted Item")
  }

  /** The browser after `fetchAllData` has started both requests. */
  function FetchAllRequests(state: BrowserState): BrowserState {
    state.Sent(Get(OrdersUrl)).Sent(Get(DashboardMenuUrl))
  }

  class Dashboard {
    var orders: seq<Order>
    var menuItems: seq<MenuItem>
    var loading: bool
    var showAddForm: bool
    var admin: bool
    var newItem: ItemForm
    var error: string
    var success: string
    const browser: Browser

    constructor (browser: Browser)
      ensures orders == [] && menuItems == [] && loading && !showAddForm && !admin
      ensures newItem == EmptyItemForm && error == "" && success == ""
      ensures this.browser == browser
    {
      orders := [];
      menuItems := [];
      loading := true;
      showAddForm := false;
      admin := false;
      newItem := EmptyItemForm;
      error := "";
      success := "";
      this.browser := browser;
    }

    /** The first mount effect: remember whether the session flag is set. */
    method CheckAdmin()
      modifies this`admin
      ensures admin <==> browser.state.GetItem(IsAdminKey) == Some(IsAdminValue)
    {
      admin := browser.state.GetItem(IsAdminKey) == Some(IsAdminValue);
    }

    /** `fetchAllData`: request the orders and the menu together; keep both bodies only when
        both parse, and stop loading on every path. */
    method FetchAllData(ordersReply: Reply<seq<Order>>, menuReply: Reply<seq<MenuItem>>)
      modifies this`orders, this`menuItems, this`loading, browser
      ensures !loading
      ensures browser.state == FetchAllRequests(old(browser.state))
      ensures ordersReply.Json? && menuReply.Json? ==> orders == ordersReply.body && menuItems == menuReply.body
      ensures !(ordersReply.Json? && menuReply.Json?) ==> orders == old(orders) && menuItems == old(menuItems)
    {
      browser.state := browser.state.Sent(Get(OrdersUrl)).Sent(Get(DashboardMenuUrl));
      if ordersReply.Json? && menuReply.Json? {
        orders := ordersReply.body;
        menuItems := menuReply.body;
      }
      loading := false;
    }

    /** The second mount effect: without the flag exactly "true", leave for the login route and
        fetch nothing (the loading view stays); otherwise load the data. */
    method Mount(ordersReply: Reply<seq<Order>>, menuReply: Reply<seq<MenuItem>>)
      modifies this`orders, this`menuItems, this`loading, browser
      ensures old(browser.state.GetItem(IsAdminKey)) != Some(IsAdminValue) ==>
        browser.state == old(browser.state).NavigatedTo(GuardRedirect)
        && loading == old(loading) && orders == old(orders) && menuItems == old(menuItems)
      ensures old(browser.state.GetItem(IsAdminKey)) == Some(IsAdminValue) ==>
        browser.state == FetchAllRequests(old(browser.state)) && !loading
        && (ordersReply.Json? && menuReply.Json? ==> orders == ordersReply.body && menuItems == menuReply.body)
        && (!(ordersReply.Json? && menuReply.Json?) ==> orders == old(orders) && menuItems == old(menuItems))
    {
      if browser.state.GetItem(IsAdminKey) != Some(IsAdminValue) {
        browser.state := browser.state.NavigatedTo(GuardRedirect);
        return;
      }
      FetchAllData(ordersReply, menuReply);
    }

    /** `updateOrderStatus`: `PUT` the new status and, unless the request failed, reload. */
    method UpdateOrderStatus(orderId: string, status: string, put: Reply<()>,
                             ordersReply: Reply<seq<Order>>, menuReply: Reply<seq<MenuItem>>)
      modifies this`orders, this`menuItems, this`loading, browser
      ensures put.Thrown? ==>
        browser.state == old(browser.state).Sent(Put(OrdersUrl + "/" + orderId + "/status", StatusUpdate(status)))
        && orders == old(orders) && menuItems == old(menuItems) && loading == old(loading)
      ensures put.Json? ==>
        browser.state == FetchAllRequests(old(browser.state).Sent(Put(OrdersUrl + "/" + orderId + "/status", StatusUpdate(status))))
        && !loading
        && (ordersReply.Json? && menuReply.Json? ==> orders == ordersReply.body && menuItems == menuReply.body)
        && (!(ordersReply.Json? && menuReply.Json?) ==> orders == old(orders) && menuItems == old(menuItems))
    {
      browser.state := browser.state.Sent(Put(OrdersUrl + "/" + orderId + "/status", StatusUpdate(status)));
      if put.Json? {
        FetchAllData(ordersReply, menuReply);
      }
    }

    /** `confirmPayment`: record a bank transfer as received and, unless the request failed,
        reload. */
    method ConfirmPayment(orderId: string, posted: Reply<()>,
                          ordersReply: Reply<seq<Order>>, menuReply: Reply<seq<MenuItem>>)
      modifies this`orders, this`menuItems, this`loading, browser
      ensures posted.Thrown? ==>
        browser.state == old(browser.state).Sent(Post(OrdersUrl + "/" + orderId + "/confirm-payment", TransferDetails))
        && orders == old(orders) && menuItems == old(menuItems) && loading == old(loading)
      ensures posted.Json? ==>
        browser.state == FetchAllRequests(old(browser.state).Sent(Post(OrdersUrl + "/" + orderId + "/confirm-payment", TransferDetails)))
        && !loading
        && (ordersReply.Json? && menuReply.Json? ==> orders == ordersReply.body && menuItems == menuReply.body)
        && (!(ordersReply.Json? && menuReply.Json?) ==> orders == old(orders) && menuItems == old(menuItems))
    {
      browser.state := browser.state.Sent(Post(OrdersUrl + "/" + orderId + "/confirm-payment", TransferDetails));
      if posted.Json? {
        FetchAllData(ordersReply, menuReply);
      }
    }

    /** `handleAddItem`: clear both banners, post the form; on 2xx report success, reset and
        hide the form and reload; otherwise report the server's message or a fallback. */
    method HandleAddItem(answer: Response<()>, ordersReply: Reply<seq<Order>>, menuReply: Reply<seq<MenuItem>>)
      modifies this`orders, this`menuItems, this`loading, this`newItem, this`showAddForm,
        this`error, this`success, browser
      ensures answer.Ok? ==>
        success == "Menu item added successfully!" && error == ""
        && newItem == EmptyItemForm && !showAddForm && !loading
        && browser.state == FetchAllRequests(old(browser.state).Sent(Post(DashboardMenuUrl, ItemFields(old(newItem)))))
        && (ordersReply.Json? && menuReply.Json? ==> orders == ordersReply.body && menuItems == menuReply.body)
        && (!(ordersReply.Json? && menuReply.Json?) ==> orders == old(orders) && menuItems == old(menuItems))
      ensures answer.HttpErr? ==>
        error == Or(answer.message, "Failed to add menu item") && success == ""
      ensures answer.NetFail? ==> error == "Network error. Please try again." && success == ""
      ensures !answer.Ok? ==>
        newItem == old(newItem) && showAddForm == old(showAddForm) && loading == old(loading)
        && orders == old(orders) && menuItems == old(menuItems)
        && browser.state == old(browser.state).Sent(Post(DashboardMenuUrl, ItemFields(old(newItem))))
    {
      error := "";
      success := "";
      browser.state := browser.state.Sent(Post(DashboardMenuUrl, ItemFields(newItem)));
      match answer
      case Ok(_) =>
        success := "Menu item added successfully!";
        newItem := EmptyItemForm;
        showAddForm := false;
        FetchAllData(ordersReply, menuReply);
      case HttpErr(message) =>
        error := Or(message, "Failed to add menu item");
      case NetFail =>
        error := "Network error. Please try again.";
    }

    /** `handleDeleteItem`: nothing unless confirmed; otherwise `DELETE` the item and, unless
        the request failed, reload. */
    method HandleDeleteItem(item: MenuItem, confirmed: bool, deleted: Reply<()>,
                            ordersReply: Reply<seq<Order>>, menuReply: Reply<seq<MenuItem>>)
      modifies this`orders, this`menuItems, this`loading, browser
      ensures !confirmed ==>
        browser.state == old(browser.state) && orders == old(orders) && menuItems == old(menuItems)
        && loading == old(loading)
      ensures confirmed && deleted.Thrown? ==>
        browser.state == old(browser.state).Sent(Delete(DashboardMenuUrl + "/" + Interpolate(item.id)))
        && orders == old(orders) && menuItems == old(menuItems) && loading == old(loading)
      ensures confirmed && deleted.Json? ==>
        browser.state == FetchAllRequests(old(browser.state).Sent(Delete(DashboardMenuUrl + "/" + Interpolate(item.id))))
        && !loading
        && (ordersReply.Json? && menuReply.Json? ==> orders == ordersReply.body && menuItems == menuReply.body)
        && (!(ordersReply.Json? && menuReply.Json?) ==> orders == old(orders) && menuItems == old(menuItems))
    {
      if !confirmed {
        return;
      }
      browser.state := browser.state.Sent(Delete(DashboardMenuUrl + "/" + Interpolate(item.id)));
      if deleted.Json? {
        FetchAllData(ordersReply, menuReply);
      }
    }

    method ToggleAddForm()
      modifies this`showAddForm
      ensures showAddForm == !old(showAddForm)
    {
      showAddForm := !showAddForm;
    }

    /** Logout: drop the session flag and go to the landing page. */
    method Logout()
      modifies browser
      ensures browser.state == old(browser.state).Removed(IsAdminKey).NavigatedTo("/")
      ensures browser.state.GetItem(IsAdminKey) == None
    {
      browser.state := browser.state.Removed(IsAdminKey).NavigatedTo("/");
    }

    /** The "MENU" button, offered to an admin: go to the admin login route. */
    method OpenAdminMenu()
      requires admin
      modifies browser
      ensures browser.state == old(browser.state).NavigatedTo("/Admin")
    {
      browser.state := browser.state.NavigatedTo("/Admin");
    }
  }
}
