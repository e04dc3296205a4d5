/** The records the pages exchange with the backend, as the pages' own interfaces declare them.
    Prices and amounts are whole numbers of naira. */
module Entities {
  import opened JsRuntime

  /** A catalogue entry. The backend may identify it by `id`, by `_id` (MongoDB), or both. */
  datatype MenuItem = MenuItem(
    id: Option<string>,
    mongoId: Option<string>,
    name: string,
    description: string,
    price: int,
    image: string,
    category: string)

  /** One line of the remote cart: a menu item and how many of it. */
  datatype CartItem = CartItem(id: string, menuItem: MenuItem, quantity: int)

  datatype CustomerDetails = CustomerDetails(name: string, phone: string, address: string, email: string)

  /** The two settlement paths the checkout offers. */
  datatype PaymentMethod = Paystack | Transfer {
    /** The value sent to the backend and compared against in the pages. */
    function Name(): string {
      match this
      case Paystack => "paystack"
      case Transfer => "transfer"
    }
  }

  /** A line of a placed order; `menuItem` is absent once the item has been deleted. */
  datatype OrderItem = OrderItem(menuItem: Option<MenuItem>, quantity: int, price: int)

  datatype Order = Order(
    id: string,
    customerDetails: CustomerDetails,
    totalAmount: int,
    paymentStatus: string,
    paymentMethod: string,
    items: seq<OrderItem>)

  /** The text fields of the admin "add item" form and of the menu page's edit form;
      the price is kept as the text typed in. */
  datatype ItemForm = ItemForm(name: string, description: string, price: string, category: string, image: string)
}

/** The browser and the network as the pages see them: request bodies, responses,
    localStorage, navigations and alerts. */
module Web {
  import opened JsRuntime
  import opened Entities

  /** The answer to a request whose handler looks at `response.ok`: the parsed body on 2xx,
      the `message` of the parsed error body otherwise, or a rejection (the request failed,
      or the body the handler reads was not JSON). */
  datatype Response<T> = Ok(data: T) | HttpErr(message: Option<string>) | NetFail

  /** The answer to a request whose handler parses the body without looking at the status. */
  datatype Reply<T> = Json(body: T) | Thrown

  /** The JSON bodies the pages send. Prices in item forms are sent as typed; the pages
      pass them through `parseFloat`, which is not part of this model. */
  datatype Payload =
    | CartAdd(userId: string, menuItemId: Option<string>, quantity: int)
    | CartRemove(userId: string, menuItemId: Option<string>)
    | CreateOrder(userId: string, details: CustomerDetails, paymentMethod: string)
    | PaymentInit(orderId: string, email: string, amount: int)
    | ConfirmPayment(orderId: string)
    | Login(password: string)
    | StatusUpdate(status: string)
    | TransferDetails
    | ItemFields(form: ItemForm)

  datatype Request = Get(url: string) | Post(url: string, body: Payload) | Put(url: string, body: Payload) | Delete(url: string)

  /** What a page can observe or change outside itself: localStorage, the navigations it
      started (`window.location.href = …` or `router.push`), the alerts it raised and the
      requests it sent, oldest first. */
  datatype BrowserState = BrowserState(
    storage: map<string, string>,
    navigations: seq<string>,
    alerts: seq<string>,
    requests: seq<Request>)
  {
    function Sent(r: Request): BrowserState {
      this.(requests := requests + [r])
    }

    function Alerted(message: string): BrowserState {
      this.(alerts := alerts + [message])
    }

    function NavigatedTo(url: string): BrowserState {
      this.(navigations := navigations + [url])
    }

    function Stored(key: string, value: string): BrowserState {
      this.(storage := storage[key := value])
    }

    function Removed(key: string): BrowserState {
      this.(storage := storage - {key})
    }

    /** `localStorage.getItem(key)`. */
    function GetItem(key: string): Option<string> {
      if key in storage then Some(storage[key]) else None
    }
  }

  /** The one browser window every page of a session shares. */
  class Browser {
    var state: BrowserState

    constructor (storage: map<string, string>)
      ensures state == BrowserState(storage, [], [], [])
    {
      state := BrowserState(storage, [], [], []);
    }
  }

  /** The localStorage key of the admin session flag, and the value that means "signed in". */
  const IsAdminKey := "isAdmin"
  const IsAdminValue := "true"

  /** The fallback origin used when `NEXT_PUBLIC_API_BASE` is unset. */
  const DefaultApiBase := "https://b-chillout-backend.onrender.com"

  /** The origin hard-coded in the pages that do not read the environment. */
  const LocalApi := "http://localhost:3000"

  /** `process.env.NEXT_PUBLIC_API_BASE || DefaultApiBase`: an unset or empty variable falls back. */
  function ApiBase(env: Option<string>): (r: string)
    ensures r != ""
    ensures Truthy(env) ==> r == env.value
    ensures !Truthy(env) ==> r == DefaultApiBase
  {
    Or(env, DefaultApiBase)
  }
}
