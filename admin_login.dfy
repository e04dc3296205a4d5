/** The admin login form: the only place the admin session flag is set. */
module AdminLogin {
  import opened JsRuntime
  import opened Web

  /** The body of `POST /admin/login`; `success` is false when missing or falsy. */
  datatype LoginBody = LoginBody(success: bool)

  const DashboardRoute := "/Admin/dashboard"

  class LoginPage {
    var password: string
    var error: string
    const browser: Browser
    const apiBase: string

    constructor (browser: Browser, apiBase: string)
      ensures password == "" && error == ""
      ensures this.browser == browser && this.apiBase == apiBase
    {
      password := "";
      error := "";
      this.browser := browser;
      this.apiBase := apiBase;
    }

    method SetPassword(p: string)
      modifies this`password
      ensures password == p
    {
      password := p;
    }

    /** `handleLogin`: post the password; a truthy `success` stores the flag and opens the
        dashboard, anything else reports an error and leaves storage alone. */
    method HandleLogin(reply: Reply<LoginBody>)
      modifies this`error, browser
      ensures reply.Json? && reply.body.success ==>
        browser.state == old(browser.state)
          .Sent(Post(apiBase + "/admin/login", Login(password)))
          .Stored(IsAdminKey, IsAdminValue)
          .NavigatedTo(DashboardRoute)
        && error == old(error)
      ensures reply.Json? && !reply.body.success ==>
        error == "Invalid password"
        && browser.state == old(browser.state).Sent(Post(apiBase + "/admin/login", Login(password)))
      ensures reply.Thrown? ==>
        error == "Login failed. Please try again."
        && browser.state == old(browser.state).Sent(Post(apiBase + "/admin/login", Login(password)))
      ensures browser.state.GetItem(IsAdminKey) == Some(IsAdminValue) <==>
        (reply.Json? && reply.body.success) || old(browser.state.GetItem(IsAdminKey)) == Some(IsAdminValue)
    {
      browser.state := browser.state.Sent(Post(apiBase + "/admin/login", Login(password)));
      match reply
      case Json(data) =>
        if data.success {
          browser.state := browser.state.Stored(IsAdminKey, IsAdminValue);
          browser.state := browser.state.NavigatedTo(DashboardRoute);
        } else {
          error := "Invalid password";
        }
      case Thrown =>
        error := "Login failed. Please try again.";
    }
  }
}
