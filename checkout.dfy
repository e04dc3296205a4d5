/** The checkout page: the customer-details validator, field editing, the total, and the
    order submission that branches on the payment method. */
module Checkout {
  import opened JsRuntime
  import opened Entities
  import opened Web
  import opened CartContext

  /** The four inputs of the form, by their `name` attribute. */
  datatype Field = Name | Phone | Email | Address

  function Get(d: CustomerDetails, f: Field): string {
    match f
    case Name => d.name
    case Phone => d.phone
    case Email => d.email
    case Address => d.address
  }

  /** `{ ...prev, [f]: v }`. */
  function With(d: CustomerDetails, f: Field, v: string): CustomerDetails {
    match f
    case Name => d.(name := v)
    case Phone => d.(phone := v)
    case Email => d.(email := v)
    case Address => d.(address := v)
  }

  /** Setting a field changes that field and no other. */
  lemma WithChangesOnlyField(d: CustomerDetails, f: Field, v: string, g: Field)
    ensures Get(With(d, f, v), g) == if g == f then v else Get(d, g)
  {
    match f
    case Name =>
    case Phone =>
    case Email =>
    case Address =>
  }

  // ---------------------------------------------------------------------------
  // The validation rules
  // ---------------------------------------------------------------------------

  /** `!s.trim()`. */
  predicate IsBlank(s: string) {
    Trim(s) == ""
  }

  /** `/^\d{10,15}$/.test(t)`. */
  predicate MatchesPhonePattern(t: string) {
    10 <= |t| <= 15 && AllDigits(t)
  }

  /** `/^\d{10,15}$/.test(phone.replace(/\D/g, ""))`. */
  predicate PhoneOk(phone: string) {
    MatchesPhonePattern(RemoveNonDigits(phone))
  }

  /** A phone number is accepted exactly when it holds 10 to 15 ASCII digits, whatever
      else it holds. */
  lemma PhoneOkIff(phone: string)
    ensures PhoneOk(phone) <==> 10 <= CountDigits(phone) <= 15
  {
    RemoveNonDigitsLength(phone);
  }

  /** A character that is not a digit never changes the verdict, wherever it is inserted. */
  lemma {:induction false} SeparatorIgnored(a: string, c: char, b: string)
    requires !IsAsciiDigit(c)
    ensures RemoveNonDigits(a + [c] + b) == RemoveNonDigits(a + b)
    ensures PhoneOk(a + [c] + b) <==> PhoneOk(a + b)
  {
    RemoveNonDigitsAppend(a + [c], b);
    RemoveNonDigitsAppend(a, [c]);
    RemoveNonDigitsAppend(a, b);
  }

  /** "0801-234-5678" is accepted and "0801-234" is not. */
  lemma PhoneExamples(long: string, short: string)
    requires long == "0801-234-5678" && short == "0801-234"
    ensures PhoneOk(long)
    ensures !PhoneOk(short)
  {
    var a, b, c := "0801", "234", "5678";
    assert long == a + ['-'] + (b + ['-'] + c);
    assert short == a + ['-'] + b;
    SeparatorIgnored(a, '-', b + ['-'] + c);
    assert a + (b + ['-'] + c) == (a + b) + ['-'] + c;
    SeparatorIgnored(a + b, '-', c);
    RemoveNonDigitsOfDigits(a + b + c);
    SeparatorIgnored(a, '-', b);
    RemoveNonDigitsOfDigits(a + b);
  }

  /** Neither white space nor '@': the class `[^\s@]`. */
  predicate NoSpaceOrAt(t: string) {
    forall i :: 0 <= i < |t| ==> !IsWhitespace(t[i]) && t[i] != '@'
  }

  /** `/^[^\s@]+@[^\s@]+\.[^\s@]+$/.test(s)`: three non-empty runs of `[^\s@]`, an '@' after
      the first and a '.' after the second. */
  predicate MatchesEmailPattern(s: string) {
    exists a, b :: 0 < a && a + 1 < b && b + 1 < |s| && s[a] == '@' && s[b] == '.'
      && NoSpaceOrAt(s[..a]) && NoSpaceOrAt(s[a + 1..b]) && NoSpaceOrAt(s[b + 1..])
  }

  /** The shape the pattern describes, stated directly: exactly one '@', not first; no white
      space; and a '.' in the domain that is neither its first nor its last character. */
  predicate EmailShape(s: string) {
    (forall i :: 0 <= i < |s| ==> !IsWhitespace(s[i]))
    && (exists a :: 0 < a < |s| && s[a] == '@'
          && (forall i :: 0 <= i < |s| && s[i] == '@' ==> i == a)
          && (exists b :: a + 1 < b < |s| - 1 && s[b] == '.'))
  }

  lemma EmailPatternToShape(s: string, a: int, b: int)
    requires 0 < a && a + 1 < b && b + 1 < |s| && s[a] == '@' && s[b] == '.'
    requires NoSpaceOrAt(s[..a]) && NoSpaceOrAt(s[a + 1..b]) && NoSpaceOrAt(s[b + 1..])
    ensures EmailShape(s)
  {
    forall i | 0 <= i < |s| && i != a
      ensures !IsWhitespace(s[i]) && s[i] != '@'
    {
      if i < a {
        assert s[i] == s[..a][i];
      } else if a < i < b {
        assert s[i] == s[a + 1..b][i - a - 1];
      } else if b < i {
        assert s[i] == s[b + 1..][i - b - 1];
      }
    }
  }

  lemma EmailShapeToPattern(s: string)
    requires EmailShape(s)
    ensures MatchesEmailPattern(s)
  {
    var a :| 0 < a < |s| && s[a] == '@' && (forall i :: 0 <= i < |s| && s[i] == '@' ==> i == a)
      && exists b :: a + 1 < b < |s| - 1 && s[b] == '.';
    var b :| a + 1 < b < |s| - 1 && s[b] == '.';
    var local, host, tld := s[..a], s[a + 1..b], s[b + 1..];
    assert NoSpaceOrAt(local) by {
      forall i | 0 <= i < |local| ensures !IsWhitespace(local[i]) && local[i] != '@' {
        assert local[i] == s[i];
      }
    }
    assert NoSpaceOrAt(host) by {
      forall i | 0 <= i < |host| ensures !IsWhitespace(host[i]) && host[i] != '@' {
        assert host[i] == s[a + 1 + i];
      }
    }
    assert NoSpaceOrAt(tld) by {
      forall i | 0 <= i < |tld| ensures !IsWhitespace(tld[i]) && tld[i] != '@' {
        assert tld[i] == s[b + 1 + i];
      }
    }
  }

  /** The email pattern accepts exactly the strings of the shape described above. */
  lemma EmailPatternIff(s: string)
    ensures MatchesEmailPattern(s) <==> EmailShape(s)
  {
    if MatchesEmailPattern(s) {
      var a, b :| 0 < a && a + 1 < b && b + 1 < |s| && s[a] == '@' && s[b] == '.'
        && NoSpaceOrAt(s[..a]) && NoSpaceOrAt(s[a + 1..b]) && NoSpaceOrAt(s[b + 1..]);
      EmailPatternToShape(s, a, b);
    }
    if EmailShape(s) {
      EmailShapeToPattern(s);
    }
  }

  /** "ada@mail.ng" is accepted. */
  lemma EmailAccepted(s: string)
    requires s == "ada@mail.ng"
    ensures MatchesEmailPattern(s)
  {
    assert s[3] == '@' && s[8] == '.';
    assert NoSpaceOrAt(s[..3]) && NoSpaceOrAt(s[4..8]) && NoSpaceOrAt(s[9..]);
  }

  /** A domain without an inner '.', a second '@', or a leading space (the pattern is applied
      to the untrimmed value) is refused. */
  lemma EmailRefused(noDot: string, dotFirst: string, twoAts: string, leadingSpace: string)
    requires noDot == "ada@mail" && dotFirst == "ada@.ng"
    requires twoAts == "a@b@mail.ng" && leadingSpace == " ada@mail.ng"
    ensures !MatchesEmailPattern(noDot) && !MatchesEmailPattern(dotFirst)
    ensures !MatchesEmailPattern(twoAts) && !MatchesEmailPattern(leadingSpace)
  {
    EmailPatternIff(noDot);
    EmailPatternIff(dotFirst);
    EmailPatternIff(twoAts);
    EmailPatternIff(leadingSpace);
    assert leadingSpace[0] == ' ';
    assert twoAts[1] == '@' && twoAts[3] == '@';
  }

  /** The message `validateForm` records for one field, if any. For phone and email the
      required check comes first and the format check is skipped when it fires. */
  function FieldError(d: CustomerDetails, f: Field): (r: Option<string>)
    ensures IsBlank(Get(d, f)) ==> r.Some?
    ensures r.Some? ==> r.value != ""
  {
    match f
    case Name => if IsBlank(d.name) then Some("Name is required") else None
    case Phone =>
      if IsBlank(d.phone) then Some("Phone is required")
      else if !PhoneOk(d.phone) then Some("Enter a valid phone number")
      else None
    case Email =>
      if IsBlank(d.email) then Some("Email is required")
      else if !MatchesEmailPattern(d.email) then Some("Enter a valid email")
      else None
    case Address => if IsBlank(d.address) then Some("Delivery address is required") else None
  }

  /** Whether one field passes its rules. */
  predicate FieldValid(d: CustomerDetails, f: Field) {
    match f
    case Name => !AllWhitespace(d.name)
    case Phone => !AllWhitespace(d.phone) && PhoneOk(d.phone)
    case Email => !AllWhitespace(d.email) && MatchesEmailPattern(d.email)
    case Address => !AllWhitespace(d.address)
  }

  /** The fields in the order `validateForm` checks them. */
  const FieldOrder: seq<Field> := [Name, Phone, Email, Address]

  /** The error map `validateForm` builds: one entry per failing field. */
  function Validate(d: CustomerDetails): (r: map<Field, string>)
    ensures forall f :: f in r <==> FieldError(d, f).Some?
    ensures forall f :: f in r ==> r[f] == FieldError(d, f).value
  {
    ValidateOnly(d, FieldOrder)
  }

  /** The entries of `Validate` for the fields in `fs`: what the error map holds once
      `validateForm` has checked those fields. */
  function ValidateOnly(d: CustomerDetails, fs: seq<Field>): map<Field, string> {
    map f | f in fs && FieldError(d, f).Some? :: FieldError(d, f).value
  }

  /** The error map after checking field `f` with outcome `e`. */
  function Record(m: map<Field, string>, f: Field, e: Option<string>): map<Field, string> {
    if e.Some? then m[f := e.value] else m
  }

  /** `Validate` is what checking name, phone, email and address in that order produces. */
  lemma ValidateInOrder(d: CustomerDetails)
    ensures Validate(d) ==
      Record(Record(Record(Record(map[], Name, FieldError(d, Name)),
        Phone, FieldError(d, Phone)), Email, FieldError(d, Email)), Address, FieldError(d, Address))
  {
    ghost var m0: map<Field, string> := map[];
    assert ValidateOnly(d, []) == m0;
    ghost var m1 := Record(m0, Name, FieldError(d, Name));
    assert ValidateOnly(d, [Name]) == m1 by {
      ValidateOnlyStep(d, [], Name);
      assert [] + [Name] == [Name];
    }
    ghost var m2 := Record(m1, Phone, FieldError(d, Phone));
    assert ValidateOnly(d, [Name, Phone]) == m2 by {
      ValidateOnlyStep(d, [Name], Phone);
    }
    ghost var m3 := Record(m2, Email, FieldError(d, Email));
    assert ValidateOnly(d, [Name, Phone, Email]) == m3 by {
      ValidateOnlyStep(d, [Name, Phone], Email);
    }
    assert ValidateOnly(d, FieldOrder) == Record(m3, Address, FieldError(d, Address)) by {
      ValidateOnlyStep(d, [Name, Phone, Email], Address);
    }
  }

  /** Checking one more field adds its entry, if it has one, and leaves the others. */
  lemma ValidateOnlyStep(d: CustomerDetails, fs: seq<Field>, f: Field)
    ensures ValidateOnly(d, fs + [f]) == Record(ValidateOnly(d, fs), f, FieldError(d, f))
  {
  }

  /** A field gets an entry exactly when it is invalid, and every message is non-empty. */
  lemma FieldErrorIff(d: CustomerDetails, f: Field)
    ensures FieldError(d, f).Some? <==> !FieldValid(d, f)
    ensures FieldError(d, f).Some? ==> FieldError(d, f).value != ""
  {
    TrimEmptyIff(Get(d, f));
  }

  /** A blank phone or email gets its "is required" message and not the format message. */
  lemma RequiredMessagesFirst(d: CustomerDetails)
    ensures AllWhitespace(d.phone) ==> Phone in Validate(d) && Validate(d)[Phone] == "Phone is required"
    ensures AllWhitespace(d.email) ==> Email in Validate(d) && Validate(d)[Email] == "Email is required"
    ensures !AllWhitespace(d.phone) && !PhoneOk(d.phone) ==> Phone in Validate(d) && Validate(d)[Phone] == "Enter a valid phone number"
    ensures !AllWhitespace(d.email) && !MatchesEmailPattern(d.email) ==> Email in Validate(d) && Validate(d)[Email] == "Enter a valid email"
  {
    TrimEmptyIff(d.phone);
    TrimEmptyIff(d.email);
    assert Phone in FieldOrder && Email in FieldOrder;
  }

  /** The form is accepted (the error map is empty) exactly when every field is valid. */
  lemma ValidateEmptyIff(d: CustomerDetails)
    ensures Validate(d) == map[] <==> forall f :: FieldValid(d, f)
  {
    forall f ensures f in Validate(d) <==> !FieldValid(d, f) {
      FieldErrorIff(d, f);
    }
    if Validate(d) != map[] {
      var f :| f in Validate(d);
    }
  }

  /** When exactly one field is invalid, the error map names that field and no other. */
  lemma SingleInvalidField(d: CustomerDetails, bad: Field)
    requires !FieldValid(d, bad)
    requires forall f :: f != bad ==> FieldValid(d, f)
    ensures Validate(d).Keys == {bad}
  {
    forall f ensures f in Validate(d) <==> f == bad {
      FieldErrorIff(d, f);
    }
  }

  // ---------------------------------------------------------------------------
  // The gateway branch
  // ---------------------------------------------------------------------------

  datatype PaystackData = PaystackData(authorizationUrl: Option<string>)

  /** The body of `POST /payment/initialize`; `data` may be missing. */
  datatype PaystackBody = PaystackBody(status: bool, data: Option<PaystackData>)

  /** What the gateway step ends in: a full-page redirect or an alert. */
  datatype GatewayStep = Redirect(url: string) | Notify(message: string)

  /** `initializePaystackPayment` after its request: redirect when `data.status` is truthy and
      `data.data.authorization_url` is a non-empty string; a missing `data.data` throws. */
  function GatewayOutcome(reply: Reply<PaystackBody>): (r: GatewayStep)
    ensures r.Redirect? <==>
      reply.Json? && reply.body.status && reply.body.data.Some? && Truthy(reply.body.data.value.authorizationUrl)
    ensures r.Redirect? ==> r.url == reply.body.data.value.authorizationUrl.value
    ensures r.Notify? && reply.Json? && !reply.body.status ==> r.message == "Payment initialization failed."
    ensures reply.Json? && reply.body.status && reply.body.data.Some? && !Truthy(reply.body.data.value.authorizationUrl) ==>
      r == Notify("Payment initialization failed.")
    ensures r.Notify? && (reply.Thrown? || (reply.body.status && reply.body.data.None?)) ==> r.message == "Failed to initialize payment. Try again."
  {
    match reply
    case Thrown => Notify("Failed to initialize payment. Try again.")
    case Json(body) =>
      if !body.status then Notify("Payment initialization failed.")
      else if body.data.None? then Notify("Failed to initialize payment. Try again.")
      else if Truthy(body.data.value.authorizationUrl) then Redirect(body.data.value.authorizationUrl.value)
      else Notify("Payment initialization failed.")
  }

  /** The body of a successful `POST /orders`. */
  datatype OrderCreated = OrderCreated(orderId: string, totalAmount: int)

  /** The user id the checkout sends, whatever the cart store's session is. */
  const CheckoutUserId := "customer123"

  class CheckoutPage {
    var customerDetails: CustomerDetails
    var paymentMethod: PaymentMethod
    var isSubmitting: bool
    var loading: bool
    var errors: map<Field, string>
    /** The payment method and details of the render whose submit button was pressed: the
        rest of `handleCreateOrder`, and `initializePaystackPayment`, read these and not
        later edits made while the order is in flight. */
    var submittedMethod: PaymentMethod
    var submittedDetails: CustomerDetails
    const cart: CartProvider
    const browser: Browser
    const apiBase: string

    constructor (cart: CartProvider, browser: Browser, apiBase: string)
      ensures customerDetails == CustomerDetails("", "", "", "")
      ensures paymentMethod == Transfer && !isSubmitting && !loading && errors == map[]
      ensures submittedMethod == Transfer && submittedDetails == CustomerDetails("", "", "", "")
      ensures this.cart == cart && this.browser == browser && this.apiBase == apiBase
    {
      customerDetails := CustomerDetails("", "", "", "");
      paymentMethod := Transfer;
      isSubmitting := false;
      loading := false;
      errors := map[];
      submittedMethod := Transfer;
      submittedDetails := CustomerDetails("", "", "", "");
      this.cart := cart;
      this.browser := browser;
      this.apiBase := apiBase;
    }

    /** The order summary's subtotal and total. */
    function Total(): (r: int)
      reads this, cart
      ensures (forall i :: 0 <= i < |cart.cartItems| ==>
        cart.cartItems[i].quantity >= 0 && cart.cartItems[i].menuItem.price >= 0) ==> r >= 0
    {
      CartTotalNonNegative(cart.cartItems);
      CartTotal(cart.cartItems)
    }

    /** Whether the submit button is disabled. */
    predicate SubmitDisabled()
      reads this
      ensures isSubmitting ==> SubmitDisabled()
      ensures !isSubmitting && !loading ==> !SubmitDisabled()
    {
      isSubmitting || loading
    }

    /** `handleInputChange`: sets the edited field and, when that field shows an error, blanks
        that one error; every other field and error is left as it was. */
    method HandleInputChange(f: Field, value: string)
      modifies this`customerDetails, this`errors
      ensures customerDetails == With(old(customerDetails), f, value)
      ensures f in old(errors) && old(errors)[f] != "" ==> errors == old(errors)[f := ""]
      ensures !(f in old(errors) && old(errors)[f] != "") ==> errors == old(errors)
    {
      customerDetails := With(customerDetails, f, value);
      if f in errors && errors[f] != "" {
        errors := errors[f := ""];
      }
    }

    method SelectPaymentMethod(m: PaymentMethod)
      modifies this`paymentMethod
      ensures paymentMethod == m
    {
      paymentMethod := m;
    }

    /** `validateForm`: builds the error map field by field, stores it, and reports whether
        it is empty. */
    method ValidateForm() returns (ok: bool)
      modifies this`errors
      ensures errors == Validate(customerDetails)
      ensures ok <==> errors == map[]
    {
      var d := customerDetails;
      var newErrors: map<Field, string> := map[];
      if IsBlank(d.name) {
        newErrors := newErrors[Name := "Name is required"];
      }
      assert newErrors == Record(map[], Name, FieldError(d, Name));
      ghost var checked := newErrors;
      if IsBlank(d.phone) {
        newErrors := newErrors[Phone := "Phone is required"];
      } else if !PhoneOk(d.phone) {
        newErrors := newErrors[Phone := "Enter a valid phone number"];
      }
      assert newErrors == Record(checked, Phone, FieldError(d, Phone));
      checked := newErrors;
      if IsBlank(d.email) {
        newErrors := newErrors[Email := "Email is required"];
      } else if !MatchesEmailPattern(d.email) {
        newErrors := newErrors[Email := "Enter a valid email"];
      }
      assert newErrors == Record(checked, Email, FieldError(d, Email));
      checked := newErrors;
      if IsBlank(d.address) {
        newErrors := newErrors[Address := "Delivery address is required"];
      }
      assert newErrors == Record(checked, Address, FieldError(d, Address));
      ValidateInOrder(d);
      errors := newErrors;
      ok := |newErrors| == 0;
    }

    /** The first half of `handleCreateOrder`: validate, and only if the form is valid mark the
        page as submitting and post the order. */
    method SubmitOrder() returns (sent: bool)
      modifies this`errors, this`isSubmitting, this`submittedMethod, this`submittedDetails, browser
      ensures errors == Validate(customerDetails)
      ensures sent <==> Validate(customerDetails) == map[]
      ensures sent ==> (isSubmitting &&
        submittedMethod == paymentMethod && submittedDetails == customerDetails &&
        browser.state == old(browser.state).Sent(
          Post(apiBase + "/orders", CreateOrder(CheckoutUserId, customerDetails, paymentMethod.Name()))))
      ensures !sent ==> (isSubmitting == old(isSubmitting) && browser.state == old(browser.state)
        && submittedMethod == old(submittedMethod) && submittedDetails == old(submittedDetails))
    {
      var ok := ValidateForm();
      if !ok {
        return false;
      }
      isSubmitting := true;
      submittedMethod := paymentMethod;
      submittedDetails := customerDetails;
      browser.state := browser.state.Sent(
        Post(apiBase + "/orders", CreateOrder(CheckoutUserId, customerDetails, paymentMethod.Name())));
      sent := true;
    }

    /** The second half of `handleCreateOrder`, once the order request has been answered
        (`created`) and, on the gateway path, the payment request too (`payment`). Every path
        ends with the page no longer submitting. */
    method FinishOrder(created: Response<OrderCreated>, payment: Reply<PaystackBody>)
      requires isSubmitting
      modifies this`isSubmitting, browser
      ensures !isSubmitting
      ensures created.NetFail? ==>
        browser.state == old(browser.state).Alerted("Failed to create order. Please try again.")
      ensures created.HttpErr? ==>
        browser.state == old(browser.state).Alerted("Error: " + Interpolate(created.message))
      ensures created.Ok? && submittedMethod == Transfer ==>
        browser.state == old(browser.state).Stored("orderId", created.data.orderId).NavigatedTo("/payment-transfer")
      ensures created.Ok? && submittedMethod == Paystack ==> (
        var requested := old(browser.state).Sent(
          Post(apiBase + "/payment/initialize",
               PaymentInit(created.data.orderId, submittedDetails.email, created.data.totalAmount)));
        match GatewayOutcome(payment)
        case Redirect(url) => browser.state == requested.NavigatedTo(url)
        case Notify(message) => browser.state == requested.Alerted(message))
    {
      match created {
        case NetFail =>
          browser.state := browser.state.Alerted("Failed to create order. Please try again.");
        case HttpErr(message) =>
          browser.state := browser.state.Alerted("Error: " + Interpolate(message));
        case Ok(order) =>
          if submittedMethod == Paystack {
            InitializePaystackPayment(order.orderId, order.totalAmount, payment);
          } else {
            browser.state := browser.state.Stored("orderId", order.orderId).NavigatedTo("/payment-transfer");
          }
      }
      isSubmitting := false;
    }

    /** `initializePaystackPayment`: posts the order id, the submitted customer's email and
        the amount, then redirects or alerts as `GatewayOutcome` says. */
    method InitializePaystackPayment(orderId: string, amount: int, payment: Reply<PaystackBody>)
      modifies browser
      ensures (
        var requested := old(browser.state).Sent(
          Post(apiBase + "/payment/initialize", PaymentInit(orderId, submittedDetails.email, amount)));
        match GatewayOutcome(payment)
        case Redirect(url) => browser.state == requested.NavigatedTo(url)
        case Notify(message) => browser.state == requested.Alerted(message))
    {
      browser.state := browser.state.Sent(
        Post(apiBase + "/payment/initialize", PaymentInit(orderId, submittedDetails.email, amount)));
      match GatewayOutcome(payment)
      case Redirect(url) =>
        browser.state := browser.state.NavigatedTo(url);
      case Notify(message) =>
        browser.state := browser.state.Alerted(message);
    }
  }
}
