/**
 * The checkout page (src/pages/CheckOut.tsx): the order summary computed from
 * the cart, and the payment handler's effect on the page and the cart. The SDK
 * script, the two `fetch` calls and the payment modal are abstract: their
 * outcomes are inputs.
 */
module Checkout {
  import opened Options
  import opened JsValues
  import opened Cookies
  import opened CartContext
  import Server
  import Text

  // ---------------------------------------------------------------------------
  // The order summary

  /** `cart[cookie.id] > 0` */
  predicate Ordered(cart: Cart, id: string) {
    id in cart && cart[id] > 0
  }

  /** `r` is `s` with some entries deleted, the rest kept in order. */
  predicate IsSubsequence<T(==)>(r: seq<T>, s: seq<T>)
    decreases |s|
  {
    if r == [] then true
    else if s == [] then false
    else if r[0] == s[0] then IsSubsequence(r[1..], s[1..])
    else IsSubsequence(r, s[1..])
  }

  /** `selectedCookies`: the catalog entries with a positive quantity, in catalog order. */
  function Selected(catalog: seq<CookieData>, cart: Cart): (r: seq<CookieData>)
    ensures forall c :: c in r <==> c in catalog && Ordered(cart, c.id)
    ensures IsSubsequence(r, catalog)
  {
    if catalog == [] then []
    else
      var rest := Selected(catalog[1..], cart);
      if Ordered(cart, catalog[0].id) then [catalog[0]] + rest
      else
        assert rest == [] || rest[0] != catalog[0] by {
          if rest != [] {
            assert rest[0] in rest;
          }
        }
        rest
  }

  /** The quantity of a selected entry. */
  function Qty(cart: Cart, id: string): int {
    if id in cart then cart[id] else 0
  }

  /** `cart[cookie.id] * cookie.price`, the line total of a summary row. */
  function LineTotal(cart: Cart, c: CookieData): int {
    Qty(cart, c.id) * c.price
  }

  /** `reduce((sum, cookie) => sum + cart[cookie.id] * cookie.price, 0)`, folding from the left. */
  function Total(cart: Cart, items: seq<CookieData>): int {
    if items == [] then 0 else Total(cart, items[..|items| - 1]) + LineTotal(cart, items[|items| - 1])
  }

  /** `totalAmount` */
  function TotalAmount(catalog: seq<CookieData>, cart: Cart): int {
    Total(cart, Selected(catalog, cart))
  }

  /** An independent reference: every catalog entry contributes its line total when ordered, zero otherwise. */
  function CatalogSum(catalog: seq<CookieData>, cart: Cart): int {
    if catalog == [] then 0
    else (if Ordered(cart, catalog[0].id) then LineTotal(cart, catalog[0]) else 0) + CatalogSum(catalog[1..], cart)
  }

  /** The fold splits over concatenation. */
  lemma {:induction false} TotalAppend(cart: Cart, a: seq<CookieData>, b: seq<CookieData>)
    ensures Total(cart, a + b) == Total(cart, a) + Total(cart, b)
    decreases |b|
  {
    if b == [] {
      assert a + b == a;
    } else {
      var b' := b[..|b| - 1];
      assert (a + b)[..|a + b| - 1] == a + b';
      assert (a + b)[|a + b| - 1] == b[|b| - 1];
      TotalAppend(cart, a, b');
    }
  }

  /** `totalAmount` is the sum over the catalog of every ordered entry's quantity times its price. */
  lemma {:induction false} TotalIsCatalogSum(catalog: seq<CookieData>, cart: Cart)
    ensures TotalAmount(catalog, cart) == CatalogSum(catalog, cart)
  {
    if catalog != [] {
      TotalIsCatalogSum(catalog[1..], cart);
      var rest := Selected(catalog[1..], cart);
      if Ordered(cart, catalog[0].id) {
        TotalAppend(cart, [catalog[0]], rest);
        assert Total(cart, [catalog[0]]) == LineTotal(cart, catalog[0]) by {
          assert [catalog[0]][..0] == [];
        }
      }
    }
  }

  /** Two carts that agree on every catalog id give the same summary and the same total. */
  lemma {:induction false} OnlyCatalogIdsMatter(catalog: seq<CookieData>, cart1: Cart, cart2: Cart)
    requires forall i :: 0 <= i < |catalog| ==>
      Ordered(cart1, catalog[i].id) == Ordered(cart2, catalog[i].id)
      && (Ordered(cart1, catalog[i].id) ==> cart1[catalog[i].id] == cart2[catalog[i].id])
    ensures Selected(catalog, cart1) == Selected(catalog, cart2)
    ensures TotalAmount(catalog, cart1) == TotalAmount(catalog, cart2)
  {
    if catalog != [] {
      OnlyCatalogIdsMatter(catalog[1..], cart1, cart2);
      TotalIsCatalogSum(catalog, cart1);
      TotalIsCatalogSum(catalog, cart2);
      TotalIsCatalogSum(catalog[1..], cart1);
      TotalIsCatalogSum(catalog[1..], cart2);
    }
  }

  /** A cart key that is no catalog id changes neither the summary nor the total. */
  lemma ForeignKeyIgnored(catalog: seq<CookieData>, cart: Cart, id: string, q: int)
    requires forall i :: 0 <= i < |catalog| ==> catalog[i].id != id
    ensures Selected(catalog, cart[id := q]) == Selected(catalog, cart)
    ensures TotalAmount(catalog, cart[id := q]) == TotalAmount(catalog, cart)
  {
    OnlyCatalogIdsMatter(catalog, cart[id := q], cart);
  }

  /** What the page renders. */
  datatype View = EmptyBag | Summary(items: seq<CookieData>, total: int)

  function CheckoutView(catalog: seq<CookieData>, cart: Cart): View {
    var selected := Selected(catalog, cart);
    if |selected| == 0 then EmptyBag else Summary(selected, TotalAmount(catalog, cart))
  }

  /** The empty bag is shown exactly when no catalog cookie is ordered, and then the total is 0. */
  lemma EmptyBagExactly(catalog: seq<CookieData>, cart: Cart)
    ensures CheckoutView(catalog, cart).EmptyBag? <==> forall i :: 0 <= i < |catalog| ==> !Ordered(cart, catalog[i].id)
    ensures CheckoutView(catalog, cart).EmptyBag? ==> TotalAmount(catalog, cart) == 0
  {
    var selected := Selected(catalog, cart);
    if selected != [] {
      assert selected[0] in selected;
    }
    forall i | 0 <= i < |catalog| && Ordered(cart, catalog[i].id) ensures selected != [] {
      assert catalog[i] in selected;
    }
  }

  /** A fold over ordered entries with positive prices is positive. */
  lemma {:induction false} TotalPositive(cart: Cart, items: seq<CookieData>)
    requires items != []
    requires forall i :: 0 <= i < |items| ==> Ordered(cart, items[i].id) && items[i].price > 0
    ensures Total(cart, items) > 0
    decreases |items|
  {
    var last := items[|items| - 1];
    assert LineTotal(cart, last) > 0 by {
      assert Qty(cart, last.id) > 0;
    }
    if |items| > 1 {
      TotalPositive(cart, items[..|items| - 1]);
    }
  }

  /** With positive prices, a bag that is not empty has a positive total. */
  lemma NonEmptyBagPositiveTotal(catalog: seq<CookieData>, cart: Cart)
    requires PositivePrices(catalog)
    requires Selected(catalog, cart) != []
    ensures TotalAmount(catalog, cart) > 0
  {
    var selected := Selected(catalog, cart);
    forall i | 0 <= i < |selected| ensures Ordered(cart, selected[i].id) && selected[i].price > 0 {
      assert selected[i] in selected;
      var j :| 0 <= j < |catalog| && catalog[j] == selected[i];
    }
    TotalPositive(cart, selected);
  }

  // ---------------------------------------------------------------------------
  // The payment handler

  /** The body of the `/create-order` request: `{ amount: totalAmount, currency: "INR" }`. */
  function OrderRequest(cart: Cart): (body: Server.CreateOrderBody)
    ensures body.amount == Some(TotalAmount(Catalog, cart)) && body.currency == Some("INR")
  {
    Server.CreateOrderBody(Some(TotalAmount(Catalog, cart)), Some("INR"))
  }

  /** The order request of a non-empty bag passes the server's validation and asks for the total in paise. */
  lemma NonEmptyBagReachesGateway(cart: Cart, now: nat, gateway: Server.OrderOptions -> Server.GatewayResult)
    requires Selected(Catalog, cart) != []
    ensures Server.CreateOrder(true, OrderRequest(cart), now, gateway).gatewayCall
      == Some(Server.GatewayRequest(TotalAmount(Catalog, cart), "INR", now))
    ensures Server.CreateOrder(true, OrderRequest(cart), now, gateway).gatewayCall.value.amount
      == TotalAmount(Catalog, cart) * 100
  {
    CatalogShape();
    NonEmptyBagPositiveTotal(Catalog, cart);
  }

  /** What awaiting `/create-order` produced. */
  datatype OrderStep =
    | OrderThrew                            // `fetch`, `.json()` or the SDK constructor threw
    | OrderNotOk(errorText: string)         // a non-OK status, with the body's text
    | ModalOpened(order: Server.GatewayOrder) // the modal opened for the returned order

  /** The fields of the SDK's success callback argument. */
  datatype PaymentResponse = PaymentResponse(orderId: Option<string>, paymentId: Option<string>, signature: Option<string>)

  /** What awaiting `/verify-signature` produced. */
  datatype VerificationStep =
    | VerifyThrew                              // `fetch` or `.json()` threw
    | VerifyNotOk(errorText: string)           // a non-OK status, with the body's text
    | VerifyJson(success: bool, message: string) // an OK JSON body: its `success` truthiness and `message`

  const SdkFailed := "Razorpay SDK failed to load. " + "Please check " + "your internet connection."
  const UnexpectedError := "An unexpected error " + "occurred during payment. " + "Please try again."
  const Initiated := "Payment process initiated. " + "Please wait for verification..."
  const VerificationError := "Error during payment verification. " + "Please contact " + "support."
  const Cancelled := "Payment failed or was cancelled."
  const ModalClosed := "Payment window closed " + "without completing payment."

  function SuccessMessage(paymentId: string): string {
    "Payment successful! Payment ID: " + paymentId + ". Order Verified."
  }

  /** The page message after the order step. */
  function OrderStepMessage(step: OrderStep): Option<string> {
    match step
    case OrderThrew => Some(UnexpectedError)
    case OrderNotOk(text) => Some("Server error creating order: " + text)
    case ModalOpened(_) => None
  }

  /** The verification succeeded: the callback had a payment id and the JSON result's `success` was truthy. */
  predicate ClearsCart(paymentId: Option<string>, verification: VerificationStep) {
    Present(paymentId) && verification.VerifyJson? && verification.success
  }

  /** The page message when the modal's success callback has finished. */
  function HandlerMessage(paymentId: Option<string>, verification: VerificationStep): (m: string)
    ensures !Present(paymentId) ==> m == Cancelled
    ensures ClearsCart(paymentId, verification) ==> m == SuccessMessage(paymentId.value)
  {
    if !Present(paymentId) then Cancelled
    else
      match verification
      case VerifyThrew => VerificationError
      case VerifyNotOk(text) => "Verification server error: " + text + ". Please contact support."
      case VerifyJson(success, message) =>
        if success then SuccessMessage(paymentId.value)
        else "Payment verification failed: " + message + ". Please contact support."
  }

  /** How the client reads a `/verify-signature` response; `text` is the body's serialised text. */
  function ClientView(response: Server.Response, text: string): (v: VerificationStep)
    ensures v.VerifyJson? && v.success ==> 200 <= response.status <= 299
  {
    if !(200 <= response.status <= 299) then VerifyNotOk(text)
    else
      match response.body
      case Message(success, message, _) => VerifyJson(success == Some(true), message)
      case Order(_) => VerifyJson(false, "undefined")
      case HealthReport(_, _) => VerifyJson(false, "undefined")
      case Plain(_) => VerifyThrew
      case DefaultErrorPage => VerifyThrew
  }

  /**
   * Against the server's `/verify-signature`, the cart is cleared exactly when
   * every field is present and the signature is the HMAC of the confirmation payload.
   */
  lemma CartClearedExactlyOnValidSignature(keySecret: Option<string>, response: PaymentResponse, text: string,
                                           hmacSha256Hex: (string, string) -> string)
    ensures ClearsCart(response.paymentId,
      ClientView(Server.VerifySignature(keySecret,
        Server.VerifyBody(response.orderId, response.paymentId, response.signature), hmacSha256Hex), text))
      <==>
      Server.VerificationInputsPresent(keySecret, Server.VerifyBody(response.orderId, response.paymentId, response.signature))
      && hmacSha256Hex(keySecret.value, Server.ConfirmationPayload(response.orderId.value, response.paymentId.value))
         == response.signature.value
  {
  }

  /** The page's state, over the cart provider it reads and clears. */
  class CheckoutPage {
    const store: CartStore
    var message: Option<string>
    var isLoading: bool
    /** The modal was opened for this order. */
    var modalOrder: Option<Server.GatewayOrder>
    /** The navigation to `/order-success` is scheduled. */
    var successNavigation: bool

    constructor (store: CartStore)
      ensures this.store == store
      ensures message == None && !isLoading && modalOrder == None && !successNavigation
    {
      this.store := store;
      message := None;
      isLoading := false;
      modalOrder := None;
      successNavigation := false;
    }

    /**
     * `handlePayment`: returns the `/create-order` request it sends, if any.
     * `scriptLoaded` is the outcome of loading the SDK, `step` that of the order request.
     */
    method HandlePayment(scriptLoaded: bool, step: OrderStep) returns (request: Option<Server.CreateOrderBody>)
      modifies this
      ensures request == (if scriptLoaded then Some(OrderRequest(store.cart)) else None)
      ensures !scriptLoaded ==> message == Some(SdkFailed) && !isLoading && modalOrder == old(modalOrder)
      ensures scriptLoaded ==> message == OrderStepMessage(step) && (isLoading <==> step.ModalOpened?)
      ensures scriptLoaded && step.ModalOpened? ==> modalOrder == Some(step.order)
      ensures scriptLoaded && !step.ModalOpened? ==> modalOrder == old(modalOrder)
      ensures successNavigation == old(successNavigation)
    {
      message := None;
      isLoading := true;
      if !scriptLoaded {
        message := Some(SdkFailed);
        isLoading := false;
        return None;
      }
      request := Some(Server.CreateOrderBody(Some(Total(store.cart, Selected(Catalog, store.cart))), Some("INR")));
      match step
      case OrderThrew =>
        message := Some(UnexpectedError);
        isLoading := false;
      case OrderNotOk(text) =>
        message := Some("Server error creating order: " + text);
        isLoading := false;
      case ModalOpened(order) =>
        modalOrder := Some(order);
    }

    /**
     * The modal's success callback: returns the `/verify-signature` request it
     * sends, if any; `verification` is the outcome of that request.
     */
    method OnPaymentResponse(response: PaymentResponse, verification: VerificationStep)
      returns (verifyRequest: Option<Server.VerifyBody>)
      modifies this, store
      ensures verifyRequest.Some? <==> Present(response.paymentId)
      ensures verifyRequest.Some? ==>
        verifyRequest.value == Server.VerifyBody(response.orderId, response.paymentId, response.signature)
      ensures ClearsCart(response.paymentId, verification) ==> store.cart == map[]
      ensures !ClearsCart(response.paymentId, verification) ==> store.cart == old(store.cart)
      ensures successNavigation <==> old(successNavigation) || ClearsCart(response.paymentId, verification)
      ensures message == Some(HandlerMessage(response.paymentId, verification))
      ensures !isLoading && modalOrder == old(modalOrder)
    {
      if Present(response.paymentId) {
        message := Some(Initiated);
        verifyRequest := Some(Server.VerifyBody(response.orderId, response.paymentId, response.signature));
        match verification
        case VerifyThrew =>
          message := Some(VerificationError);
        case VerifyNotOk(text) =>
          message := Some("Verification server error: " + text + ". Please contact support.");
          isLoading := false;
          return;
        case VerifyJson(success, msg) =>
          if success {
            message := Some(SuccessMessage(response.paymentId.value));
            store.Reset();
            successNavigation := true;
          } else {
            message := Some("Payment verification failed: " + msg + ". Please contact support.");
          }
      } else {
        verifyRequest := None;
        message := Some(Cancelled);
      }
      isLoading := false;
    }

    /** The modal's `modal.close` handler. */
    method OnModalClose()
      modifies this
      ensures message == Some(ModalClosed) && !isLoading
      ensures modalOrder == old(modalOrder) && successNavigation == old(successNavigation)
    {
      message := Some(ModalClosed);
      isLoading := false;
    }
  }

  // ---------------------------------------------------------------------------
  // The message colour

  /** The message is styled as a success (green) rather than an error (red). */
  predicate SuccessStyled(m: string) {
    Text.Contains(m, "successful") || Text.Contains(m, "Verified")
  }

  /** The success message is styled green, whatever the payment id. */
  lemma SuccessMessageStyledGreen(paymentId: string)
    ensures SuccessStyled(SuccessMessage(paymentId))
  {
    Text.ContainsInfix("Payment ", "successful", "! Payment ID: " + paymentId + ". Order Verified.");
    assert SuccessMessage(paymentId) == "Payment " + "successful" + ("! Payment ID: " + paymentId + ". Order Verified.");
  }

  /** A message lacking a letter of each marker word is styled red. */
  lemma RedWhenMarkersMissing(m: string, s: char, v: char)
    requires s in "successful" && s !in m
    requires v in "Verified" && v !in m
    ensures !SuccessStyled(m)
  {
    Text.MissingCharExcludes(m, "successful", s);
    Text.MissingCharExcludes(m, "Verified", v);
  }

  /** The cancellation message is styled red. */
  lemma CancelledStyledRed()
    ensures !SuccessStyled(Cancelled)
  {
    RedWhenMarkersMissing(Cancelled, 'u', 'V');
  }

  /** The modal-closed message is styled red. */
  lemma ModalClosedStyledRed()
    ensures !SuccessStyled(ModalClosed)
  {
    assert 'f' !in "Payment window closed " && 'V' !in "Payment window closed ";
    assert 'f' !in "without completing payment." && 'V' !in "without completing payment.";
    RedWhenMarkersMissing(ModalClosed, 'f', 'V');
  }

  /** The in-progress message is styled red. */
  lemma InitiatedStyledRed()
    ensures !SuccessStyled(Initiated)
  {
    assert 'u' !in "Payment process initiated. " && 'V' !in "Payment process initiated. ";
    assert 'u' !in "Please wait for verification..." && 'V' !in "Please wait for verification...";
    RedWhenMarkersMissing(Initiated, 'u', 'V');
  }

  /** The unexpected-error message is styled red. */
  lemma UnexpectedErrorStyledRed()
    ensures !SuccessStyled(UnexpectedError)
  {
    assert 'f' !in "An unexpected error " && 'V' !in "An unexpected error ";
    assert 'f' !in "occurred during payment. " && 'V' !in "occurred during payment. ";
    assert 'f' !in "Please try again." && 'V' !in "Please try again.";
    RedWhenMarkersMissing(UnexpectedError, 'f', 'V');
  }

  /**
   * A message made of three pieces, each lacking `u` or `l` and none meeting the
   * next at a `u`–`l` pair, and lacking `V`, is styled red: `successful` holds
   * the pair `ul`.
   */
  lemma RedWithoutPairUl(a: string, b: string, c: string)
    requires 'u' !in a || 'l' !in a
    requires 'u' !in b || 'l' !in b
    requires 'u' !in c || 'l' !in c
    requires a != [] && b != [] && a[|a| - 1] != 'u' && b[|b| - 1] != 'u'
    requires 'V' !in a + b + c
    ensures !SuccessStyled(a + b + c)
  {
    Text.NoPairConcat(a, b, 'u', 'l');
    Text.NoPairConcat(a + b, c, 'u', 'l');
    assert "successful"[8] == 'u' && "successful"[9] == 'l';
    Text.PairFreeExcludes(a + b + c, "successful", 8);
    Text.MissingCharExcludes(a + b + c, "Verified", 'V');
  }

  /** The verification-error message is styled red. */
  lemma VerificationErrorStyledRed()
    ensures !SuccessStyled(VerificationError)
  {
    assert 'l' !in "Error during payment verification. " && 'V' !in "Error during payment verification. ";
    assert 'u' !in "Please contact " && 'V' !in "Please contact ";
    assert 'l' !in "support." && 'V' !in "support.";
    RedWithoutPairUl("Error during payment verification. ", "Please contact ", "support.");
  }

  /** The SDK-failure message is styled red. */
  lemma SdkFailedStyledRed()
    ensures !SuccessStyled(SdkFailed)
  {
    assert 'u' !in "Razorpay SDK failed to load. " && 'V' !in "Razorpay SDK failed to load. ";
    assert 'u' !in "Please check " && 'V' !in "Please check ";
    assert 'l' !in "your internet connection." && 'V' !in "your internet connection.";
    RedWithoutPairUl("Razorpay SDK failed to load. ", "Please check ", "your internet connection.");
  }

  /** The state the page is left in by a successful verification is green; a cancelled one is red. */
  lemma HandlerMessageColour(paymentId: Option<string>, verification: VerificationStep)
    ensures ClearsCart(paymentId, verification) ==> SuccessStyled(HandlerMessage(paymentId, verification))
    ensures !Present(paymentId) ==> !SuccessStyled(HandlerMessage(paymentId, verification))
    ensures Present(paymentId) && verification.VerifyThrew? ==> !SuccessStyled(HandlerMessage(paymentId, verification))
  {
    if ClearsCart(paymentId, verification) {
      SuccessMessageStyledGreen(paymentId.value);
    }
    if !Present(paymentId) {
      CancelledStyledRed();
    } else if verification.VerifyThrew? {
      VerificationErrorStyledRed();
    }
  }
}
