/**
 * The Express backend (src/backend/server.js): start-up configuration, the CORS
 * origin policy, the bearer-token middleware and the decision chains of the
 * payment and persistence routes.
 *
 * Every route handler is a total function from the facts of one request to the
 * response it sends. What the handler obtains from code outside this model (the
 * HMAC-SHA256 digest, `JSON.stringify` of the parsed body, `verifyIdToken`, the
 * gateway call, `Date.now()`, the outcome of a Firestore write) is a parameter.
 */
module Server {
  import opened Options
  import opened JsValues
  import Text

  // ---------------------------------------------------------------------------
  // Responses

  datatype Body =
    | Message(success: Option<bool>, message: string, error: Option<string>)  // a `res.json({...})` body
    | Order(order: GatewayOrder)                                               // `res.json(order)`
    | HealthReport(ok: bool, bootId: string)                                   // the `/health` body
    | Plain(text: string)                                                      // `res.send(text)`
    | DefaultErrorPage                                                         // Express's handler for an uncaught exception

  datatype Response = Response(status: int, body: Body)

  // ---------------------------------------------------------------------------
  // Start-up

  /** The environment variables the backend reads; `None` is an unset variable. */
  datatype Env = Env(
    firebaseProjectId: Option<string>,
    firebaseClientEmail: Option<string>,
    firebasePrivateKey: Option<string>,
    razorpayKeyId: Option<string>,
    razorpayKeySecret: Option<string>,
    razorpayWebhookSecret: Option<string>,
    corsOrigin: Option<string>)

  predicate FirebaseCredentialsPresent(env: Env) {
    Present(env.firebaseProjectId) && Present(env.firebaseClientEmail) && Present(env.firebasePrivateKey)
  }

  predicate GatewayCredentialsPresent(env: Env) {
    Present(env.razorpayKeyId) && Present(env.razorpayKeySecret)
  }

  /**
   * The module-level state assigned at start-up: whether `adminDb` and
   * `razorpay` hold a client. The SDK constructors may throw; the flags say so.
   */
  class Backend {
    const env: Env
    var adminDb: bool
    var razorpay: bool

    constructor (env: Env, adminInitThrows: bool, gatewayInitThrows: bool)
      ensures this.env == env
      ensures adminDb <==> FirebaseCredentialsPresent(env) && !adminInitThrows
      ensures razorpay <==> GatewayCredentialsPresent(env) && !gatewayInitThrows
    {
      this.env := env;
      adminDb := false;
      if FirebaseCredentialsPresent(env) {
        if !adminInitThrows {
          adminDb := true;
        }
      }
      razorpay := false;
      if GatewayCredentialsPresent(env) {
        if !gatewayInitThrows {
          razorpay := true;
        }
      }
    }

    /** `POST /save-user`: the `requireAuth` middleware, then the handler. */
    method SaveUserRoute(req: Request, body: SaveUserBody, verifyIdToken: string -> TokenCheck, writeOk: bool)
        returns (out: SaveUserOutcome)
      modifies req
      ensures Authorize(req.authorization, verifyIdToken).Refuse? ==>
        out == SaveUserOutcome(None, Authorize(req.authorization, verifyIdToken).response) && req.user == old(req.user)
      ensures Authorize(req.authorization, verifyIdToken).Admit? ==>
        req.user == Some(Authorize(req.authorization, verifyIdToken).user) &&
        out == SaveUser(adminDb, req.user, body, writeOk)
    {
      var refusal := req.RequireAuth(verifyIdToken);
      if refusal.Some? {
        out := SaveUserOutcome(None, refusal.value);
      } else {
        out := SaveUser(adminDb, req.user, body, writeOk);
      }
    }

    /** `POST /save-order-data`: the `requireAuth` middleware, then the handler. */
    method SaveOrderDataRoute(req: Request, body: SaveOrderBody, verifyIdToken: string -> TokenCheck, writeOk: bool)
        returns (out: SaveOrderOutcome)
      modifies req
      ensures Authorize(req.authorization, verifyIdToken).Refuse? ==>
        out == SaveOrderOutcome(None, Authorize(req.authorization, verifyIdToken).response) && req.user == old(req.user)
      ensures Authorize(req.authorization, verifyIdToken).Admit? ==>
        req.user == Some(Authorize(req.authorization, verifyIdToken).user) &&
        out == SaveOrderData(adminDb, body, req.user, writeOk)
    {
      var refusal := req.RequireAuth(verifyIdToken);
      if refusal.Some? {
        out := SaveOrderOutcome(None, refusal.value);
      } else {
        out := SaveOrderData(adminDb, body, req.user, writeOk);
      }
    }
  }

  // ---------------------------------------------------------------------------
  // CORS origin callback

  const LocalDevOrigin := "http://localhost:5173"
  const LoopbackDevOrigin := "http://127.0.0.1:5173"

  /** `list.filter(Boolean)` on optional strings. */
  function FilterPresent(xs: seq<Option<string>>): (r: seq<string>)
    ensures forall s :: s in r <==> Some(s) in xs && s != ""
  {
    if xs == [] then []
    else
      var tail := FilterPresent(xs[1..]);
      assert forall s :: Some(s) in xs <==> Some(s) == xs[0] || Some(s) in xs[1..];
      if Present(xs[0]) then [xs[0].value] + tail else tail
  }

  /** The `allowed` list: the two development origins and `CORS_ORIGIN` when it is set and non-empty. */
  function AllowedOrigins(corsOrigin: Option<string>): (allowed: seq<string>)
    ensures forall o :: o in allowed <==>
      o == LocalDevOrigin || o == LoopbackDevOrigin || (Present(corsOrigin) && o == corsOrigin.value)
  {
    FilterPresent([Some(LocalDevOrigin), Some(LoopbackDevOrigin), corsOrigin])
  }

  datatype CorsDecision = Allow | Deny(message: string)

  /** The `origin` callback passed to `cors(...)`. */
  function CorsOrigin(origin: Option<string>, corsOrigin: Option<string>): (r: CorsDecision)
    ensures r == Allow <==>
      !Present(origin) || origin.value == LocalDevOrigin || origin.value == LoopbackDevOrigin ||
      (Present(corsOrigin) && origin == corsOrigin)
    ensures r.Deny? ==> origin.Some? && r.message == "CORS: Origin " + origin.value + " not allowed"
  {
    if !Present(origin) || origin.value in AllowedOrigins(corsOrigin) then Allow
    else Deny("CORS: Origin " + origin.value + " not allowed")
  }

  /** An empty `CORS_ORIGIN` allows exactly what an unset one allows. */
  lemma EmptyCorsOriginAddsNothing(origin: Option<string>)
    ensures CorsOrigin(origin, Some("")) == CorsOrigin(origin, None)
  {
  }

  // ---------------------------------------------------------------------------
  // requireAuth

  /** `req.user` as the middleware records it. */
  datatype AuthUser = AuthUser(uid: string, email: Option<string>)

  /** What `admin.auth().verifyIdToken(token)` yields: the decoded claims, or a thrown error. */
  datatype TokenCheck = Decoded(uid: string, email: Option<string>) | TokenError(message: string)

  datatype AuthResult = Admit(user: AuthUser) | Refuse(response: Response)

  const MissingHeader := Response(401, Message(Some(false), "Unauthorized: missing or invalid Authorization header", None))

  function InvalidToken(message: string): Response {
    Response(401, Message(Some(false), "Unauthorized: invalid ID token", Some(message)))
  }

  /** `req.headers.authorization || ''` */
  function HeaderText(authorization: Option<string>): string {
    if Present(authorization) then authorization.value else ""
  }

  /** The decision of `requireAuth`. */
  function Authorize(authorization: Option<string>, verifyIdToken: string -> TokenCheck): (r: AuthResult)
    ensures r.Refuse? ==> r.response.status == 401
  {
    var parts := Text.Split(HeaderText(authorization), ' ');
    if |parts| == 2 && parts[0] == "Bearer" then
      match verifyIdToken(parts[1])
      case Decoded(uid, email) => Admit(AuthUser(uid, OrNull(email)))
      case TokenError(m) => Refuse(InvalidToken(m))
    else
      Refuse(MissingHeader)
  }

  /** A header splits on ' ' into exactly `Bearer` and `token` iff it is `"Bearer " + token` with no space in `token`. */
  lemma BearerHeader(h: string, token: string)
    ensures Text.Split(h, ' ') == ["Bearer", token] <==> ' ' !in token && h == "Bearer " + token
  {
    if Text.Split(h, ' ') == ["Bearer", token] {
      Text.JoinSplit(h, ' ');
      Text.SplitPiecesFree(h, ' ');
      assert ' ' !in Text.Split(h, ' ')[1];
    }
    if ' ' !in token && h == "Bearer " + token {
      Text.SplitTwo("Bearer", token, ' ');
      assert "Bearer" + [' '] + token == h;
    }
  }

  /** A well-formed bearer header passes its token, and nothing else, to `verifyIdToken`. */
  lemma AuthorizeBearer(token: string, verifyIdToken: string -> TokenCheck)
    requires ' ' !in token
    ensures Authorize(Some("Bearer " + token), verifyIdToken) ==
      match verifyIdToken(token)
      case Decoded(uid, email) => Admit(AuthUser(uid, OrNull(email)))
      case TokenError(m) => Refuse(InvalidToken(m))
  {
    BearerHeader("Bearer " + token, token);
  }

  /** A missing header, or one that is not `Bearer <token>`, is refused without consulting the token verifier. */
  lemma AuthorizeMalformed(authorization: Option<string>, verifyIdToken: string -> TokenCheck)
    requires forall token :: authorization != Some("Bearer " + token) || ' ' in token
    ensures Authorize(authorization, verifyIdToken) == Refuse(MissingHeader)
  {
    var h := HeaderText(authorization);
    var parts := Text.Split(h, ' ');
    if |parts| == 2 && parts[0] == "Bearer" {
      BearerHeader(h, parts[1]);
    }
  }

  /** The Express request object, whose `user` field the middleware writes. */
  class Request {
    const authorization: Option<string>
    var user: Option<AuthUser>

    constructor (authorization: Option<string>)
      ensures this.authorization == authorization && user == None
    {
      this.authorization := authorization;
      user := None;
    }

    /** `requireAuth`: on success sets `req.user` and continues; otherwise answers 401. */
    method RequireAuth(verifyIdToken: string -> TokenCheck) returns (refusal: Option<Response>)
      modifies this
      ensures refusal.None? <==> Authorize(authorization, verifyIdToken).Admit?
      ensures refusal.None? ==> user == Some(Authorize(authorization, verifyIdToken).user)
      ensures refusal.Some? ==> user == old(user) && refusal.value == Authorize(authorization, verifyIdToken).response
      ensures refusal.Some? ==> refusal.value.status == 401
    {
      match Authorize(authorization, verifyIdToken)
      case Admit(u) =>
        user := Some(u);
        refusal := None;
      case Refuse(resp) =>
        refusal := Some(resp);
    }
  }

  // ---------------------------------------------------------------------------
  // /health

  /** `GET /health`: reports the process's boot id. */
  function Health(serverBootId: string): (r: Response)
    ensures r.status == 200 && r.body.HealthReport? && r.body.ok && r.body.bootId == serverBootId
  {
    Response(200, HealthReport(true, serverBootId))
  }

  // ---------------------------------------------------------------------------
  // /create-order

  /** The JSON body `{ amount, currency }`; a missing or `null` field is `None`. */
  datatype CreateOrderBody = CreateOrderBody(amount: Option<int>, currency: Option<string>)

  /** The options passed to `razorpay.orders.create`. */
  datatype OrderOptions = OrderOptions(amount: int, currency: string, receipt: string, paymentCapture: int)

  /** The gateway's order object, as the client reads it. */
  datatype GatewayOrder = GatewayOrder(id: string, amount: int, currency: string)

  /** What the awaited gateway call produced: a thrown error, or a (possibly falsy) order. */
  datatype GatewayResult = GatewayThrew(message: string) | GatewayReturned(order: Option<GatewayOrder>)

  datatype CreateOrderOutcome = CreateOrderOutcome(gatewayCall: Option<OrderOptions>, response: Response)

  const PaymentsNotConfigured := Response(503, Message(None, "Payments not configured on server.", None))
  const AmountAndCurrencyRequired := Response(400, Message(None, "Amount and currency are required.", None))

  predicate AmountTruthy(amount: Option<int>) {
    amount.Some? && amount.value != 0
  }

  /** Rupees to paise: the fixed conversion applied to every order. */
  function ToPaise(rupees: int): (paise: int)
    ensures paise / 100 == rupees && paise % 100 == 0
  {
    rupees * 100
  }

  /** The `options` object of a gateway request for a validated body. */
  function GatewayRequest(amount: int, currency: string, now: nat): (o: OrderOptions)
    ensures o.amount == ToPaise(amount) && o.currency == currency && o.paymentCapture == 1
    ensures |o.receipt| > 14 && o.receipt[..14] == "receipt_order_"
  {
    OrderOptions(amount * 100, currency, "receipt_order_" + Text.NatToString(now), 1)
  }

  /** `POST /create-order`; `now` is `Date.now()`. */
  function CreateOrder(razorpay: bool, body: CreateOrderBody, now: nat, gateway: OrderOptions -> GatewayResult)
    : (r: CreateOrderOutcome)
    ensures !razorpay ==> r == CreateOrderOutcome(None, PaymentsNotConfigured)
    ensures razorpay && !(AmountTruthy(body.amount) && Present(body.currency)) ==>
      r == CreateOrderOutcome(None, AmountAndCurrencyRequired)
    ensures r.gatewayCall.Some? <==> razorpay && AmountTruthy(body.amount) && Present(body.currency)
    ensures r.gatewayCall.Some? ==>
      r.gatewayCall.value == GatewayRequest(body.amount.value, body.currency.value, now)
    ensures r.gatewayCall.Some? ==>
      (r.response.status == 200 <==> gateway(r.gatewayCall.value).GatewayReturned? && gateway(r.gatewayCall.value).order.Some?)
    ensures r.gatewayCall.Some? && r.response.status == 200 ==>
      r.response.body == Order(gateway(r.gatewayCall.value).order.value)
    ensures r.gatewayCall.Some? && r.response.status != 200 ==> r.response.status == 500
  {
    if !razorpay then
      CreateOrderOutcome(None, PaymentsNotConfigured)
    else if !AmountTruthy(body.amount) || !Present(body.currency) then
      CreateOrderOutcome(None, AmountAndCurrencyRequired)
    else
      var options := GatewayRequest(body.amount.value, body.currency.value, now);
      var response :=
        match gateway(options)
        case GatewayThrew(m) => Response(500, Message(None, "Failed to create Razorpay order.", Some(m)))
        case GatewayReturned(None) => Response(500, Message(None, "Error creating order with Razorpay.", None))
        case GatewayReturned(Some(order)) => Response(200, Order(order));
      CreateOrderOutcome(Some(options), response)
  }

  /** When payments are not configured, the body and the gateway do not matter. */
  lemma CreateOrderConfigCheckedFirst(b1: CreateOrderBody, b2: CreateOrderBody, t1: nat, t2: nat,
                                      g1: OrderOptions -> GatewayResult, g2: OrderOptions -> GatewayResult)
    ensures CreateOrder(false, b1, t1, g1) == CreateOrder(false, b2, t2, g2)
  {
  }

  /** A negative amount is not rejected: it reaches the gateway as a negative paise amount. */
  lemma CreateOrderAcceptsNegativeAmount(amount: int, currency: string, now: nat, gateway: OrderOptions -> GatewayResult)
    requires amount < 0 && currency != ""
    ensures CreateOrder(true, CreateOrderBody(Some(amount), Some(currency)), now, gateway).gatewayCall.Some?
    ensures CreateOrder(true, CreateOrderBody(Some(amount), Some(currency)), now, gateway).gatewayCall.value.amount < 0
  {
  }

  // ---------------------------------------------------------------------------
  // /save-user

  datatype SaveUserBody = SaveUserBody(displayName: JsValue, phoneNumber: JsValue)

  /** The profile document written with `{ merge: true }`. */
  datatype UserProfile = UserProfile(uid: string, authUid: JsValue, email: string, displayName: JsValue, phoneNumber: JsValue)

  datatype UserWrite = UserWrite(docId: string, profile: UserProfile, merge: bool)

  datatype SaveUserOutcome = SaveUserOutcome(write: Option<UserWrite>, response: Response)

  const FirestoreNotConfigured := Response(503, Message(Some(false), "Firestore not configured on server.", None))

  predicate HasEmail(user: Option<AuthUser>) {
    user.Some? && Present(user.value.email)
  }

  /** `POST /save-user` after `requireAuth`; `writeOk` is whether the Firestore `set` resolved. */
  function SaveUser(adminDb: bool, user: Option<AuthUser>, body: SaveUserBody, writeOk: bool): (r: SaveUserOutcome)
    ensures !adminDb ==> r == SaveUserOutcome(None, FirestoreNotConfigured)
    ensures adminDb && !HasEmail(user) ==> r.write.None? && r.response.status == 400
    ensures r.write.Some? <==> adminDb && HasEmail(user)
    ensures r.write.Some? ==>
      var key := Text.ToLower(user.value.email.value);
      r.write.value.docId == key && r.write.value.merge &&
      r.write.value.profile.uid == key && r.write.value.profile.email == key &&
      (Truthy(body.displayName) ==> r.write.value.profile.displayName == body.displayName) &&
      (!Truthy(body.displayName) ==> r.write.value.profile.displayName == Null) &&
      (user.value.uid != "" ==> r.write.value.profile.authUid == Str(user.value.uid)) &&
      (user.value.uid == "" ==> r.write.value.profile.authUid == Null) &&
      (Truthy(body.phoneNumber) ==> r.write.value.profile.phoneNumber == body.phoneNumber) &&
      (!Truthy(body.phoneNumber) ==> r.write.value.profile.phoneNumber == Null)
    ensures r.write.Some? ==> (r.response.status == 200 <==> writeOk) && (!writeOk ==> r.response.status == 500)
  {
    if !adminDb then
      SaveUserOutcome(None, FirestoreNotConfigured)
    else if !HasEmail(user) then
      SaveUserOutcome(None, Response(400, Message(Some(false), "Authenticated email not available on token.", None)))
    else
      var emailKey := Text.ToLower(user.value.email.value);
      var profile := UserProfile(
        emailKey,
        OrElse(Str(user.value.uid), Null),
        emailKey,
        OrElse(body.displayName, Null),
        OrElse(body.phoneNumber, Null));
      var response :=
        if writeOk then Response(200, Message(Some(true), "User saved.", None))
        else Response(500, Message(Some(false), "Failed to save user.", None));
      SaveUserOutcome(Some(UserWrite(emailKey, profile, true)), response)
  }

  // ---------------------------------------------------------------------------
  // /save-order-data

  datatype SaveOrderBody = SaveOrderBody(
    orderId: JsValue, items: JsValue, paymentStatus: JsValue, paymentAmount: JsValue, paymentCurrency: JsValue)

  /** The order document; `paymentAmount == None` is the stored `null`. The server timestamp is not modelled. */
  datatype OrderRecord = OrderRecord(
    userId: string, items: JsValue, paymentStatus: JsValue, paymentAmount: Option<int>, paymentCurrency: JsValue)

  datatype OrderWrite = OrderWrite(docId: JsValue, record: OrderRecord)

  datatype SaveOrderOutcome = SaveOrderOutcome(write: Option<OrderWrite>, response: Response)

  const MissingOrderData := Response(400, Message(None, "Missing required order data.", None))
  const MissingEmail := Response(400, Message(None, "Authenticated email not available on token.", None))

  /** `typeof paymentAmount === 'number' ? paymentAmount : null` */
  function AmountOrNull(v: JsValue): (r: Option<int>)
    ensures r.Some? <==> v.Num?
    ensures r.Some? ==> r.value == v.n
  {
    if v.Num? then Some(v.n) else None
  }

  /** The record the handler builds for an authenticated user with an email. */
  function BuildOrderRecord(email: string, body: SaveOrderBody): (rec: OrderRecord)
    ensures rec.userId == Text.ToLower(email)
    ensures rec.items == body.items && rec.paymentStatus == body.paymentStatus
    ensures rec.paymentAmount == (if body.paymentAmount.Num? then Some(body.paymentAmount.n) else None)
    ensures rec.paymentCurrency == (if Truthy(body.paymentCurrency) then body.paymentCurrency else Str("INR"))
  {
    OrderRecord(
      Text.ToLower(email),
      body.items,
      body.paymentStatus,
      AmountOrNull(body.paymentAmount),
      OrElse(body.paymentCurrency, Str("INR")))
  }

  /** `POST /save-order-data` after `requireAuth`. */
  function SaveOrderData(adminDb: bool, body: SaveOrderBody, user: Option<AuthUser>, writeOk: bool): (r: SaveOrderOutcome)
    ensures !adminDb ==> r == SaveOrderOutcome(None, FirestoreNotConfigured)
    ensures adminDb && !(Truthy(body.orderId) && Truthy(body.items) && Truthy(body.paymentStatus)) ==>
      r == SaveOrderOutcome(None, MissingOrderData)
    ensures adminDb && Truthy(body.orderId) && Truthy(body.items) && Truthy(body.paymentStatus) && !HasEmail(user) ==>
      r == SaveOrderOutcome(None, MissingEmail)
    ensures r.write.Some? <==>
      adminDb && Truthy(body.orderId) && Truthy(body.items) && Truthy(body.paymentStatus) && HasEmail(user)
    ensures r.write.Some? ==>
      r.write.value == OrderWrite(body.orderId, BuildOrderRecord(user.value.email.value, body))
    ensures r.write.Some? ==> (r.response.status == 200 <==> writeOk) && (!writeOk ==> r.response.status == 500)
  {
    if !adminDb then
      SaveOrderOutcome(None, FirestoreNotConfigured)
    else if !Truthy(body.orderId) || !Truthy(body.items) || !Truthy(body.paymentStatus) then
      SaveOrderOutcome(None, MissingOrderData)
    else if !HasEmail(user) then
      SaveOrderOutcome(None, MissingEmail)
    else
      var response :=
        if writeOk then Response(200, Message(Some(true), "Order data saved successfully.", None))
        else Response(500, Message(Some(false), "Failed to save order data.", None));
      SaveOrderOutcome(Some(OrderWrite(body.orderId, BuildOrderRecord(user.value.email.value, body))), response)
  }

  /** Two e-mail spellings that differ only in ASCII case own the same orders. */
  lemma OrderOwnerIgnoresCase(e1: string, e2: string, body: SaveOrderBody)
    requires Text.ToLower(e1) == Text.ToLower(e2)
    ensures BuildOrderRecord(e1, body) == BuildOrderRecord(e2, body)
  {
  }

  // ---------------------------------------------------------------------------
  // /verify-signature

  datatype VerifyBody = VerifyBody(orderId: Option<string>, paymentId: Option<string>, signature: Option<string>)

  const MissingVerificationData := Response(400, Message(Some(false), "Missing required verification data.", None))
  const PaymentVerified := Response(200, Message(Some(true), "Payment has been verified", None))
  const InvalidSignature := Response(400, Message(Some(false), "Invalid signature", None))

  /** The message the client-side confirmation is signed over. */
  function ConfirmationPayload(orderId: string, paymentId: string): string {
    orderId + "|" + paymentId
  }

  /** Ids without a '|' are recovered from their payload, so one signature never covers two claims. */
  lemma ConfirmationPayloadInjective(o1: string, p1: string, o2: string, p2: string)
    requires '|' !in o1 && '|' !in p1 && '|' !in o2 && '|' !in p2
    requires ConfirmationPayload(o1, p1) == ConfirmationPayload(o2, p2)
    ensures o1 == o2 && p1 == p2
  {
    Text.SplitTwo(o1, p1, '|');
    Text.SplitTwo(o2, p2, '|');
    assert ConfirmationPayload(o1, p1) == o1 + ['|'] + p1;
    assert ConfirmationPayload(o2, p2) == o2 + ['|'] + p2;
  }

  predicate VerificationInputsPresent(keySecret: Option<string>, body: VerifyBody) {
    Present(body.orderId) && Present(body.paymentId) && Present(body.signature) && Present(keySecret)
  }

  /**
   * `POST /verify-signature`. `hmacSha256Hex(key, message)` is the lowercase hex
   * HMAC-SHA256 (RFC 2104 over FIPS 180-4) digest.
   */
  function VerifySignature(keySecret: Option<string>, body: VerifyBody, hmacSha256Hex: (string, string) -> string)
    : (r: Response)
    ensures !VerificationInputsPresent(keySecret, body) ==> r == MissingVerificationData
    ensures VerificationInputsPresent(keySecret, body) ==>
      (r == PaymentVerified <==>
        hmacSha256Hex(keySecret.value, ConfirmationPayload(body.orderId.value, body.paymentId.value)) == body.signature.value)
    ensures VerificationInputsPresent(keySecret, body) && r != PaymentVerified ==> r == InvalidSignature
    ensures r.status == 200 <==> r == PaymentVerified
  {
    if !VerificationInputsPresent(keySecret, body) then
      MissingVerificationData
    else
      var generated := hmacSha256Hex(keySecret.value, body.orderId.value + "|" + body.paymentId.value);
      if generated == body.signature.value then PaymentVerified else InvalidSignature
  }

  /** A claim signed with the configured key secret is accepted. */
  lemma GenuineClaimVerifies(secret: string, orderId: string, paymentId: string, hmacSha256Hex: (string, string) -> string)
    requires secret != "" && orderId != "" && paymentId != ""
    requires hmacSha256Hex(secret, ConfirmationPayload(orderId, paymentId)) != ""
    ensures VerifySignature(Some(secret),
      VerifyBody(Some(orderId), Some(paymentId), Some(hmacSha256Hex(secret, ConfirmationPayload(orderId, paymentId)))),
      hmacSha256Hex) == PaymentVerified
  {
  }

  /** Any other signature for the same claim is refused as invalid. */
  lemma TamperedClaimRejected(secret: string, orderId: string, paymentId: string, signature: string,
                              hmacSha256Hex: (string, string) -> string)
    requires secret != "" && orderId != "" && paymentId != "" && signature != ""
    requires signature != hmacSha256Hex(secret, ConfirmationPayload(orderId, paymentId))
    ensures VerifySignature(Some(secret), VerifyBody(Some(orderId), Some(paymentId), Some(signature)), hmacSha256Hex)
      == InvalidSignature
  {
  }

  // ---------------------------------------------------------------------------
  // /api/razorpay-webhook

  datatype PaymentEntity = PaymentEntity(id: JsValue, orderId: JsValue, amount: JsValue)

  /**
   * What `req.body.payload.payment` turns out to be: missing (either
   * `payload` or `payment` is undefined or null), or an object whose `entity`
   * may itself be missing.
   */
  datatype PaymentLookup = NoPaymentObject | PaymentObject(entity: Option<PaymentEntity>)

  /**
   * The facts of one webhook delivery. `serializedBody` is `JSON.stringify(req.body)`,
   * the text the digest is taken over.
   */
  datatype WebhookRequest = WebhookRequest(
    serializedBody: string, signatureHeader: Option<string>, event: JsValue, payment: PaymentLookup)

  /** What the handler does with a verified event: it only logs it. */
  datatype Dispatch = CapturedLogged(payment: PaymentEntity) | FailedLogged(payment: PaymentEntity) | Ignored

  datatype WebhookOutcome = WebhookOutcome(dispatch: Dispatch, response: Response)

  const WebhookSecretMissing := Response(500, Plain("Webhook secret not configured."))
  const WebhookProcessed := Response(200, Plain("Webhook received and processed."))
  const WebhookBadSignature := Response(403, Plain("Invalid signature"))
  const UncaughtTypeError := Response(500, DefaultErrorPage)

  const CapturedEvent := Str("payment.captured")
  const FailedEvent := Str("payment.failed")

  predicate WebhookVerified(secret: string, req: WebhookRequest, hmacSha256Hex: (string, string) -> string) {
    req.signatureHeader == Some(hmacSha256Hex(secret, req.serializedBody))
  }

  /**
   * The handler as written: `req.body.payload.payment.entity` is read without a
   * guard, and `payment.id` too in the two logged branches, so a verified body
   * lacking them throws a TypeError that Express answers with 500.
   */
  function WebhookAsWritten(webhookSecret: Option<string>, req: WebhookRequest, hmacSha256Hex: (string, string) -> string)
    : (r: WebhookOutcome)
    ensures !Present(webhookSecret) ==> r == WebhookOutcome(Ignored, WebhookSecretMissing)
    ensures Present(webhookSecret) && !WebhookVerified(webhookSecret.value, req, hmacSha256Hex) ==>
      r == WebhookOutcome(Ignored, WebhookBadSignature)
  {
    if !Present(webhookSecret) then
      WebhookOutcome(Ignored, WebhookSecretMissing)
    else if req.signatureHeader != Some(hmacSha256Hex(webhookSecret.value, req.serializedBody)) then
      WebhookOutcome(Ignored, WebhookBadSignature)
    else
      match req.payment
      case NoPaymentObject => WebhookOutcome(Ignored, UncaughtTypeError)
      case PaymentObject(entity) =>
        if req.event == CapturedEvent || req.event == FailedEvent then
          if entity.None? then WebhookOutcome(Ignored, UncaughtTypeError)
          else if req.event == CapturedEvent then WebhookOutcome(CapturedLogged(entity.value), WebhookProcessed)
          else WebhookOutcome(FailedLogged(entity.value), WebhookProcessed)
        else
          WebhookOutcome(Ignored, WebhookProcessed)
  }

  /** As written, a verified event whose body has no `payload.payment` is answered with 500, not acknowledged. */
  lemma WebhookAsWrittenFailsWithoutPayment(secret: string, req: WebhookRequest, hmacSha256Hex: (string, string) -> string)
    requires secret != "" && WebhookVerified(secret, req, hmacSha256Hex)
    requires req.payment == NoPaymentObject
    ensures WebhookAsWritten(Some(secret), req, hmacSha256Hex).response == UncaughtTypeError
  {
  }

  /** The payment entity of a body, read with the guards the handler evidently intends. */
  function EntityOf(payment: PaymentLookup): Option<PaymentEntity> {
    match payment
    case NoPaymentObject => None
    case PaymentObject(entity) => entity
  }

  /**
   * The webhook handler with the payment entity read defensively: every
   * verified event is acknowledged, and the two payment events are logged
   * when they carry an entity.
   */
  function Webhook(webhookSecret: Option<string>, req: WebhookRequest, hmacSha256Hex: (string, string) -> string)
    : (r: WebhookOutcome)
    ensures !Present(webhookSecret) ==> r == WebhookOutcome(Ignored, WebhookSecretMissing)
    ensures Present(webhookSecret) ==>
      (r.response == WebhookProcessed <==> WebhookVerified(webhookSecret.value, req, hmacSha256Hex))
    ensures Present(webhookSecret) && !WebhookVerified(webhookSecret.value, req, hmacSha256Hex) ==>
      r == WebhookOutcome(Ignored, WebhookBadSignature)
    ensures r.dispatch.CapturedLogged? ==> req.event == CapturedEvent && EntityOf(req.payment) == Some(r.dispatch.payment)
    ensures r.dispatch.FailedLogged? ==> req.event == FailedEvent && EntityOf(req.payment) == Some(r.dispatch.payment)
    ensures r.response == WebhookProcessed && req.event == CapturedEvent && EntityOf(req.payment).Some? ==>
      r.dispatch == CapturedLogged(EntityOf(req.payment).value)
    ensures r.response == WebhookProcessed && req.event == FailedEvent && EntityOf(req.payment).Some? ==>
      r.dispatch == FailedLogged(EntityOf(req.payment).value)
  {
    if !Present(webhookSecret) then
      WebhookOutcome(Ignored, WebhookSecretMissing)
    else if req.signatureHeader != Some(hmacSha256Hex(webhookSecret.value, req.serializedBody)) then
      WebhookOutcome(Ignored, WebhookBadSignature)
    else
      var entity := EntityOf(req.payment);
      if req.event == CapturedEvent && entity.Some? then WebhookOutcome(CapturedLogged(entity.value), WebhookProcessed)
      else if req.event == FailedEvent && entity.Some? then WebhookOutcome(FailedLogged(entity.value), WebhookProcessed)
      else WebhookOutcome(Ignored, WebhookProcessed)
  }

  /** An unset secret is reported before any digest is taken: the digest function does not matter. */
  lemma WebhookSecretCheckedFirst(req: WebhookRequest, h1: (string, string) -> string, h2: (string, string) -> string)
    ensures Webhook(None, req, h1) == Webhook(None, req, h2) == WebhookOutcome(Ignored, WebhookSecretMissing)
    ensures Webhook(Some(""), req, h1) == Webhook(Some(""), req, h2)
  {
  }

  /** The corrected handler agrees with the code as written on every body that carries a payment entity. */
  lemma WebhookAgreesWhenEntityPresent(secret: Option<string>, req: WebhookRequest, hmacSha256Hex: (string, string) -> string)
    requires req.payment.PaymentObject? && req.payment.entity.Some?
    ensures Webhook(secret, req, hmacSha256Hex) == WebhookAsWritten(secret, req, hmacSha256Hex)
  {
  }
}
