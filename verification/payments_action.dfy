/** `checkout`: the server action that opens a pending order for a credit
    pack and asks the payment gateway for a hosted checkout page. The order
    is written before the gateway is called and is not rolled back. */
module PaymentsAction {
  import opened Wrappers
  import opened Db
  import opened Outcomes
  import Utils
  import Schemas

  const INVALID_FORM := "Invalid form data"
  const UNAUTHORIZED := "Unauthorized"
  const SESSION_FAILED := "Failed to create session"
  /** The cancel reason recorded when the gateway returns no page URL. */
  const CANCELED_BY_GATEWAY := "Stripe API"

  /** The three price ids configured in the environment, each possibly unset. */
  datatype PriceIds = PriceIds(basic: Option<string>, medium: Option<string>, pro: Option<string>)

  /** `getPriceIDFromPlan`: the configured price of a plan; a value outside
      the enumeration gets the BASIC price. */
  function PriceIdFromPlan(plan: string, prices: PriceIds): (price: Option<string>)
    ensures plan == PlanName(BASIC) ==> price == prices.basic
    ensures plan == PlanName(MEDIUM) ==> price == prices.medium
    ensures plan == PlanName(PRO) ==> price == prices.pro
    ensures (forall p: Plan :: PlanName(p) != plan) ==> price == prices.basic
  {
    if plan == "BASIC" then prices.basic
    else if plan == "MEDIUM" then assert PlanName(MEDIUM) == plan; prices.medium
    else if plan == "PRO" then assert PlanName(PRO) == plan; prices.pro
    else prices.basic
  }

  /** Each plan reads its own price key, so distinct configured prices give
      distinct prices to distinct plans. */
  lemma PriceIdsSeparatePlans(p: Plan, q: Plan, prices: PriceIds)
    requires prices.basic != prices.medium && prices.medium != prices.pro && prices.basic != prices.pro
    ensures PriceIdFromPlan(PlanName(p), prices) == PriceIdFromPlan(PlanName(q), prices) <==> p == q
  {
  }

  /** What the gateway's session creation produced: it threw, or it created
      a session with an optional page URL. */
  datatype Gateway = GatewayThrows | SessionCreated(url: Option<string>)

  /** The checkout-session request sent to the gateway. */
  datatype SessionRequest = SessionRequest(
    successUrl: string,
    cancelUrl: string,
    price: Option<string>,
    customer: Option<string>,
    orderId: OrderId,
    plan: string)

  /** `Redirected` is the `redirect` to the hosted page that ends a
      successful call; `CheckoutThrew` is a call whose promise rejects. */
  datatype CheckoutResult = Redirected(url: string) | CheckoutFailed(message: string) | CheckoutThrew

  /** The new database snapshot, the result, and the request sent to the
      gateway, if any. */
  datatype CheckoutOutcome = CheckoutOutcome(store: Store, result: CheckoutResult, sent: Option<SessionRequest>)

  /** `newOrderId` is the id the database assigns to a created order;
      `nodeEnv` is `NODE_ENV`; `now` is the clock. */
  datatype CheckoutEnv = CheckoutEnv(
    auth: Auth,
    newOrderId: OrderId,
    gateway: Gateway,
    prices: PriceIds,
    nodeEnv: Option<string>,
    now: int)

  function Checkout(st: Store, form: Schemas.CheckoutForm, env: CheckoutEnv): (r: CheckoutOutcome)
    requires env.newOrderId !in st.orders
    // checkout never touches balances or artifacts
    ensures r.store.users == st.users && r.store.images == st.images && r.store.speeches == st.speeches
    // no request to the gateway, no order
    ensures r.sent.None? ==> r.store == st
    ensures Schemas.ParseCheckout(form).None? ==> r == CheckoutOutcome(st, CheckoutFailed(INVALID_FORM), None)
    ensures Schemas.ParseCheckout(form).Some? && env.auth.Anonymous?
            ==> r == CheckoutOutcome(st, CheckoutFailed(UNAUTHORIZED), None)
    ensures Schemas.ParseCheckout(form).Some? && env.auth.AuthThrows?
            ==> r == CheckoutOutcome(st, CheckoutThrew, None)
    ensures Schemas.ParseCheckout(form).Some? && env.auth.SignedIn? && env.auth.userId !in st.users
            ==> r == CheckoutOutcome(st, CheckoutThrew, None)
    // a valid form from a signed-in existing user always opens an order and
    // sends the request
    ensures Schemas.ParseCheckout(form).Some? && env.auth.SignedIn? && env.auth.userId in st.users
            ==> r.sent.Some?
    // a request means exactly one new order, for the caller and the chosen plan
    ensures r.sent.Some? ==>
              && env.auth.SignedIn? && env.auth.userId in st.users
              && Schemas.ParseCheckout(form).Some?
              && r.store.orders.Keys == st.orders.Keys + {env.newOrderId}
              && (forall o :: o in st.orders ==> r.store.orders[o] == st.orders[o])
              && r.store.orders[env.newOrderId].userId == env.auth.userId
              && r.store.orders[env.newOrderId].plan == Schemas.ParseCheckout(form).value
              && !r.store.orders[env.newOrderId].paid
    // the request carries the order's id and plan in its metadata
    ensures r.sent.Some? ==>
              && r.sent.value.orderId == env.newOrderId
              && form.plan == Some(r.sent.value.plan)
              && r.sent.value.price == PriceIdFromPlan(r.sent.value.plan, env.prices)
              && r.sent.value.customer == st.users[env.auth.userId].stripeCustomerId
              && r.sent.value.successUrl == Utils.BaseUrl(env.nodeEnv) + "/"
              && r.sent.value.cancelUrl == Utils.BaseUrl(env.nodeEnv) + "/billing"
    // a session with a page URL redirects there, and only such a session does
    ensures r.sent.Some? && env.gateway.SessionCreated? && Truthy(env.gateway.url)
            ==> r.result == Redirected(env.gateway.url.value)
    // a redirect leaves the order pending
    ensures r.result.Redirected? ==>
              && r.sent.Some?
              && env.gateway == SessionCreated(Some(r.result.url))
              && r.store.orders[env.newOrderId] == PendingOrder(env.auth.userId, Schemas.ParseCheckout(form).value)
    // no page URL: the order is canceled by the gateway reason
    ensures r.sent.Some? && env.gateway.SessionCreated? && !Truthy(env.gateway.url) ==>
              && r.result == CheckoutFailed(SESSION_FAILED)
              && r.store.orders[env.newOrderId]
                 == PendingOrder(env.auth.userId, Schemas.ParseCheckout(form).value)
                      .(canceled := true, canceledAt := Some(env.now), canceledBy := Some(CANCELED_BY_GATEWAY))
    // a throwing gateway leaves the pending order behind
    ensures r.sent.Some? && env.gateway.GatewayThrows? ==>
              && r.result == CheckoutThrew
              && r.store.orders[env.newOrderId] == PendingOrder(env.auth.userId, Schemas.ParseCheckout(form).value)
  {
    var parsed := Schemas.ParseCheckout(form);
    if parsed.None? then CheckoutOutcome(st, CheckoutFailed(INVALID_FORM), None)
    else
      match env.auth
      case AuthThrows => CheckoutOutcome(st, CheckoutThrew, None)
      case Anonymous => CheckoutOutcome(st, CheckoutFailed(UNAUTHORIZED), None)
      case SignedIn(id) =>
        // connecting the order to a missing user throws
        if id !in st.users then CheckoutOutcome(st, CheckoutThrew, None)
        else
          var plan := parsed.value;
          var order := PendingOrder(id, plan);
          var created := st.(orders := st.orders[env.newOrderId := order]);
          var base := Utils.BaseUrl(env.nodeEnv);
          var request := SessionRequest(base + "/", base + "/billing",
                                        PriceIdFromPlan(PlanName(plan), env.prices),
                                        st.users[id].stripeCustomerId, env.newOrderId, PlanName(plan));
          match env.gateway
          case GatewayThrows => CheckoutOutcome(created, CheckoutThrew, Some(request))
          case SessionCreated(url) =>
            if !Truthy(url) then
              var canceled := order.(canceled := true, canceledAt := Some(env.now),
                                     canceledBy := Some(CANCELED_BY_GATEWAY));
              CheckoutOutcome(st.(orders := st.orders[env.newOrderId := canceled]),
                              CheckoutFailed(SESSION_FAILED), Some(request))
            else
              CheckoutOutcome(created, Redirected(url.value), Some(request))
  }
}
