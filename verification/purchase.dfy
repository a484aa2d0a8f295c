/** A purchase end to end: the checkout action opens an order and the
    gateway later reports the payment of that same session to the webhook. */
module Purchase {
  import opened Wrappers
  import opened Db
  import Utils
  import Schemas
  import PaymentsAction
  import Webhook

  /** The completed-payment event the gateway sends for the session that
      `request` created, paid by `customer`. */
  function PaymentOf(request: PaymentsAction.SessionRequest, customer: Option<string>): (v: Webhook.Verification)
    ensures v.Verified? && v.event.kind == Webhook.COMPLETED && v.event.session.Some?
    ensures v.event.session.value.orderId == Some(request.orderId)
    ensures v.event.session.value.plan == Some(request.plan)
  {
    Webhook.Verified(Webhook.Event(Webhook.COMPLETED,
      Some(Webhook.CheckoutSession(Some(request.orderId), Some(request.plan), customer))))
  }

  /** A valid checkout by a signed-in customer whose gateway session has a
      page URL redirects the user there; the payment of that session then
      leaves the order paid and credits the buyer with the pack of the plan
      chosen in the form. */
  lemma PaidCheckoutCreditsBuyer(st: Store, form: Schemas.CheckoutForm, env: PaymentsAction.CheckoutEnv, now: int)
    requires Wellformed(st)
    requires env.newOrderId !in st.orders && env.newOrderId != ""
    requires Schemas.ParseCheckout(form).Some?
    requires env.auth.SignedIn? && env.auth.userId in st.users && Truthy(st.users[env.auth.userId].stripeCustomerId)
    requires env.gateway.SessionCreated? && Truthy(env.gateway.url)
    ensures var c := PaymentsAction.Checkout(st, form, env);
            && c.result == PaymentsAction.Redirected(env.gateway.url.value)
            && c.sent.Some?
            && var paid := Webhook.Post(c.store, PaymentOf(c.sent.value, c.sent.value.customer), true, now);
            && paid.reply == Webhook.Reply(200, Webhook.OK)
            && paid.store.orders[env.newOrderId].paid
            && paid.store.orders[env.newOrderId].plan == Schemas.ParseCheckout(form).value
            && paid.store.users[env.auth.userId].credits
               == st.users[env.auth.userId].credits + Utils.CreditsFromPlan(PlanName(Schemas.ParseCheckout(form).value))
            && Utils.CreditsFromPlan(PlanName(Schemas.ParseCheckout(form).value)) > 0
  {
    var c := PaymentsAction.Checkout(st, form, env);
    var id := env.auth.userId;
    var plan := Schemas.ParseCheckout(form).value;
    assert PlanName(plan) != "" by { match plan case BASIC => case MEDIUM => case PRO => }
    assert c.store.users == st.users;
    assert FindByCustomer(c.store.users, st.users[id].stripeCustomerId.value) == Some(id);
  }
}
