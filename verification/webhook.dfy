/** The payment webhook `POST`: verifies the gateway's signature, then
    applies a checkout-session event to an order and, for a completed
    payment, to the paying user's balance. The handler keeps no record of
    deliveries already applied and reads no paid/canceled flag before
    writing, so a repeated delivery is applied again. */
module Webhook {
  import opened Wrappers
  import opened Db
  import Utils

  const EXPIRED := "checkout.session.expired"
  const COMPLETED := "checkout.session.completed"

  const WEBHOOK_ERROR_PREFIX := "Webhook error: "
  const BAD_SESSION := "There is something wrong with session object. "
  const BAD_METADATA := "There is something wrong with orderId. "
  /** The body of a 500 reply starts with this; the library's error text
      that follows it is not modelled. */
  const DATABASE_ERROR := "Database error: "
  const USER_NOT_FOUND := "User not found"
  const OK := "ok"

  /** The event's checkout session: its metadata and its customer. */
  datatype CheckoutSession = CheckoutSession(orderId: Option<string>, plan: Option<string>, customer: Option<string>)

  /** An event: its type and its `data.object`, which may be null. */
  datatype Event = Event(kind: string, session: Option<CheckoutSession>)

  /** What signature verification of the raw body produced: the parsed
      event, or the error it threw. */
  datatype Verification = Verified(event: Event) | Rejected(err: string)

  /** An HTTP reply, or an exception that escapes the handler. */
  datatype Reply = Reply(status: nat, body: string) | Threw

  datatype WebhookOutcome = WebhookOutcome(store: Store, reply: Reply)

  /** The session of a verified event of type `kind`, if it carries one. */
  function SessionOf(delivery: Verification, kind: string): (s: Option<CheckoutSession>)
    ensures s.Some? ==> delivery.Verified? && delivery.event.kind == kind
  {
    if delivery.Verified? && delivery.event.kind == kind then delivery.event.session else None
  }

  /** The completed-payment branch needs a non-empty order id, plan and customer. */
  predicate CompleteMetadata(s: CheckoutSession) {
    Truthy(s.orderId) && Truthy(s.plan) && Truthy(s.customer)
  }

  /** The order a delivery names in its metadata, if any. */
  function TargetOrder(delivery: Verification): (o: Option<OrderId>)
    ensures o.Some? ==> delivery.Verified? && delivery.event.session.Some?
  {
    if delivery.Verified? && delivery.event.session.Some? then delivery.event.session.value.orderId else None
  }

  /** The credits a completed-payment session grants to user `u`: when its
      metadata is complete, its order exists and its customer is `u`'s
      billing reference, the credits of the plan named in the metadata.
      The order's own plan and owner play no part. */
  function SessionGrant(st: Store, s: CheckoutSession, u: UserId): nat {
    if CompleteMetadata(s) && s.orderId.value in st.orders
       && u in st.users && st.users[u].stripeCustomerId == s.customer
    then Utils.CreditsFromPlan(s.plan.value)
    else 0
  }

  /** The credits a delivery grants to user `u`: only a completed-payment
      event grants anything. */
  function Grant(st: Store, delivery: Verification, u: UserId): nat {
    match SessionOf(delivery, COMPLETED)
    case Some(s) => SessionGrant(st, s, u)
    case None => 0
  }

  /** `after` holds the orders of `before`; only `target` may differ, it
      keeps its owner and plan, and no paid or canceled flag is cleared. */
  predicate OrdersKept(before: map<OrderId, Order>, after: map<OrderId, Order>, target: Option<OrderId>) {
    && after.Keys == before.Keys
    && (forall o :: o in before && target != Some(o) ==> after[o] == before[o])
    && (forall o :: o in before ==>
          && after[o].userId == before[o].userId
          && after[o].plan == before[o].plan
          && (before[o].paid ==> after[o].paid)
          && (before[o].canceled ==> after[o].canceled))
  }

  /** An expired checkout session: the order it names is canceled. */
  function Expire(st: Store, session: CheckoutSession, now: int): (r: WebhookOutcome)
    ensures r.store.users == st.users && r.store.images == st.images && r.store.speeches == st.speeches
    ensures OrdersKept(st.orders, r.store.orders, session.orderId)
    ensures !Truthy(session.orderId) ==> r == WebhookOutcome(st, Reply(400, BAD_METADATA))
    ensures Truthy(session.orderId) && session.orderId.value !in st.orders
            ==> r == WebhookOutcome(st, Reply(500, DATABASE_ERROR))
    ensures Truthy(session.orderId) && session.orderId.value in st.orders ==>
              && r.reply == Reply(200, OK)
              && r.store.orders == st.orders[session.orderId.value :=
                   st.orders[session.orderId.value].(canceled := true, canceledAt := Some(now))]
  {
    var orderId := session.orderId;
    if !Truthy(orderId) then WebhookOutcome(st, Reply(400, BAD_METADATA))
    // updating a missing order throws; the handler catches it
    else if orderId.value !in st.orders then WebhookOutcome(st, Reply(500, DATABASE_ERROR))
    else
      var o := orderId.value;
      var canceled := st.orders[o].(canceled := true, canceledAt := Some(now));
      WebhookOutcome(st.(orders := st.orders[o := canceled]), Reply(200, OK))
  }

  /** A completed payment: the order it names is paid and the user owning
      the session's customer is credited with the plan in the metadata. */
  function Complete(st: Store, session: CheckoutSession, mailSent: bool, now: int): (r: WebhookOutcome)
    requires CustomerIdsUnique(st.users)
    ensures CustomerIdsUnique(r.store.users)
    ensures CreditsNonNegative(st.users) ==> CreditsNonNegative(r.store.users)
    ensures r.store.images == st.images && r.store.speeches == st.speeches
    ensures SameAccounts(st.users, r.store.users)
    ensures forall u :: u in st.users ==>
              r.store.users[u].credits == st.users[u].credits + SessionGrant(st, session, u)
    ensures OrdersKept(st.orders, r.store.orders, session.orderId)
    ensures !CompleteMetadata(session) ==> r == WebhookOutcome(st, Reply(400, BAD_METADATA))
    ensures CompleteMetadata(session) && FindByCustomer(st.users, session.customer.value).None? ==>
              && r.store.users == st.users
              && (session.orderId.value !in st.orders ==> r == WebhookOutcome(st, Threw))
              && (session.orderId.value in st.orders ==>
                    && r.reply == Reply(404, USER_NOT_FOUND)
                    && r.store.orders == st.orders[session.orderId.value :=
                         st.orders[session.orderId.value].(canceled := true, canceledAt := Some(now),
                                                           canceledBy := Some(USER_NOT_FOUND))])
    ensures CompleteMetadata(session) && FindByCustomer(st.users, session.customer.value).Some? ==>
              && (session.orderId.value !in st.orders ==> r == WebhookOutcome(st, Reply(500, DATABASE_ERROR)))
              && (session.orderId.value in st.orders ==>
                    && r.reply == (if mailSent then Reply(200, OK) else Reply(500, DATABASE_ERROR))
                    && r.store.orders == st.orders[session.orderId.value :=
                         st.orders[session.orderId.value].(paid := true, paidAt := Some(now))])
  {
    if !CompleteMetadata(session) then WebhookOutcome(st, Reply(400, BAD_METADATA))
    else
      var o := session.orderId.value;
      var plan := session.plan.value;
      match FindByCustomer(st.users, session.customer.value)
      case None =>
        // this update is outside any handler: a missing order escapes
        if o !in st.orders then WebhookOutcome(st, Threw)
        else
          var canceled := st.orders[o].(canceled := true, canceledAt := Some(now),
                                        canceledBy := Some(USER_NOT_FOUND));
          WebhookOutcome(st.(orders := st.orders[o := canceled]), Reply(404, USER_NOT_FOUND))
      case Some(u) =>
        if o !in st.orders then WebhookOutcome(st, Reply(500, DATABASE_ERROR))
        else
          var paid := st.orders[o].(paid := true, paidAt := Some(now));
          var st' := st.(orders := st.orders[o := paid],
                         users := AdjustCredits(st.users, u, Utils.CreditsFromPlan(plan)));
          // revalidation or the receipt e-mail fails after both writes; they stay
          WebhookOutcome(st', if mailSent then Reply(200, OK) else Reply(500, DATABASE_ERROR))
  }

  /** One delivery against the snapshot `st`; `mailSent` is false when
      `revalidatePath` or sending the receipt throws, `now` is the clock. */
  function Post(st: Store, delivery: Verification, mailSent: bool, now: int): (r: WebhookOutcome)
    requires CustomerIdsUnique(st.users)
    ensures CustomerIdsUnique(r.store.users)
    ensures CreditsNonNegative(st.users) ==> CreditsNonNegative(r.store.users)
    // the webhook never touches artifacts or accounts, only balances
    ensures r.store.images == st.images && r.store.speeches == st.speeches
    ensures SameAccounts(st.users, r.store.users)
    ensures forall u :: u in st.users ==>
              r.store.users[u].credits == st.users[u].credits + Grant(st, delivery, u)
    // only the named order changes, and its flags are never cleared
    ensures OrdersKept(st.orders, r.store.orders, TargetOrder(delivery))
    // a bad signature or a missing session changes nothing
    ensures delivery.Rejected? ==> r == WebhookOutcome(st, Reply(400, WEBHOOK_ERROR_PREFIX + delivery.err))
    ensures r.reply.Reply? && r.reply.status == 400 ==> r.store == st
    ensures delivery.Verified? && delivery.event.session.None?
            && (delivery.event.kind == EXPIRED || delivery.event.kind == COMPLETED)
            ==> r == WebhookOutcome(st, Reply(400, BAD_SESSION))
    // other event types are acknowledged and ignored
    ensures delivery.Verified? && delivery.event.kind != EXPIRED && delivery.event.kind != COMPLETED
            ==> r == WebhookOutcome(st, Reply(200, OK))
    // the two handled event types
    ensures SessionOf(delivery, EXPIRED).Some? ==> r == Expire(st, SessionOf(delivery, EXPIRED).value, now)
    ensures SessionOf(delivery, COMPLETED).Some?
            ==> r == Complete(st, SessionOf(delivery, COMPLETED).value, mailSent, now)
  {
    match delivery
    case Rejected(err) => WebhookOutcome(st, Reply(400, WEBHOOK_ERROR_PREFIX + err))
    case Verified(event) =>
      if event.kind == EXPIRED then
        if event.session.None? then WebhookOutcome(st, Reply(400, BAD_SESSION))
        else Expire(st, event.session.value, now)
      else if event.kind == COMPLETED then
        if event.session.None? then WebhookOutcome(st, Reply(400, BAD_SESSION))
        else Complete(st, event.session.value, mailSent, now)
      else
        WebhookOutcome(st, Reply(200, OK))
  }

  /** One delivery of `delivery` as a step on stores; it is defined on
      every store whose billing references are unique. */
  function Deliver(delivery: Verification, mailSent: bool, now: int): (step: Store --> Store)
    ensures KeepsUnique(step)
  {
    (s: Store) requires CustomerIdsUnique(s.users) => Post(s, delivery, mailSent, now).store
  }

  /** `step` is defined wherever billing references are unique and keeps them so. */
  ghost predicate KeepsUnique(step: Store --> Store) {
    && (forall t: Store {:trigger step.requires(t)} :: CustomerIdsUnique(t.users) ==> step.requires(t))
    && (forall t: Store {:trigger step(t)} :: CustomerIdsUnique(t.users) ==> CustomerIdsUnique(step(t).users))
  }

  /** `step` applied `n` times. */
  function Repeat(st: Store, step: Store --> Store, n: nat): (r: Store)
    requires CustomerIdsUnique(st.users) && KeepsUnique(step)
    ensures CustomerIdsUnique(r.users)
    decreases n
  {
    if n == 0 then st else step(Repeat(st, step, n - 1))
  }

  /** `n` deliveries of the same event, one after another. */
  function Redeliver(st: Store, delivery: Verification, mailSent: bool, now: int, n: nat): (r: Store)
    requires CustomerIdsUnique(st.users)
    ensures CustomerIdsUnique(r.users)
  {
    Repeat(st, Deliver(delivery, mailSent, now), n)
  }

  /** What a delivery grants depends only on which orders exist and on the
      accounts, none of which a delivery changes. */
  lemma GrantStable(st: Store, st': Store, delivery: Verification, u: UserId)
    requires SameAccounts(st.users, st'.users) && st.orders.Keys == st'.orders.Keys
    ensures Grant(st', delivery, u) == Grant(st, delivery, u)
  {
  }

  /** `t` has `st`'s accounts and orders, unique billing references and
      the account `u`. */
  predicate LikeStart(st: Store, t: Store, u: UserId) {
    CustomerIdsUnique(t.users) && SameAccounts(st.users, t.users) && t.orders.Keys == st.orders.Keys && u in t.users
  }

  /** Going from `t` to `next` keeps the accounts and orders, adds `g` to
      `u`'s balance and leaves order `o` paid. */
  predicate PaidOnce(t: Store, next: Store, u: UserId, g: int, o: OrderId)
    requires u in t.users
  {
    && SameAccounts(t.users, next.users) && next.orders.Keys == t.orders.Keys
    && next.users[u].credits == t.users[u].credits + g
    && o in next.orders && next.orders[o].paid
  }

  /** One delivery of an event that grants `u` something in `st`, made to
      any store like `st`, credits the same grant and pays the named order. */
  lemma GrantingDelivery(st: Store, t: Store, delivery: Verification, mailSent: bool, now: int, u: UserId)
    requires LikeStart(st, t, u) && Grant(st, delivery, u) > 0
    ensures TargetOrder(delivery).Some?
    ensures PaidOnce(t, Post(t, delivery, mailSent, now).store, u, Grant(st, delivery, u), TargetOrder(delivery).value)
  {
    GrantStable(st, t, delivery, u);
    var s := SessionOf(delivery, COMPLETED).value;
    assert FindByCustomer(t.users, s.customer.value).Some?;
  }

  /** `step` pays `u` the grant `g` and pays order `o` from every store like `st`. */
  ghost predicate PaysEveryTime(st: Store, step: Store --> Store, u: UserId, g: int, o: OrderId)
    requires KeepsUnique(step)
  {
    forall t: Store {:trigger step(t)} :: LikeStart(st, t, u) ==> PaidOnce(t, step(t), u, g, o)
  }

  /** A step that pays every time adds `n * g` over `n` applications, and
      after at least one the order is paid. */
  lemma {:induction false} RepeatPays(st: Store, step: Store --> Store, n: nat, u: UserId, g: int, o: OrderId)
    requires CustomerIdsUnique(st.users) && KeepsUnique(step) && u in st.users
    requires PaysEveryTime(st, step, u, g, o)
    ensures LikeStart(st, Repeat(st, step, n), u)
    ensures Repeat(st, step, n).users[u].credits == st.users[u].credits + n * g
    ensures n > 0 ==> o in Repeat(st, step, n).orders && Repeat(st, step, n).orders[o].paid
    decreases n
  {
    if n > 0 {
      RepeatPays(st, step, n - 1, u, g, o);
      var t := Repeat(st, step, n - 1);
      assert Repeat(st, step, n) == step(t);
      assert PaidOnce(t, step(t), u, g, o);
      OneMoreGrant(st.users[u].credits, t.users[u].credits, step(t).users[u].credits, g, n);
    }
  }

  /** Arithmetic step of the induction above. */
  lemma OneMoreGrant(c0: int, c1: int, c2: int, g: int, n: nat)
    requires n > 0 && c1 == c0 + (n - 1) * g && c2 == c1 + g
    ensures c2 == c0 + n * g
  {
  }

  /** Every delivery of a granting event, from any store like the first,
      adds the same grant and pays the named order. */
  lemma DeliveryPaysEveryTime(st: Store, delivery: Verification, mailSent: bool, now: int, u: UserId)
    requires Grant(st, delivery, u) > 0
    ensures TargetOrder(delivery).Some?
    ensures PaysEveryTime(st, Deliver(delivery, mailSent, now), u, Grant(st, delivery, u), TargetOrder(delivery).value)
  {
    var step := Deliver(delivery, mailSent, now);
    var g := Grant(st, delivery, u);
    forall t: Store {:trigger step(t)} | LikeStart(st, t, u)
      ensures PaidOnce(t, step(t), u, g, TargetOrder(delivery).value)
    {
      GrantingDelivery(st, t, delivery, mailSent, now, u);
    }
  }

  /** No replay guard: each of `n` deliveries of the same completed-payment
      event credits the paying user again, and from the first on the order
      it names is paid. */
  lemma RedeliveryCreditsEveryTime(st: Store, delivery: Verification, mailSent: bool, now: int, n: nat, u: UserId)
    requires CustomerIdsUnique(st.users)
    requires u in st.users && Grant(st, delivery, u) > 0
    ensures u in Redeliver(st, delivery, mailSent, now, n).users
    ensures Redeliver(st, delivery, mailSent, now, n).users[u].credits
            == st.users[u].credits + n * Grant(st, delivery, u)
    ensures TargetOrder(delivery).Some?
    ensures n > 0 ==> && TargetOrder(delivery).value in Redeliver(st, delivery, mailSent, now, n).orders
                      && Redeliver(st, delivery, mailSent, now, n).orders[TargetOrder(delivery).value].paid
  {
    DeliveryPaysEveryTime(st, delivery, mailSent, now, u);
    RepeatPays(st, Deliver(delivery, mailSent, now), n, u, Grant(st, delivery, u), TargetOrder(delivery).value);
  }

  /** Delivering the same completed-payment event twice credits the plan twice. */
  lemma DuplicateDeliveryCreditsTwice(st: Store, delivery: Verification, now: int, u: UserId)
    requires CustomerIdsUnique(st.users)
    requires u in st.users && Grant(st, delivery, u) > 0
    ensures var once := Post(st, delivery, true, now);
            var twice := Post(once.store, delivery, true, now);
            && once.reply == Reply(200, OK) && twice.reply == Reply(200, OK)
            && twice.store.users[u].credits == st.users[u].credits + 2 * Grant(st, delivery, u)
  {
    var s := SessionOf(delivery, COMPLETED).value;
    assert FindByCustomer(st.users, s.customer.value).Some?;
    var once := Post(st, delivery, true, now);
    GrantStable(st, once.store, delivery, u);
    assert FindByCustomer(once.store.users, s.customer.value).Some?;
  }

  /** No state guard: an order whose session expired and whose payment then
      completes ends up both canceled and paid, and the payer is credited. */
  lemma ExpiredThenCompletedIsCanceledAndPaid(st: Store, o: OrderId, plan: string, customer: string,
                                              u: UserId, now1: int, now2: int)
    requires CustomerIdsUnique(st.users)
    requires o in st.orders && o != "" && plan != "" && customer != ""
    requires u in st.users && st.users[u].stripeCustomerId == Some(customer)
    ensures var expired := Post(st, Verified(Event(EXPIRED, Some(CheckoutSession(Some(o), None, None)))), true, now1);
            var completed := Post(expired.store,
                                  Verified(Event(COMPLETED, Some(CheckoutSession(Some(o), Some(plan), Some(customer))))),
                                  true, now2);
            && expired.reply == Reply(200, OK) && completed.reply == Reply(200, OK)
            && completed.store.orders[o].canceled && completed.store.orders[o].paid
            && completed.store.users[u].credits == st.users[u].credits + Utils.CreditsFromPlan(plan)
  {
    var expired := Post(st, Verified(Event(EXPIRED, Some(CheckoutSession(Some(o), None, None)))), true, now1);
    assert FindByCustomer(expired.store.users, customer).Some?;
  }

  /** The completed-payment branch credits the user that owns the billing
      reference, by the plan named in the metadata, without looking at the
      order's owner or plan: here Alice's BASIC order pays Bob a PRO pack. */
  lemma CreditFollowsCustomerNotOrder()
    ensures var st := Store(map["alice" := User(0, Some("cus_a")), "bob" := User(0, Some("cus_b"))],
                            map["order1" := PendingOrder("alice", BASIC)], [], []);
            var r := Post(st, Verified(Event(COMPLETED, Some(CheckoutSession(Some("order1"), Some("PRO"), Some("cus_b"))))),
                          true, 0);
            && r.reply == Reply(200, OK)
            && r.store.orders["order1"].paid && r.store.orders["order1"].plan == BASIC
            && r.store.users["alice"].credits == 0
            && r.store.users["bob"].credits == 50
  {
    var st := Store(map["alice" := User(0, Some("cus_a")), "bob" := User(0, Some("cus_b"))],
                    map["order1" := PendingOrder("alice", BASIC)], [], []);
    assert st.users["bob"].stripeCustomerId == Some("cus_b");
    assert FindByCustomer(st.users, "cus_b").Some?;
  }
}
