/** The persisted records the generation actions, the checkout action and the
    payment webhook read and write: users with a credit balance, orders for
    credit packs, and the generated image and speech artifacts. Records are
    keyed by their database id; a `Store` is one snapshot of the database. */
module Db {
  import opened Wrappers
  import Seqs

  type UserId = string
  type OrderId = string

  /** The `PLANS` enumeration of the database schema, in declaration order. */
  datatype Plan = BASIC | MEDIUM | PRO

  /** The string value an enumeration member has at run time. */
  function PlanName(p: Plan): string {
    match p
    case BASIC => "BASIC"
    case MEDIUM => "MEDIUM"
    case PRO => "PRO"
  }

  datatype User = User(credits: int, stripeCustomerId: Option<string>)

  datatype Order = Order(
    userId: UserId,
    plan: Plan,
    paid: bool,
    paidAt: Option<int>,
    canceled: bool,
    canceledAt: Option<int>,
    canceledBy: Option<string>)

  datatype Image = Image(userId: UserId, imageUrl: string, prompt: string, revisedPrompt: string)

  datatype Speech = Speech(userId: UserId, speechUrl: string, voice: string, text: string, speed: Option<real>)

  datatype Store = Store(
    users: map<UserId, User>,
    orders: map<OrderId, Order>,
    images: seq<Image>,
    speeches: seq<Speech>)

  /** An order as `order.create` leaves it: the schema defaults make it
      neither paid nor canceled. */
  function PendingOrder(userId: UserId, plan: Plan): (o: Order)
    ensures !o.paid && !o.canceled && o.userId == userId && o.plan == plan
    ensures o.paidAt.None? && o.canceledAt.None? && o.canceledBy.None?
  {
    Order(userId, plan, false, None, false, None, None)
  }

  /** The unique index on `stripeCustomerId`: two users never share a
      billing-customer reference. */
  predicate CustomerIdsUnique(users: map<UserId, User>) {
    forall a, b ::
      (a in users && b in users && users[a].stripeCustomerId.Some?
       && users[a].stripeCustomerId == users[b].stripeCustomerId) ==> a == b
  }

  predicate CreditsNonNegative(users: map<UserId, User>) {
    forall id :: id in users ==> users[id].credits >= 0
  }

  /** The database invariants the core relies on. */
  predicate Wellformed(st: Store) {
    CustomerIdsUnique(st.users) && CreditsNonNegative(st.users)
  }

  /** `a` and `b` hold the same accounts (same ids, same billing-customer
      references); only balances may differ. */
  predicate SameAccounts(a: map<UserId, User>, b: map<UserId, User>) {
    a.Keys == b.Keys && forall id :: id in a ==> a[id].stripeCustomerId == b[id].stripeCustomerId
  }

  lemma SameAccountsKeepUnique(a: map<UserId, User>, b: map<UserId, User>)
    requires SameAccounts(a, b)
    ensures CustomerIdsUnique(a) ==> CustomerIdsUnique(b)
  {
  }

  /** `user.findUnique({ where: { stripeCustomerId } })`. */
  function FindByCustomer(users: map<UserId, User>, customer: string): (r: Option<UserId>)
    requires CustomerIdsUnique(users)
    ensures r.Some? ==> r.value in users && users[r.value].stripeCustomerId == Some(customer)
    ensures r.None? ==> forall id :: id in users ==> users[id].stripeCustomerId != Some(customer)
  {
    if exists id :: id in users && users[id].stripeCustomerId == Some(customer) then
      var id :| id in users && users[id].stripeCustomerId == Some(customer);
      Some(id)
    else
      None
  }

  /** `user.update({ data: { credits: { increment: delta } } })` on an
      existing user (a negative `delta` is a `decrement`). */
  function AdjustCredits(users: map<UserId, User>, id: UserId, delta: int): (r: map<UserId, User>)
    requires id in users
    ensures SameAccounts(users, r)
    ensures r[id].credits == users[id].credits + delta
    ensures forall other :: other in users && other != id ==> r[other] == users[other]
  {
    users[id := users[id].(credits := users[id].credits + delta)]
  }

  function OwnedImage(u: UserId): Image -> bool {
    (i: Image) => i.userId == u
  }

  function OwnedSpeech(u: UserId): Speech -> bool {
    (s: Speech) => s.userId == u
  }

  /** Number of images owned by `u`. */
  function ImagesOf(images: seq<Image>, u: UserId): nat {
    Seqs.Count(images, OwnedImage(u))
  }

  /** Number of speeches owned by `u`. */
  function SpeechesOf(speeches: seq<Speech>, u: UserId): nat {
    Seqs.Count(speeches, OwnedSpeech(u))
  }

  lemma ImagesOfAppend(images: seq<Image>, x: Image, u: UserId)
    ensures ImagesOf(images + [x], u) == ImagesOf(images, u) + (if x.userId == u then 1 else 0)
  {
    Seqs.CountAppend(images, x, OwnedImage(u));
  }

  lemma SpeechesOfAppend(speeches: seq<Speech>, x: Speech, u: UserId)
    ensures SpeechesOf(speeches + [x], u) == SpeechesOf(speeches, u) + (if x.userId == u then 1 else 0)
  {
    Seqs.CountAppend(speeches, x, OwnedSpeech(u));
  }
}
