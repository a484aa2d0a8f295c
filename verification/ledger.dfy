/** The credit ledger across a sequence of requests: each generation debits
    its cost and records one artifact for the payer, each completed payment
    credits its plan, and nothing else moves a balance. Checkout is not a
    step here: it touches no balance and no artifact. */
module Ledger {
  import opened Db
  import Schemas
  import ImageAction
  import SpeechAction
  import Webhook

  /** One request reaching the core, with the outcomes of the calls it makes. */
  datatype Request =
    | ImageRequest(image: Schemas.ImageInput, imageEnv: ImageAction.ImageEnv)
    | SpeechRequest(speech: Schemas.SpeechInput, speechEnv: SpeechAction.SpeechEnv)
    | WebhookDelivery(delivery: Webhook.Verification, mailSent: bool, now: int)

  /** The store after one request. */
  function Apply(st: Store, q: Request): (r: Store)
    requires Wellformed(st)
    ensures Wellformed(r)
    ensures r.users.Keys == st.users.Keys
    ensures SameAccounts(st.users, r.users)
  {
    match q
    case ImageRequest(data, env) => ImageAction.GenerateImage(st, data, env).store
    case SpeechRequest(data, env) => SpeechAction.GenerateSpeech(st, data, env).store
    case WebhookDelivery(delivery, mailSent, now) => Webhook.Post(st, delivery, mailSent, now).store
  }

  /** `step` is defined on every well-formed store and keeps it well-formed
      with the same accounts. */
  ghost predicate KeepsWellformed(step: (Store, Request) --> Store) {
    && (forall t: Store, q: Request {:trigger step.requires(t, q)} :: Wellformed(t) ==> step.requires(t, q))
    && (forall t: Store, q: Request {:trigger step(t, q)} ::
          Wellformed(t) ==> Wellformed(step(t, q)) && step(t, q).users.Keys == t.users.Keys)
  }

  /** The requests `qs`, one after another, each applied by `step`. */
  function Fold(st: Store, step: (Store, Request) --> Store, qs: seq<Request>): (r: Store)
    requires Wellformed(st) && KeepsWellformed(step)
    ensures Wellformed(r) && r.users.Keys == st.users.Keys
    decreases |qs|
  {
    if qs == [] then st else step(Fold(st, step, qs[..|qs| - 1]), qs[|qs| - 1])
  }

  /** The sum of `gain` over the steps of `qs`, each taken in the store the
      step starts from. */
  function Gained(st: Store, step: (Store, Request) --> Store, gain: (Store, Request) -> int, qs: seq<Request>): int
    requires Wellformed(st) && KeepsWellformed(step)
    decreases |qs|
  {
    if qs == [] then 0
    else Gained(st, step, gain, qs[..|qs| - 1]) + gain(Fold(st, step, qs[..|qs| - 1]), qs[|qs| - 1])
  }

  /** Credits `u` has paid for the artifacts recorded in `st`. */
  function Spent(st: Store, u: UserId): int {
    ImageAction.IMAGE_COST * ImagesOf(st.images, u) + SpeechAction.SPEECH_COST * SpeechesOf(st.speeches, u)
  }

  /** What `u` holds plus what `u` has spent. */
  function Balance(st: Store, u: UserId): int
    requires u in st.users
  {
    st.users[u].credits + Spent(st, u)
  }

  /** A step whose effect on `u`'s balance is `gain`, applied to every request
      of `qs`, moves the balance by the sum of the gains. */
  lemma {:induction false} FoldBalance(st: Store, step: (Store, Request) --> Store, gain: (Store, Request) -> int,
                                       qs: seq<Request>, u: UserId)
    requires Wellformed(st) && KeepsWellformed(step) && u in st.users
    requires forall t: Store, q: Request {:trigger step(t, q)} ::
               Wellformed(t) && u in t.users ==> Balance(step(t, q), u) == Balance(t, u) + gain(t, q)
    ensures u in Fold(st, step, qs).users
    ensures Balance(Fold(st, step, qs), u) == Balance(st, u) + Gained(st, step, gain, qs)
    decreases |qs|
  {
    if qs != [] {
      var prefix := qs[..|qs| - 1];
      FoldBalance(st, step, gain, prefix, u);
      var t := Fold(st, step, prefix);
      assert Fold(st, step, qs) == step(t, qs[|qs| - 1]);
    }
  }

  /** The credits request `q` grants `u`: only a webhook delivery grants. */
  function StepGrant(st: Store, q: Request, u: UserId): nat {
    match q
    case WebhookDelivery(delivery, _, _) => Webhook.Grant(st, delivery, u)
    case _ => 0
  }

  /** One request moves `u`'s balance by exactly what it grants: a
      generation debits its cost and records one artifact of the same
      user, a failure changes nothing. */
  lemma StepBalance(st: Store, q: Request, u: UserId)
    requires Wellformed(st) && u in st.users
    ensures u in Apply(st, q).users
    ensures Balance(Apply(st, q), u) == Balance(st, u) + StepGrant(st, q, u)
  {
    match q
    case ImageRequest(data, env) =>
      var r := ImageAction.GenerateImage(st, data, env);
      if r.result.ImageCreated? {
        ImagesOfAppend(st.images, r.store.images[|r.store.images| - 1], u);
        assert r.store.images == st.images + [r.store.images[|r.store.images| - 1]];
      }
    case SpeechRequest(data, env) =>
      var r := SpeechAction.GenerateSpeech(st, data, env);
      if r.result.SpeechCreated? {
        SpeechesOfAppend(st.speeches, r.store.speeches[|r.store.speeches| - 1], u);
        assert r.store.speeches == st.speeches + [r.store.speeches[|r.store.speeches| - 1]];
      }
    case WebhookDelivery(delivery, mailSent, now) =>
  }

  /** The core's own step: `Apply`. */
  function Step(): (step: (Store, Request) --> Store)
    ensures KeepsWellformed(step)
  {
    (s: Store, q: Request) requires Wellformed(s) => Apply(s, q)
  }

  /** The store after the requests `qs`, one after another. */
  function Run(st: Store, qs: seq<Request>): (r: Store)
    requires Wellformed(st)
    ensures Wellformed(r) && r.users.Keys == st.users.Keys
  {
    Fold(st, Step(), qs)
  }

  /** The credits the deliveries in `qs` grant `u`, each in the store it is
      delivered to. */
  function Granted(st: Store, qs: seq<Request>, u: UserId): int
    requires Wellformed(st)
  {
    Gained(st, Step(), (t: Store, q: Request) => StepGrant(t, q, u), qs)
  }

  /** Every credit a user ever held is either still held or was spent on a
      recorded artifact: balance plus spending moves only by the grants of
      completed payments. */
  lemma LedgerBalance(st: Store, qs: seq<Request>, u: UserId)
    requires Wellformed(st) && u in st.users
    ensures u in Run(st, qs).users
    ensures Run(st, qs).users[u].credits + Spent(Run(st, qs), u)
            == st.users[u].credits + Spent(st, u) + Granted(st, qs, u)
  {
    var step := Step();
    var gain := (t: Store, q: Request) => StepGrant(t, q, u);
    forall t: Store, q: Request {:trigger step(t, q)} | Wellformed(t) && u in t.users
      ensures Balance(step(t, q), u) == Balance(t, u) + gain(t, q)
    {
      StepBalance(t, q, u);
    }
    FoldBalance(st, step, gain, qs, u);
  }

  /** A gain that is zero for every request of `qs` sums to zero. */
  lemma {:induction false} GainedNothing(st: Store, step: (Store, Request) --> Store, gain: (Store, Request) -> int,
                                         qs: seq<Request>)
    requires Wellformed(st) && KeepsWellformed(step)
    requires forall t: Store, i :: 0 <= i < |qs| ==> gain(t, qs[i]) == 0
    ensures Gained(st, step, gain, qs) == 0
    decreases |qs|
  {
    if qs != [] {
      GainedNothing(st, step, gain, qs[..|qs| - 1]);
      assert gain(Fold(st, step, qs[..|qs| - 1]), qs[|qs| - 1]) == 0;
    }
  }

  /** Without a payment among the requests, no credit appears from nowhere:
      whatever `u` no longer holds was spent on an artifact recorded for `u`. */
  lemma GenerationOnlySpends(st: Store, qs: seq<Request>, u: UserId)
    requires Wellformed(st) && u in st.users
    requires forall i :: 0 <= i < |qs| ==> !qs[i].WebhookDelivery?
    ensures u in Run(st, qs).users
    ensures Run(st, qs).users[u].credits + Spent(Run(st, qs), u) == st.users[u].credits + Spent(st, u)
  {
    LedgerBalance(st, qs, u);
    GainedNothing(st, Step(), (t: Store, q: Request) => StepGrant(t, q, u), qs);
  }
}
