/** `generateImage`: the server action that spends one credit on one image.
    Validation, the session lookup, the balance check, the image provider,
    re-encoding and upload gate the single database update that both debits
    the user and records the image. */
module ImageAction {
  import opened Wrappers
  import opened Db
  import opened Outcomes
  import Schemas

  /** Credits one image costs. */
  const IMAGE_COST: int := 1

  const UNAUTHORIZED := "Unauthorized"
  const USER_NOT_FOUND := "User not found"
  const NOT_ENOUGH_CREDITS := "Not enough credits"
  const GENERATION_FAILED := "Failed to generate image"
  const UPLOAD_FAILED := "Failed to upload image"
  const UNEXPECTED := "Unexpected error. Please try again later."

  /** Every message a failed call can carry. */
  const FAILURE_MESSAGES: set<string> :=
    {UNAUTHORIZED, USER_NOT_FOUND, NOT_ENOUGH_CREDITS, GENERATION_FAILED, UPLOAD_FAILED, UNEXPECTED}

  /** One entry of the provider's `data` array. */
  datatype ImageDatum = ImageDatum(b64Json: Option<string>, revisedPrompt: Option<string>)

  /** What the image provider produced: it threw, or it answered with a
      (possibly empty) `data` array. */
  datatype Provider = ProviderThrows | Answered(data: seq<ImageDatum>)

  /** The answers of every foreign call the action makes; `compressed` is
      false when re-encoding the provider's bytes throws. */
  datatype ImageEnv = ImageEnv(auth: Auth, provider: Provider, compressed: bool, upload: Upload)

  datatype ImageResult = ImageCreated(imgUrl: string) | ImageFailed(message: string)

  datatype ImageOutcome = ImageOutcome(store: Store, result: ImageResult)

  /** The stored refined prompt: the provider's, or the user's prompt when
      the provider returned none. */
  function RevisedPrompt(d: ImageDatum, prompt: string): (p: string)
    ensures d.revisedPrompt.Some? ==> p == d.revisedPrompt.value
    ensures d.revisedPrompt.None? ==> p == prompt
  {
    d.revisedPrompt.GetOr(prompt)
  }

  /** The call passed every gate before the paid provider call: valid
      input, signed in as an existing user whose balance covers the cost. */
  predicate ReachesProvider(st: Store, data: Schemas.ImageInput, env: ImageEnv) {
    && Schemas.ParseImagePrompt(data).Some?
    && env.auth.SignedIn?
    && env.auth.userId in st.users
    && st.users[env.auth.userId].credits >= IMAGE_COST
  }

  /** One call of the action against the snapshot `st`. Every thrown error
      is caught and reported as `UNEXPECTED`; the transaction then rolls
      back, and no failing path has written anything before it ends. */
  function GenerateImage(st: Store, data: Schemas.ImageInput, env: ImageEnv): (r: ImageOutcome)
    // any failure leaves the database untouched
    ensures r.result.ImageFailed? ==> r.store == st
    ensures r.result.ImageFailed? ==> r.result.message in FAILURE_MESSAGES
    // the gates before any paid work
    ensures Schemas.ParseImagePrompt(data).None? ==> r.result == ImageFailed(UNAUTHORIZED)
    ensures env.auth.Anonymous? ==> r.result == ImageFailed(UNAUTHORIZED)
    ensures env.auth.SignedIn? && env.auth.userId !in st.users ==> r.result.ImageFailed?
    ensures Schemas.ParseImagePrompt(data).Some? && env.auth.SignedIn? && env.auth.userId !in st.users
            ==> r.result == ImageFailed(USER_NOT_FOUND)
    ensures Schemas.ParseImagePrompt(data).Some? && env.auth.SignedIn? && env.auth.userId in st.users
            && st.users[env.auth.userId].credits < IMAGE_COST
            ==> r.result == ImageFailed(NOT_ENOUGH_CREDITS)
    // a missing payload or a missing URL fails without spending
    ensures env.provider.Answered? && |env.provider.data| > 0 && !Truthy(env.provider.data[0].b64Json)
            ==> r.result.ImageFailed?
    ensures ReachesProvider(st, data, env) && env.provider.Answered? && |env.provider.data| > 0
            && !Truthy(env.provider.data[0].b64Json)
            ==> r.result == ImageFailed(GENERATION_FAILED)
    ensures env.upload.Uploaded? && !Truthy(env.upload.url) ==> r.result.ImageFailed?
    ensures ReachesProvider(st, data, env) && env.provider.Answered? && |env.provider.data| > 0
            && Truthy(env.provider.data[0].b64Json) && env.compressed
            && env.upload.Uploaded? && !Truthy(env.upload.url)
            ==> r.result == ImageFailed(UPLOAD_FAILED)
    // any thrown error is reported generically
    ensures Schemas.ParseImagePrompt(data).Some? && env.auth.AuthThrows? ==> r.result == ImageFailed(UNEXPECTED)
    ensures ReachesProvider(st, data, env)
            && (|| env.provider.ProviderThrows? || env.provider.data == []
                || (Truthy(env.provider.data[0].b64Json) && (!env.compressed || env.upload.UploadThrows?)))
            ==> r.result == ImageFailed(UNEXPECTED)
    ensures r.result.ImageFailed? && r.result.message == UNEXPECTED ==>
              env.auth.AuthThrows? || env.provider.ProviderThrows? || env.provider.data == []
              || !env.compressed || env.upload.UploadThrows?
    // a funded call whose provider, re-encoding and upload all succeed
    // creates the image, and only such a call does
    ensures ReachesProvider(st, data, env) && env.provider.Answered? && |env.provider.data| > 0
            && Truthy(env.provider.data[0].b64Json) && env.compressed
            && env.upload.Uploaded? && Truthy(env.upload.url)
            ==> r.result == ImageCreated(env.upload.url.value)
    // success: exactly one debit of the cost and exactly one new image
    ensures r.result.ImageCreated? ==>
              && ReachesProvider(st, data, env)
              && env.provider.Answered? && |env.provider.data| > 0
              && Truthy(env.provider.data[0].b64Json) && env.compressed
              && env.upload.Uploaded? && env.upload.url == Some(r.result.imgUrl) && r.result.imgUrl != ""
              && r.store.users == AdjustCredits(st.users, env.auth.userId, -IMAGE_COST)
              && r.store.orders == st.orders
              && r.store.speeches == st.speeches
              && r.store.images == st.images + [Image(env.auth.userId, r.result.imgUrl, data.prompt,
                                                      RevisedPrompt(env.provider.data[0], data.prompt))]
    // the balance check keeps balances non-negative
    ensures Wellformed(st) ==> Wellformed(r.store)
  {
    var parsed := Schemas.ParseImagePrompt(data);
    if parsed.None? then ImageOutcome(st, ImageFailed(UNAUTHORIZED))
    else
      match env.auth
      case AuthThrows => ImageOutcome(st, ImageFailed(UNEXPECTED))
      case Anonymous => ImageOutcome(st, ImageFailed(UNAUTHORIZED))
      case SignedIn(id) =>
        if id !in st.users then ImageOutcome(st, ImageFailed(USER_NOT_FOUND))
        else if st.users[id].credits < IMAGE_COST then ImageOutcome(st, ImageFailed(NOT_ENOUGH_CREDITS))
        else
          match env.provider
          case ProviderThrows => ImageOutcome(st, ImageFailed(UNEXPECTED))
          case Answered(items) =>
            // reading `data[0]` of an empty array throws
            if items == [] then ImageOutcome(st, ImageFailed(UNEXPECTED))
            else if !Truthy(items[0].b64Json) then ImageOutcome(st, ImageFailed(GENERATION_FAILED))
            else if !env.compressed then ImageOutcome(st, ImageFailed(UNEXPECTED))
            else
              match env.upload
              case UploadThrows => ImageOutcome(st, ImageFailed(UNEXPECTED))
              case Uploaded(url, _) =>
                if !Truthy(url) then ImageOutcome(st, ImageFailed(UPLOAD_FAILED))
                else
                  var image := Image(id, url.value, parsed.value.prompt, RevisedPrompt(items[0], parsed.value.prompt));
                  var st' := st.(users := AdjustCredits(st.users, id, -IMAGE_COST),
                                 images := st.images + [image]);
                  SameAccountsKeepUnique(st.users, st'.users);
                  ImageOutcome(st', ImageCreated(url.value))
  }

  /** One credit buys exactly one image: with a balance of one credit, a
      valid request whose provider, re-encoding and upload succeed creates
      the image and leaves zero, and an immediate second request is refused
      for lack of credits whatever the collaborators answer. */
  lemma SecondImageRefused(st: Store, id: UserId, data: Schemas.ImageInput, env1: ImageEnv, env2: ImageEnv)
    requires id in st.users && st.users[id].credits == 1
    requires env1.auth == SignedIn(id) && env2.auth == SignedIn(id)
    requires Schemas.ParseImagePrompt(data).Some?
    requires env1.provider.Answered? && |env1.provider.data| > 0 && Truthy(env1.provider.data[0].b64Json)
    requires env1.compressed && env1.upload.Uploaded? && Truthy(env1.upload.url)
    ensures GenerateImage(st, data, env1).result == ImageCreated(env1.upload.url.value)
    ensures GenerateImage(st, data, env1).store.users[id].credits == 0
    ensures GenerateImage(GenerateImage(st, data, env1).store, data, env2).result
            == ImageFailed(NOT_ENOUGH_CREDITS)
  {
  }
}
