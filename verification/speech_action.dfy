/** `generateSpeech`: the server action that spends two credits on one
    speech file. Unlike the image action it checks the rate gate before the
    session, and it has no catch-all: a thrown error escapes the action. */
module SpeechAction {
  import opened Wrappers
  import opened Db
  import opened Outcomes
  import Schemas

  /** `CREDIT_PER_SPEECH_GENERATE`. */
  const SPEECH_COST: int := 2

  const UNAUTHORIZED := "Unauthorized"
  const UNAUTHENTICATED := "Unauntheticated user. Please sign in."
  const USER_NOT_FOUND := "User not found"
  const NOT_ENOUGH_CREDITS := "Not enough credits"
  const GENERATION_FAILED_PREFIX := "Failed to generate speech "
  const UPLOAD_FAILED := "Failed to upload speech file"
  const SUCCESS_MESSAGE := "Speech generated successfully"

  /** What the rate limiter answered: it threw, admitted the caller, or
      refused with a message for the user. */
  datatype RateGate = GateThrows | Admitted | Limited(message: string)

  /** What the speech provider produced: it threw (or reading the audio
      bytes did), or it answered with an HTTP status flag and status text. */
  datatype Provider = ProviderThrows | Responded(ok: bool, statusText: string)

  datatype SpeechEnv = SpeechEnv(gate: RateGate, auth: Auth, provider: Provider, upload: Upload)

  /** `SpeechThrew` is a call whose promise rejects. */
  datatype SpeechResult =
    | SpeechCreated(speechUrl: string, message: string)
    | SpeechFailed(message: string)
    | SpeechThrew

  datatype SpeechOutcome = SpeechOutcome(store: Store, result: SpeechResult)

  /** The call passed every gate before the paid provider call: valid
      input, admitted by the rate gate, signed in as an existing user whose
      balance covers the cost. */
  predicate ReachesProvider(st: Store, data: Schemas.SpeechInput, env: SpeechEnv) {
    && Schemas.ParseSpeechPrompt(data).Some?
    && env.gate.Admitted?
    && env.auth.SignedIn?
    && env.auth.userId in st.users
    && st.users[env.auth.userId].credits >= SPEECH_COST
  }

  /** One call of the action against the snapshot `st`. The stored record
      takes the raw submitted fields, so an absent speed is stored absent
      even though the schema would default it. */
  function GenerateSpeech(st: Store, data: Schemas.SpeechInput, env: SpeechEnv): (r: SpeechOutcome)
    // any failure, thrown or reported, leaves the database untouched
    ensures !r.result.SpeechCreated? ==> r.store == st
    // validation comes first, then the rate gate, then the session
    ensures Schemas.ParseSpeechPrompt(data).None? ==> r.result == SpeechFailed(UNAUTHORIZED)
    ensures Schemas.ParseSpeechPrompt(data).Some? && env.gate.Limited?
            ==> r.result == SpeechFailed(env.gate.message)
    ensures Schemas.ParseSpeechPrompt(data).Some? && env.gate.Admitted? && env.auth.Anonymous?
            ==> r.result == SpeechFailed(UNAUTHENTICATED)
    ensures Schemas.ParseSpeechPrompt(data).Some? && env.gate.Admitted? && env.auth.SignedIn?
            && env.auth.userId !in st.users
            ==> r.result == SpeechFailed(USER_NOT_FOUND)
    ensures Schemas.ParseSpeechPrompt(data).Some? && env.gate.Admitted? && env.auth.SignedIn?
            && env.auth.userId in st.users && st.users[env.auth.userId].credits < SPEECH_COST
            ==> r.result == SpeechFailed(NOT_ENOUGH_CREDITS)
    // provider and upload failures spend nothing
    ensures ReachesProvider(st, data, env) && env.provider.Responded? && !env.provider.ok
            ==> r.result == SpeechFailed(GENERATION_FAILED_PREFIX + env.provider.statusText)
    ensures ReachesProvider(st, data, env) && env.provider.Responded? && env.provider.ok
            && env.upload.Uploaded? && env.upload.error
            ==> r.result == SpeechFailed(UPLOAD_FAILED)
    // there is no catch: a thrown error rejects the call
    ensures Schemas.ParseSpeechPrompt(data).Some? && env.gate.GateThrows? ==> r.result.SpeechThrew?
    ensures Schemas.ParseSpeechPrompt(data).Some? && env.gate.Admitted? && env.auth.AuthThrows?
            ==> r.result.SpeechThrew?
    ensures ReachesProvider(st, data, env)
            && (|| env.provider.ProviderThrows?
                || (env.provider.ok && (env.upload.UploadThrows? || env.upload == Uploaded(None, false))))
            ==> r.result.SpeechThrew?
    ensures r.result.SpeechThrew? ==>
              env.gate.GateThrows? || env.auth.AuthThrows? || env.provider.ProviderThrows?
              || env.upload.UploadThrows? || env.upload == Uploaded(None, false)
    // an admitted, funded call whose provider and upload succeed creates the
    // speech, and only such a call does
    ensures ReachesProvider(st, data, env) && env.provider.Responded? && env.provider.ok
            && env.upload.Uploaded? && env.upload.url.Some? && !env.upload.error
            ==> r.result == SpeechCreated(env.upload.url.value, SUCCESS_MESSAGE)
    // success: exactly one debit of the cost and exactly one new speech
    ensures r.result.SpeechCreated? ==>
              && ReachesProvider(st, data, env)
              && env.provider.Responded? && env.provider.ok
              && env.upload == Uploaded(Some(r.result.speechUrl), false)
              && r.result.message == SUCCESS_MESSAGE
              && r.store.users == AdjustCredits(st.users, env.auth.userId, -SPEECH_COST)
              && r.store.orders == st.orders
              && r.store.images == st.images
              && r.store.speeches == st.speeches + [Speech(env.auth.userId, r.result.speechUrl,
                                                          data.voice, data.text, data.speed)]
    ensures Wellformed(st) ==> Wellformed(r.store)
  {
    if Schemas.ParseSpeechPrompt(data).None? then SpeechOutcome(st, SpeechFailed(UNAUTHORIZED))
    else
      match env.gate
      case GateThrows => SpeechOutcome(st, SpeechThrew)
      case Limited(message) => SpeechOutcome(st, SpeechFailed(message))
      case Admitted =>
        match env.auth
        case AuthThrows => SpeechOutcome(st, SpeechThrew)
        case Anonymous => SpeechOutcome(st, SpeechFailed(UNAUTHENTICATED))
        case SignedIn(id) =>
          if id !in st.users then SpeechOutcome(st, SpeechFailed(USER_NOT_FOUND))
          else if st.users[id].credits < SPEECH_COST then SpeechOutcome(st, SpeechFailed(NOT_ENOUGH_CREDITS))
          else
            match env.provider
            case ProviderThrows => SpeechOutcome(st, SpeechThrew)
            case Responded(ok, statusText) =>
              if !ok then SpeechOutcome(st, SpeechFailed(GENERATION_FAILED_PREFIX + statusText))
              else
                match env.upload
                case UploadThrows => SpeechOutcome(st, SpeechThrew)
                case Uploaded(url, error) =>
                  if error then SpeechOutcome(st, SpeechFailed(UPLOAD_FAILED))
                  // reading `data.url` of a null `data` throws
                  else if url.None? then SpeechOutcome(st, SpeechThrew)
                  else
                    var speech := Speech(id, url.value, data.voice, data.text, data.speed);
                    var st' := st.(users := AdjustCredits(st.users, id, -SPEECH_COST),
                                   speeches := st.speeches + [speech]);
                    SameAccountsKeepUnique(st.users, st'.users);
                    SpeechOutcome(st', SpeechCreated(url.value, SUCCESS_MESSAGE))
  }

  /** A refused rate gate decides the call before the session is looked up:
      the answer of the session lookup makes no difference. */
  lemma RateGateBeforeIdentity(st: Store, data: Schemas.SpeechInput, env: SpeechEnv, auth: Auth)
    requires env.gate.Limited?
    ensures GenerateSpeech(st, data, env) == GenerateSpeech(st, data, env.(auth := auth))
    ensures GenerateSpeech(st, data, env).store == st
  {
  }

  /** Two credits buy exactly one speech: with a balance of two, an admitted
      valid request whose provider and upload succeed creates the speech and
      leaves zero, and an immediate second request is refused for lack of
      credits whatever the collaborators answer. */
  lemma SecondSpeechRefused(st: Store, id: UserId, data: Schemas.SpeechInput, env1: SpeechEnv, env2: SpeechEnv,
                            url: string)
    requires id in st.users && st.users[id].credits == 2
    requires env1.auth == SignedIn(id) && env2.auth == SignedIn(id)
    requires env1.gate.Admitted? && env2.gate.Admitted?
    requires Schemas.ParseSpeechPrompt(data).Some?
    requires env1.provider.Responded? && env1.provider.ok && env1.upload == Uploaded(Some(url), false)
    ensures GenerateSpeech(st, data, env1).result == SpeechCreated(url, SUCCESS_MESSAGE)
    ensures GenerateSpeech(st, data, env1).store.users[id].credits == 0
    ensures GenerateSpeech(GenerateSpeech(st, data, env1).store, data, env2).result
            == SpeechFailed(NOT_ENOUGH_CREDITS)
  {
  }
}
