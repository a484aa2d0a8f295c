/** The input schemas of the application, as predicates over the submitted
    values together with the value the schema parses them to. */
module Schemas {
  import opened Wrappers
  import opened Db

  const MIN_TEXT_LENGTH: nat := 4
  const MAX_TEXT_LENGTH: nat := 1000
  const MIN_PASSWORD_LENGTH: nat := 8
  const MAX_FIELD_LENGTH: nat := 100

  const MINIMUM_SPEECH_SPEED: real := 0.25
  const MAXIMUM_SPEECH_SPEED: real := 4.0
  const DEFAULT_SPEECH_SPEED: real := 1.0

  /** The 25 members of `StyleEnum`, in declaration order. */
  const STYLES: seq<string> := [
    "animation", "cartoon", "detailed", "drawing", "high-resolution",
    "lego", "modern", "oil painting", "pointillism", "professional photography",
    "traditional", "vector art", "watercolor", "3D", "isometric",
    "photo-realistic", "pixar", "low poly", "flat design", "minimalist",
    "material design", "abstract", "art deco", "anime", "custom"]

  const CUSTOM_STYLE: string := "custom"

  /** The six members of `SpeechVoicesEnum`. */
  const VOICES: seq<string> := ["alloy", "echo", "fable", "nova", "onyx", "shimmer"]

  predicate LengthWithin(s: string, lo: nat, hi: nat) {
    lo <= |s| <= hi
  }

  // ---------------------------------------------------------------- sign-up

  datatype SignUpForm = SignUpForm(email: string, username: string, password: string, confirmPassword: string)

  /** `SignUpSchema`. The e-mail format check of the schema library is the
      parameter `isEmail`. */
  function SignUpAccepts(f: SignUpForm, isEmail: string -> bool): (ok: bool)
    ensures ok ==> f.password == f.confirmPassword
    ensures ok ==> MIN_PASSWORD_LENGTH <= |f.password| <= MAX_FIELD_LENGTH
    ensures ok ==> MIN_PASSWORD_LENGTH <= |f.confirmPassword| <= MAX_FIELD_LENGTH
    ensures ok ==> isEmail(f.email) && 4 <= |f.email| <= MAX_FIELD_LENGTH && 4 <= |f.username| <= MAX_FIELD_LENGTH
    ensures ok <== isEmail(f.email) && 4 <= |f.email| <= 100 && 4 <= |f.username| <= 100
                   && 8 <= |f.password| <= 100 && f.confirmPassword == f.password
  {
    && isEmail(f.email)
    && LengthWithin(f.email, 4, MAX_FIELD_LENGTH)
    && LengthWithin(f.username, 4, MAX_FIELD_LENGTH)
    && LengthWithin(f.password, MIN_PASSWORD_LENGTH, MAX_FIELD_LENGTH)
    && LengthWithin(f.confirmPassword, MIN_PASSWORD_LENGTH, MAX_FIELD_LENGTH)
    && f.password == f.confirmPassword
  }

  // ---------------------------------------------------------- image prompt

  datatype ImageInput = ImageInput(prompt: string, style: string, customStyle: Option<string>)

  /** The refinement of `ImageGeneratorPromptSchema`: choosing the custom
      style requires a non-empty custom style text. */
  predicate CustomStyleProvided(d: ImageInput) {
    d.style == CUSTOM_STYLE ==> Truthy(d.customStyle)
  }

  /** `ImageGeneratorPromptSchema.safeParse`: the parsed value on success. */
  function ParseImagePrompt(d: ImageInput): (r: Option<ImageInput>)
    ensures r.Some? ==> r.value == d
    ensures r.Some? ==> MIN_TEXT_LENGTH <= |d.prompt| <= MAX_TEXT_LENGTH && d.style in STYLES
    ensures d.style == CUSTOM_STYLE && !Truthy(d.customStyle) ==> r.None?
    ensures d.style != CUSTOM_STYLE ==>
              (r.Some? <==> MIN_TEXT_LENGTH <= |d.prompt| <= MAX_TEXT_LENGTH && d.style in STYLES)
  {
    if LengthWithin(d.prompt, MIN_TEXT_LENGTH, MAX_TEXT_LENGTH) && d.style in STYLES && CustomStyleProvided(d)
    then Some(d)
    else None
  }

  /** The enumeration has 25 members and includes the custom style. */
  lemma StyleEnumMembers()
    ensures |STYLES| == 25 && CUSTOM_STYLE in STYLES
    ensures forall i :: 0 <= i < |STYLES| ==> STYLES[i] != ""
  {
  }

  /** A custom style with a non-empty text is accepted exactly when the
      prompt length is in range. */
  lemma CustomStyleWithText(prompt: string, text: string)
    requires text != ""
    ensures ParseImagePrompt(ImageInput(prompt, CUSTOM_STYLE, Some(text))).Some?
            <==> MIN_TEXT_LENGTH <= |prompt| <= MAX_TEXT_LENGTH
  {
    StyleEnumMembers();
  }

  // --------------------------------------------------------- speech prompt

  datatype SpeechInput = SpeechInput(text: string, voice: string, speed: Option<real>)

  datatype SpeechPrompt = SpeechPrompt(text: string, voice: string, speed: real)

  predicate SpeedInRange(speed: real) {
    MINIMUM_SPEECH_SPEED <= speed <= MAXIMUM_SPEECH_SPEED
  }

  /** `SpeechGeneratorPromptSchema.safeParse`: an absent speed defaults to 1. */
  function ParseSpeechPrompt(d: SpeechInput): (r: Option<SpeechPrompt>)
    ensures r.Some? <==>
              && MIN_TEXT_LENGTH <= |d.text| <= MAX_TEXT_LENGTH
              && d.voice in VOICES
              && (d.speed.Some? ==> 0.25 <= d.speed.value <= 4.0)
    ensures r.Some? ==> r.value.text == d.text && r.value.voice == d.voice
    ensures r.Some? ==> 0.25 <= r.value.speed <= 4.0
    ensures r.Some? && d.speed.None? ==> r.value.speed == 1.0
    ensures r.Some? && d.speed.Some? ==> r.value.speed == d.speed.value
  {
    var speed := d.speed.GetOr(DEFAULT_SPEECH_SPEED);
    if LengthWithin(d.text, MIN_TEXT_LENGTH, MAX_TEXT_LENGTH) && d.voice in VOICES && SpeedInRange(speed)
    then Some(SpeechPrompt(d.text, d.voice, speed))
    else None
  }

  // -------------------------------------------------------------- checkout

  /** `z.nativeEnum(PLANS)`: a plan name is accepted when it is the value
      of an enumeration member. */
  function ParsePlan(s: string): (r: Option<Plan>)
    ensures r.Some? ==> PlanName(r.value) == s
    ensures r.None? ==> forall p: Plan :: PlanName(p) != s
  {
    if s == "BASIC" then Some(BASIC)
    else if s == "MEDIUM" then Some(MEDIUM)
    else if s == "PRO" then Some(PRO)
    else None
  }

  /** Every enumeration member is accepted and parses back to itself. */
  lemma ParsePlanName(p: Plan)
    ensures ParsePlan(PlanName(p)) == Some(p)
  {
  }

  datatype CheckoutForm = CheckoutForm(plan: Option<string>)

  /** `checkoutSchema.safeParse`: the form must carry a plan name. */
  function ParseCheckout(f: CheckoutForm): (r: Option<Plan>)
    ensures r.Some? <==> f.plan.Some? && exists p: Plan :: PlanName(p) == f.plan.value
    ensures r.Some? ==> PlanName(r.value) == f.plan.value
  {
    if f.plan.None? then None else ParsePlan(f.plan.value)
  }
}
