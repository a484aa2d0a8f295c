# AI image generator: credit ledger, generation actions and payment webhook

A Dafny model of the business core of a Next.js application that sells
credits and spends them on AI-generated images and speech:

- `generateImage` spends one credit on one stored image, and
  `generateSpeech` spends two credits on one stored speech file. Each call
  goes through validation, the session, the balance check, the provider
  and the upload. Only then does one database update debit the user and
  record the artifact.
- `checkout` opens a pending order for a credit pack (BASIC, MEDIUM or PRO).
  It then asks the payment gateway for a hosted checkout page.
- The payment webhook `POST` verifies the gateway's signature. An expired
  session cancels the order it names. A completed payment marks that order
  paid and credits the user who owns the billing-customer reference.
- `getCreditsFromPlan`, `getPriceIDFromPlan` and `getBaseUrl` are pure tables.
  The zod schemas are written as predicates with a parse function.

The database is an immutable `Db.Store`, which holds users, orders, images
and speeches. Every operation is a pure function from a store, its input
and the outcomes of the outside calls it makes to a new store and a
result. The outside calls are the session lookup, the AI providers, image
re-encoding, the upload service, the rate limiter, the payment gateway,
the e-mail sender and the clock. Each becomes a value in an environment
record. The model covers one request at a time. `Ledger.Run` and
`Webhook.Redeliver` chain requests to state properties of sequences.

Modules, one per file:
- `Wrappers`: `Option` and JavaScript truthiness of optional strings.
- `Seqs`: counting.
- `Db`: records and database invariants.
- `Utils`
- `Schemas`
- `Outcomes`: the shared session and upload outcomes.
- `ImageAction`
- `SpeechAction`
- `PaymentsAction`
- `Webhook`
- `Ledger`: credits across a sequence of requests.
- `Purchase`: checkout followed by payment.

## Where the code departs from its evident intent

In each of these cases the model follows the code as written.

- A completed payment is evidently meant to be credited exactly once. But
  the handler reads no paid or canceled flag and keeps no record of
  deliveries, so every redelivery of the same notification credits again
  (`Webhook.RedeliveryCreditsEveryTime`,
  `Webhook.DuplicateDeliveryCreditsTwice`). An order whose session expired
  can also still be paid (`Webhook.ExpiredThenCompletedIsCanceledAndPaid`).
- The handler trusts the event rather than the order it names: it
  credits the plan written in the event metadata to the user who holds
  the event's customer reference, and never reads the order's own owner or
  plan (`Webhook.CreditFollowsCustomerNotOrder`). For every session that
  `checkout` creates the two agree, because `checkout` writes the new
  order's id and plan into the metadata and its owner's customer reference
  as the session customer (`Purchase.PaidCheckoutCreditsBuyer`). They
  differ only for a session that `checkout` did not create.
- A notification for an order that does not exist is not answered as "not
  found". On an expired session the failed update is caught and answered
  with 500. On a completed payment whose customer is unknown, the failed
  update escapes the handler (`Webhook.Reply.Threw`).
- The billing page advertises 70 credits for PRO (src/app/billing/page.tsx:41),
  but `getCreditsFromPlan` grants 50. The model grants 50.

## Model

| member | source | states |
|---|---|---|
| Db.PendingOrder | src/actions/payments.action.ts:56-65 | a newly created order belongs to its user and plan, is neither paid nor canceled, and has no timestamps or cancel reason |
| Db.FindByCustomer | src/app/api/payment/webhook/route.ts:79-83 | lookup by the unique billing-customer reference: it finds the one user holding that reference when one exists, and finds nothing otherwise |
| Db.AdjustCredits | src/actions/image.action.ts:120-127 | an increment or decrement changes only the named user's balance, by exactly the amount, and keeps every account |
| Utils.CreditsFromPlan | src/lib/utils.ts:15-26 | a plan name buys a positive number of credits exactly when it names a pack; any other value buys 0 |
| Utils.CreditsOfEachPlan | src/lib/utils.ts:15-22 | BASIC buys 10 credits, MEDIUM 30 and PRO 50 |
| Utils.CreditsIncreaseWithPlan | src/lib/utils.ts:17-22 | a larger pack always buys strictly more credits, and every pack buys some |
| Utils.BaseUrl | src/lib/utils.ts:9-13 | the production host when NODE_ENV is "production", the local development server otherwise, including when it is unset |
| Utils.SecureOnlyInProduction | src/lib/utils.ts:9-13 | links built on the base URL use a secure scheme exactly in production |
| Schemas.SignUpAccepts | src/schemas/index.ts:4-27 | a sign-up form is accepted if and only if the e-mail is well formed, the e-mail and username have 4 to 100 characters, both passwords have 8 to 100 characters, and the two passwords are equal |
| Schemas.ParseImagePrompt | src/schemas/index.ts:69-89 | an image prompt is accepted only with 4 to 1000 characters and a listed style; "custom" without a custom-style text is rejected; any other style is accepted whatever the custom text is |
| Schemas.StyleEnumMembers | src/schemas/index.ts:41-67 | the style enumeration has 25 non-empty members, "custom" among them |
| Schemas.CustomStyleWithText | src/schemas/index.ts:78-89 | with a non-empty custom text, the custom style is accepted exactly when the prompt length is in range |
| Schemas.ParseSpeechPrompt | src/schemas/index.ts:91-118 | a speech prompt is accepted if and only if the text has 4 to 1000 characters, the voice is one of the six, and any given speed is within [0.25, 4]; an absent speed parses to 1 |
| Schemas.ParsePlan | src/schemas/index.ts:120-122 | a string parses to a plan exactly when it is that plan's name, and to nothing when no plan has that name |
| Schemas.ParsePlanName | src/schemas/index.ts:120-122 | every plan's name parses back to the same plan |
| Schemas.ParseCheckout | src/schemas/index.ts:120-122 | a checkout form is accepted if and only if it carries the name of a plan, and it parses to that plan |
| ImageAction.RevisedPrompt | src/actions/image.action.ts:132-133 | the stored revised prompt is the provider's one when present, otherwise the user's prompt |
| ImageAction.GenerateImage | src/actions/image.action.ts:27-158 | a call creates an image if and only if the prompt is valid, the caller is a signed-in existing user with at least 1 credit, the provider returns a first item with image data, re-encoding succeeds and the upload returns a URL; it then returns that URL, debits exactly 1 from the caller, changes no other user, and appends exactly one image with that URL, the prompt and the revised prompt. Every failure leaves the store unchanged and carries one of six messages: an invalid prompt or anonymous caller gets "Unauthorized", a missing user "User not found", fewer than 1 credit "Not enough credits", no image data "Failed to generate image", no upload URL "Failed to upload image", and "Unexpected error" arises exactly when a session lookup, provider call, re-encoding or upload that the call reaches throws, or the provider returns no item. Balances stay non-negative |
| ImageAction.SecondImageRefused | src/actions/image.action.ts:64-142 | with one credit left, a valid request whose provider, re-encoding and upload succeed creates the image and empties the balance, and the next request is refused for lack of credits |
| SpeechAction.GenerateSpeech | src/actions/speech.action.ts:29-145 | a call creates a speech if and only if the input is valid, the rate gate admits, the caller is a signed-in existing user with at least 2 credits, the provider answers ok and the upload returns a URL without error; it then debits exactly 2, appends exactly one speech with the submitted voice, text and speed, and returns the stored URL with the success message. Every failure, reported or thrown, leaves the store unchanged. Validation, then the rate gate, then the session are checked in that order, with their own messages. Fewer than 2 credits is refused. A provider or upload failure reports its message. With no catch, the call rejects exactly when a rate gate, session lookup, provider call or upload that the call reaches throws, or the upload returns no data and no error |
| SpeechAction.RateGateBeforeIdentity | src/actions/speech.action.ts:41-56 | a limited caller is refused the same way whoever is signed in, and nothing changes |
| SpeechAction.SecondSpeechRefused | src/actions/speech.action.ts:72-137 | with two credits left, an admitted valid request whose provider and upload succeed creates the speech and empties the balance, and the next request is refused for lack of credits |
| PaymentsAction.PriceIdFromPlan | src/actions/payments.action.ts:20-31 | each plan reads its own configured price; a value outside the enumeration reads the BASIC price |
| PaymentsAction.PriceIdsSeparatePlans | src/actions/payments.action.ts:20-31 | with three distinct configured prices, two plans get the same price if and only if they are the same plan |
| PaymentsAction.Checkout | src/actions/payments.action.ts:33-105 | balances and artifacts are never touched. An invalid form or anonymous caller creates no order and gets its message; a throwing session lookup or a missing user throws with no order. A valid form from a signed-in existing user always creates exactly one new order for the caller and plan, with no timestamps, and sends the gateway a request carrying that order's id and plan, the plan's price, the caller's customer reference and the base-URL return pages. A session with a page URL redirects there and leaves the order pending; a session without a URL cancels it at the current time with reason "Stripe API", every other field as created; a throwing gateway leaves it pending |
| Webhook.Expire | src/app/api/payment/webhook/route.ts:31-61 | an expired session without an order id gets 400 and changes nothing; an unknown order gets 500 and changes nothing; otherwise exactly that order becomes canceled at the current time, balances stay, and the reply is 200 |
| Webhook.Complete | src/app/api/payment/webhook/route.ts:62-141 | missing order id, plan or customer gives 400 and no change. If no user holds the customer reference, no balance changes and the order is canceled "User not found" with 404, or the call throws when the order is unknown. Otherwise the order is paid at the current time, the holder gains exactly the credits of the metadata plan, and the reply is 200, or 500 when `revalidatePath` or sending the receipt throws |
| Webhook.Post | src/app/api/payment/webhook/route.ts:13-147 | a bad signature gives 400 and no change; a missing session gives 400; other event types give 200 and no change. Every delivery keeps accounts, artifacts and unique customer references, raises each balance by exactly what `Grant` says, touches only the order it names, and never clears a paid or canceled flag |
| Webhook.GrantingDelivery | src/app/api/payment/webhook/route.ts:102-122 | a completed payment that grants a user something grants the same again on any store with the same accounts and orders, and leaves the named order paid |
| Webhook.RedeliveryCreditsEveryTime | src/app/api/payment/webhook/route.ts:102-122 | with no replay guard, n deliveries of the same completed payment credit the payer n times the plan's credits, and the order is paid from the first delivery on |
| Webhook.DuplicateDeliveryCreditsTwice | src/app/api/payment/webhook/route.ts:102-146 | two deliveries of the same completed payment both answer 200 and credit the plan twice |
| Webhook.ExpiredThenCompletedIsCanceledAndPaid | src/app/api/payment/webhook/route.ts:44-122 | an order whose session expired and is then paid ends both canceled and paid, and the payer is credited |
| Webhook.CreditFollowsCustomerNotOrder | src/app/api/payment/webhook/route.ts:69-122 | the credit goes to the holder of the event's customer reference, by the metadata plan: one user's BASIC order can credit another user a PRO pack |
| Ledger.Apply | src/actions/image.action.ts:64-127 | any request, whether image, speech or webhook delivery, keeps the accounts (the same user ids and billing-customer references), unique customer references and non-negative balances |
| Ledger.StepBalance | src/actions/image.action.ts:120-137 | one request changes a user's balance plus the cost of that user's recorded artifacts by exactly the credits a delivery grants: each debit shows up as one recorded artifact |
| Ledger.LedgerBalance | src/actions/speech.action.ts:114-131 | across any sequence of requests, a user's balance plus their spending on recorded images and speeches changes only by the credits completed payments granted |
| Ledger.GenerationOnlySpends | src/actions/image.action.ts:120-137 | without payments among the requests, every credit a user no longer holds was spent on an image or speech recorded for them |
| Purchase.PaidCheckoutCreditsBuyer | src/actions/payments.action.ts:56-84 | a valid checkout by a signed-in customer whose gateway session has a page URL redirects there; the gateway's payment of that session then answers 200, marks the new order paid, and credits the buyer with the positive pack of the chosen plan |

## Left out

- Sign-in, sign-up handling, sessions, password hashing and the OAuth flow
  are not modelled. Only the sign-up schema is. They are thin wrappers over
  authentication libraries.
- The signature check is not modelled. It is the gateway library's
  cryptography, and the model receives its verdict as `Webhook.Verification`.
- The rate limiter's sliding window, the AI provider calls, image
  re-encoding, uploads and the receipt e-mail are not modelled. Each is
  only the outcome value it hands back.
- Logging and analytics are left out. They have no effect on the store or
  the result.
- ImageAction.GenerateImage: a throwing `revalidatePath` is not modelled.
  It runs after the debit and the image are committed, and would then
  report "Unexpected error" with the writes kept. The model treats the call
  as always succeeding.
- SpeechAction.GenerateSpeech: a throwing `revalidatePath` is not modelled.
  It runs after the commit outside any catch, and would then reject the
  call with the debit and the speech kept.
- Concurrency between requests and transaction isolation are left out.
  Transaction timeouts are left out too. The model is sequential.
- Database failures are modelled only where a record is missing, since an
  update of a missing record throws. Other database errors are left out.
- Webhook.Complete: a 500 reply's body is only the "Database error: "
  prefix. The error text the library appends after it is not modelled.
- Webhook.Expire: a 500 reply's body is only the "Database error: " prefix,
  for the same reason.
- The image prompt text sent to the provider, with its style sentence, is
  not modelled. The provider is an outcome parameter.
- Schemas.SignUpAccepts: the e-mail format check of the schema library is
  a parameter.
- Schemas.ParseImagePrompt: the image action imports a `PromptSchema` that
  the schema file does not define. The model validates with
  `ImageGeneratorPromptSchema`.
- String lengths are counted in characters, not UTF-16 code units.
- Speech speed is a `real`, not a floating-point number.
- Ledger.LedgerBalance: checkout is not a ledger step. It never changes a
  balance or an artifact, and its own contract says so.
- The public image listing and its query configuration are not modelled.
  The UI pages and components are not modelled either.
