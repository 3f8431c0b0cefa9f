# Palm reading app: a verified model of its core logic

This Dafny project models the application logic of a Next.js palm-reading web app
whose readings come from a vision model. Users sign in with Firebase Auth and keep a
profile in Firestore. Non-premium users get a quota of free readings. Payment goes through
Stripe Checkout, and a Stripe webhook marks paying users premium. The model covers:

- **Reading assembly** (`palm_analysis.dfy`): how `analyzePalmImage` builds a
  `PalmReadingResult` from the model's text. `extractSummary` is modelled character by
  character over JavaScript `split`/`join`/`substring` (`strings.dfy`). Each
  `Math.floor(Math.random() * n)` is an integer draw parameter `k` with `0 <= k < n`. Under
  that model the helpers' ranges are proved: line scores 1..10, five lucky numbers in 1..99,
  2..4 colours, 3..5 traits, confidence 80..99 and compatibility 60..99. As written, the
  confidence can never reach 100 and the compatibility score never reaches 100, although
  the code comments say "80-100%" and "60-100%". The model follows the code. The fate line
  is always filled in, although the record type marks it optional.
- **The profile record** (`auth_context.dfy`, `firestore.dfy`):
  - the document written at sign-up;
  - the `||` defaulting applied when a profile is loaded, so a stored `maxFreeReadings`
    of 0 reads back as 1;
  - the shallow merge of `updateUserProfile`;
  - the auth-state listener.

  The `users` collection is a map from uid to document, and `readings` is a sequence of
  records. Both are fields of a `Database` object that the methods update.
- **The free-reading quota** (`reading_page.dfy`): `handleImageUpload` is a method on the
  page's state fields, proved path by path:
  - a refusal;
  - a failed analysis;
  - a failed save, including a save without a signed-in user;
  - a premium user;
  - the counter bump and its possible failure.
- **The Stripe webhook** (`stripe_webhook.dfy`): `POST` is a function from the user store
  and the request to the response and the new store. An in-place method is proved equal
  to it. Signature verification is an abstract function from body and signature to an
  optional event.
- **The plan catalogue and checkout validation** (`stripe_lib.dfy`). Prices are in cents.
- **The upload control** (`image_upload.dfy`): the MIME and size checks, the storage path,
  and the `uploading`/`preview`/`dragActive` flags.
- **Content gating and the strength stars** of the reading view (`palm_reading_view.dfy`).
- **The dashboard's "Free Readings Left" figure** (`dashboard.dfy`), which differs from the
  quota (see Findings).

I/O results are parameters of the operations: the vision-model reply, every Firestore and
Storage outcome, the clock, random draws, uuids and object URLs.

## Model

| member | source | states |
|---|---|---|
| Strings.Split | src/lib/palmAnalysis.ts:136 | `split` on one character yields at least one piece, and no piece contains the separator |
| Strings.SplitWithoutSeparator | src/lib/palmAnalysis.ts:136 | a string without the separator splits into itself alone |
| Strings.SplitAfterSegment | src/lib/palmAnalysis.ts:136 | a separator-free segment followed by the separator becomes the first piece, and the rest splits on its own |
| Strings.JoinSplit | src/lib/palmAnalysis.ts:136-137 | joining the pieces of a split with the separator restores the original string |
| PalmAnalysis.FirstLines | src/lib/palmAnalysis.ts:136-137 | `slice(0, 3)` of the split keeps 1 to 3 lines, none containing a newline |
| PalmAnalysis.ExtractSummary | src/lib/palmAnalysis.ts:134-138 | the summary is 3..203 characters long and ends with "..."; before the "..." it is the first min(200, length) characters of the first three lines joined by spaces; it contains no newline |
| PalmAnalysis.SummaryOfShortLine | src/lib/palmAnalysis.ts:136-137 | a single line of at most 200 characters comes back whole, followed by "..." |
| PalmAnalysis.SummaryJoinsFirstThreeLines | src/lib/palmAnalysis.ts:136-137 | with at least four lines, the summary is the first three lines separated by single spaces, followed by "..." (when they fit in 200 characters) |
| PalmAnalysis.Capitalize | src/lib/palmAnalysis.ts:143 | `charAt(0).toUpperCase() + slice(1)`: the length is kept and only the first character is upper-cased |
| PalmAnalysis.ExtractLineAnalysis | src/lib/palmAnalysis.ts:140-147 | the score is in 1..10; the description starts with the capitalised line type; the interpretation is "Your " followed by the line type |
| PalmAnalysis.ExtractMountsAnalysis | src/lib/palmAnalysis.ts:149-158 | the result has exactly the six mount keys, and each text starts with "Mount of" and the mount's capitalised name, whatever the analysis |
| PalmAnalysis.HealthIgnoresAnalysis | src/lib/palmAnalysis.ts:191-193 | the health text is the same fixed sentence whatever the analysis text says |
| PalmAnalysis.RecommendationsIgnoreAnalysis | src/lib/palmAnalysis.ts:208-215 | the recommendations are the same four fixed sentences whatever the analysis text says |
| PalmAnalysis.MountsIgnoreAnalysis | src/lib/palmAnalysis.ts:149-158 | the mounts are the same six fixed texts whatever the analysis text says |
| PalmAnalysis.MountTextsNameTheirMount | src/lib/palmAnalysis.ts:151-156 | each of the six fixed mount texts names its own mount |
| PalmAnalysis.ExtractPersonalityTraits | src/lib/palmAnalysis.ts:160-169 | the traits are a prefix of the fixed five-item list, of length draw + 3 (3..5) |
| PalmAnalysis.ExtractCareerGuidance | src/lib/palmAnalysis.ts:171-179 | the guidance is one of the four fixed career sentences |
| PalmAnalysis.ExtractRelationshipInsights | src/lib/palmAnalysis.ts:181-189 | the insight is one of the four fixed relationship sentences |
| PalmAnalysis.LuckyNumbers | src/lib/palmAnalysis.ts:195-201 | exactly five numbers, each in 1..99 |
| PalmAnalysis.GenerateLuckyNumbers | src/lib/palmAnalysis.ts:195-201 | the push loop builds exactly `LuckyNumbers(draws)` |
| PalmAnalysis.GenerateLuckyColors | src/lib/palmAnalysis.ts:203-206 | the colours are a prefix of the five-colour palette, of length 2..4 |
| PalmAnalysis.CalculateConfidence | src/lib/palmAnalysis.ts:217-220 | the confidence is in 80..99 |
| PalmAnalysis.GenerateCompatibilityReading | src/lib/palmAnalysis.ts:222-244 | the score is in 60..99, with exactly three strengths and two challenges |
| PalmAnalysis.Assemble | src/lib/palmAnalysis.ts:103-120 | the record carries the caller's id and time and the summary of the text, and its fate line is present |
| PalmAnalysis.AssembledWellFormed | src/lib/palmAnalysis.ts:103-120 | the assembled record meets every range guarantee above, and its fate line is present |
| PalmAnalysis.AnalyzePalmImage | src/lib/palmAnalysis.ts:95-126 | fails, with the rethrown message, exactly when the model's content is missing or empty; otherwise gives a well-formed reading with a fate line, whose summary is `ExtractSummary` of the content and whose id and timestamp are the given ones |
| PalmAnalysis.ConfidenceNeverHundred | src/lib/palmAnalysis.ts:217-220 | no assembled reading has confidence 100 |
| Firestore.Pick | src/contexts/AuthContext.tsx:135 | a present key overrides, and an absent key keeps the older value |
| Firestore.Merge | src/contexts/AuthContext.tsx:134 | every key the patch holds takes the patch's value, every other key keeps the stored value, so an empty patch changes nothing |
| Firestore.MergeIdempotent | src/contexts/AuthContext.tsx:134 | writing the same patch twice is the same as writing it once |
| Firestore.MergeSequential | src/contexts/AuthContext.tsx:134 | two successive merges equal one merge of the combined patch |
| AuthContext.NewUserDoc | src/contexts/AuthContext.tsx:108-116 | the sign-up document keeps the account's email and creation time; it is not premium, has tier "free", 0 readings used and an allowance of 1, and no Stripe fields; a non-empty display name is kept and any other becomes "" |
| AuthContext.ProfileFromDoc | src/contexts/AuthContext.tsx:74-87 | loading keeps the uid; the profile is premium iff the stored flag is true; a non-empty tier, a non-zero count and a non-zero allowance are kept, while missing or falsy ones become "free", 0 and 1; email, display name, Stripe fields and `updatedAt` are copied; a missing `createdAt` becomes the load time |
| AuthContext.IsPremium | src/components/PalmReading.tsx:27 | premium only with a loaded profile whose flag is true |
| AuthContext.ApplyUpdate | src/contexts/AuthContext.tsx:135 | for every profile field, a key in the patch takes the patch's value and a key it lacks keeps the profile's; the uid is kept, and an empty patch changes nothing |
| AuthContext.SignUpLoadsAsFreeAccount | src/contexts/AuthContext.tsx:74-87 | a freshly signed-up account loads as a free account with 0 of 1 readings used |
| AuthContext.ReloadAfterUpdateAgrees | src/contexts/AuthContext.tsx:134-135 | the in-memory update equals reloading the merged document, provided the patch writes no empty tier and no zero allowance |
| AuthContext.AuthProvider.constructor | src/contexts/AuthContext.tsx:50-52 | the provider starts with no user, no profile and `loading` true |
| AuthContext.AuthProvider.LoadUserProfile | src/contexts/AuthContext.tsx:69-92 | an existing document replaces the profile; a missing document or a failed read leaves the profile as it was |
| AuthContext.AuthProvider.OnAuthStateChanged | src/contexts/AuthContext.tsx:55-64 | `loading` is false after any event; sign-out clears the user and the profile; sign-in sets the user and loads the profile |
| AuthContext.AuthProvider.SignUp | src/contexts/AuthContext.tsx:102-120 | on success the user's document is replaced by the sign-up document, and on failure the store is unchanged |
| AuthContext.AuthProvider.UpdateUserProfile | src/contexts/AuthContext.tsx:130-140 | with no user, nothing changes; otherwise the patch is merged into the stored document (created if missing) and into the profile, which stays null if it was null; a failed write changes nothing |
| ReadingPage.ReadingsUsed | src/app/reading/page.tsx:32 | a loaded profile's count is used as it is, and without a profile the count is 0 |
| ReadingPage.MaxFreeReadings | src/app/reading/page.tsx:32 | a non-zero allowance of the profile is used as it is; a zero allowance or no profile gives 1; the result is never 0 |
| ReadingPage.QuotaExhausted | src/app/reading/page.tsx:32 | only a loaded non-premium profile can be refused, and it is refused exactly when its count reaches the effective allowance |
| ReadingPage.CanUseFreeReading | src/app/reading/page.tsx:68-69 | true exactly when the upload handler would not refuse; always true for premium users and without a profile |
| ReadingPage.CounterPatch | src/app/reading/page.tsx:55-57 | the patch writes only `readingsUsed`, as the current count + 1 |
| ReadingPage.CounterPatchAddsOne | src/app/reading/page.tsx:54-58 | the counter patch raises the profile's count by exactly one and changes nothing else |
| ReadingPage.OneFreeReadingPerNewAccount | src/app/reading/page.tsx:32-58 | a new account passes the quota once and is refused after one counted reading |
| ReadingPage.IsPreview | src/app/reading/page.tsx:216 | the page always passes `isPreview`, and it is true exactly when there is no profile or the profile is not premium |
| ReadingPage.PreviewObscuresExactlyNonPremium | src/app/reading/page.tsx:214-217 | with `isPreview = !isPremium`, the reading view obscures content exactly for non-premium users |
| ReadingPage.ReadingPage.constructor | src/app/reading/page.tsx:14-17 | the page starts with no uploaded image, no reading, no error and not analysing |
| ReadingPage.ReadingPage.HandleImageUpload | src/app/reading/page.tsx:27-66 | states the outcome of each path: <ul><li>a refusal sets the limit error and changes nothing else</li><li>a failed analysis or save sets the failure error and stores nothing; without a signed-in user the save fails, because Firestore refuses the `undefined` user id</li><li>a produced reading is always shown</li><li>a saved reading appends one record with the user's id, the image URL, the reading, the time and the premium flag</li><li>a premium user's counter is untouched</li><li>a signed-in non-premium user's counter goes up by one, or the update fails with the error set</li><li>`isAnalyzing` is false at the end of every path that started an analysis</li></ul> |
| ReadingPage.ReadingPage.TryAgain | src/app/reading/page.tsx:187-190 | clears the error and the uploaded image |
| ReadingPage.ReadingPage.GetAnotherReading | src/app/reading/page.tsx:203-207 | clears the reading, the uploaded image and the error |
| PalmReadingView.ShouldBlurContent | src/components/PalmReading.tsx:23-28 | content is obscured iff `isPreview` is true and the user is not premium; a missing profile is not premium; the default `isPreview` obscures nothing |
| PalmReadingView.TabOfId | src/components/PalmReading.tsx:30-36 | exactly the five tab ids name a tab, and each id names its own tab |
| PalmReadingView.ActivePanel | src/components/PalmReading.tsx:126-262 | a known tab id shows its panel; only the lines and mounts panels are obscured, and those exactly when blurring |
| PalmReadingView.NothingObscuredByDefault | src/components/PalmReading.tsx:23 | with `isPreview` left out, no panel is obscured |
| PalmReadingView.GatedTabsObscuredWhenBlurring | src/components/PalmReading.tsx:179-211 | the palm-lines and mounts tabs show their own panels, obscured exactly when blurring |
| PalmReadingView.UngatedTabsNeverObscured | src/components/PalmReading.tsx:126-262 | the overview, guidance and spiritual panels are never obscured |
| PalmReadingView.StrengthStars | src/components/PalmReading.tsx:46-50 | ten stars, where star i is filled iff i < score |
| PalmReadingView.FilledPrefixCount | src/components/PalmReading.tsx:46-50 | a bar filled below `score` has `score` filled stars, clamped to the bar's length |
| PalmReadingView.FilledStarsShowScore | src/components/PalmReading.tsx:46-50 | for every score in 1..10, exactly that many stars are filled |
| PalmReadingView.LineSections | src/components/PalmReading.tsx:185-190 | life, heart and head line sections in order, plus the fate line section exactly when it is present |
| PalmReadingView.AssembledReadingShowsFateLine | src/components/PalmReading.tsx:188-190 | every assembled reading shows all four line sections |
| PalmReadingView.ShowUpgradeCallToAction | src/components/PalmReading.tsx:266 | the call-to-action shows exactly when there is no profile or it is not premium, whether or not the reading is a preview |
| PalmReadingView.CallToActionMatchesPreviewBlur | src/components/PalmReading.tsx:266 | the upgrade call-to-action shows exactly for non-premium users, which is exactly when preview content is obscured |
| StripeLib.CatalogueShape | src/lib/stripe.ts:16-64 | three plans with distinct ids "free", "premium" and "deluxe"; the free plan costs 0 and has empty Stripe ids; the paid plans have a positive price and a price id |
| StripeLib.FindPlan | src/lib/stripe.ts:71 | `find` returns the first plan with the id, and none exactly when no plan has it |
| StripeLib.CreateCheckoutSession | src/lib/stripe.ts:66-96 | rejects with "Invalid plan selected" exactly the unknown plans and "free"; otherwise gives one line item of quantity 1 with the plan's non-empty price id, subscription mode, the given email, and metadata holding the user id and the plan id |
| StripeLib.DispatchEvent | src/lib/stripe.ts:108-119 | a completed checkout goes to the payment handler, a deleted subscription to the cancel handler, and anything else is only logged |
| StripeLib.HandleWebhook | src/lib/stripe.ts:98-120 | no handler runs when the signature does not verify |
| StripeWebhook.ResolveUserId | src/app/api/stripe-webhook/route.ts:38 | the user id is `client_reference_id` when truthy, else `metadata.userId` when truthy, else none; a resolved id is never empty |
| StripeWebhook.PremiumPatch | src/app/api/stripe-webhook/route.ts:43-49 | the update sets premium, status "active" and the customer and subscription ids, and leaves the counters and the tier alone |
| StripeWebhook.Post | src/app/api/stripe-webhook/route.ts:7-94 | states the response and the store: <ul><li>a missing signature or a failed verification answers 400 and leaves the store unchanged</li><li>the status is 200, 400 or 500, and 200 means received</li><li>a verified event other than a completed checkout with a resolvable user answers 200 and changes nothing</li><li>a verified completed checkout for a stored user, written successfully, answers 200 and merges exactly the premium patch into that user's document</li><li>a completed checkout whose `updateDoc` fails, or whose user has no document, answers 500 and changes nothing</li><li>the store changes only for a verified completed checkout with a resolvable user, and only that user's document changes</li></ul> |
| StripeWebhook.HandleRequest | src/app/api/stripe-webhook/route.ts:34-93 | the in-place handler gives `Post`'s response and store |
| StripeWebhook.CheckoutUpgradesUser | src/app/api/stripe-webhook/route.ts:36-53 | a verified completed checkout for a stored user answers 200 and marks that user premium and active with the customer and subscription ids and the update time, keeping the reading counters, the tier, the email, the display name and `createdAt`; the new store is the old one with only the premium patch merged into that user |
| StripeWebhook.DeletionDoesNotDowngrade | src/app/api/stripe-webhook/route.ts:64-70 | a subscription deletion answers 200 and changes no document |
| StripeWebhook.CheckoutRouteSession | src/app/api/create-checkout-session/route.ts:28-31 | the session the checkout route creates carries the user id both as `client_reference_id` and as `metadata.userId` |
| StripeWebhook.UserIdRoundTrip | src/app/api/create-checkout-session/route.ts:28-31 | the user id the checkout route writes comes back from the webhook unchanged |
| StripeWebhook.LibraryCheckoutResolvesUser | src/lib/stripe.ts:89-92 | a session from the library's checkout, which carries the user id only in its metadata, still resolves to that user |
| ImageUpload.MaxBytes | src/components/ImageUpload.tsx:36 | the `maxSize` prop counts mebibytes |
| ImageUpload.IsImageType | src/components/ImageUpload.tsx:30 | a type passes exactly when its first six characters are "image/" |
| ImageUpload.ImageSubtypesAccepted | src/components/ImageUpload.tsx:30 | every `image/` subtype passes, and no type whose sixth character is not "/" does |
| ImageUpload.CheckFile | src/components/ImageUpload.tsx:30-39 | rejects exactly the files whose type does not start with "image/" (type checked first) or whose size is strictly over the limit |
| ImageUpload.SizeLimitIsInclusive | src/components/ImageUpload.tsx:36-39 | a file of exactly `maxSize` MiB passes, and one byte more is rejected |
| ImageUpload.DefaultLimit | src/components/ImageUpload.tsx:17 | the default limit is 10 MiB |
| ImageUpload.StoragePath | src/components/ImageUpload.tsx:49 | the path starts with `palms/<uid>/`, ends with the file's name, and is 8 characters longer than uid, uuid and name together |
| ImageUpload.StoragePathOwner | src/components/ImageUpload.tsx:49 | the path starts with `palms/<uid>/`, and split on "/" it is "palms", the uid, then the pieces of `<uuid>_<name>` |
| ImageUpload.FilesOutcome | src/components/ImageUpload.tsx:24-63 | nothing happens without files or without a user; only the first file is checked; an accepted file is uploaded to its storage path, and the result is the download URL or a failure |
| ImageUpload.OnlyFirstFileMatters | src/components/ImageUpload.tsx:27 | files after the first never change the outcome |
| ImageUpload.ImageUploader.constructor | src/components/ImageUpload.tsx:15-21 | `maxSize` defaults to 10, and all three flags start off |
| ImageUpload.ImageUploader.HandleFiles | src/components/ImageUpload.tsx:24-63 | the outcome is `FilesOutcome`; early returns leave the flags alone; after an attempted upload `uploading` is false, and the preview is kept only if the upload succeeded |
| ImageUpload.ImageUploader.HandleDrag | src/components/ImageUpload.tsx:65-73 | enter and over set `dragActive`, leave clears it, and other events keep it |
| ImageUpload.ImageUploader.HandleDrop | src/components/ImageUpload.tsx:75-80 | a drop clears `dragActive` and then handles the files |
| ImageUpload.ImageUploader.ClearPreview | src/components/ImageUpload.tsx:86-88 | the preview is cleared |
| Dashboard.DashboardFreeReadingsLeft | src/app/dashboard/page.tsx:147 | the dashboard figure is ∞ for premium users and otherwise non-negative, and it is positive iff fewer than one reading is used |
| Dashboard.FreeReadingsLeft | src/app/reading/page.tsx:32 | a non-premium user's remaining allowance is positive exactly when the reading page allows a reading |
| Dashboard.AgreeOnDefaultAllowance | src/app/dashboard/page.tsx:147 | the dashboard figure is correct whenever the allowance is 1 |
| Dashboard.DashboardUndercountsLargerAllowance | src/app/dashboard/page.tsx:147 | with an allowance of 3 and one reading used, the dashboard shows 0 while the reading page allows a reading |

## Left out

- The vision-model request in `analyzePalmImage` (src/lib/palmAnalysis.ts:51-93) is a
  foreign call. Its reply text, or its absence, is a parameter.
- `generateReadingId`, `Date.now`, `new Date()`, `Math.random`, `uuidv4` and
  `URL.createObjectURL` are parameters. Random floats are bounded integer draws.
  Floating point is not modelled. Prices are integer cents.
- Every Firestore and Storage call is one atomic step that succeeds or fails, given by a
  boolean parameter. The calls covered are `getDoc`, `setDoc`, `updateDoc`, `addDoc`,
  `uploadBytes` and `getDownloadURL`. Async interleaving, React effects and re-renders are
  not modelled.
- The model does not distinguish Firestore `null` from a missing key, or a spread key
  explicitly set to `undefined` from an absent one.
- The Firestore client's settings are not part of this model. `HandleImageUpload` assumes
  the default, under which `addDoc` refuses a field whose value is `undefined`. So a save
  without a signed-in user fails. The page does not render the upload control for a
  signed-out visitor (src/app/reading/page.tsx:71-77), so the UI never reaches that path.
- A timestamp is an `int`. The record's `createdAt` in `HandleImageUpload` is its own
  parameter `now`, unrelated to the reading's `timestamp`, as two separate `new Date()`
  calls are.
- ReadingPage.ReadingPage.HandleImageUpload takes the analysis outcome as a parameter,
  constrained by nothing. It does not itself invoke `PalmAnalysis.AnalyzePalmImage`.
  Composing the two in one contract costs more solver effort than is available.
  `AnalyzePalmImage` is proved on its own.
- Strings are sequences of `char`, not UTF-16 code units. `Capitalize` upper-cases ASCII
  letters only.
- The mounts are a map, so the key order that `Object.entries` shows is not modelled.
- PalmAnalysis.ExtractHealthIndicators and PalmAnalysis.ExtractRecommendations return
  fixed texts that ignore the analysis. Their own contracts are empty; the lemmas
  `HealthIgnoresAnalysis` and `RecommendationsIgnoreAnalysis` state what they return.
- `signIn` and `signOut` are bare Firebase Auth calls. Their effect reaches the model only
  through the auth-state listener (`OnAuthStateChanged`).
- `handleSuccessfulPayment` and `handleCanceledSubscription` (src/lib/stripe.ts:122-133)
  only log. `DispatchEvent` records which one would run.
- The HMAC check of `stripe.webhooks.constructEvent` is an abstract function of body and
  signature. The webhook secret and the API key are not modelled.
- The webhook route and the checkout route import `stripe` from src/lib/stripe.ts. That
  module declares the client without `export`. The model assumes the import resolves.
- `stripe.checkout.sessions.create` is modelled by the request it receives. The session
  URL it returns is not modelled.
- The parameter check of the checkout route (400 on a missing price or user id) is not
  modelled. Only the ids it writes into the session are used, by `UserIdRoundTrip`.
- Redirects, rendering, alert texts shown to the user, date formatting and the
  `activeTab` click handler are not modelled. The active tab is a parameter of
  `ActivePanel`.

## Findings

| source | as written | input that shows it | evidently intended | confidence | as-written member | corrected member |
|---|---|---|---|---|---|---|
| src/app/dashboard/page.tsx:147 | "Free Readings Left" is `max(0, 1 - readingsUsed)`, with the allowance hard-coded to 1 | a non-premium profile with `maxFreeReadings` 3 and `readingsUsed` 1: the dashboard shows 0, while the reading page still allows a reading | `max(0, maxFreeReadings - readingsUsed)` with the same defaults as the reading page, so that a positive figure matches `canUseFreeReading` | medium: the app itself only ever writes an allowance of 1; not executed | Dashboard.DashboardUndercountsLargerAllowance | Dashboard.FreeReadingsLeft |
