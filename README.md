# AgriMitra AI: disease-label resolution and the OTP sign-in form

A Dafny model of the two pieces of logic in the AgriMitra AI mobile app.

**Disease detection** (`services/plantDiseaseAPI.ts`). A plant photo is sent to a remote
classifier. The classifier answers with a label of the form `<Species>___<Condition>`, such as
`Tomato___Late_blight`. The service turns that label into a `PlantDiseaseResult`:

- the Hindi crop and disease names, looked up in two translation tables, with the raw segment
  used when there is no translation;
- a confidence value;
- the symptoms, treatment and prevention lists from a five-entry disease catalog, with the
  `Tomato___Late_blight` entry used for an unknown label.

If the remote call fails, `detectDisease` does not report the failure. It returns a mock
result instead: one catalog label picked at random, with a random integer confidence in 75..99.

The model has three modules for this file:

- `LabelSplit`: JavaScript's `split('___')`.
- `DiseaseCatalog`: the three constant tables and the facts about them.
- `DiseaseResolver`: `parseAPIResponse`, `mockDetection` and `detectDisease`, as functions.

The remote call's outcome is a parameter. `None` stands for any exception inside
`callPlantDiseaseAPI`: a failed request, a non-ok status, a body that is not JSON, or a `null`
body (reading `prediction` from `null` throws). Each `Math.random()` draw is a real parameter in `[0, 1)`.

**OTP sign-in** (`project/components/FirebaseAuth.tsx`). This is a React component with six
pieces of state: `authMode`, `phoneNumber`, `email`, `otp`, `isOtpSent` and `isLoading`. Its
handlers update that state:

- `sendOtp` checks the phone or email, starts loading and sets a timer. When the timer fires,
  the OTP is marked sent.
- `verifyOtp` checks for a six-character OTP, starts loading and sets a timer. When the timer
  fires, loading stops and a mock user goes to `onAuthSuccess`.
- Resend clears `isOtpSent`.
- The two toggles switch the mode.
- The text fields edit the phone number, the email and the OTP.

Module `FirebaseAuth` models this as follows:

- The class `SignInForm` holds the six fields and has one method per handler. Each timer
  callback is its own method (`...TimerFires`), a step the caller may take at any time.
- Each method is specified by a pure function on the value `FormState` (`AfterSendOtp`, ...).
- The class invariant `Valid` (at most six OTP characters, from `maxLength={6}` at project/components/FirebaseAuth.tsx:129) is
  what the methods keep for one call each; it is the per-call counterpart of `RunKeepsOtpShort`.
- Lemmas about those functions, and about `Run` (a sequence of events), state the properties.
- The verification callback takes the `PendingVerify` value that `verifyOtp` returned. This
  value is what the JavaScript closure captured: the mode, phone number and email at the time
  `verifyOtp` ran.

Three points of the code's behaviour that are easy to miss, and that the model keeps:

- The confidence of a remote result is whatever the classifier sent, rounded to two decimals.
  The code does not force it into `[0, 100]`.
- A reported confidence of `0` counts as absent, because `||` treats it as falsy. A random
  value in `[70, 100]` then replaces it.
- A label without `___` gives a `disease` of `undefined` (`None` here), not a string.

## Model

| member | source | states |
|---|---|---|
| `LabelSplit.FirstDelimiter` | services/plantDiseaseAPI.ts:116 | the scan returns the first position at or after `from` where `___` starts, or -1 when there is none |
| `LabelSplit.Split` | services/plantDiseaseAPI.ts:116 | `split('___')` gives at least one piece, no piece contains the delimiter, the first cut is at the leftmost delimiter (the whole label when there is none), and no piece but the last ends in `_`, so every cut is leftmost and the pieces are exactly JavaScript's |
| `LabelSplit.JoinSplit` | services/plantDiseaseAPI.ts:116 | joining the pieces with `___` gives back the original label (nothing is lost by the split) |
| `LabelSplit.SplitIntoSeveral` | services/plantDiseaseAPI.ts:116 | a label has a second piece exactly when it contains `___` |
| `LabelSplit.SplitPair` | services/plantDiseaseAPI.ts:139 | `species___condition` splits into exactly `[species, condition]` when the species does not end in `_` and neither segment contains the delimiter |
| `DiseaseCatalog.DiseaseKeysListCatalog` | services/plantDiseaseAPI.ts:137 | `Object.keys(diseaseDatabase)` lists every catalog key exactly once, and the default label is a key |
| `DiseaseCatalog.TranslationsNonEmpty` | services/plantDiseaseAPI.ts:45-69 | no translation is empty, so `table[segment] \|\| segment` picks the translation for every known segment |
| `DiseaseCatalog.CatalogEntriesComplete` | services/plantDiseaseAPI.ts:17-41 | every catalog entry has three symptoms, three treatments and three prevention steps |
| `DiseaseCatalog.CatalogKeysTranslate` | services/plantDiseaseAPI.ts:17-69 | every catalog key splits into two segments: a species in the crop table and a condition in the disease table |
| `DiseaseResolver.ResolveLabel` | services/plantDiseaseAPI.ts:113 | the label is `prediction` if it is a non-empty string, else `class` if it is one, else `Tomato___Late_blight`; the label is never empty |
| `DiseaseResolver.Translate` | services/plantDiseaseAPI.ts:117-118 | the name is the table's translation when it exists and is non-empty, and the raw segment otherwise |
| `DiseaseResolver.CropName` | services/plantDiseaseAPI.ts:116-117 | the crop is `cropTranslations[species]` for the label's first segment when the table has it, and the raw segment otherwise |
| `DiseaseResolver.DiseaseName` | services/plantDiseaseAPI.ts:116-118 | the disease is defined exactly when the label contains `___`; it is then `diseaseTranslations[condition]` for the second segment when the table has it, and the raw segment otherwise |
| `DiseaseResolver.CatalogEntry` | services/plantDiseaseAPI.ts:120 | the lists are the label's catalog entry when the label is a key, else the `Tomato___Late_blight` entry; the lookup never fails |
| `DiseaseResolver.RoundToHundredths` | services/plantDiseaseAPI.ts:114 | `Math.round(x*100)/100` is within 0.005 of `x` and has at most two decimals |
| `DiseaseResolver.RoundingIsIdempotent` | services/plantDiseaseAPI.ts:114 | rounding an already rounded confidence changes nothing |
| `DiseaseResolver.ApiConfidence` | services/plantDiseaseAPI.ts:114 | a truthy reported confidence is kept (to within rounding); otherwise the random substitute lies in `[70, 100]`; either way the value has at most two decimals |
| `DiseaseResolver.ParseApiResponse` | services/plantDiseaseAPI.ts:111-130 | the result's names are those of the resolved label and its confidence is `ApiConfidence`; its lists are that label's catalog entry, or the default entry for an unknown label |
| `DiseaseResolver.CatalogLabelsTranslated` | services/plantDiseaseAPI.ts:116-120 | a remote label that is a catalog key always gets translated crop and disease names |
| `DiseaseResolver.PotatoEarlyBlight` | services/plantDiseaseAPI.ts:32-33 | `Potato___Early_blight` resolves to crop `आलू`, disease `अगेती झुलसा` and that entry's three symptoms |
| `DiseaseResolver.ParseIgnoresDrawExceptConfidence` | services/plantDiseaseAPI.ts:113-128 | resolving the same response twice gives the same names and lists, and the same confidence when the response carries one |
| `DiseaseResolver.MockIndex` | services/plantDiseaseAPI.ts:137-138 | `floor(r * length)` with `0 <= r < 1` is a valid index into the catalog keys |
| `DiseaseResolver.MockCanPickEveryKey` | services/plantDiseaseAPI.ts:137-138 | every catalog key is picked by some draw |
| `DiseaseResolver.MockConfidence` | services/plantDiseaseAPI.ts:143 | `floor(r * 25) + 75` lies in 75..99 |
| `DiseaseResolver.MockCanGiveEveryConfidence` | services/plantDiseaseAPI.ts:143 | every integer in 75..99 is produced by some draw |
| `DiseaseResolver.MockDetection` | services/plantDiseaseAPI.ts:132-155 | the mock label is a catalog key, so the lookup at line 145 succeeds; the lists are that key's entry; the crop and disease are the crop-table and disease-table translations of that key's own two segments; the confidence is `MockConfidence` of its draw, an integer in 75..99 |
| `DiseaseResolver.MockIgnoresConfidenceDraw` | services/plantDiseaseAPI.ts:138-145 | the mock record, apart from its confidence, depends only on the index draw |
| `DiseaseResolver.DetectDisease` | services/plantDiseaseAPI.ts:82-92 | the parsed remote result when the call succeeded, the mock result when it failed; either way the lists are a complete catalog entry, and no failure reaches the caller |
| `DiseaseResolver.CatalogEntriesRendered` | services/plantDiseaseAPI.ts:17-41 | every entry in the catalog's values has three items in each list |
| `FirebaseAuth.AfterSendOtp` | project/components/FirebaseAuth.tsx:17-27 | a rejected `sendOtp` (a phone shorter than 10 in phone mode, an email without `@` in email mode) changes nothing; an accepted one sets only `isLoading` |
| `FirebaseAuth.SendOtpGuardIsModeSpecific` | project/components/FirebaseAuth.tsx:18-25 | in phone mode only the phone length matters, and in email mode only the `@` matters |
| `FirebaseAuth.AfterSendOtpTimer` | project/components/FirebaseAuth.tsx:29-33 | the send timer sets `isOtpSent` and clears `isLoading`, and changes nothing else |
| `FirebaseAuth.SendOtpThenTimer` | project/components/FirebaseAuth.tsx:27-33 | an accepted send followed by its timer ends with the OTP sent, loading finished, and every other field as before |
| `FirebaseAuth.AfterVerifyOtp` | project/components/FirebaseAuth.tsx:36-42 | an OTP whose length is not 6 changes nothing; a 6-character OTP sets only `isLoading` |
| `FirebaseAuth.AfterVerifyOtpTimer` | project/components/FirebaseAuth.tsx:44-45 | the verification timer clears `isLoading` and changes nothing else |
| `FirebaseAuth.VerifiedUser` | project/components/FirebaseAuth.tsx:46-52 | the user has uid `mock-user-id` and display name `राम कुमार`; its phone number is present exactly in phone mode and its email exactly in email mode, each equal to the captured value |
| `FirebaseAuth.VerifyOtpThenTimer` | project/components/FirebaseAuth.tsx:37-52 | an accepted verify followed by its timer only stops loading, and signs in the user with the identifier of the current mode |
| `FirebaseAuth.AfterResend` | project/components/FirebaseAuth.tsx:142-144 | resend clears only `isOtpSent` |
| `FirebaseAuth.ResendOnlyReopensEntry` | project/components/FirebaseAuth.tsx:142-144 | resend sends nothing: loading, the OTP, and whether `sendOtp` would accept the identifier all stay the same |
| `FirebaseAuth.AfterSelectMode` | project/components/FirebaseAuth.tsx:70-79 | a toggle changes only `authMode` |
| `FirebaseAuth.ToggleAndBack` | project/components/FirebaseAuth.tsx:70-79 | switching mode and back restores the whole state, so entered phone and email values are kept |
| `FirebaseAuth.AfterEditIdentifier` | project/components/FirebaseAuth.tsx:99-100 | the identifier field edits the phone number in phone mode and the email in email mode |
| `FirebaseAuth.AfterEditOtp` | project/components/FirebaseAuth.tsx:126-129 | the OTP field keeps the typed text when it has at most six characters and its first six characters otherwise, and changes nothing else |
| `FirebaseAuth.RunKeepsOtpShort` | project/components/FirebaseAuth.tsx:129 | no sequence of handler calls and timer completions gives the OTP more than six characters; each `SignInForm` method keeps the same fact as its invariant `Valid` |
| `FirebaseAuth.OtpSentOnlyByTimer` | project/components/FirebaseAuth.tsx:30 | starting from the entry screen, only the send timer can reach the OTP screen |
| `FirebaseAuth.OtpScreenWithUncheckedEmail` | project/components/FirebaseAuth.tsx:17-33 | switching to email mode while sending lets the timer show the OTP screen for an email that was never checked |
| `FirebaseAuth.SignInForm.constructor` | project/components/FirebaseAuth.tsx:10-15 | a new form is in phone mode with empty fields, no OTP sent and not loading |
| `FirebaseAuth.SignInForm.SendOtp` | project/components/FirebaseAuth.tsx:17-34 | updates the fields as `AfterSendOtp` says; the timer is scheduled exactly when the guard accepts |
| `FirebaseAuth.SignInForm.SendOtpTimerFires` | project/components/FirebaseAuth.tsx:29-33 | updates the fields as `AfterSendOtpTimer` says |
| `FirebaseAuth.SignInForm.VerifyOtp` | project/components/FirebaseAuth.tsx:36-54 | updates the fields as `AfterVerifyOtp` says; exactly when the OTP has six characters it returns the closure of its timer (and starts no timer otherwise), which holds the mode, phone number and email as they were when `verifyOtp` ran |
| `FirebaseAuth.SignInForm.VerifyOtpTimerFires` | project/components/FirebaseAuth.tsx:44-53 | clears `isLoading` and returns the user passed to `onAuthSuccess` |
| `FirebaseAuth.SignInForm.Resend` | project/components/FirebaseAuth.tsx:144 | updates the fields as `AfterResend` says |
| `FirebaseAuth.SignInForm.SelectMode` | project/components/FirebaseAuth.tsx:70-79 | updates the fields as `AfterSelectMode` says |
| `FirebaseAuth.SignInForm.EditIdentifier` | project/components/FirebaseAuth.tsx:100 | updates the fields as `AfterEditIdentifier` says |
| `FirebaseAuth.SignInForm.EditOtp` | project/components/FirebaseAuth.tsx:127-129 | updates the fields as `AfterEditOtp` says |
| `FirebaseAuth.PhoneSignIn` | project/components/FirebaseAuth.tsx:17-53 | typing a 10-or-more-character phone number and a 6-character code, with each timer firing, signs in a user with that phone number and no email |

## Left out

- The HTTP request. The `fetch` POST with `FormData`, the `response.ok` check and `response.json()` (services/plantDiseaseAPI.ts:94-109) are network I/O. Their outcome is an `Option<ApiResponse>` parameter.
- `Math.random()`. Each draw is a real parameter in `[0, 1)`.
- Floating point. JavaScript numbers are modelled as exact reals. `Math.round` is modelled as floor of `x + 0.5`, and binary rounding error is not modelled. A `NaN` confidence, which is falsy, is not modelled.
- Non-string `prediction` or `class` values. The model types both as optional strings. A truthy non-string would make `split` throw, and the service would then fall back to the mock result; that path is not modelled.
- Prototype keys. Looking up a label such as `constructor` in a JavaScript object literal finds a property inherited from `Object.prototype`. The tables here are plain maps, so that lookup is not modelled.
- The timers. The delays in `setTimeout` and the two-second delay at services/plantDiseaseAPI.ts:134 are not modelled; each callback is a separate completion step instead.
- Side-effect output. `console.warn` and `Alert.alert` produce output only and are not modelled.
- The singleton. `getInstance` (services/plantDiseaseAPI.ts:75-80) is plain lazy initialisation.
- The UI. The JSX, the styles and the buttons' `disabled={isLoading}` are not modelled. Handlers are modelled as the code writes them: they do not check `isLoading` themselves, and the model also lets them run on either screen.
- String length. JavaScript `length` counts UTF-16 code units, while Dafny counts characters. The two differ only for characters outside the Basic Multilingual Plane.
- `onAuthSuccess` and navigation. `onAuthSuccess` is not called; `VerifyOtpTimerFires` returns the user it would receive. The navigation in project/app/auth.tsx and project/app/index.tsx is not part of this model.
- Non-number `confidence` values. The model types `confidence` as an optional real. A truthy non-number such as the string `"85"` is coerced to a number by `* 100` at services/plantDiseaseAPI.ts:114; that coercion is not modelled.
- Timer scheduling. The completion steps (`SendOtpTimerFires`, `VerifyOtpTimerFires`, and the `SendOtpTimer` and `VerifyOtpTimer` events of `Run`) may run without an accepted press before them, or more than once. The model therefore admits more runs than the component has. The lemmas over `Run` hold for all of them, but "only an accepted `sendOtp` leads to the OTP screen" is not stated.
