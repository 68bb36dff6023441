# YouTube Transcript Analyzer — a Dafny model of its core logic

This is a Next.js app. It fetches the transcript of a YouTube video, answers questions about it with a
language model, and sells "pro" and "enterprise" plans. Its state lives in the browser's local storage,
under four keys:

- `users`: the registered accounts;
- `payments`: one record per completed checkout;
- `currentUser`: the signed-in account;
- `adminUser`: the admin session marker.

The model covers the five pieces of logic in the app:

- **Payment reconciliation** (`payment_success.dfy`, module `PaymentSuccess`). When the payment vendor
  redirects back, the page:
  - checks the `session_id`, `plan` and `user_id` query parameters;
  - sets the signed-in user's plan and attempt quota;
  - writes that user back into `currentUser` and into the `users` slot that matches its id;
  - appends one payment record;
  - reports success or failure with a message.

  `ProcessPayment` is a method of the module that takes the `Store` object and updates its fields step
  by step. It is proved equal to the
  pure function `Reconcile`, and the properties are proved about `Reconcile`.
- **Login** (`login.dfy`, module `Login`). The handler:
  - finds the first account whose username and password both match;
  - gives a plan-less account the plan "free" and writes it back into `users`;
  - signs the account in as `currentUser`.

  `HandleLogin` is proved equal to the pure function `Login`. Two things make the write-back land where it
  does, and the model keeps both:
  - The found object is the list's own element, so changing its plan also changes the chosen slot.
  - The write-back goes to the first slot whose *username* matches. With duplicate usernames, that slot
    holds a different account, which is then overwritten.
- **Admin statistics** (`admin.dfy`, module `Admin`). The admin page computes six numbers:
  - total revenue;
  - revenue for the current month;
  - the number of users;
  - the numbers of "free", "pro" and "enterprise" users, where a missing plan counts as "free". These are
    read from a dictionary filled by a loop over the users (`CountPlans`).

  It also renders each user's plan badge colour and the attempts column of the user table.
- **Transcript route** (`transcript.dfy`, module `TranscriptRoute`). The route:
  - checks the posted URL;
  - extracts the video id;
  - asks the transcript vendor once;
  - answers with the transcript and a title, or with a 400/500 error.

  The pattern `(?:youtube\.com\/watch\?v=|youtu\.be\/)([^&\n?#]+)` is written out as an explicit leftmost
  search (`IdStart`, `FirstMatch`, `IdRun`).
- **Chat route** (`chat.dfy`, module `ChatRoute`). The route:
  - checks that a question and a transcript were posted;
  - flattens an array transcript with `item.text || item` and `join(' ')`;
  - builds the prompt template;
  - answers with the model's text.

The shared modules are these:

- `Js` (`js.dfy`) writes out the JavaScript behaviour the code relies on:
  - truthiness of an optional string and `||` defaulting;
  - ASCII upper-casing;
  - the `${n}` rendering of an integer, with a parse-back round trip;
  - `Array.join` and `String.split` with their round trip.
- `Records` (`records.dfy`) holds the stored records, `find`/`findIndex` as `FindIndex`, and the store.
- `Http` (`http.dfy`) holds the JSON shapes of the two routes.

The calls to the transcript vendor and to the language model do not happen in the model. Their outcomes
are parameters of the route functions (`VendorReply`, `ModelReply`). The current month and year are a
parameter of the payment and admin operations.

Three behaviours of the code are worth knowing, and the model keeps each of them:

- **Payment amount.** Any plan other than "pro" is recorded as 999
  (app/payment-success/page.tsx:56), even a plan name that is not "enterprise".
- **Admin plan counts.** An unknown plan is counted under its own name (app/admin/page.tsx:55-56). So
  `freeUsers + proUsers + enterpriseUsers` can fall short of `totalUsers`.
- **Login write-back.** The backfilled plan lands in two slots of `users`. The first is the chosen slot,
  because the found object is the list's own element (app/login/page.tsx:27, 32). The second is the first
  slot whose username matches (app/login/page.tsx:34-36).

## Model

| member | source | states |
|---|---|---|
| Js.Truthy | app/payment-success/page.tsx:21 | JavaScript truthiness of an optional string (present and non-empty), a plain definition used by `PaymentSuccess.Complete`, `Login.Backfilled`, `Admin.LoadAdminPage`, `TranscriptRoute.HandleTranscript` and `ChatRoute.HandleChat` |
| Js.OrElse | app/api/transcript/route.ts:49 | JavaScript's or-default for an optional string (the value when truthy, otherwise the default), a plain definition used by `Admin.EffectivePlan` and `TranscriptRoute.HandleTranscript` |
| Js.UpperAscii | app/payment-success/page.tsx:67 | `toUpperCase` on one character: a lower-case ASCII letter becomes its upper-case letter, and every other character is kept |
| Js.NatToString | app/admin/page.tsx:216-217 | the decimal rendering of a natural number is non-empty and all digits, starts with '0' only for 0, and is exactly "0" for 0 |
| Js.IntToString | app/admin/page.tsx:216-217 | the `${n}` rendering of an integer is non-empty: all digits for a non-negative number, and a "-" followed by at least one digit for a negative one |
| Js.NatToStringRoundTrip | app/admin/page.tsx:216-217 | reading the digits of a rendered natural number gives the number back |
| Js.IntToStringRoundTrip | app/admin/page.tsx:216-217 | parsing the rendering of any integer gives that integer back |
| Js.Join | app/api/chat/route.ts:22 | `Array.join`, a plain recursive definition; its length is stated by `Js.JoinLength`, and `Js.SplitJoinRoundTrip` shows the pieces can be split back out |
| Js.JoinLength | app/api/chat/route.ts:22 | `join(sep)` of n ≥ 1 pieces is as long as the pieces together plus n − 1 separators |
| Js.SplitJoinRoundTrip | app/api/chat/route.ts:22 | when no piece contains the separator character, splitting the joined string on it gives the pieces back |
| Records.Matches | app/login/page.tsx:27-34 | the callbacks given to `find` and `findIndex` (same id, same username, same username and password), a plain definition used by `Records.FindIndex` |
| Records.Store.constructor | app/payment-success/page.tsx:30-50 | the four local-storage keys as fields of one object; the constructor starts from a given snapshot, and `PaymentSuccess.ProcessPayment`, `Login.HandleLogin` and `Admin.LoadAdminPage` work on it |
| Records.FindIndex | app/payment-success/page.tsx:43 | `findIndex`: the result is -1 exactly when no user matches, and otherwise it is the first matching index |
| PaymentSuccess.Complete | app/payment-success/page.tsx:21 | all three query parameters are present and non-empty, a plain definition used by `PaymentSuccess.Reconcile` |
| PaymentSuccess.AttemptsFor | app/payment-success/page.tsx:36 | the quota rule, a plain definition: 100 for "pro", 999 for "enterprise", otherwise the current value; `PaymentSuccess.Upgrade` states it case by case and `PaymentSuccess.UpgradeIdempotent` shows that a second upgrade keeps it |
| PaymentSuccess.PaymentAmount | app/payment-success/page.tsx:56 | the amount rule, a plain definition: 99 for "pro", 999 otherwise; stated on the record by `PaymentSuccess.NewPayment`, and tied to the admin total by `Admin.RevenueAfterReconcile` |
| PaymentSuccess.Upgrade | app/payment-success/page.tsx:35-36 | the plan becomes the `plan` parameter verbatim; the quota becomes 100 for "pro" and 999 for "enterprise" and is otherwise kept; id, username and password are kept |
| PaymentSuccess.NewPayment | app/payment-success/page.tsx:51-61 | id and stripeSessionId are both the session id; userId and username are copied from the updated user; the amount is 99 for "pro" and 999 for any other plan; the currency is "INR"; the status is "completed"; the date is the current month |
| PaymentSuccess.Capitalize | app/payment-success/page.tsx:67 | the first character is upper-cased and the rest of the plan name is kept, so the length is kept |
| PaymentSuccess.SuccessMessage | app/payment-success/page.tsx:67 | the message is "Successfully upgraded to ", then the capitalised plan, then " plan!" |
| PaymentSuccess.Reconcile | app/payment-success/page.tsx:16-77 | a missing parameter gives error "Missing payment information" and leaves the store as it was; otherwise the status is success. With no signed-in user nothing is written. With one: currentUser is the upgraded user; only the first slot with the same id is replaced, and no slot when none matches; the `users` length is kept; exactly one new record is appended to the old payments |
| PaymentSuccess.ProcessPayment | app/payment-success/page.tsx:16-77 | the step-by-step page effect leaves the store, the status and the message exactly as `Reconcile` describes |
| PaymentSuccess.UpgradeIdempotent | app/payment-success/page.tsx:36 | upgrading twice to the same plan gives the same user, and so the same quota, as upgrading once |
| PaymentSuccess.ReplayAppendsDuplicatePayment | app/payment-success/page.tsx:50-63 | reloading the page with the same redirect leaves currentUser and `users` as after the first run, but appends a second record with the same id |
| PaymentSuccess.ProUpgradeExample | app/payment-success/page.tsx:35-67 | "pro" for a user with 3 attempts gives plan "pro", 100 attempts, a 99 INR "completed" record and the message "Successfully upgraded to Pro plan!" |
| Login.Backfilled | app/login/page.tsx:31-32 | a user without a truthy plan gets "free" with everything else kept; a user with a plan is unchanged |
| Login.Login | app/login/page.tsx:19-47 | rejected exactly when no user has both the username and the password. Otherwise: the first such user i is chosen; the first username match j satisfies j ≤ i; the signed-in user is the backfilled choice; the length of `users` is kept. `users` is unchanged when the choice had a plan; otherwise slots i and j both hold the signed-in user, and no other slot changes |
| Login.HandleLogin | app/login/page.tsx:19-47 | on rejection the error is "Invalid username or password" and the store is unchanged; on success the error is empty, and `users` and `currentUser` are as `Login` says, with nothing else changed |
| Login.LoginSettles | app/login/page.tsx:27-42 | a second login with the same credentials right after a successful one changes nothing and signs in the same user |
| Login.UniqueUsernamesTouchOnlyChosen | app/login/page.tsx:27-39 | when usernames are unique, only the chosen user's slot can change |
| Login.DuplicateUsernameOverwritesOtherAccount | app/login/page.tsx:27-39 | with two accounts named "alice", a login to the plan-less second one overwrites the first account's record with a copy of the second |
| Login.BackfillExample | app/login/page.tsx:27-42 | a stored plan-less user is signed in, and stored, with plan "free" |
| Admin.TotalRevenue | app/admin/page.tsx:44 | the `reduce` sum of the amounts: 0 for no payments, and never negative when no amount is; `Admin.TotalRevenueAppend` shows it is additive |
| Admin.InMonth | app/admin/page.tsx:48-51 | a payment is dated in the current month of the current year, a plain definition used by `Admin.ThisMonth` |
| Admin.ThisMonth | app/admin/page.tsx:47-51 | the filter keeps each payment dated in the current month of the current year as many times as it occurs, and drops every other payment |
| Admin.MonthlyRevenue | app/admin/page.tsx:45-52 | the sum over the filtered payments, a plain definition; `Admin.MonthlyAtMostTotal` bounds it by the total and `Admin.RevenueExample` evaluates it |
| Admin.TotalRevenueAppend | app/admin/page.tsx:44 | the revenue sum is additive over concatenated payment lists |
| Admin.MonthlyAtMostTotal | app/admin/page.tsx:45-52 | with non-negative amounts, this month's revenue is between 0 and the total revenue |
| Admin.RevenueAfterReconcile | app/admin/page.tsx:44 | after the payment page has run, the total revenue has grown by the recorded amount when a user was signed in, and is unchanged otherwise |
| Admin.RevenueExample | app/admin/page.tsx:44-52 | 99 this month and 999 a year earlier give 1098 in total and 99 this month |
| Admin.EffectivePlan | app/admin/page.tsx:55 | the user's plan, or "free" when it is absent or empty: a plain definition that `Admin.PlanCount` and `Admin.CountPlans` count by |
| Admin.PlanCount | app/admin/page.tsx:54-56 | the number of users whose effective plan is the given one, never more than the number of users |
| Admin.PlanCountZeroIffAbsent | app/admin/page.tsx:54-56 | a plan's count is zero exactly when no user's effective plan is that plan |
| Admin.Lookup | app/admin/page.tsx:56 | the dictionary entry for a plan, or 0 when it has none, a plain definition used by `Admin.CountPlans` and `Admin.CountKnownPlans` |
| Admin.CountPlans | app/admin/page.tsx:54-58 | the dictionary maps every plan name to the number of users under it (a missing plan counts as "free"), and holds exactly the names with a positive count |
| Admin.CountKnownPlans | app/admin/page.tsx:64-66 | the free, pro and enterprise numbers read from the filled dictionary (0 when a key is missing) are exactly the users counted under each of those plans |
| Admin.PlanCountsWithinUsers | app/admin/page.tsx:54-66 | free + pro + enterprise counts are at most the number of users, with equality exactly when every effective plan is one of the three |
| Admin.LoadAdminPage | app/admin/page.tsx:25-67 | the page redirects to `/login` exactly when there is no truthy admin marker; otherwise it shows the total, this month's revenue, the number of users and the three plan counts |
| Admin.BadgeColor | app/admin/page.tsx:75-82 | blue exactly for "pro", purple exactly for "enterprise", gray exactly for every other plan |
| Admin.AttemptsShown | app/admin/page.tsx:216-217 | the user's remaining attempts, or 0 when absent, a plain definition used by `Admin.AttemptsDisplay` and `Admin.AttemptsDisplayReadsBack` |
| Admin.AttemptsCap | app/admin/page.tsx:216-217 | "100" for a pro user and "5" otherwise, a plain definition used by `Admin.AttemptsDisplay` and `Admin.AttemptsDisplayReadsBack` |
| Admin.AttemptsDisplay | app/admin/page.tsx:215-217 | "Unlimited" exactly for an enterprise user; otherwise the attempts (0 when absent), a "/", then 100 for a pro user or 5 otherwise |
| Admin.AttemptsDisplayReadsBack | app/admin/page.tsx:215-217 | for a non-enterprise user, splitting the column on "/" gives two parts: the first parses back to the attempts and the second is the cap |
| TranscriptRoute.IdStart | app/api/transcript/route.ts:17 | the pattern matches at a position exactly when one of the two prefixes starts there and is followed by an id character; the id then begins right after that prefix |
| TranscriptRoute.IdRun | app/api/transcript/route.ts:17 | the greedy `[^&\n?#]*` run is a slice of the URL that holds no delimiter and ends at a delimiter or at the end |
| TranscriptRoute.IdRunEndsAt | app/api/transcript/route.ts:17 | any delimiter-free stretch that ends at a delimiter or at the end of the URL is exactly the greedy run, so the run is unique |
| TranscriptRoute.FirstMatch | app/api/transcript/route.ts:17 | the leftmost position at which a prefix followed by an id character starts, with no match before it; none when nothing matches |
| TranscriptRoute.VideoId | app/api/transcript/route.ts:17-22 | no id exactly when the pattern matches nowhere; a found id is non-empty and holds no `&`, `?`, `#` or newline |
| TranscriptRoute.VideoIdIsLeftmostMaximalRun | app/api/transcript/route.ts:17-22 | the id is the text from the end of the leftmost matching prefix to the next delimiter or the end of the URL |
| TranscriptRoute.CanonicalFormExtracts | app/api/transcript/route.ts:17-22 | for text without a 'y', then either prefix, then a non-empty id, then nothing or a delimiter, the extracted id is exactly that id |
| TranscriptRoute.ShortUrlExample | app/api/transcript/route.ts:17-22 | "youtu.be/ab?t=1" gives the id "ab" |
| TranscriptRoute.EmptyIdExample | app/api/transcript/route.ts:17-22 | "youtu.be/#x" does not match |
| TranscriptRoute.WatchUrlExample | app/api/transcript/route.ts:17-22 | "https://www.youtube.com/watch?v=dQw4w9WgXcQ&t=42" gives "dQw4w9WgXcQ" |
| TranscriptRoute.Failure | app/api/transcript/route.ts:51-56 | status 500 with the error's message, or "Failed to fetch transcript" when the message is empty, a plain definition used by `TranscriptRoute.HandleTranscript` |
| TranscriptRoute.Delivered | app/api/transcript/route.ts:37-45 | the vendor replied ok with a JSON object holding a truthy transcript, a plain definition used by `TranscriptRoute.HandleTranscript` |
| TranscriptRoute.HandleTranscript | app/api/transcript/route.ts:8-58 | an unreadable body gives 500 with its message. A missing or empty url gives 400 "YouTube URL is required". No match gives 400 "Invalid YouTube URL". The vendor is asked, for the extracted id, exactly when the id exists. A non-ok reply gives 500 "RapidAPI request failed: " plus the status. An ok reply without a truthy transcript gives 500 "No transcript found for this video". A `fetch` that throws, or vendor JSON that cannot be read, gives 500 with the error's message, or "Failed to fetch transcript" when the message is empty. The answer is 200 exactly when a transcript was delivered, and it then carries that transcript and the title or "YouTube Video" |
| TranscriptRoute.InvalidUrlMakesNoRequest | app/api/transcript/route.ts:17-20 | a non-empty URL that matches nowhere is refused with 400 "Invalid YouTube URL", and no vendor request is made |
| Http.TranscriptPresent | app/api/chat/route.ts:15 | a transcript is truthy: present and not the empty string (an array, even an empty one, is truthy), a plain definition used by `ChatRoute.HandleChat` and `TranscriptRoute.Delivered` |
| ChatRoute.SegmentText | app/api/chat/route.ts:22 | the item's text as `join` renders it, a plain definition: the string item, the truthy `text`, or "[object Object]"; used by `ChatRoute.Pieces` |
| ChatRoute.Pieces | app/api/chat/route.ts:22 | `map` keeps the number of items and maps each item to `item.text`, or to the item itself when `text` is falsy |
| ChatRoute.Normalize | app/api/chat/route.ts:21-23 | a string transcript is used unchanged |
| ChatRoute.NormalizedLength | app/api/chat/route.ts:22 | a flattened array of n ≥ 1 items is as long as its pieces together plus n − 1 spaces |
| ChatRoute.NormalizedSplitsBack | app/api/chat/route.ts:22 | when no piece holds a space, splitting the flattened transcript on spaces gives the pieces back |
| ChatRoute.NormalizeExample | app/api/chat/route.ts:21-22 | `[{text:"a"},{text:"b"}]` becomes "a b" |
| ChatRoute.Prompt | app/api/chat/route.ts:25-35 | the prompt is the fixed head, the transcript, the fixed "USER QUESTION" part, the message and the fixed tail, in that order |
| ChatRoute.HandleChat | app/api/chat/route.ts:11-49 | an unreadable body gives 500 "Failed to generate AI response". A missing message or transcript gives 400 "Missing message or transcript". A prompt is sent exactly when both are present, and it is built from the normalised transcript and the message. The model's text is answered with 200; a model failure gives 500 "Failed to generate AI response" |

## Left out

- The Stripe webhook route (`app/api/webhooks/stripe/route.ts`) is not part of this model. Its signature
  check is a call into the Stripe library, and every event branch only logs.
- The loading screen `app/payment-success/loading.tsx` and all JSX rendering are not modelled. Neither is
  the React state plumbing, `router.push` navigation, or the 3-second redirect after a successful payment.
- Local storage is modelled as decoded values; JSON encoding is not modelled. So the parse failures are
  left out:
  - a corrupt `currentUser`, which leads to "Failed to process payment";
  - a `users` or `payments` value that fails to parse (app/payment-success/page.tsx:42, 50). It throws
    after `currentUser` was already written (app/payment-success/page.tsx:39), so the page ends in
    "Failed to process payment" with the upgrade half applied;
  - an unreadable `adminUser`.
- The `console.error` logging in the catch blocks of both routes (app/api/transcript/route.ts:52,
  app/api/chat/route.ts:43) is not modelled; it only writes to the server log.
- Values of the wrong JSON type are left out: a non-string `url` that makes `url.match` throw, a `null`
  transcript item, and non-string titles or messages. Fields are modelled as optional strings.
- The vendor `fetch` and the model's `generateContent` are not called. Their outcomes are parameters.
  Request headers and the API key are not modelled.
- The module-load checks of the environment variables are left out; they are configuration.
- Dates are abstract `(month, year)` values, and the current month and year are a parameter. `new Date()`,
  `toISOString`, time zones, `createdAt` and `toLocaleDateString` are left out.
- Js.UpperAscii: upper-cases ASCII letters only, because full Unicode case mapping is out of scope.
- Numbers are unbounded integers. JavaScript floating point, and non-integer amounts or attempt counts, are
  not modelled.
- Admin.CountPlans: states the JavaScript object's behaviour only for plan names that the empty object
  `{}` does not inherit. For "constructor", `(counts[plan] || 0) + 1` makes a string, and "__proto__" is
  never stored as a key (app/admin/page.tsx:56). The model treats every name as an ordinary key. The three
  counts the page reads (app/admin/page.tsx:64-66) are not affected.
- The admin page's log-out handler and the upper-cased plan label in the user table are left out; they are
  presentation only.
