# image-lizard credit ledger, in Dafny

image-lizard is a web application for generating images with credits. Users sign
up and receive a grant of 16 credits. Each image costs credits according to the model
chosen, and users buy more credits in packages.

This project models the parts that decide who has how many credits and what is
stored:

- **Transactions route** (`TransactionsRoute`): POST records a purchase once per
  `(user, payment intent)` and adds its credits to the buyer's balance. GET lists a
  user's transactions, newest first.
- **Images route** (`ImagesRoute`): POST saves one generated image. GET lists a user's
  images, newest first.
- **Generate-image route** (`GenerateImageRoute`):
  - validates the request;
  - maps each model to its provider configuration;
  - optionally appends a model-specific enhancement to the prompt;
  - calls the provider once and wraps the result as a data URL.
- **Playground page** (`Playground`):
  - the cost of a request ("total cost");
  - the gate that allows it ("can generate");
  - `handleGenerate`, which requests the images one by one and deducts credits only if
    every image arrived.
- **Auth context** (`AuthContext`): the client's signed-in user and `loading` flag.
  - The profile is loaded when a session exists.
  - The user follows sign-in and sign-out events.
  - The local credits change only after the store write succeeds.
- **Setup route** (`SetupDatabase`):
  - the environment check and connection test;
  - the chain of fallbacks that runs the schema SQL and the signup-trigger SQL;
  - the statement splitter of the last fallback.
- **Catalogue** (`Constants`): the three models and the four credit packages.

Shared pieces:

- **The store** (`Store.Database`) is a class with the `profiles` map and the
  `transactions` and `images` sequences.
  - Route handlers update it in place.
  - One increasing clock supplies row ids and `created_at` keys.
  - Its invariant `Valid` holds the schema's constraints: profiles are keyed by id, a
    present username is unique, and every transaction and image belongs to a profile.
- **Remote calls** enter as parameters:
  - each call to the hosted store is a `Types.Call`: answered, returned an error, or threw;
  - the image provider's answer is a `GenerateImageRoute.ProviderReply`;
  - the client's image service is a function from `Playground.Request` to
    `Playground.ImageResult`;
  - the session read is an `AuthContext.SessionReply`.
- **JavaScript helpers** (`Strings`): `trim`, `split` and `parseInt` are written out.
- **Listings** (`Listing`): the filter-and-order queries are proved sorted
  newest-first and a permutation of the matching rows.

Behaviours of the code worth noting:

- The playground always sends `autoEnhance: false`. The route's per-model enhancement is
  therefore never applied to playground requests (`Playground.RouteKeepsPagePrompt`).
  The page appends its own fixed phrase instead.
- In the transactions POST, an empty payment intent is falsy and skips the duplicate
  check. A failed duplicate check is only logged, and the purchase goes on.
- The last fallback of the setup chain marks success whatever its statements do. Setup
  therefore succeeds exactly when the environment is present and the connection test
  passes.
- The generate-image route indexes plain object literals with the client's string. A
  model string that names an `Object.prototype` member, such as `"toString"`, is not
  rejected: the provider is called with model `fal-ai/undefined`
  (`GenerateImageRoute.InheritedKeyReachesProvider`). Only other unknown strings end in
  the TypeError answer.
- Balance minus completed purchase credits starts at the 16-credit grant for every new
  profile (`Store.SignupStartsLedger`). A purchase that completes keeps it, and one that
  fails after its insert leaves it off by the purchased credits
  (`TransactionsRoute.InsertPathDrift`).

## Model

| member | source | states |
|---|---|---|
| Types.ParseModelType | types/index.ts:29 | a recognised identifier is read as the model whose identifier it is |
| Types.ParseModelTypeId | types/index.ts:29 | each of the three model identifiers is recognised as its own model |
| Constants.FindModel | lib/constants.ts:3-26 | the lookup returns a catalogue entry with the requested id, and None only when no entry has it |
| Constants.ModelsComplete | lib/constants.ts:3-26 | every model has a catalogue entry, and ids are distinct, so the page's non-null lookup cannot fail |
| Constants.CreditCost | lib/constants.ts:8-23 | the costs are 4, 32 and 63 credits for fast, sketch and pro |
| Constants.ModelCostsIncrease | lib/constants.ts:3-26 | every cost is positive, and costs strictly increase along the catalogue |
| Constants.PackagesOrdered | lib/constants.ts:28-54 | package ids are distinct, and credits and prices strictly increase along the list |
| Constants.OnePopularPackage | lib/constants.ts:35-41 | exactly the 150-credit package is marked popular |
| Strings.Trim | app/playground/page.tsx:37 | trim returns a slice of the input; everything cut is whitespace; a non-empty result starts and ends with non-whitespace |
| Strings.TrimEmptyIffBlank | app/playground/page.tsx:37 | the trimmed prompt is empty exactly when every character is whitespace |
| Strings.TrimIdempotent | app/api/setup-database/route.ts:161 | trimming twice gives the same result as trimming once |
| Strings.Split | app/api/setup-database/route.ts:160 | split yields at least one piece, and no piece contains the separator |
| Strings.JoinSplit | app/api/setup-database/route.ts:160 | joining the pieces with the separator restores the text |
| Strings.SplitJoin | app/api/setup-database/route.ts:160 | splitting separator-free pieces joined by the separator gives them back |
| Strings.SplitConcat | app/api/setup-database/route.ts:160 | splitting text around one separator gives the pieces of the left part, then those of the right |
| Strings.ParseInt | app/playground/page.tsx:36 | parsing yields NaN (None) exactly when the text is empty or has no leading digit |
| Strings.ParseIntDecimal | app/playground/page.tsx:36 | a number written in decimal parses back to itself |
| Listing.Filter | app/api/transactions/route.ts:132-135 | the filter keeps exactly the elements that satisfy the predicate, and is never longer than its input |
| Listing.FilterConcat | app/api/transactions/route.ts:132-135 | filtering distributes over concatenation |
| Listing.SortNewestFirst | app/api/transactions/route.ts:136 | the result is ordered by creation key, newest first, and is a permutation of the input |
| Listing.Query | app/api/images/route.ts:60-64 | the result is newest first, and holds every matching row with its multiplicity and no other row |
| Listing.QueryAfterAppend | app/api/images/route.ts:24-33 | a newer matching row appended to the table heads the listing, and the earlier listing follows unchanged |
| Listing.QueryAfterAppendOther | app/api/images/route.ts:24-33 | appending a row that does not match leaves the listing unchanged |
| Store.CompletedCreditsAppend | app/api/transactions/route.ts:58-66 | appending a completed transaction adds its credits to its owner's total, and to no one else's |
| Store.CompletedCreditsWithoutRows | app/api/setup-database/route.ts:79 | a user who owns no transaction has no completed credits |
| Store.SignupStartsLedger | app/api/setup-database/route.ts:193-202 | the profile the signup trigger adds has balance minus completed credits equal to the 16-credit grant, given the transactions foreign key |
| Store.Database.constructor | app/api/setup-database/route.ts:55-85 | the tables start empty, and the schema's constraints hold |
| Store.Database.HandleNewUser | app/api/setup-database/route.ts:193-208 | the trigger inserts the new identity's profile with the e-mail as username and 16 credits; it fails without change when the id has a profile or another profile has that username; a new profile starts with balance minus completed credits equal to the grant |
| Store.Database.InsertTransaction | app/api/transactions/route.ts:58-68 | one row stamped with the clock is appended, and nothing else changes |
| Store.Database.InsertImage | app/api/images/route.ts:24-33 | one row stamped with the clock is appended, and nothing else changes |
| Store.Database.UpdateCredits | app/api/transactions/route.ts:92 | only the credits of the profile with that id change; an unknown id changes nothing |
| TransactionsRoute.PaymentIntentOf | app/api/transactions/route.ts:6 | a payment intent in the request is used as sent; an absent one defaults to `"cash"` |
| TransactionsRoute.DuplicateLookup | app/api/transactions/route.ts:19-30 | found exactly when the query answers and one row has the user and intent; not found exactly when no row has them; thrown exactly when the query throws |
| TransactionsRoute.ReadCredits | app/api/transactions/route.ts:78-87 | the credits are read exactly when the query answers and the profile exists, and the value read is the stored one |
| TransactionsRoute.Post | app/api/transactions/route.ts:4-118 | the answer and the new tables for every path: validation failure, duplicate found, duplicate check thrown, and insert-then-credit with a 500 at each failing step |
| TransactionsRoute.RecordNew | app/api/transactions/route.ts:57-107 | a failed insert changes nothing; otherwise the row stays, and the balance becomes old balance + credits only if the read and the write both succeed |
| TransactionsRoute.InsertPathDrift | app/api/transactions/route.ts:57-97 | a purchase that completes keeps balance minus completed credits; one that fails after the insert lowers it by the purchased credits |
| TransactionsRoute.RecordedPurchaseHeadsHistory | app/api/transactions/route.ts:58-68 | the recorded transaction heads its buyer's listing, followed by the earlier listing |
| TransactionsRoute.RepeatFindsRecordedPurchase | app/api/transactions/route.ts:19-31 | after a fresh purchase is recorded, the duplicate check of the same request finds exactly that row |
| TransactionsRoute.PurchaseScenario | app/api/transactions/route.ts:4-107 | a new user with 16 credits buys 150 and ends at 166; the repeated request is reported as already processed with balance 166 |
| TransactionsRoute.Get | app/api/transactions/route.ts:120-150 | the 400 and 500 errors; on success, exactly the user's transactions with their multiplicity, newest first |
| ImagesRoute.Post | app/api/images/route.ts:4-46 | 400 on a missing field; 500 on an insert error or a user without a profile; otherwise one row is appended and returned |
| ImagesRoute.Get | app/api/images/route.ts:48-78 | the 400 and 500 errors; on success, exactly the user's images with their multiplicity, newest first |
| ImagesRoute.SavedImageListedFirst | app/api/images/route.ts:24-64 | a saved image heads its owner's listing, followed by the earlier listing |
| ImagesRoute.SavedImageHiddenFromOthers | app/api/images/route.ts:24-64 | saving an image leaves every other user's listing unchanged |
| GenerateImageRoute.Lookup | app/api/generate-image/route.ts:54 | indexing an object literal gives an own value exactly when an own key matches; otherwise an inherited member exactly when the key names one; otherwise undefined |
| GenerateImageRoute.TableKeys | app/api/generate-image/route.ts:7-42 | the configuration and enhancement tables have own entries exactly for the three model identifiers, none of which names an inherited member |
| GenerateImageRoute.Config | app/api/generate-image/route.ts:15-42 | every model type has its own configuration entry |
| GenerateImageRoute.ConfigEntries | app/api/generate-image/route.ts:15-42 | fast-sdxl, playground-v25 and stable-diffusion-v35-large, all 1024 by 1024, with 15, 25 and 50 steps |
| GenerateImageRoute.Enhancement | app/api/generate-image/route.ts:59-63 | every model type has its own enhancement entry |
| GenerateImageRoute.EnhancementEntries | app/api/generate-image/route.ts:59-63 | the three enhancement texts, one per model |
| GenerateImageRoute.Handle | app/api/generate-image/route.ts:44-95 | missing fields give 400 and no provider call; the provider is called exactly for a model identifier or an inherited member's name, with the possibly enhanced prompt; any other string gives the TypeError 500; an image gives 200 with the data URL of its payload; a provider error gives 500 with its message |
| GenerateImageRoute.ProviderCallFor | app/api/generate-image/route.ts:53-78 | for a known model the provider gets "fal-ai/" + its model id, its parameters, and the possibly enhanced prompt |
| GenerateImageRoute.EnhancedPrompt | app/api/generate-image/route.ts:57-66 | the typed prompt is a prefix of the provider prompt; what follows is nothing without the flag, and with it the printed enhancement-table entry of the model in parentheses |
| GenerateImageRoute.InheritedEnhancement | app/api/generate-image/route.ts:57-66 | for a key naming an inherited object member, the enhancement in parentheses is that member's printed form |
| GenerateImageRoute.EnhancedPromptFor | app/api/generate-image/route.ts:56-66 | without the flag the prompt is sent as typed; with it, a known model's prompt is followed by its enhancement in parentheses |
| GenerateImageRoute.InheritedKeyReachesProvider | app/api/generate-image/route.ts:54-78 | a model string naming an inherited member reaches the provider as "fal-ai/undefined" with undefined parameters, and with the flag its printed form joins the prompt |
| GenerateImageRoute.UnknownModelFails | app/api/generate-image/route.ts:53-93 | a string that is neither a model identifier nor an inherited member gives the TypeError 500 without a provider call |
| AuthContext.FetchUserProfile | context/auth-context.tsx:26-40 | the profile is returned exactly when the query answers and the row exists; every error becomes null |
| AuthContext.ToUser | context/auth-context.tsx:70-77 | the User carries the profile's id and credits and the session's e-mail, and projecting it back gives the profile unchanged |
| AuthContext.ToUserRoundTrip | context/auth-context.tsx:70-77 | the profile-to-User mapping keeps every profile column and takes the e-mail from the session |
| AuthContext.UpdateThenFetchAgrees | context/auth-context.tsx:226-241 | after a successful credits write, fetching the profile again yields exactly the updated local user |
| AuthContext.AuthProvider.constructor | context/auth-context.tsx:22-23 | there is no user, and loading is true |
| AuthContext.AuthProvider.LoadProfile | context/auth-context.tsx:106-120 | a found profile becomes the user; otherwise the user is kept |
| AuthContext.AuthProvider.FetchUser | context/auth-context.tsx:88-129 | loading ends false whatever happens; the user changes only through an active session with a found profile |
| AuthContext.AuthProvider.RefreshUserData | context/auth-context.tsx:43-85 | a session error, no session or no profile leave the user as it was |
| AuthContext.AuthProvider.OnAuthStateChange | context/auth-context.tsx:134-176 | sign-out clears the user; sign-in with a session and a found profile sets it; other events keep it |
| AuthContext.AuthProvider.UpdateCredits | context/auth-context.tsx:226-246 | false with no user or a failed write, and nothing changes; on success the stored credits and only the local credits become the new value |
| Playground.TotalCost | app/playground/page.tsx:35-36 | the cost is NaN (None) exactly when the count has no leading digit, and otherwise non-negative |
| Playground.TotalCostOfDecimal | app/playground/page.tsx:35-36 | n images cost n times the model's credit cost |
| Playground.SelectableCosts | app/playground/page.tsx:147-154 | the selectable counts cost 1, 2 and 4 times the model's credit cost |
| Playground.CanGenerate | app/playground/page.tsx:37 | generation is allowed exactly when there is a user, the credits (null read as 0) cover a numeric cost, and the prompt has a non-whitespace character |
| Playground.RequestPrompt | app/playground/page.tsx:59 | the typed prompt is a prefix of the request prompt; what follows is the page's fixed quality phrase with auto-enhance on and nothing otherwise |
| Playground.GenerateImages | app/playground/page.tsx:55-68 | requests go out in order and stop at the first failure; on success, the images are exactly the delivered data, in order |
| Playground.RouteKeepsPagePrompt | app/playground/page.tsx:59-61 | since the page does not send the enhance flag, the route passes the page's prompt to the provider as it is |
| Playground.PlaygroundPage.constructor | app/playground/page.tsx:27-33 | the page's initial state |
| Playground.PlaygroundPage.HandleGenerate | app/playground/page.tsx:39-80 | with no user, only the redirect happens; a closed gate sets the credits error only when credits are short; full success shows exactly the images and deducts the cost (the result stays non-negative); a failure keeps the images and deducts nothing; generating ends false |
| Playground.PlaygroundPage.Generate | app/playground/page.tsx:52-79 | after the gate: the error is cleared; full success shows exactly the delivered images and writes the new credits; any failure keeps the images and the store, and sets the failure error; generating ends false |
| Playground.PlaygroundPage.Deliver | app/playground/page.tsx:70-73 | the page shows exactly the delivered images and the auth context writes the new credits; only the credits of the user's profile change, and only when the write answers |
| SetupDatabase.TrimAll | app/api/setup-database/route.ts:161 | every piece is trimmed in place |
| SetupDatabase.SplitStatements | app/api/setup-database/route.ts:159-162 | every statement is non-empty, contains no semicolon and is already trimmed |
| SetupDatabase.SplitStatementsConcat | app/api/setup-database/route.ts:159-162 | the statements before a semicolon come before those after it |
| SetupDatabase.SplitStatementsSingle | app/api/setup-database/route.ts:159-162 | text without a semicolon is one trimmed statement, or none if it is blank |
| SetupDatabase.SplitStatementsJoin | app/api/setup-database/route.ts:159-162 | statements that are non-empty, trimmed and free of semicolons come back exactly from their semicolon-joined text |
| SetupDatabase.ConnectionTest | app/api/setup-database/route.ts:17-50 | a working RPC passes; otherwise the fallback query passes exactly when it answers or reports a missing relation; every failure message starts with the prefix |
| SetupDatabase.ConnectionErrorPrefixedTwice | app/api/setup-database/route.ts:21-48 | whenever the RPC probe fails, by error reply or throw, a fallback-query error other than a missing relation is reported with the prefix twice |
| SetupDatabase.ExecuteWithFallbacks | app/api/setup-database/route.ts:122-184 | the first succeeding method stops the chain; the last method sends every split statement with a semicolon and always reports success |
| SetupDatabase.RunStatements | app/api/setup-database/route.ts:166-175 | every statement is sent in order with a semicolon appended, whatever the earlier ones returned |
| SetupDatabase.Setup | app/api/setup-database/route.ts:4-297 | success exactly when both variables are set and the connection test passes; missing variables or a failed test give 500 before any SQL runs |

## Left out

- Session and sign-in calls (`signIn`, `signUp`, `signOut`) are outside the model. The
  values they produce enter as the `SessionReply` and `AuthEvent` parameters.
- The auth listener's two-second retry after a missing profile is not modelled, nor is
  unsubscribing the listener on unmount. Both are timer and subscription mechanics.
- Remote services are parameters of type `Types.Call` or result oracles. These include
  the hosted database client, the image provider SDK, `fetch`, and `process.env`, and
  their own behaviour is not shown. A client created from a malformed URL, which would
  throw, is not modelled.
- Request body parsing (`request.json()`) is not modelled. Bodies arrive as datatypes in
  which an absent field is None. A JSON `null` is not told apart from a missing field,
  and fields of the wrong type are not represented.
- Concurrency is out of scope, and handlers run one at a time. Two purchases racing
  between the duplicate check and the insert, and lost updates on the balance, are not
  modelled.
- Row-level security policies are not modelled. The routes use the service-role
  client, which bypasses them. The auth context reads and updates through the anon
  client (`lib/supabase.ts`), where the own-row policies apply. Its reads and its
  update both select the row whose id is the signed-in user's own, which those
  policies admit, so leaving them out changes no outcome for a valid session.
- Timestamps are abstract. `created_at` is an increasing natural number from the store's
  clock, and row ids are drawn from the same clock.
- The provider's float `guidance_scale` values (3 and 4.5) are not modelled.
- The SQL texts themselves are not parsed or executed. The constraints they declare
  become `Store.Database.Valid` and the checks in the insert paths. These constraints
  are: profile keys, unique usernames, the 16-credit default, and `user_id` referencing
  `profiles`. `NOT NULL` columns are always present in the row types.
- In the split fallback, splitting on every semicolon also cuts the dollar-quoted body of
  the trigger function into pieces. The model shows what is sent, not whether the
  database accepts it.
- The pages that only render are not modelled: the gallery, dashboard, signup, admin
  and checkout pages, and the components.
- The settings page's profile edit is not modelled. It changes a user's username and
  full name, never credits. A changed username can still make a later signup fail
  through the uniqueness check of `Store.Database.HandleNewUser`, which holds for any
  usernames the table contains.
- Two client helpers are not modelled: the image-card download and the credit package
  card's floating-point price per 100 credits.
- The mocked payment service is not modelled.
- The thin client wrappers `lib/image-service.ts` and `lib/supabase.ts` are not
  modelled. Each image request's outcome is what `generateImageWithAI` resolves to.
- The diagnostic routes (`db-diagnostics`, `check-connection`, `execute-sql`) are not
  modelled.
- Strings.ParseInt: does not model the leading whitespace, the sign or the `0x` prefix
  that `Number.parseInt` accepts. Counts are read as their leading decimal digits, which
  covers every value the page's selector offers.
- Playground.TotalCost: it inherits the decimal-only parse of `Strings.ParseInt`. A
  negative count is not modelled.
- AuthContext.AuthProvider.UpdateCredits: the write's error is caught and logged.
  Whether it was returned or thrown, the result is the same `false`.
- Playground.PlaygroundPage.HandleGenerate: the deduction is issued without being
  awaited. The page never looks at its outcome, and the model uses the store-call
  outcome it is given.
