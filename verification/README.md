# Job submission, polling and session bookkeeping of an image-transformation client

This project models, in Dafny, the client-side logic of a browser front end for
an image-transformation service (face swap, AI avatar, image to video). The
model covers four pieces of that front end:

- **The dashboard's job controller** (`dashboard.dfy`, `dashboard_lemmas.dfy`).
  It holds the catalog of transformations and their credit costs. It runs the
  three checks of `handleProcess` in order: source image, then target image for
  a face swap, then credits. It makes the optimistic credit decrement when the
  backend acknowledges a job. It polls the job until it is `completed` or
  `failed`, prepends completed jobs to the history, and refuses uploads over
  10 MiB. It also loads the balance and history when the page mounts.
- **The API client** (`api.ts`, modelled in `api.dfy`). The client holds a
  mutable bearer token that it keeps in local storage. Every request gets a
  JSON content type, plus an `Authorization` header when the token is truthy.
  Every answer is mapped to one `{success, data?, error?}` value: an ok
  response, a non-ok response (error text taken from `error`, then `message`,
  then `'Request failed'`), or an exception (its message, or `'Network error'`).
- **The session provider** (`AuthContext.tsx`, modelled in `auth.dfy`). It
  covers `refreshUser`, `login`, `signup` and `logout` over the user record,
  the loading flag and the client's token. It also covers `isAuthenticated` and
  the `useAuth` guard.
- **The sign-up form** (`Signup.tsx`, modelled in `signup.dfy`). It covers the
  six-character password gate and the registration request `handleSubmit`
  sends with the form's email, password and name. It also covers the effects
  the handler records: loading flag on, signup call, toast and navigation,
  loading flag off. The loading effects are read from the `isLoading` cell and
  the call effect from the request actually sent.

Each stateful piece is a class whose fields are the source's state cells:
`Dashboard.Controller`, `Api.ApiClient`, `Auth.AuthProvider` and
`Signup.SignupForm`. `Dashboard.Controller` and `Auth.AuthProvider` expose a
`State()` function that returns their cells as one datatype value. Their
handlers are proved to move `State()` exactly as a pure step function says
(`Process`, `Tick`, `PollAll`, `Upload`, `Mounted`, `RefreshStep`, `AuthStep`,
`LogoutStep`). The two setters `SelectType` and `RemoveImage` state the new
value directly, as a record update. The properties are then proved as lemmas
about those step functions. The methods of `Api.ApiClient` and
`Signup.SignupForm` state their new fields directly. `HandleSubmit` also states
the request it sends, and its recorded effects equal `SubmitEffects`.

What the network returns is always an input. `fetch` together with
`response.json()` becomes a `FetchOutcome`: `Replied(body)` for an ok response,
`Refused(error, message)` for a non-ok one, and `Threw(...)` for an exception.
The dashboard's handlers take the client's already normalised `ApiResponse`.
The contents of local storage are the client's `saved` field. The data URL that
`FileReader` produces is part of the `FileInfo` input.

JavaScript truthiness is modelled exactly as the code relies on it. An empty
string counts as absent for the source and target images, for the token, and
in every `a || b` fallback (`Values.Present`, `Values.OrElse`).

Each running `setInterval` poll loop is one entry of `loops`, holding the job id
it queries. A tick names the entry it comes from. The source never cancels a
running interval when a new job is submitted, so several entries can be live at
once.

Some behaviours of the code are easy to assume wrongly. The model follows the code in each:

- Job status is not kept monotonic: every successful poll response replaces
  the current job, so a `pending` answer after a `processing` one moves the
  status backwards (`DashboardProperties.StatusMayRegress`).
- A new submission does not cancel an earlier poll loop
  (`DashboardProperties.ResubmitKeepsEarlierIntervals`).
- There is no poll timeout: a loop stops only on a `completed` or `failed`
  response.
- Failed jobs never enter the history, and no credits are refunded on failure;
  only completed jobs are added.
- The mount-time history request does not prepend to the local list; it
  replaces it.
- An unauthorised answer is not a distinct failure kind: every failure is an
  error string.
- The `Authorization` header is not sent for every non-null token: it is
  present exactly when the token is truthy (non-null and non-empty).

One behaviour of the code is worth knowing. `login` and `signup` of the
provider adopt the body's user whenever the call succeeds with a body. The
client, however, stores the token only when the body carries a truthy one. A
successful answer without a token therefore signs the user in while later
requests carry no credential (`Auth.AuthWithoutTokenSignsIn`).

## Model

| member | source | states |
|---|---|---|
| `Values.FirstPresent` | src/lib/api.ts:113 | the chain `a`, then `b`, then the fallback yields the first truthy string, and the result is never empty when the fallback is not |
| `Api.RequestHeaders` | src/lib/api.ts:93-100 | the content type is always `application/json`; an `Authorization` header is present iff the token is truthy, and then it equals `Bearer <token>` |
| `Api.RefusalMessage` | src/lib/api.ts:110-115 | a non-ok response's error is `data.error`, else `data.message`, else `'Request failed'`, and it is never empty |
| `Api.ThrownMessage` | src/lib/api.ts:121-125 | an exception that is an `Error` yields its own message; any other thrown value yields `'Network error'` |
| `Api.Normalise` | src/lib/api.ts:102-126 | `success` holds iff the response was ok; then `data` is the parsed body and there is no error; a non-ok response carries the fallback-chain error; an exception carries its `Error` message or `'Network error'`; every failure has an error and nothing escapes as an exception |
| `Api.GrantedToken` | src/lib/api.ts:136-138 | a login or registration result yields a token iff it succeeded with a body whose token is truthy |
| `Api.TokenAfterAuth` | src/lib/api.ts:136-138 | the token after login or registration is the granted token if there is one, and otherwise the old token unchanged |
| `Api.FailedAuthKeepsToken` | src/lib/api.ts:130-154 | a non-ok or thrown login or registration never changes the token |
| `Api.ApiClient.constructor` | src/lib/api.ts:69-72 | a new client keeps its base URL and starts from the token found in local storage |
| `Api.ApiClient.SetToken` | src/lib/api.ts:74-81 | the token becomes `t`; local storage holds `t` when `t` is truthy and is cleared otherwise |
| `Api.ApiClient.GetToken` | src/lib/api.ts:83-85 | returns the current token |
| `Api.ApiClient.Request` | src/lib/api.ts:87-127 | the request goes to `baseUrl + endpoint` with the given verb and body and the token's headers, and the result is the normalised outcome |
| `Api.ApiClient.Login` | src/lib/api.ts:130-141 | POSTs the payload to `/api/auth/login` with the headers of the token held before the call; returns the normalised result; adopts and persists the token only when the result grants one, and otherwise leaves token and storage unchanged |
| `Api.ApiClient.Signup` | src/lib/api.ts:143-154 | the same as `Login`, for `/api/auth/register` with the sign-up payload |
| `Api.ApiClient.Logout` | src/lib/api.ts:156-158 | the token is null and local storage no longer holds one |
| `Api.ApiClient.GetCurrentUser` | src/lib/api.ts:160-162 | GET `baseUrl + /api/auth/me` with the token's headers; normalised result |
| `Api.ApiClient.ProcessJob` | src/lib/api.ts:165-170 | POST of the job payload to `baseUrl + /api/web/process`; normalised result |
| `Api.ApiClient.GetJobStatus` | src/lib/api.ts:172-174 | GET `baseUrl + /api/web/jobs/<id>`; normalised result |
| `Api.ApiClient.GetJobHistory` | src/lib/api.ts:176-178 | GET `baseUrl + /api/web/jobs`; normalised result |
| `Api.ApiClient.GetCredits` | src/lib/api.ts:181-183 | GET `baseUrl + /api/user/credits`; normalised result |
| `Auth.RefreshStep` | src/contexts/AuthContext.tsx:20-35 | after `refreshUser` a user is present only if there was a truthy token and the request answered with that user, and the token is then kept; otherwise the token is either kept or dropped, never replaced |
| `Auth.AuthStep` | src/contexts/AuthContext.tsx:41-57 | after `login`/`signup` the token is the old one or the truthy token of a successful body; the user changes only when the request was answered |
| `Auth.AuthOutcome` | src/contexts/AuthContext.tsx:43-47 | the provider reports success iff the client succeeded with a body, then without an error; a failure carries the client's error |
| `Auth.LogoutStep` | src/contexts/AuthContext.tsx:59-62 | after `logout` nobody is authenticated and no truthy token remains; the loading flag is untouched |
| `Auth.RefreshWithoutToken` | src/contexts/AuthContext.tsx:21-25 | with no truthy token, `refreshUser` sets the user to null and ends loading, whatever the network would have said |
| `Auth.RefreshWithToken` | src/contexts/AuthContext.tsx:27-34 | with a token, success adopts the returned user and keeps the token; any failure sets the user to null and clears the token and its stored copy |
| `Auth.RefreshEndsLoading` | src/contexts/AuthContext.tsx:20-35 | loading is false after `refreshUser` on every path |
| `Auth.RefreshBacksUser` | src/contexts/AuthContext.tsx:20-35 | after `refreshUser`, a signed-in user always has a truthy token behind it |
| `Auth.StepsKeepStorageSynced` | src/lib/api.ts:74-81 | refresh, login or signup, and logout all keep local storage equal to the persisted form of the token |
| `Auth.AuthStepOutcome` | src/contexts/AuthContext.tsx:41-57 | on success `login`/`signup` adopt the body's user and report success; on failure the session is unchanged and the client's error is passed through; loading is untouched |
| `Auth.AuthStepBacksUser` | src/contexts/AuthContext.tsx:41-57 | if every successful body carries a token, `login`/`signup` keep a signed-in user backed by a token |
| `Auth.AuthWithoutTokenSignsIn` | src/contexts/AuthContext.tsx:43-44 | a successful body without a token signs the user in while the client keeps no token |
| `Auth.LogoutSignsOut` | src/contexts/AuthContext.tsx:59-62 | after `logout` nobody is authenticated and neither the token nor its stored copy remains |
| `Auth.AuthProvider.IsAuthenticated` | src/contexts/AuthContext.tsx:69 | `isAuthenticated` holds iff the user is non-null |
| `Auth.AuthProvider.constructor` | src/contexts/AuthContext.tsx:17-18 | the provider starts with no user and loading on |
| `Auth.AuthProvider.RefreshUser` | src/contexts/AuthContext.tsx:20-35 | performs `RefreshStep`; it issues the `/api/auth/me` request iff the token is truthy |
| `Auth.AuthProvider.Login` | src/contexts/AuthContext.tsx:41-48 | the client POSTs exactly `{email, password}` to `/api/auth/login` with the headers of the token held before the call; the session moves by `AuthStep` and the result is `{success: true}` or `{success: false, error}` |
| `Auth.AuthProvider.Signup` | src/contexts/AuthContext.tsx:50-57 | the client POSTs exactly `{email, password, name}` to `/api/auth/register` with the pre-call headers; otherwise the same as `Login` |
| `Auth.AuthProvider.Logout` | src/contexts/AuthContext.tsx:59-62 | clears the client's token and the user |
| `Auth.UseAuth` | src/contexts/AuthContext.tsx:81-86 | fails with `'useAuth must be used within an AuthProvider'` iff there is no provider, and otherwise returns the provider's value |
| `Signup.SubmitEffects` | src/pages/Signup.tsx:27-58 | signup is called iff the password has at least six characters, and every signup call carries the form's email, password and name |
| `Signup.ShortPasswordRejected` | src/pages/Signup.tsx:30-37 | a password under six characters causes no signup call, no loading change and no navigation |
| `Signup.LoadingAroundCall` | src/pages/Signup.tsx:39-57 | otherwise loading goes on first, signup is called next with (email, password, name), and loading goes off last, with no other loading change or call in between |
| `Signup.NavigatesOnlyOnSuccess` | src/pages/Signup.tsx:43-48 | the handler navigates iff the password passed and signup succeeded, and only ever to `/dashboard` |
| `Signup.FailureMessage` | src/pages/Signup.tsx:49-55 | a failed signup shows `result.error` when truthy, else the generic text |
| `Signup.SignupForm.constructor` | src/pages/Signup.tsx:18-22 | the form starts empty and not loading |
| `Signup.SignupForm.HandleSubmit` | src/pages/Signup.tsx:27-58 | a registration request is sent iff the password has at least six characters, and it is exactly the POST of `{email, password, name}` to `/api/auth/register`; the recorded effects are those of `SubmitEffects`, with the loading effects read from the `isLoading` cell; a short password leaves loading and the session untouched; otherwise loading ends false and the session moves by `AuthStep` |
| `Dashboard.Find` | src/pages/Dashboard.tsx:124 | `find` returns none iff no entry has the type, and otherwise the first entry with it |
| `Dashboard.RequiredCredits` | src/pages/Dashboard.tsx:124 | the cost is the price of the first catalog entry for the type when that price is non-zero, and 1 when there is no entry or the price is 0; so it is never 0 |
| `Dashboard.Initial` | src/pages/Dashboard.tsx:59-65 | the page starts with no job, empty history, not processing and no interval; credits are the user's, or 0 without a user; a submission from it is refused for the missing source |
| `Dashboard.Check` | src/pages/Dashboard.tsx:106-132 | the refusal is a missing source iff no truthy source; a missing target iff the source is present, the type is face swap and there is no truthy target; short of credits iff both images pass and credits < cost; and none iff all three pass |
| `Dashboard.PayloadOf` | src/pages/Dashboard.tsx:136-140 | the request carries the selected type and the non-empty source image, and a target image iff the page's is truthy, then that one |
| `Dashboard.Process` | src/pages/Dashboard.tsx:105-179 | `handleProcess` is refused iff a check fails; it never changes the type, the images or the history; the balance either stays or drops by the type's cost on an acknowledged job, and a changed balance is never negative |
| `Dashboard.Tick` | src/pages/Dashboard.tsx:147-170 | a tick never changes credits, type or images; a stopping response removes its interval and clears processing; any other keeps interval, flag and history; the history otherwise gains only the completed job at its head |
| `Dashboard.PollAll` | src/pages/Dashboard.tsx:147-170 | a run of ticks either leaves the intervals as they were, with the processing flag unchanged, or removes exactly its own interval |
| `Dashboard.Upload` | src/pages/Dashboard.tsx:86-101 | an upload changes at most the two images, and changes anything only for a present file of at most 10 MiB |
| `Dashboard.Mounted` | src/pages/Dashboard.tsx:67-80 | mounting changes nothing but the balance and the history |
| `Dashboard.GenerateEnabled` | src/pages/Dashboard.tsx:321 | when the generate button is enabled, the missing-source check cannot fire |
| `Dashboard.RemoveAt` | src/pages/Dashboard.tsx:153 | removing the stopped interval drops exactly entry `k` and keeps the others in order |
| `Dashboard.Consumed` | src/pages/Dashboard.tsx:147-170 | an interval never issues more queries than there are responses, and it issues at least one when there is a response |
| `Dashboard.Controller.constructor` | src/pages/Dashboard.tsx:59-65 | the page starts on face swap with no images, no job, empty history, not processing, no interval, and credits equal to the user's or 0 |
| `Dashboard.Controller.SelectType` | src/pages/Dashboard.tsx:280 | only the selected type changes |
| `Dashboard.Controller.RemoveImage` | src/pages/Dashboard.tsx:205 | only that slot's image is cleared |
| `Dashboard.Controller.HandleFileUpload` | src/pages/Dashboard.tsx:82-103 | performs `Upload`: no file or one over 10 MiB changes nothing, and otherwise the slot's image becomes the file's data URL |
| `Dashboard.Controller.LoadOnMount` | src/pages/Dashboard.tsx:67-80 | performs `Mounted` |
| `Dashboard.Controller.HandleProcess` | src/pages/Dashboard.tsx:105-179 | the new state and the outcome are exactly those of `Process` |
| `Dashboard.Controller.PollTick` | src/pages/Dashboard.tsx:147-170 | queries `/api/web/jobs/<id>` for the interval's job and performs `Tick` |
| `Dashboard.Controller.RunPolls` | src/pages/Dashboard.tsx:147-170 | feeds the interval one response per tick until one stops it; it issues exactly `Consumed(rs)` queries, all for that job, and ends in `PollAll` |
| `DashboardProperties.CatalogCosts` | src/pages/Dashboard.tsx:27-52 | face swap costs 1, avatar 3 and image to video 5 credits |
| `DashboardProperties.CostFallsBackToOne` | src/pages/Dashboard.tsx:124 | a type missing from the catalog costs 1; with no negative prices every type costs at least 1 |
| `DashboardProperties.RejectionChangesNothing` | src/pages/Dashboard.tsx:106-132 | a refused submission leaves credits, current job, history, processing flag and intervals unchanged, whatever the backend would answer |
| `DashboardProperties.FaceSwapNeedsTarget` | src/pages/Dashboard.tsx:115-122 | a face swap without a truthy target is refused whatever the balance: for a missing source if that is also missing, else for the target |
| `DashboardProperties.CreditGate` | src/pages/Dashboard.tsx:124-132 | a balance below the cost is always refused, with no state change |
| `DashboardProperties.SubmitChargesOnce` | src/pages/Dashboard.tsx:134-145 | an acknowledged job costs exactly the type's price once, leaves a non-negative balance, becomes the current job, gets a polling interval, leaves the history alone, and keeps processing on |
| `DashboardProperties.SubmitFailureKeepsState` | src/pages/Dashboard.tsx:171-178 | a failed submission only clears the processing flag, and shows `result.error` when truthy, else the generic text |
| `DashboardProperties.SubmitFailureMessage` | src/pages/Dashboard.tsx:175 | a refused request shows the backend's own non-empty error text; an exception shows its message, or the generic text when the message is empty |
| `DashboardProperties.TargetForwardedOnlyWhenPresent` | src/pages/Dashboard.tsx:136-140 | the request carries the selected type and the source image, and the target image only when it is truthy |
| `DashboardProperties.ResubmitKeepsEarlierIntervals` | src/pages/Dashboard.tsx:147 | a new acknowledged job adds an interval and keeps every earlier interval running |
| `DashboardProperties.TickReplacesCurrentJob` | src/pages/Dashboard.tsx:148-150 | a failed status fetch changes nothing; a successful one replaces the current job; the balance never changes |
| `DashboardProperties.TickCompleted` | src/pages/Dashboard.tsx:152-155 | `completed` stops that interval, clears processing, and prepends exactly that job, so the history grows by one |
| `DashboardProperties.TickFailed` | src/pages/Dashboard.tsx:160-168 | `failed` stops that interval and clears processing; history and credits are unchanged |
| `DashboardProperties.TickKeepsRunning` | src/pages/Dashboard.tsx:148-170 | any other response changes at most the current job |
| `DashboardProperties.StatusMayRegress` | src/pages/Dashboard.tsx:150 | a `pending` answer after a `processing` one replaces it, so the status can move backwards |
| `DashboardProperties.ConsumedIsFirstStop` | src/pages/Dashboard.tsx:152-161 | no query before the last one issued saw a stopping response, and fewer queries than responses means the last one stopped the interval |
| `DashboardProperties.PollAllIgnoresRest` | src/pages/Dashboard.tsx:153 | responses after the stopping one have no effect |
| `DashboardProperties.PollingKeepsCredits` | src/pages/Dashboard.tsx:147-170 | polling never charges or refunds credits and never changes the selected type or the images |
| `DashboardProperties.PollAllOutcome` | src/pages/Dashboard.tsx:147-170 | after a stopping response the interval is gone, processing is over, that job is current, and it heads the history iff it completed; with no stopping response the interval, the flag and the history are unchanged, and the current job is the one from the last successful response, or the old one if none succeeded |
| `DashboardProperties.HistoryGrowsByAtMostOne` | src/pages/Dashboard.tsx:155 | one interval adds at most one job to the history, at its head, and only a completed one |
| `DashboardProperties.UploadSizeGuard` | src/pages/Dashboard.tsx:88-95 | a file over 10·1024·1024 bytes is refused and nothing changes; a file of exactly that size is accepted |
| `DashboardProperties.UploadReplacesOneSlot` | src/pages/Dashboard.tsx:86-101 | no file changes nothing; an accepted file sets its own slot's image to its data URL and leaves the other slot, credits, history and intervals alone |
| `DashboardProperties.MountReplaces` | src/pages/Dashboard.tsx:67-80 | on mount the backend's balance and history replace the local ones when their requests succeed with data, and otherwise the local ones stay |
| `DashboardProperties.ScenarioFaceSwap` | src/pages/Dashboard.tsx:124-145 | a face swap with balance 5 leaves balance 4 and the pending job current |
| `DashboardProperties.ScenarioAvatarShortOfCredits` | src/pages/Dashboard.tsx:124-132 | an avatar with balance 2 is refused and the balance stays 2 |
| `DashboardProperties.ScenarioCompletes` | src/pages/Dashboard.tsx:147-159 | pending, processing, processing, completed(X) takes four queries, ends with the completed job current and alone in the history, and stops polling |
| `DashboardProperties.ScenarioFails` | src/pages/Dashboard.tsx:160-168 | pending, failed takes two queries, stops polling, and restores no credits |

## Left out

- The network, `response.json()`, `localStorage`, `FileReader`, toasts on the dashboard and router navigation are not behaviour here. Each is an input value, a field, or an outcome tag, as described above.
- Timer scheduling is not modelled: the 2-second `setInterval`, and responses of different ticks arriving out of order. Polling is a sequence of discrete ticks, each completed before the next.
- The concurrency of `async` handlers is not modelled. Each handler runs to completion with its network answers given up front, so React's stale closures (for example the `credits` read at line 125 against the functional update at line 144) behave like direct reads.
- Only the JSON document of a request body is modelled (`Payload`), not its `JSON.stringify` serialisation. The `...options.headers` merge is left out, because no call in the client passes extra headers.
- Parsed bodies are assumed to be objects. A non-ok response whose body is JSON `null` makes `data.error` throw inside `request`; the error text is then the engine's `TypeError` message, which is not modelled. An ok response whose body is `null` or `false` yields falsy `data`, which the callers treat as failure; the model always gives `data` for an ok response.
- `getPricingPlans`, `createCheckoutSession` and `getStats` are not modelled. They are plain `request` calls. `getStats` is called only by the landing page's `HeroSection` (src/components/landing/HeroSection.tsx:12), and no source file calls the other two.
- The dashboard's `handleLogout` (src/pages/Dashboard.tsx:181-184) is not modelled separately. It is the provider's `logout` followed by navigation to `/`.
- The `useEffect` that runs `refreshUser` when the provider mounts is not modelled as a trigger. `RefreshUser` models the call itself.
- Credits, file sizes and costs are JavaScript numbers; they are modelled as unbounded integers (`int`/`nat`), so fractional or `NaN` values are not covered.
- A job status outside the four declared values is not modelled.
- `Signup.SubmitEffects` counts the password's length in Unicode scalar values, while JavaScript's `length` counts UTF-16 code units. The two differ for characters outside the Basic Multilingual Plane.
- `Signup.SignupForm.HandleSubmit` records its effects in program order. The model states that the loading effects match the `isLoading` cell and that the call effect matches the request sent. It does not capture when React applies those state updates relative to the `await`.
- The static marketing pages, the pricing page, the footer and all JSX rendering and styling are not part of this model.
