# eCollection web client — a Dafny model of its session and invoice logic

The eCollection front end is a React client for an invoice service. The server holds every
business rule. What the client decides for itself is modelled here:

- the **session manager** (`AuthProvider`): the token, the signed-in user, the `loading` flag,
  the last `error`, and the persisted `'token'` entry. Its operations are login, register,
  forgot password, reset password, logout, and the "who am I" refresh that runs when the token
  changes;
- the **route table** of the application shell and the navigation-bar rule;
- the **HTTP client**: its base address, its default headers, the interceptor that adds
  `Authorization: Bearer <token>`, and the endpoint wrappers;
- the **invoice loaders** `useInvoices` and `useInvoiceDetail`;
- the **dashboard statistics**: the total, the overdue count and this month's paid revenue;
- the **form gates** of the registration and password-reset pages.

The server's answer to each call is an input of the model: `Outcome<T> = Ok(payload) |
Fail(failure)`, with `Failure = ErrorResponse(message, errors) | NoResponse`. A `message` that
is missing is written as "", because the client only ever reads it through `||`. `errors` is
`Some(list)` when the body's `errors` is an array, and `None` otherwise. JavaScript
truthiness is `Js.Truthy`: a missing string and "" are both falsy.

State the source changes in place is a class:
- `Auth.Session`
- `Hooks.InvoiceList` and `Hooks.InvoiceDetail`
- `Api.RequestConfig`
- `Forms.RegisterPage` and `Forms.ResetPasswordPage`

Each method states its whole new state. Each object that calls `navigate(...)` or
`alert(...)` keeps its own record of its last call: `Auth.Session` has `navigatedTo` and
`alerted`, `Forms.RegisterPage` has `alerted`, and `Forms.ResetPasswordPage` has
`navigatedTo` and `alerted`. The model does not order records across objects, so it does not
say which of two objects' calls the browser saw last. Each request the session manager sends is appended to a
`requests` log, and each call of the detail hook to a `calls` log. This makes properties such as
"no request is made" and "called with the form unchanged" expressible. The pure parts are
functions with lemmas: the error-text choice, routing, header decoration and the statistics.

Modules, leaves first: `Js` (js.dfy), `Types` (types.dfy), `Api` (api.dfy), `Routes`
(routes.dfy), `Auth` (auth.dfy), `Hooks` (hooks.dfy), `Dashboard` (dashboard.dfy), `Forms`
(forms.dfy).

Behaviours of the code worth knowing:
- The `/Auth/me` lookup reads `userId`, `firstName`, … from the top level of the response
  body (`response.data`). Every other call reads the `data` of the
  `{success, message, data, errors}` envelope. `Types.Me` is that top-level body.
- Login stores the user from the login response right away.
- Login, register and the `/Auth/me` lookup call axios with the full address directly, not
  through `apiClient`. The interceptor therefore does not apply to them: login and register
  send no `Authorization` header at all, and the lookup sets its own header from the state
  token. Forgot password, reset password and the invoice list go through `apiClient`.
- A failed list fetch keeps the previous list; it does not clear it.
- `saveInvoice` with no invoice number returns normally. It does not reject.
- The list hook has no create or remove operation. It returns only `invoices`, `loading` and
  `error`.
- The client never reads the envelope's `success` flag. A 2xx answer is taken as success as long
  as the fields the handler reads are there (see "## Left out" for one without `data`).

## Model

| member | source | states |
|---|---|---|
| Js.JoinSpaceLength | src/context/AuthProvider.tsx:93 | `errors.join(' ')` is the entries' total length plus one space between each pair of neighbours |
| Js.JoinSpaceEmptyIff | src/context/AuthProvider.tsx:117 | a space-joined error list is "" exactly when it is `[]` or `[""]` |
| Api.DecorateHeaders | src/services/api.ts:13-19 | `Authorization` is `"Bearer " + token` when the stored token is truthy; otherwise the headers are returned as they were; no other header is added, removed or changed |
| Api.RequestConfig.constructor | src/services/api.ts:6-11 | a request configuration starts with base URL `https://localhost:7052/api` and `Content-Type: application/json` |
| Api.Intercept | src/services/api.ts:14-19 | the interceptor sets the header on the configuration in place, as `DecorateHeaders` says, leaves address and URL alone, and returns the same configuration object |
| Api.ClientRequest | src/services/api.ts:4-19 | every `apiClient` request goes to `https://localhost:7052/api` + path with `Content-Type: application/json`, and carries `Authorization` if and only if the stored token is truthy, with value `Bearer <token>` |
| Api.DataOf | src/services/api.ts:26-35 | `getInvoices` and `loginUser` resolve with the envelope's `data` and reject with the call's own failure |
| Api.GetInvoicesRequest | src/services/api.ts:26-29 | `getInvoices` sends `GET https://localhost:7052/api/invoices` with no body, carrying `Authorization` exactly when the stored token is truthy |
| Api.LoginUserRequest | src/services/api.ts:32-35 | `loginUser` would send `POST …/Auth/login` with the login data, carrying `Authorization` exactly when the stored token is truthy |
| Api.RegisterUserRequest | src/services/api.ts:37-40 | `registerUser` would send `POST …/Auth/register` with the form, carrying `Authorization` exactly when the stored token is truthy |
| Api.ForgotPasswordRequest | src/services/api.ts:42-45 | `forgotPassword` sends `POST …/Auth/forgot-password` with `{email}`, carrying `Authorization` exactly when the stored token is truthy |
| Api.ResetPasswordRequest | src/services/api.ts:47-50 | `resetPassword` sends `POST …/Auth/reset-password` with the reset payload, carrying `Authorization` exactly when the stored token is truthy |
| Api.NoTokenNoAuthorization | src/services/api.ts:15-17 | without a truthy stored token a request has exactly the default headers |
| Api.DecorationOnlyAddsAuthorization | src/services/api.ts:14-19 | apart from `Authorization`, the headers do not depend on the token |
| Routes.PrivateRoutes | src/App.tsx:17-19 | the private guard shows its pages exactly when the token is truthy, else navigates to `/login` |
| Routes.PublicRoutes | src/App.tsx:21-25 | the public guard shows its pages exactly when the token is falsy, else navigates to `/dashboard` |
| Routes.NavVisible | src/App.tsx:30-42 | the navigation bar with Logout shows exactly when the private guard lets its pages through, and exactly when the public guard turns visitors away |
| Routes.Route | src/App.tsx:45-62 | the router renders a page exactly when the path is public and the token is falsy, or private and the token is truthy, and then the page is the table's; every other path (guarded or unmatched) redirects to `/dashboard` with a truthy token and to `/login` without one, whatever the path |
| Routes.NavShownIffSignedIn | src/App.tsx:30-42 | the navigation bar with Logout shows exactly when `/dashboard` and `/invoices` render and `/login` does not, i.e. when the token is truthy |
| Routes.NoRedirectChain | src/App.tsx:17-61 | the target of a redirect always renders: no redirect chains or loops |
| Routes.GuardsRedirect | src/App.tsx:47-58 | with a truthy token the four public paths redirect to `/dashboard`; without one `/dashboard` and `/invoices` redirect to `/login` |
| Routes.OnlyTruthinessMatters | src/App.tsx:17-61 | two tokens of the same truthiness route every path identically |
| Routes.InvoiceDetailPathUnrouted | src/App.tsx:45-62 | `/invoices/<number>` is not in the table and takes the catch-all redirect |
| Auth.ErrorMessage | src/context/AuthProvider.tsx:50-123 | the error text of every handler: no response gives `An unexpected error occurred.`; when the handler does not join `errors` it is the non-empty `message`, else the fallback; a joined list of n entries has their total length plus n - 1 spaces; with a non-empty fallback it is empty only when an `errors` list was joined (see the four lemmas below for each handler's rule) |
| Auth.MessageOnlyErrorText | src/context/AuthProvider.tsx:50-75 | login and forgot password: a received error gives its non-empty `message`, else the fallback (`Login failed.` / `Request failed.`); no response gives `An unexpected error occurred.`; the text is never empty |
| Auth.RegisterErrorText | src/context/AuthProvider.tsx:113-123 | register: a non-empty `errors` array is joined by single spaces; an empty or missing one gives `message`, else `Registration failed.`; no response gives the unexpected-error text |
| Auth.RegisterErrorEmptyIff | src/context/AuthProvider.tsx:113-123 | the register error text is empty exactly when the server sent `errors: [""]` |
| Auth.ResetErrorEmptyIff | src/context/AuthProvider.tsx:88-99 | reset password joins any `errors` array, so `[]` (and `[""]`) give an empty error text; a missing array gives `message` or `Password reset failed.` |
| Auth.NoResponseIsUnexpected | src/context/AuthProvider.tsx:53-54 | a missing response gives the unexpected-error text under every rule |
| Auth.UserFromMe | src/context/AuthProvider.tsx:27-28 | the refreshed user has `id := userId` and the looked-up names, email and talent; phone number and roles are unset |
| Auth.Session.constructor | src/context/AuthProvider.tsx:12-15 | at start the token is the stored `'token'` value, the user is null, nothing is loading and there is no error |
| Auth.Session.Login | src/context/AuthProvider.tsx:39-60 | error cleared and loading reset on both paths; success stores the new token in storage and state, sets the user from the response and goes to `/dashboard`; failure leaves token, user and storage unchanged, sets the error text and rejects with the failure |
| Auth.Session.ForgotPassword | src/context/AuthProvider.tsx:62-79 | sends through `apiClient`; success alerts and goes to `/login`; failure sets `message` or `Request failed.` and rejects; the session's token and user never change |
| Auth.Session.ResetPassword | src/context/AuthProvider.tsx:81-104 | sends through `apiClient`; success alerts and goes to `/login`; failure sets the reset error text and rejects; token and user never change |
| Auth.Session.Register | src/context/AuthProvider.tsx:106-128 | success alerts and goes to `/login` without touching token or user; failure sets the register error text and rejects |
| Auth.Session.Logout | src/context/AuthProvider.tsx:130-135 | removes the stored token, sets user and token to null and goes to `/login`; nothing else changes |
| Auth.Session.FetchUser | src/context/AuthProvider.tsx:19-37 | with a truthy token, asks `/Auth/me` with `Bearer <token>`; success sets the user built from the answer; failure logs out, so the token ends null; a falsy token makes no lookup and changes nothing |
| Auth.LogoutIsIdempotent | src/context/AuthProvider.tsx:130-135 | two logouts leave the same state as one |
| Auth.NoAuthorizationAfterLogout | src/services/api.ts:15-17 | after logout, no request the session manager sends next carries `Authorization`, and the refresh makes no request |
| Auth.InvalidCredentialsScenario | src/context/AuthProvider.tsx:50-56 | a login rejected with message `Invalid credentials` stores that text and leaves an anonymous session anonymous |
| Auth.StaleTokenScenario | src/context/AuthProvider.tsx:29-33 | a token the `/Auth/me` lookup rejects ends with token, user and storage cleared and navigation to `/login` |
| Hooks.InvoiceList.constructor | src/hooks/useInvoices.ts:6-8 | the list starts empty, loading, with no error |
| Hooks.InvoiceList.FetchInvoices | src/hooks/useInvoices.ts:11-22 | sends `GET /invoices` through `apiClient`, with `Authorization` exactly when the stored token is truthy; success replaces the list with exactly the returned one and leaves the error cleared; failure keeps the list and sets `Failed to fetch invoices.`; loading ends false either way |
| Hooks.FetchTwiceIsIdempotent | src/hooks/useInvoices.ts:11-22 | two fetches with the same answer leave the same state as one |
| Hooks.InvoiceDetail.constructor | src/hooks/useInvoiceDetail.ts:7-9 | the detail starts with no invoice, loading, with no error |
| Hooks.InvoiceDetail.FetchInvoice | src/hooks/useInvoiceDetail.ts:11-22 | with no invoice number nothing changes (loading keeps its value); success stores the record without resetting the error; failure keeps the record and sets `Failed to fetch invoice details.`; loading ends false; a set error is never cleared |
| Hooks.InvoiceDetail.SaveInvoice | src/hooks/useInvoiceDetail.ts:28-32 | with no invoice number it returns without a call; otherwise update then refetch; a failed update rejects with no refetch and no state change; a failed refetch is absorbed into `error` and the save resolves |
| Dashboard.Filter | src/components/Dashboard.tsx:16-22 | `filter` keeps exactly the entries that satisfy the predicate, and is never longer than the input |
| Dashboard.SumAmounts | src/components/Dashboard.tsx:28 | the `reduce` sum from 0: an empty list sums to 0 and a single invoice to its amount (order independence in `SumPermutation`) |
| Dashboard.TotalInvoices | src/components/Dashboard.tsx:14 | the total counts every entry, duplicates included, and is 0 exactly for an empty list |
| Dashboard.OverdueInvoices | src/components/Dashboard.tsx:16-19 | the overdue count never exceeds the total, and is 0 exactly when no invoice is pending and past due |
| Dashboard.MonthlyRevenue | src/components/Dashboard.tsx:21-28 | the revenue is 0 when no invoice is paid in the current month and year, in particular for an empty list |
| Dashboard.FilterMultiset | src/components/Dashboard.tsx:16-22 | filtering keeps every satisfying invoice with its multiplicity and drops the rest |
| Dashboard.SumPermutation | src/components/Dashboard.tsx:28 | the `reduce` sum of amounts does not depend on the order of the list |
| Dashboard.OverdueCountsExactly | src/components/Dashboard.tsx:16-19 | the overdue count counts each invoice that is `Pending` and due strictly before now, with its multiplicity, and nothing else (so not `Overdue` ones) |
| Dashboard.RevenueAppend | src/components/Dashboard.tsx:21-28 | appending an invoice adds its amount to the revenue if it is `Paid` and created in the current month and year, and nothing otherwise |
| Dashboard.StatsIgnoreOrder | src/components/Dashboard.tsx:14-28 | reordering the invoices changes neither the total, nor the overdue count, nor the revenue |
| Dashboard.OnePastDuePendingIsOverdue | src/components/Dashboard.tsx:16-19 | one pending invoice due in the past gives an overdue count of 1 |
| Dashboard.GreetingName | src/components/Dashboard.tsx:52 | the greeting uses the user's first name when there is a user and the name is non-empty, otherwise `User` |
| Dashboard.StatsPanel | src/components/Dashboard.tsx:58-60 | loading shows "Loading stats..."; otherwise a truthy error shows "Could not load stats."; otherwise the three statistics of the list |
| Forms.InitialRegisterForm | src/components/Register.tsx:6-14 | the registration form starts with exactly the seven fields, all empty |
| Forms.RegisterGate | src/components/Register.tsx:24-29 | a password that differs from its confirmation blocks the call; otherwise `register` receives the whole form unchanged |
| Forms.RegisterPage.constructor | src/components/Register.tsx:6-14 | the page starts with the initial form and no alert |
| Forms.RegisterPage.HandleChange | src/components/Register.tsx:18-20 | the named field takes the new value, and every other field keeps its value |
| Forms.RegisterPage.HandleSubmit | src/components/Register.tsx:22-35 | on a mismatch it alerts and leaves the session untouched; on a match the session registers with the form: success clears the error, alerts `Registration successful! Please log in.` and goes to `/login`, failure sets the register error text; token, user and storage stay; a rejection is absorbed, so the handler has no failure result |
| Forms.CheckLink | src/components/ResetPassword.tsx:24-31 | the link is accepted exactly when both `token` and `email` are non-empty, and then their values are taken |
| Forms.ResetGate | src/components/ResetPassword.tsx:37-48 | a mismatch blocks the call; otherwise the payload is `{email, token, newPassword: password, confirmPassword}` from the current state |
| Forms.ResetPasswordPage.constructor | src/components/ResetPassword.tsx:14-18 | password, confirmation, token and email all start empty |
| Forms.ResetPasswordPage.SetPassword | src/components/ResetPassword.tsx:70 | the password input changes the password only |
| Forms.ResetPasswordPage.SetConfirmPassword | src/components/ResetPassword.tsx:83 | the confirmation input changes the confirmation only |
| Forms.ResetPasswordPage.ReadLink | src/components/ResetPassword.tsx:20-32 | an accepted link is copied into `token` and `email`; a rejected one alerts, goes to `/login` and leaves the state as it was |
| Forms.ResetPasswordPage.HandleSubmit | src/components/ResetPassword.tsx:35-52 | on a mismatch it alerts and leaves the session untouched; otherwise the session resets with the built payload: success clears the error, alerts the reset confirmation and goes to `/login`, failure sets the reset error text; token, user and storage stay; a rejection is absorbed |

## Left out

- HTTP transport: each call's answer is an input `Outcome`. The default headers axios adds by itself are not modelled, and `Request.headers` holds only what the client's code sets.
- A 2xx login answer without `data` (such as `{success: false, data: null}`) makes `response.data.data.token` throw a `TypeError`. That is not an axios error, so login takes the unexpected-error path and rejects. The model has no such answer; the caller represents it as `Fail(NoResponse)`. For `getInvoices`, the same answer resolves with `undefined`; that case is not modelled.
- A received error response is assumed to carry a JSON body. With no body, reading `message` throws inside the handler's `catch`; that path is not modelled.
- Browser and framework APIs: localStorage is the `stored` field. `navigate` and `alert` are each recorded per calling object as its last target and last text; the browser's single alert and single router, and the order of calls made by different objects, are not modelled. `console` output is dropped.
- A missing top-level field of the `/Auth/me` body (for instance when the server answers with the `{success, message, data, errors}` envelope instead) is written as "", as for `message`: AuthProvider.tsx:28 would set a user whose fields are `undefined`, and every reader of these fields treats that the same way through `||` or as an empty string.
- A login answer whose `data` has no `token` is not modelled: the source would store the string "undefined" while the state token is `undefined`, which no `Auth.Session` state (whose stored and state tokens agree) represents.
- React lifecycle and async interleaving: each operation is atomic. The model does not cover effect re-runs, overlapping loads, cancellation, or renders during an await. The `loading = true` state in the middle of an operation is set in each method's body, but no caller can observe it. When the token-change effect and the list's mount-time fetch run is the caller's choice. The reset page's query effect re-runs on every render because `useQuery` builds a new object each time; the model runs it once.
- Auth.Session.Login: like every `Session` operation, it requires `Valid()`, which says nothing is in flight. Overlapping operations (a second submit while one is loading) are not modelled.
- The router's own matching rules are not modelled: React Router matches case-insensitively and ignores a trailing slash, while the model matches paths exactly.
- Date parsing and formatting: a date is `Moment`. It holds an instant with its local year and 0-based month, or `InvalidDate` for a string that does not parse. "Now" is a parameter.
- Floating-point amounts and currency formatting: amounts are whole cents, and `Intl.NumberFormat` and `toString` are not modelled.
- `getInvoiceByNumber` and `updateInvoice` are not defined by the client's API module. They are abstract calls with outcomes (`Hooks.DetailCall`).
- `loginUser` and `registerUser` exist in the API module but the session manager does not use them. They are modelled only as the requests they would send (`Api.LoginUserRequest`, `Api.RegisterUserRequest`).
- src/components/Invoices.tsx, InvoiceForm.tsx, InvoiceDetail.tsx, Login.tsx and ForgotPassword.tsx are markup and forwarding calls, and are not part of this model. The invoice create and delete flow that Invoices.tsx expects from `useInvoices` does not exist in the hook.
