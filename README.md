# Tenant subscriptions: session handling and server rules, in Dafny

This project models the rule-bearing core of a small multi-tenant
subscription application. It has a React client and a Django REST backend.

On the client it models:

- **The session store.** The access and refresh tokens are kept in `localStorage`.
- **`api`.**
  - The request interceptor attaches `Authorization: Bearer <token>`.
  - The response interceptor refreshes the access token at most once per request after a 401. A URL containing `/login/` is exempt from the refresh. Outside `/login/` URLs, when the refresh cannot be done, the interceptor clears the session and redirects to `/login`.
  - `logout` always clears the session.
- **The code that reads the store.**
  - The route table and its token-presence gate.
  - The login page's admin choice.
  - The home page's user check, its purchase sequence and its plan cards.
  - The registration page's error messages.

On the server it models:

- `User.save` and `Subscription.save`, with the constraints on tenants, plans and subscriptions.
- Registration: tenant get-or-create, the user limit and the role.
- The claims written into an access token.
- The fields of the plan listing.
- The subscription-change view and the logout view.
- The admin site's usage colour, subscription status and user count.

How the code is turned into Dafny:

- Code that updates state in place becomes a class with `modifies` clauses:
  - the token store and the request object of the interceptors;
  - the user instance and the database;
  - the three pages.
- Each method is proved against a pure function of the old state. Purely computed rules are functions and lemmas.
- Outside effects are parameters: the server's replies, the token refresh endpoint, the payment gateway, and `JSON.parse(atob(...))` on a token's payload.
- Time is an integer clock.
- A price is a whole number of cents.

One module per source file:

| module | source |
|---|---|
| `Api` | `frontend/src/api/api.js` |
| `Routes` | `App.jsx` and `ProtectedRoute.jsx` |
| `Login`, `Registration`, `Home` | the three pages |
| `Models` | `backend/users/models.py` |
| `Serializers` | `backend/users/api/serializers.py` |
| `Views` | `backend/users/api/views.py` |
| `Admin` | `backend/users/admin.py` |
| `CrossChecks` | lemmas that hold only because server and client agree |

Shared modules:

- `Text`: split, join, includes and trim.
- `Js`: truthiness, the shape of a rejected request, and navigation results.
- `Jwt`: the claims record, and reading a token's payload.

One consequence of the order of the checks in the response interceptor is
easy to miss. On a 401, `frontend/src/api/api.js:36-39` rejects with its own
"No refresh token available" error when no refresh token is stored. That
check comes before the `/login/` exemption at line 42. So a failed login with
no refresh token stored shows the generic "Invalid credentials. Please try
again.", not the server's `detail` (`Login.RejectedLoginMessage`). Outside
the login URL, the same case also clears both tokens and redirects to
`/login`.

## Model

| member | source | states |
|---|---|---|
| Text.Split | backend/users/api/serializers.py:62 | `str.split(',')` / `String.split('.')`: one more piece than there are separators, empty pieces kept, no piece contains the separator |
| Text.JoinSplit | backend/users/api/serializers.py:62 | joining the split pieces with the separator gives back the original text, so the features claim loses nothing of the stored features |
| Text.SplitJoin | backend/users/api/serializers.py:62 | conversely, separator-free pieces are recovered by splitting their join |
| Text.Contains | frontend/src/api/api.js:42 | `includes` holds exactly when the substring occurs at some index |
| Text.Trim | frontend/src/pages/HomePage.jsx:237 | `trim` yields a slice of the text that neither starts nor ends with white space, everything cut off being white space |
| Jwt.ReadPayload | frontend/src/App.jsx:30-32 | a token is malformed exactly when it does not have three dot-separated segments; otherwise its middle segment decodes or the decoding throws |
| Jwt.FlagsSayAdmin | frontend/src/pages/LoginPage.jsx:34 | the login page's admin test: a superuser or staff flag is true |
| Jwt.RoleSaysAdmin | frontend/src/App.jsx:33 | the router's and the home page's admin test: the role claim is "admin" |
| Models.NewPlan | backend/users/models.py:44-46 | a plan created with field defaults allows one user, costs 0 and has no description (used by `Serializers.DefaultPlanAdmitsOneUser`) |
| Models.CatalogValid | backend/users/models.py:37-47 | every plan is stored under its own id, its name is one of the three choices, its price fits `max_digits=8, decimal_places=2`, and plan names are unique |
| Models.WithDefaultEnd | backend/users/models.py:59-63 | saving a subscription sets end = now + 30 days only when it has no end date; an existing one and every other field are kept |
| Models.WithDefaultEndIdempotent | backend/users/models.py:60-62 | a second save never moves the end date the first one fixed |
| Models.UserCount | backend/users/api/views.py:79 | a tenant never has more users than there are rows, and has none exactly when no row names it |
| Models.UserCountAppend | backend/users/api/serializers.py:34-38 | a new user row counts towards its own tenant and no other |
| Models.UserCountUpdate | backend/users/api/serializers.py:40-41 | re-saving a row without changing its tenant leaves every count unchanged |
| Models.Database.SaveSubscription | backend/users/models.py:59-63 | writes the tenant's subscription with the default end date applied; the database invariants (one subscription per tenant, plan exists, end date set) are kept |
| Models.Database.Valid | backend/users/models.py:14-63 | the invariant every database method keeps: a valid catalog, each tenant with at most one subscription (the one-to-one field, models.py:53), referring to an existing plan (models.py:52-63) and with an end date set, and every user row saved by `User.save` and pointing to an existing tenant (models.py:14-28) |
| Models.User.constructor | backend/users/models.py:13 | a new user without a role gets `tenant_user`, and has no password and no flags |
| Models.User.SetPassword | backend/users/api/serializers.py:40 | only the hash of the password is kept |
| Models.User.Save | backend/users/models.py:21-28 | staff and superusers become `admin` whatever role was set; anyone else without a tenant is refused and nothing is written; an unknown tenant is refused; an insert appends the row with the next key, an update rewrites that row only; saved rows satisfy the role/tenant invariant |
| Serializers.UserLimitCheck | backend/users/api/serializers.py:25-32 | owners and tenants without a subscription bypass the check; a member is refused exactly when the tenant's count is at least the plan's `max_users`, and the error names that limit |
| Serializers.MemberJoinStaysWithinLimit | backend/users/api/serializers.py:25-38 | a member who passes the check never takes a subscribed tenant past its plan's limit |
| Serializers.DefaultPlanAdmitsOneUser | backend/users/api/serializers.py:25-32 | on a plan with the default `max_users` of 1, the owner is never stopped, and a member is refused with the limit 1 exactly when some user already belongs to the tenant |
| Serializers.RegisteredRow | backend/users/api/serializers.py:34-41 | the new row is `tenant_owner` exactly when `is_tenant_owner`, otherwise `tenant_user`, in the named tenant, with a hashed password, and satisfies the save invariant |
| Serializers.Register | backend/users/api/serializers.py:17-43 | the tenant is found or created by name; on a limit refusal no user is added; otherwise exactly the registered row is appended and its key returned |
| Serializers.CreateUser | backend/users/api/serializers.py:34-41 | creating and saving the user appends exactly the registered row and returns its key, leaving tenants, plans and subscriptions alone |
| Serializers.TokenClaims | backend/users/api/serializers.py:47-66 | username, flags and role always; tenant name exactly when the user has a tenant; subscription claim exactly when the tenant has one, with plan id and name, "active"/"inactive", features whose comma-join is the stored text with one more piece than the text has commas (so an empty text gives one empty piece), and the end date or none |
| Serializers.GetToken | backend/users/api/serializers.py:47-66 | the claims filled by successive assignments equal `TokenClaims` |
| Serializers.PlanListing | backend/users/api/serializers.py:73-76 | a listed plan has exactly the fields id, name, price, description and max_users, and no features |
| Serializers.RegisterRepresentation | backend/users/api/serializers.py:8-15 | the write-only fields (password, tenant name, owner flag) never appear in a response |
| Views.SubscribeDecision | backend/users/api/views.py:59-128 | non-owners get 403; a missing or falsy plan or payment id gives 400; an unknown plan gives 400 (`DoesNotExist` in the generic handler); a count strictly above `max_users` gives 400 with the surplus (an equal count is allowed); an existing subscription is renewed; the create branch ends in the generic 400 handler; no other status occurs |
| Views.Renewed | backend/users/api/views.py:96-103 | a renewal replaces the plan, starts now and ends 30 days later, and leaves `active` as it was |
| Views.CreateSubscription | backend/users/api/views.py:59-128 | a refusal changes no subscription; a renewal rewrites only the tenant's subscription and answers with claims that already show the new plan |
| Views.RenewSubscription | backend/users/api/views.py:96-103 | the update branch writes `Renewed` of the old subscription for that tenant only, keeping the database invariants |
| Views.FirstSubscriptionAlwaysRefused | backend/users/api/views.py:104-112 | a tenant owner without a subscription is refused whatever plan and payment id are sent |
| Views.IntendedSubscribeDecision | backend/users/api/views.py:104-112 | with the create branch corrected, an owner within the plan's limit always gets a renewal or a new subscription for that plan; a creation is decided only for the caller's own tenant, when it has no subscription, for the plan id sent |
| Views.Created | backend/users/api/views.py:106-112 | the corrected creation: a subscription to the given plan, starting now, active, ending after the 30-day period, and left as it is by the model's default end date |
| Views.IntendedFirstSubscriptionIssued | backend/users/api/views.py:104-122 | after the corrected creation, the catalog references stay valid and the tokens issued to the owner name their tenant and carry the new plan's id and name, status `active` and the end date 30 days on |
| Views.LogoutStatus | backend/users/api/views.py:26-51 | 400 exactly when an object body has no truthy refresh token; every other path, a failed blacklist included, gives 205 |
| Admin.UsageStatus | backend/users/admin.py:73-88 | with `max_users` 0 the percentage is 0 and green; otherwise the shown percentage is the floor of count·100/max; green exactly below 80%, red exactly from 100%, orange between |
| Admin.UsageColourMonotone | backend/users/admin.py:76-83 | more users on the same plan never give a milder colour |
| Admin.SubscriptionStatus | backend/users/admin.py:34-43 | "No subscription" exactly when there is none; otherwise Active/green or Inactive/red with the plan's name |
| Admin.UserCountCell | backend/users/admin.py:45-50 | "count / max_users" exactly when the tenant is subscribed, the bare count otherwise |
| Api.Authorization | frontend/src/api/api.js:12-19 | a truthy stored token gives exactly "Bearer " + token; otherwise the header is left as it was |
| Api.TokenStore.SetAccess | frontend/src/api/api.js:48 | `setItem('access_token', …)` stores exactly that token |
| Api.TokenStore.SetRefresh | frontend/src/pages/HomePage.jsx:87 | `setItem('refresh_token', …)` stores exactly that token |
| Api.TokenStore.Clear | frontend/src/api/api.js:57-58 | removing both keys leaves no token stored |
| Api.AttachToken | frontend/src/api/api.js:12-19 | the request interceptor sets the request's header to `Authorization` of the stored token |
| Api.OnResponseError | frontend/src/api/api.js:26-68 | anything but a first 401 passes through with tokens unchanged; a first 401 marks `_retry`; the refresh is sent exactly when a refresh token is stored and the URL is not a login URL; a successful refresh replaces only the access token and re-issues with the new header; otherwise outside login URLs both tokens are cleared, /login is the redirect and the refresh (or "No refresh token available") error is rejected; login URLs keep tokens and never redirect |
| Api.HandleResponseError | frontend/src/api/api.js:28-67 | the interceptor's try/catch updates the store, `_retry` and the header exactly as `OnResponseError` says |
| Api.Send | frontend/src/api/api.js:26-68 | a successful reply passes through unchanged, with one request, no refresh and no token change; a failed one ends as the error handler settles it, either rejected with its error or answered by the server's reply to the re-issued request; the refresh calls made are exactly the one the handler sends, and the request goes out a second time exactly when the handler re-issues it; an already-marked request gets the server's reply as it is; at most two requests and one refresh; the second request carries the new token; a redirect always comes with an empty store |
| Api.Request | frontend/src/api/api.js:26-68 | the recursive `api(config)` leaves the store, outcome and redirect that `Send` describes |
| Api.Logout | frontend/src/api/api.js:74-82 | the stored refresh token is what is posted; the outcome and the interceptor's redirect to `/login` are those of `Send` on the logout URL; both tokens are removed whatever the request gave |
| Api.LoginUrlIsExempt | frontend/src/api/api.js:73 | the login endpoint's URL contains `/login/` |
| Api.OtherUrlsAreNotExempt | frontend/src/api/api.js:72-86 | no other endpoint's URL contains it |
| Routes.ProtectedRoute | frontend/src/components/ProtectedRoute.jsx:4-13 | no truthy token: a replacing redirect to /login recording the origin; a token: the child unchanged |
| Routes.GateIgnoresTokenContents | frontend/src/components/ProtectedRoute.jsx:6-12 | only presence is checked: any two non-empty tokens, malformed or expired, pass alike |
| Routes.CheckIsAdmin | frontend/src/App.jsx:27-37 | false without a token or without three segments; true exactly when the decoded role is "admin"; an undecodable payload throws |
| Routes.Route | frontend/src/App.jsx:45-64 | the table once App has rendered: "/" and unmatched paths redirect to /home, /login and /register render their pages, /home is behind the gate; the home page renders exactly for /home with a token; nothing in it leaves for the admin site |
| Routes.Load | frontend/src/App.jsx:27-52 | on a page load `checkIsAdmin` runs while App builds the "/" element, whatever the path: an admin token leaves for the admin site, an undecodable one throws, and only otherwise is the path routed |
| Routes.NoTokenNeverReachesHome | frontend/src/App.jsx:45-64 | without a token a page load is routed as is, never renders the home page, and the /home redirect ends at /login |
| Login.Stored | frontend/src/pages/LoginPage.jsx:28-29 | `setItem` stores the string form, "undefined" for a missing token |
| Login.LoginPage.constructor | frontend/src/pages/LoginPage.jsx:9-10 | the page starts with no error and not loading |
| Login.LoginErrorMessage | frontend/src/pages/LoginPage.jsx:48-51 | the server's `detail` when truthy, else "Invalid credentials. Please try again."; never empty |
| Login.AfterLogin | frontend/src/pages/LoginPage.jsx:20-56 | a failure stores nothing and shows the message; a success stores both tokens first; admin site exactly for a requested and granted admin; the privileges error exactly for a requested, refused admin; /home exactly when admin was not requested; a token without three segments yields neither navigation nor error |
| Login.LoginOutcome | frontend/src/pages/LoginPage.jsx:25 | the login request never refreshes, never changes the tokens and never redirects, so the page's outcome is `AfterLogin` of its reply |
| Login.RejectedLoginMessage | frontend/src/api/api.js:36-61 | a 401 on login shows the server's detail only when a refresh token is stored, and the fallback otherwise |
| Login.LoginPage.OnSubmit | frontend/src/pages/LoginPage.jsx:20-56 | the handler leaves the tokens, navigation and error of `LoginOutcome`, and both busy flags off |
| Registration.RegisterErrorMessage | frontend/src/pages/RegisterPage.jsx:34-39 | the first username error, else the first email error, else "Registration failed. Please try again."; never empty |
| Registration.SubmitDisabled | frontend/src/pages/RegisterPage.jsx:163 | the button is enabled only for a valid form while neither submitting nor loading |
| Registration.RegisterPage.constructor | frontend/src/pages/RegisterPage.jsx:9-10 | the page starts with no error and not loading |
| Registration.AfterRegister | frontend/src/pages/RegisterPage.jsx:27-39 | success exactly when the page goes to /login with the success message and no error; a failure shows the chosen message and follows only the interceptor's redirect |
| Registration.RegisterPage.Begin | frontend/src/pages/RegisterPage.jsx:24-25 | every submission starts loading with the error cleared, the button disabled |
| Registration.RegisterPage.OnSubmit | frontend/src/pages/RegisterPage.jsx:23-44 | the handler leaves the tokens of the request and the navigation and error of `AfterRegister`, both busy flags off |
| Home.AfterStatusCheck | frontend/src/pages/HomePage.jsx:22-51 | no token: to /login, nothing set; no three segments: only loading ends; undecodable: the load error; decoded: the user is set from the payload, and an admin role leaves for the admin site with loading still on |
| Home.HomePage.constructor | frontend/src/pages/HomePage.jsx:8-14 | no user, loading, no error, modal closed, not processing, no plan selected |
| Home.HomePage.CheckUserStatus | frontend/src/pages/HomePage.jsx:22-51 | the page state and navigation are those of `AfterStatusCheck` |
| Home.HomePage.HandleSubscribe | frontend/src/pages/HomePage.jsx:62-65 | records the plan and opens the modal, nothing else |
| Home.AmountCents | frontend/src/pages/HomePage.jsx:73 | the intent's amount is the price in cents (price·100) |
| Home.PaymentSteps | frontend/src/pages/HomePage.jsx:73-82 | intent, confirmation, subscription request, strictly in this order, each only after the previous one succeeded, with the first failure caught; the request goes through `api` |
| Home.ReplaceTokens | frontend/src/pages/HomePage.jsx:85-88 | both tokens are replaced when the reply carries both, and otherwise neither |
| Home.PaymentErrorMessage | frontend/src/pages/HomePage.jsx:94-97 | the server's `error` when truthy, else "Payment failed. Please try again." |
| Home.AfterPayment | frontend/src/pages/HomePage.jsx:67-101 | for the settled run of the payment steps: on failure the page writes no token, keeps modal and plan, and shows the message; on success tokens are replaced, the user re-read, success shown and the modal closed; processing ends on every path |
| Home.HomePage.Pay | frontend/src/pages/HomePage.jsx:73-82 | the three steps leave the stored tokens, the outcome, the redirect and the calls of `PaymentSteps` |
| Home.HomePage.Subscribed | frontend/src/pages/HomePage.jsx:85-92 | after a successful request the tokens are `ReplaceTokens` of the reply, the user check is `AfterStatusCheck` on the new token, the success message is shown, the modal closes and processing ends |
| Home.HomePage.Failed | frontend/src/pages/HomePage.jsx:94-99 | after a failed step only the error (`PaymentErrorMessage`) and `processing` change |
| Home.HomePage.HandlePayment | frontend/src/pages/HomePage.jsx:67-101 | the handler leaves the state, tokens, navigation and calls of `AfterPayment` applied to `PaymentSteps` from the old state and tokens |
| Home.PlanButtonDisabled | frontend/src/pages/HomePage.jsx:244 | disabled exactly when `user?.subscription?.plan_id === plan.id`, two undefineds being equal |
| Home.AtMostOneCurrentPlan | frontend/src/pages/HomePage.jsx:240-246 | among plans with distinct ids at most one button is disabled |
| Home.CardFeatures | frontend/src/pages/HomePage.jsx:236-238 | a card lists the trimmed comma-separated pieces of its features text, and nothing without one |
| CrossChecks.AdminLoginAgreesWithRouter | backend/users/api/serializers.py:50-53 | for a token carrying a saved user's claims, the login page's flag test implies the router's and the home page's role test, so every page load leaves for the admin site |
| CrossChecks.ListedPlanButton | frontend/src/pages/HomePage.jsx:244 | a listed plan's button is disabled exactly when it is the user's current plan |
| CrossChecks.ListedPlanCardsShowNoFeatures | backend/users/api/serializers.py:76 | the listing has no features, so the plan cards list none |
| CrossChecks.RenewedPlanBecomesCurrent | backend/users/api/views.py:96-122 | after a renewal the new token's claims make the renewed plan's card the current one |
| CrossChecks.RegisterFailureReply | backend/users/api/serializers.py:30-32 | the user limit's `ValidationError` reaches the client as a 400 with no field errors |
| CrossChecks.RegisterReply | backend/users/api/views.py:15-18 | `RegisterView` answers 201 exactly for a created user and the 400 above for a refusal |
| CrossChecks.RegistrationOutcomeShown | frontend/src/pages/RegisterPage.jsx:27-39 | end to end from the user limit: a refused registration passes the interceptor untouched and leaves the page where it is with the generic message, not the limit; an accepted one goes to /login with the success message; the tokens are untouched |
| CrossChecks.RefusalShownInModal | frontend/src/pages/HomePage.jsx:79-97 | a refused subscription change is a 400 or 403, never a 401, so after a successful gateway payment the page keeps its tokens, modal and plan, stays, and shows the view's reason |

## Left out

- Rendering, layout, Formik wiring and the validation schemas: only the state each handler leaves and the navigation it asks for are modelled.
- `localStorage`, axios, `window.location` and React Router as real APIs. Storage is two optional strings; navigation and redirects are result values.
- Base64 and JSON decoding of token payloads: an abstract partial function. Token signing, expiry, the standard claims and blacklisting are not modelled.
- The payment gateway: its delays and its random outcome are replaced by function parameters.
- Admin.UsageStatus: the percentage is exact, not computed in floats. In floats the shown whole percentage can be one less than the exact floor (29 users of 100 show 28). The colours agree, because the thresholds are whole numbers.
- Home.AmountCents: prices are whole cents, where the client multiplies a float by 100. Django REST framework renders a `DecimalField` as text ("29.00") by default, and JavaScript's `*` converts that text to a number. The model gives the listing's price as a number (`Serializers.PlanListing`), so that conversion and its float rounding are not modelled, and a price given as text gets no amount.
- `total_revenue` and `active_subscriptions` of the admin site: float formatting and a plain count of active rows, with no rule to prove.
- The plan listing view and `fetchSubscriptionPlans`: plans reach the cards as field maps.
- The clock: each view and save reads one `now`, where the code reads the clock twice.
- Anonymous requests: only authenticated callers reach the subscription and logout views.
- Uniqueness of usernames, and Django's field validation.
- Concurrency: two requests that both get a 401 would each refresh.
- Text.Trim: only space, tab, line feed and carriage return count as white space, not the other Unicode space characters JavaScript's `trim` removes.
- frontend/src/components/Navigation.jsx: only display, plus a call of the modelled logout.
- backend/users/api/urls.py: route configuration. The endpoint URLs appear as constants.
- Routes.Route: React Router's matching of trailing slashes and letter case is not modelled; paths are compared exactly. App renders once, at page load (`Routes.Load`); a later re-render of App is not modelled.
- CrossChecks.RegisterFailureReply: the list of messages in the 400 body is not represented, only the absence of field errors.

## Findings

| source | as written | input that shows it | evidently intended | confidence | as-written member | corrected member |
|---|---|---|---|---|---|---|
| backend/users/api/views.py:106-112 | the create branch passes `payment_id` to `Subscription.objects.create`, but `Subscription` has no such field, so the call raises TypeError and the generic handler answers 400 | a tenant owner whose tenant has no subscription posts a valid plan id and payment id | create the tenant's first subscription (active, ending in 30 days) and answer with fresh tokens that carry it | not executed | Views.FirstSubscriptionAlwaysRefused | Views.IntendedFirstSubscriptionIssued |
