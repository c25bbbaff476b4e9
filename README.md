# vikareta-admin: a Dafny model of the API client, the session and the dashboard pages

This project models the core of the vikareta admin dashboard, a Next.js/React
application. It covers three parts:

- `AdminApiClient` (`src/lib/api/admin-client.ts`). Its request interceptor
  attaches the admin bearer token and the CSRF token. Its response
  interceptor renews an expired CSRF token once, refreshes an expired
  session once, or signs the administrator out. `ensureCSRFToken`
  bootstraps the CSRF token leniently. `loginWithCSRF` is the strict login
  handshake, and `/auth/...` paths are routed to the root API.
- `AuthProvider` (`src/components/providers/auth-provider.tsx`). `checkAuth`
  validates a stored token against `/auth/me`, accepts only admin and
  seller accounts, and maps them to admin or support. It also covers
  `login`, `logout`, `hasPermission` and `hasRole`.
- The dashboard pages: categories, products, transactions, the overview and
  analytics. Each page's state is a class whose methods follow the page's
  handlers. Every request a page issues and every `alert` it shows is
  recorded in the `requests` and `alerts` fields. Query parameters are built
  one `if` at a time, as the pages build them. Replies arrive as settled
  promises. Badges, pagination windows, "showing a to b of n", empty-list
  hints and stat cards are functions with the properties the views rely on.

The network is a parameter. A dispatch receives the replies to its
successive attempts (`nat -> Reply<T>`), the answer of the CSRF bootstrap
and the answer of the token refresh. The recursive `Pipeline` function
specifies what the client does. The `Dispatch` loop is proved to produce
exactly the wire traffic, final storage and outcome of `Pipeline`. The
lemmas about `Pipeline` bound the traffic and describe each recovery path.
The CSRF bootstrap goes where the code sends it. That is `/csrf-token` on
the base computed at `admin-client.ts:23`, which is mangled for the default
URL (see "## Findings"). The corrected base is modelled beside it.

Modules:

- `Common`: optional values, settled promises, JS string helpers.
- `Web`: local storage, the cookie and the location.
- `ApiClient`
- `Auth`
- `Listing`: what the list pages share.
- `Categories`, `Products`, `Transactions`, `Dashboard`, `Analytics`

JavaScript "falsy" strings are modelled this way: `undefined`, `null` and
`''` are all the empty string. A stored key counts as set exactly when its
value is non-empty (`Web.Has`).

## Model

| member | source | states |
|---|---|---|
| Common.Describe | src/app/dashboard/categories/page.tsx:102 | the caught-error text prefers the response message, then the error message, then the fallback; with a non-empty fallback it is never empty |
| Common.ToLower | src/lib/api/admin-client.ts:48 | lower-casing keeps the length and maps each character through the ASCII letter map |
| Common.ToLowerIdempotent | src/lib/api/admin-client.ts:48 | lower-casing twice is lower-casing once |
| Common.IndexOf | src/lib/api/admin-client.ts:23 | the index found is a match and no earlier index matches; no index is found exactly when nothing matches |
| Common.IndexOfFirst | src/lib/api/admin-client.ts:23 | any first match is what `indexOf` returns |
| Common.ContainsAt | src/lib/api/admin-client.ts:73 | a match at any index makes `includes` true |
| Common.ReplaceFirstAt | src/lib/api/admin-client.ts:23 | a string `replace` cuts out exactly the first occurrence and keeps both sides |
| Common.Prefix | src/app/dashboard/transactions/page.tsx:402 | `substring(0, n)` is a prefix of length `min(n, length)` |
| Web.GetHas | src/lib/api/admin-client.ts:42-43 | a key is set exactly when reading it gives a non-empty string |
| Web.Browser.constructor | src/lib/api/admin-client.ts:41-54 | the browser holds the given storage, cookie and location |
| ApiClient.ApiBaseUrl | src/lib/api/admin-client.ts:5 | the configured URL when it is non-empty, the production URL otherwise |
| ApiClient.CsrfBaseAsWrittenCutsHost | src/lib/api/admin-client.ts:23 | the code as written removes the first "/api" wherever it is, including inside the host name |
| ApiClient.CsrfBaseAsWrittenBreaksDefault | src/lib/api/admin-client.ts:23 | for the default URL the code as written yields "https:/.vikareta.com/api" |
| ApiClient.CsrfBaseAsWritten | src/lib/api/admin-client.ts:23 | the CSRF base with the FIRST "/api" removed, as `String.replace` with a string pattern does; its consequences are stated by the two lemmas below it |
| ApiClient.CsrfBase | src/lib/api/admin-client.ts:21-23 | the corrected CSRF base strips a trailing "/api" and nothing else |
| ApiClient.CsrfBaseOfDefault | src/lib/api/admin-client.ts:21-23 | for the default URL the corrected base plus "/csrf-token" is the URL the login handshake uses |
| ApiClient.CsrfBootstrapUrl | src/lib/api/admin-client.ts:205 | the bootstrap GET goes to "/csrf-token" on the as-written CSRF base; for the default URL that is not the login handshake's URL |
| ApiClient.Intercept | src/lib/api/admin-client.ts:39-60 | method, URL and retry flags are unchanged; a Bearer header is added exactly when an admin token is stored; the CSRF header is added exactly for a non-read method with a stored token; other headers are untouched |
| ApiClient.InterceptAddsNothing | src/lib/api/admin-client.ts:41-53 | with neither token stored the request passes through unchanged |
| ApiClient.ReadMethodIgnoresCase | src/lib/api/admin-client.ts:48 | the read-method test gives the same answer for any casing of the method |
| ApiClient.StandardMethods | src/lib/api/admin-client.ts:48 | get, head and options are read methods; post, put, patch and delete are not |
| ApiClient.LenientToken | src/lib/api/admin-client.ts:209-218 | the nested `data.csrfToken` is preferred, then the flat one, else none |
| ApiClient.StrictToken | src/lib/api/admin-client.ts:240-259 | a failed fetch and a reply without a token are errors; otherwise the same token as the lenient reading |
| ApiClient.EnsureCsrf | src/lib/api/admin-client.ts:200-230 | with a token stored there is no call and no change; otherwise one bootstrap GET that stores the token exactly when one was found, and a failure changes nothing |
| ApiClient.EnsureCsrfIdempotent | src/lib/api/admin-client.ts:200-230 | after one bootstrap that stored a token, a second one neither calls nor changes anything |
| ApiClient.MixedCaseCsrfNotRecognised | src/lib/api/admin-client.ts:73 | a 403 whose message says only "Csrf" is not treated as a CSRF rejection |
| ApiClient.OnError | src/lib/api/admin-client.ts:63-124 | a CSRF 403 drops the token, re-fetches it, sets the header and resubmits; a 401 with a working refresh stores the new token, sets Bearer and resubmits; a failed refresh clears both tokens and redirects to /login; no refresh token clears the admin token and redirects; a 401 never touches the CSRF token; everything else is rejected unchanged |
| ApiClient.Exchange | src/lib/api/admin-client.ts:39-124 | one attempt is the intercepted request on the wire, then the recovery step for its reply |
| ApiClient.RecoveryCounts | src/lib/api/admin-client.ts:69-121 | a recovery issues at most one bootstrap and at most one refresh, and never an admin API call |
| ApiClient.ExchangeCounts | src/lib/api/admin-client.ts:63-124 | one attempt puts exactly one admin API request on the wire, and a resubmission uses up a retry flag |
| ApiClient.Pipeline | src/lib/api/admin-client.ts:39-124 | the reference run of one request on the admin transport: the intercepted request goes first; a delivered first reply settles at once with nothing stored; a request with both retry flags set settles to its first reply |
| ApiClient.PipelineBounded | src/lib/api/admin-client.ts:63-124 | a dispatch makes between 1 and 1 + (unset retry flags) admin API calls, at most one bootstrap and at most one refresh; a redirect means the session was signed out after a 401 |
| ApiClient.PipelineSettlesToReply | src/lib/api/admin-client.ts:63-124 | a dispatch settles to the first reply that is not recovered from |
| ApiClient.RefreshThenRetry | src/lib/api/admin-client.ts:90-108 | a 401 followed by a successful refresh and a successful retry delivers the retry's reply with the new token stored |
| ApiClient.RefreshFailureSignsOut | src/lib/api/admin-client.ts:109-114 | a failed refresh rejects with the original 401, clears both tokens and redirects to /login |
| ApiClient.CsrfRenewedOnce | src/lib/api/admin-client.ts:69-87 | a CSRF rejection with a renewed token resubmits once with the new token |
| ApiClient.SecondCsrfRejectionSurfaces | src/lib/api/admin-client.ts:69 | a second CSRF rejection of the same request is not retried and reaches the caller |
| ApiClient.ForeignErrorPropagates | src/lib/api/admin-client.ts:122 | any other failure is returned unchanged, with no further traffic |
| ApiClient.Route | src/lib/api/admin-client.ts:127-141 | a GET or POST goes to the root auth client exactly when its path starts with "/auth/" |
| ApiClient.Send | src/lib/api/admin-client.ts:127-153 | an auth call makes no admin-transport request and no refresh, never redirects and settles to its reply; the auth call's last request goes to the API root on the same URL and carries every header the caller passed; any other call first sends the intercepted request on the admin transport |
| ApiClient.AuthHeaders | src/lib/api/admin-client.ts:171-187 | auth requests carry Bearer when a token is stored and the CSRF header only for POST with a stored token |
| ApiClient.AuthHeadersMatchInterceptor | src/lib/api/admin-client.ts:171-187 | the auth client attaches the same headers the admin interceptor would |
| ApiClient.AuthRun | src/lib/api/admin-client.ts:155-198 | the result is the reply; no admin API call, no refresh and no redirect; one CSRF bootstrap exactly for a non-GET with no token stored; only the CSRF token can change in storage; the last request goes to the API root with the given method and URL, and its headers are the transport defaults with the caller's headers merged over them (the caller wins) |
| ApiClient.WritesUseAdminTransport | src/lib/api/admin-client.ts:143-153 | put, patch and delete always go through the admin pipeline, whatever the path |
| ApiClient.LoginHandshake | src/lib/api/admin-client.ts:233-286 | the login succeeds exactly when the strict token was found and the login reply was delivered; the CSRF token is stored only on success; the token fetch precedes the login POST |
| ApiClient.AdminApiClient.constructor | src/lib/api/admin-client.ts:11-35 | a client over the given browser, with the base URLs derived from the configured URL |
| ApiClient.AdminApiClient.EnsureCsrfToken | src/lib/api/admin-client.ts:200-230 | the method's traffic and new storage are those of `EnsureCsrf` |
| ApiClient.AdminApiClient.Recover | src/lib/api/admin-client.ts:65-123 | the method's traffic, storage, location and outcome are those of `OnError` |
| ApiClient.AdminApiClient.ExchangeOnce | src/lib/api/admin-client.ts:39-124 | one attempt of the method is `Exchange` |
| ApiClient.AdminApiClient.Dispatch | src/lib/api/admin-client.ts:39-124 | the loop of attempts produces exactly the traffic, storage, location and outcome of `Pipeline` |
| ApiClient.AdminApiClient.AuthRequest | src/lib/api/admin-client.ts:155-198 | the method is `AuthRun` |
| ApiClient.AdminApiClient.Call | src/lib/api/admin-client.ts:127-153 | each verb is routed by `Route` and dispatched through the chosen transport |
| ApiClient.AdminApiClient.LoginWithCsrf | src/lib/api/admin-client.ts:233-286 | the method is `LoginHandshake` |
| Auth.ToAdminUser | src/components/providers/auth-provider.tsx:94-107 | only the `admin` user type becomes the admin role, every other type becomes support; permissions are empty; the account is active; the copied fields are unchanged |
| Auth.HasPermission | src/components/providers/auth-provider.tsx:199-205 | true exactly for a signed-in super admin or admin, or a user listing the permission |
| Auth.HasRole | src/components/providers/auth-provider.tsx:207-211 | true exactly when a user is signed in and their role name is among the names asked for |
| Auth.HasRoleOneIsMany | src/components/providers/auth-provider.tsx:209 | asking for one role is asking for the one-element list |
| Auth.MappedUserPermissions | src/components/providers/auth-provider.tsx:199-205 | a mapped user holds a permission exactly when the backend type is admin |
| Auth.MappedUserRoles | src/components/providers/auth-provider.tsx:99 | a mapped user is admin or support, never super admin or moderator |
| Auth.Validate | src/components/providers/auth-provider.tsx:78-116 | a delivered body is accepted exactly when it succeeded with data of type admin or seller; outside that it is an invalid-format error or an access-denied error |
| Auth.ValidatedRoles | src/components/providers/auth-provider.tsx:89-100 | an accepted seller is support and holds no permission |
| Auth.CheckResult | src/components/providers/auth-provider.tsx:74-117 | a failed request is the check's error; a delivered body is validated |
| Auth.Cleared | src/components/providers/auth-provider.tsx:121-124 | after a failed check the three tokens are gone and every other key is kept |
| Auth.SignedOut | src/components/providers/auth-provider.tsx:190-192 | logout removes both session tokens and keeps every other key |
| Auth.SignedOutKeepsCsrf | src/components/providers/auth-provider.tsx:190-192 | logout keeps the CSRF token that a failed check drops |
| Auth.AfterLogin | src/components/providers/auth-provider.tsx:135-188 | a login either signs a user in or reports a non-empty failure, never both; the cookie mirrors the access token; a rejected handshake reports its message or "Login failed" |
| Auth.LoginSignsIn | src/components/providers/auth-provider.tsx:153-157 | after a successful login the stored token makes the interceptor send it as Bearer |
| Auth.AuthProvider.constructor | src/components/providers/auth-provider.tsx:37-40 | no user, loading, no navigation yet |
| Auth.AuthProvider.IsAuthenticated | src/components/providers/auth-provider.tsx:216 | authenticated exactly while a user is held; `Login` without a failure and `Logout` state it after the call |
| Auth.AuthProvider.CheckAuth | src/components/providers/auth-provider.tsx:53-133 | without a token only loading ends; with one, `/auth/me` is dispatched; on success the user is mapped and the cookie set; on failure the three tokens and the cookie are cleared and there is no user |
| Auth.AuthProvider.Login | src/components/providers/auth-provider.tsx:135-188 | the handshake of `LoginWithCsrf`, then the storage, cookie, user, navigation and failure of `AfterLogin` |
| Auth.AuthProvider.Logout | src/components/providers/auth-provider.tsx:190-197 | storage becomes `SignedOut`, the cookie and the user are gone, and "/login" is pushed |
| Listing.AlertText | src/app/dashboard/categories/page.tsx:128 | an action's alert is the server's message, else the fallback |
| Listing.SetFilters | src/app/dashboard/transactions/page.tsx:75-94 | only non-empty filters become parameters, in order |
| Listing.SetFiltersExact | src/app/dashboard/transactions/page.tsx:80-94 | a filter reaches the query exactly when it is set |
| Listing.SetFiltersEmpty | src/app/dashboard/transactions/page.tsx:468-471 | no filter is sent exactly when none is set |
| Listing.EmptyHint | src/app/dashboard/transactions/page.tsx:468-471 | the empty-list text is the adjust hint while a filter is set, else the page's own text |
| Listing.SetFiltersSnoc | src/app/dashboard/products/page.tsx:80-93 | adding one more filter appends its parameter when it is set |
| Listing.ListQueryStep | src/app/dashboard/products/page.tsx:80-93 | building the query one `if` at a time gives the full query |
| Listing.ListQueryCarries | src/app/dashboard/categories/page.tsx:82-89 | the query starts with page and limit 20 and carries a filter exactly when it is set |
| Listing.AddIfSet | src/app/dashboard/categories/page.tsx:87-89 | the conditional assignment extends the query built so far by exactly that filter when it is set |
| Listing.Load | src/app/dashboard/categories/page.tsx:93-104 | rows and pagination come from a successful reply with data; otherwise no rows, no pagination and the described error |
| Listing.HeaderCount | src/app/dashboard/categories/page.tsx:320 | the header count is the total, or 0 without pagination |
| Listing.Consecutive | src/app/dashboard/categories/page.tsx:507-508 | the run of button numbers from a start |
| Listing.AtMostConsecutive | src/app/dashboard/categories/page.tsx:507-520 | dropping numbers past the last page keeps a prefix of the run |
| Listing.PageWindow | src/app/dashboard/categories/page.tsx:507-520 | exactly the consecutive numbers from max(1, page - 2), min(5, totalPages) of them, with those above totalPages dropped; so at most five, all within 1..totalPages, including the current page |
| Listing.WindowShrinksAtEnd | src/app/dashboard/categories/page.tsx:507-508 | on page 10 of 10 only buttons 8, 9 and 10 are shown |
| Listing.ShowingRangeBounds | src/app/dashboard/categories/page.tsx:486-490 | for a page that holds rows, "showing a to b" is a non-empty range of at most `limit` rows ending at or before the total |
| Categories.EditForm | src/app/dashboard/categories/page.tsx:203-211 | the edit form holds the category's own values |
| Categories.Switch.Put | src/app/dashboard/categories/page.tsx:176-180 | the spread copy changes only the switch's own flag, to the given value |
| Categories.Toggled | src/app/dashboard/categories/page.tsx:176-196 | rows with the id get the negated flag; every other row is unchanged |
| Categories.ToggledTwice | src/app/dashboard/categories/page.tsx:171-201 | toggling twice with the value on screen restores the list |
| Categories.TogglesCommute | src/app/dashboard/categories/page.tsx:171-201 | the two toggles commute |
| Categories.CategoriesPage.constructor | src/app/dashboard/categories/page.tsx:56-71 | the initial state of the page |
| Categories.CategoriesPage.Fetch | src/app/dashboard/categories/page.tsx:77-108 | one GET /categories with the page, limit 20 and the search term when set; the rows, pagination and error are those of `Load` |
| Categories.CategoriesPage.HandleSearch | src/app/dashboard/categories/page.tsx:219-223 | the page becomes 1 but the fetch still carries the previous page number; loading ends; the modals, the edited category, the form and the alerts are unchanged |
| Categories.CategoriesPage.Create | src/app/dashboard/categories/page.tsx:110-130 | POST /categories with the form; on success the modal closes, the form resets and the list reloads; a rejection alerts; on a rejection or an unsuccessful reply the rows, pagination, error, loading flag, modal and form are unchanged; the edit modal and the edited category never change |
| Categories.CategoriesPage.Edit | src/app/dashboard/categories/page.tsx:132-155 | nothing at all without a category being edited; otherwise a PUT of the form, and on success the modal closes, editing ends, the form resets and the list reloads; a rejection alerts; on a rejection or an unsuccessful reply the rows, pagination, error, loading flag, modal, edited category and form are unchanged |
| Categories.CategoriesPage.Delete | src/app/dashboard/categories/page.tsx:157-169 | nothing at all unless confirmed; any settled reply reloads the list; a rejection alerts and leaves the rows, pagination, error and loading flag unchanged; the modals, form and edited category never change |
| Categories.CategoriesPage.Toggle | src/app/dashboard/categories/page.tsx:171-201 | a PUT with the negated flag; once it settles the rows become `Toggled`; a rejection alerts with the switch's fallback instead |
| Categories.CategoriesPage.OpenEditModal | src/app/dashboard/categories/page.tsx:203-213 | the category is being edited, the form holds its values and the modal is open |
| Categories.CategoriesPage.HandlePageChange | src/app/dashboard/categories/page.tsx:215-217 | the current page becomes the chosen one |
| Categories.CategoriesPage.EmptyMessage | src/app/dashboard/categories/page.tsx:443-445 | the adjust hint while a search term is set, "Get started…" otherwise |
| Transactions.TransactionsQueryCarries | src/app/dashboard/transactions/page.tsx:75-94 | the query starts with page and limit, then carries each of the five filters exactly when it is set |
| Transactions.BuildQuery | src/app/dashboard/transactions/page.tsx:75-94 | the five conditional assignments build `TransactionsQuery` |
| Transactions.UnfilteredQuery | src/app/dashboard/transactions/page.tsx:75-78 | without filters only page and limit are sent |
| Transactions.StatusBadge | src/app/dashboard/transactions/page.tsx:115-131 | completed, pending, failed, cancelled and refunded each get their own colour and label; anything else is drawn as pending |
| Transactions.StatusBadgesDistinct | src/app/dashboard/transactions/page.tsx:116-122 | different known statuses get different badges |
| Transactions.StatusIsCaseSensitive | src/app/dashboard/transactions/page.tsx:124 | "Completed" is drawn as pending, "completed" is not |
| Transactions.TypeIcon | src/app/dashboard/transactions/page.tsx:133-144 | a rising arrow for credit and deposit, a falling one for debit and withdrawal, any casing; otherwise none |
| Transactions.TypeTone | src/app/dashboard/transactions/page.tsx:147-156 | green, red, blue, orange, purple and indigo for credit, debit, deposit, withdrawal, refund and commission; gray for any other key |
| Transactions.TypeBadge | src/app/dashboard/transactions/page.tsx:146-163 | labelled with the type as received, coloured by its lower-cased form, gray when that form is not a known type |
| Transactions.AmountSign | src/app/dashboard/transactions/page.tsx:433-434 | "+" exactly for a credit or deposit in any casing, "-" otherwise |
| Transactions.TypeViewsAgree | src/app/dashboard/transactions/page.tsx:429-437 | a rising arrow exactly for a "+" amount, a "+" exactly for green; icon and badge colour ignore case |
| Transactions.RefundShownAsDebit | src/app/dashboard/transactions/page.tsx:133-163 | a refund shows "-" with no arrow and a purple badge |
| Transactions.DisplayId | src/app/dashboard/transactions/page.tsx:402 | the first eight characters of the id and "..." |
| Transactions.DisplayIdCollides | src/app/dashboard/transactions/page.tsx:402 | ids that agree in their first eight characters look the same |
| Transactions.TransactionsPage.constructor | src/app/dashboard/transactions/page.tsx:55-64 | the initial state of the page |
| Transactions.TransactionsPage.Fetch | src/app/dashboard/transactions/page.tsx:70-113 | one GET /transactions with `TransactionsQuery`; the rows, pagination and error are those of `Load` |
| Transactions.TransactionsPage.HandleSearch | src/app/dashboard/transactions/page.tsx:169-173 | the page becomes 1 but the fetch still carries the previous page number; loading ends; filters and alerts are unchanged |
| Transactions.TransactionsPage.HandlePageChange | src/app/dashboard/transactions/page.tsx:165-167 | the current page becomes the chosen one |
| Transactions.TransactionsPage.HandleExport | src/app/dashboard/transactions/page.tsx:175-182 | one alert announcing that exporting is not there |
| Transactions.TransactionsPage.EmptyMessage | src/app/dashboard/transactions/page.tsx:469-471 | the adjust hint while any filter is set, the plain text otherwise |
| Products.ProductsQueryCarries | src/app/dashboard/products/page.tsx:80-93 | the query starts with page and limit, then carries search, category and status exactly when set |
| Products.BuildQuery | src/app/dashboard/products/page.tsx:80-93 | the three conditional assignments build `ProductsQuery` |
| Products.WithStatus | src/app/dashboard/products/page.tsx:119-123 | rows with the id get the new status; every other row is unchanged |
| Products.WithStatusOverrides | src/app/dashboard/products/page.tsx:114-147 | a later decision overrides an earlier one |
| Products.DecisionHidesActions | src/app/dashboard/products/page.tsx:392 | after a decision the product offers no buttons and other rows offer what they did |
| Products.StatusBadge | src/app/dashboard/products/page.tsx:149-157 | active, pending, rejected and inactive each get their own badge; anything else is drawn as pending |
| Products.UnknownStatusLooksPending | src/app/dashboard/products/page.tsx:157 | an unknown status is drawn as pending but offers no buttons |
| Products.Thumbnail | src/app/dashboard/products/page.tsx:338-340 | the first media URL exactly when there is media |
| Products.ProductsPage.constructor | src/app/dashboard/products/page.tsx:62-69 | the initial state of the page |
| Products.ProductsPage.Fetch | src/app/dashboard/products/page.tsx:75-112 | one GET /products with `ProductsQuery`; the rows, pagination and error are those of `Load` |
| Products.ProductsPage.HandleSearch | src/app/dashboard/products/page.tsx:172-176 | the page becomes 1 but the fetch still carries the previous page number; loading ends; filters and alerts are unchanged |
| Products.ProductsPage.HandlePageChange | src/app/dashboard/products/page.tsx:168-170 | the current page becomes the chosen one |
| Products.ProductsPage.Approve | src/app/dashboard/products/page.tsx:114-128 | one POST to the approve URL; any settled reply marks the product active; a rejection alerts instead |
| Products.ProductsPage.Reject | src/app/dashboard/products/page.tsx:130-147 | nothing without a non-empty reason; otherwise a POST with the reason; any settled reply marks the product rejected; a rejection alerts instead |
| Products.ProductsPage.EmptyMessage | src/app/dashboard/products/page.tsx:420-422 | the adjust hint while any filter is set, the plain text otherwise |
| Dashboard.StatsFrom | src/app/dashboard/page.tsx:105-120 | the reply's stats when it succeeded with data, else the zero record |
| Dashboard.ListFrom | src/app/dashboard/page.tsx:123-141 | the reply's array when it succeeded with one, else empty |
| Dashboard.StatCards | src/app/dashboard/page.tsx:169-202 | four cards with the stats' figures, or zeros without stats; products and orders carry no change; only revenue is a currency |
| Dashboard.ChangeIndicator | src/app/dashboard/page.tsx:303-314 | hidden exactly at 0, rising exactly above, falling exactly below, showing the absolute percentage |
| Dashboard.ChangeIndicatorMirrors | src/app/dashboard/page.tsx:303-314 | opposite changes show the same percentage with opposite arrows |
| Dashboard.IndicatorsOfCards | src/app/dashboard/page.tsx:169-202 | products and orders never show a change; zeroed stats show none |
| Dashboard.Recent | src/app/dashboard/page.tsx:374 | the first five entries |
| Dashboard.RecentIdempotent | src/app/dashboard/page.tsx:374 | taking the first five twice is taking them once |
| Dashboard.ConnectorsBetweenShown | src/app/dashboard/page.tsx:379 | a connector follows every shown activity except the last shown one |
| Dashboard.ActivityIcon | src/app/dashboard/page.tsx:204-217 | users, package, cart and alert exactly for user_registration, product_approval, order_placed and dispute_raised; the check mark exactly for any other type |
| Dashboard.ActivityColour | src/app/dashboard/page.tsx:219-230 | green, yellow and red exactly for success, warning and error; gray exactly for any other status |
| Dashboard.TxStatusTone | src/app/dashboard/page.tsx:484-488 | green exactly for completed, yellow exactly for pending, red otherwise |
| Dashboard.StatusColoursDisagree | src/app/dashboard/page.tsx:484-488 | an unknown status is red here but pending-yellow on the transactions page; refunded is red here, blue there |
| Dashboard.AttentionLines | src/app/dashboard/page.tsx:514-527 | one line for positive pending products, one for positive pending orders, nothing else, products first |
| Dashboard.BannerHasLines | src/app/dashboard/page.tsx:502-527 | the banner is drawn exactly when it has a line |
| Dashboard.DashboardPage.constructor | src/app/dashboard/page.tsx:72-77 | the initial state of the page |
| Dashboard.DashboardPage.Fetch | src/app/dashboard/page.tsx:83-166 | four GETs; with all replies settled the state comes from `StatsFrom` and `ListFrom`; after a rejection there are zero stats, empty lists and the described error |
| Dashboard.FailedLoadShowsNoBanner | src/app/dashboard/page.tsx:502-527 | a failed load shows no banner and every card reads 0 |
| Analytics.PeriodDays | src/app/dashboard/analytics/page.tsx:114 | 7 for "7d", 30 for "30d", 90 otherwise |
| Analytics.DrawBounds | src/app/dashboard/analytics/page.tsx:123-125 | `floor(r * span) + base` lies in `base .. base + span - 1` for `r` in [0, 1) |
| Analytics.MockSeries | src/app/dashboard/analytics/page.tsx:113-130 | one point per day |
| Analytics.MockSeriesShape | src/app/dashboard/analytics/page.tsx:117-127 | the points run from `days - 1` days ago to today with no gap or repeat, and each figure is within its range |
| Analytics.GenerateMockChartData | src/app/dashboard/analytics/page.tsx:113-130 | the counting-down loop builds `MockSeries` of the period's days |
| Analytics.SharesMakeWhole | src/app/dashboard/analytics/page.tsx:77-83 | the category shares are positive and add up to 100 |
| Analytics.Cards | src/app/dashboard/analytics/page.tsx:141-174 | four cards with the overview figures, or zeros without analytics; fixed change labels |
| Analytics.Summary | src/app/dashboard/analytics/page.tsx:411-450 | new users, new orders, products and RFQs, or zeros without analytics |
| Analytics.ZeroedLooksEmpty | src/app/dashboard/analytics/page.tsx:93-105 | the zeroed record of a failed load shows what no analytics shows |
| Analytics.AnalyticsPage.constructor | src/app/dashboard/analytics/page.tsx:48-53 | the initial state, with period "7d" |
| Analytics.AnalyticsPage.Fetch | src/app/dashboard/analytics/page.tsx:59-111 | one GET /analytics with the period and metric list; a successful reply sets the analytics, the generated series and the shares; anything else stores the zeroed record, empty charts and the described error |
| Analytics.AnalyticsPage.SelectPeriod | src/app/dashboard/analytics/page.tsx:208 | the chosen period is recorded |
| Analytics.AnalyticsPage.HandleExport | src/app/dashboard/analytics/page.tsx:132-139 | one alert announcing that exporting is not there |

## Left out

- Concurrency. Each page handler runs to completion. `Promise.all` on the overview is one settled `Result` of the four replies.
- React effects. The refetch that follows a page, filter or period change is a separate call to the page's `Fetch`. `HandleSearch` models the closure that still holds the old page number.
- Everything on the wire is a parameter: transport, timeouts, `withCredentials`, cookies sent by the browser, and replies. `Math.random` values, `confirm` and `prompt` answers, and the clock behind `new Date()` are parameters too.
- Output only: `console` logging, `alert` (recorded as text), date and currency formatting. Rendering and JSX are left out beyond the functions the views compute.
- The `typeof window` checks. The model always runs in a browser.
- `toLowerCase` is modelled on ASCII letters only.
- Names inherited from `Object.prototype` are left out. In the source, a storage key, a status looked up in `statusConfig` or a type looked up in `typeConfig` called `constructor` or `toString` finds an inherited member. For a status that means no fallback to Pending. The model treats those names like any other unknown name.
- The endpoint wrappers of `admin-client.ts` beyond those the modelled pages call (users, orders, disputes, settings and others) are not part of this model.
- A list reply whose `data` lacks `data` or `pagination` fields is left out; the model assumes a successful reply holds both.
- Amounts, counts and growth percentages are unbounded integers, not floating point.
- Rows are identified by value. The model does not capture React state identity.
- Server behaviour is not modelled. The k-th attempt of a dispatch gets the k-th given reply, and one CSRF answer and one refresh answer serve the whole dispatch.
- Analytics.MockSeries: the date labels are left out. Each point keeps how many days back it stands.

## Findings

| source | as written | input that shows it | evidently intended | confidence | as-written member | corrected member |
|---|---|---|---|---|---|---|
| src/lib/api/admin-client.ts:23 | `API_BASE_URL.replace('/api', '')` removes the first "/api" wherever it occurs | the default URL "https://api.vikareta.com/api" becomes "https:/.vikareta.com/api", because the first "/api" is the one after "https:/" (`ApiClient.CsrfBaseAsWrittenBreaksDefault`) | strip the trailing "/api" so the base is the root host, "https://api.vikareta.com", which line 237 uses directly | not executed | ApiClient.CsrfBaseAsWritten | ApiClient.CsrfBase |
