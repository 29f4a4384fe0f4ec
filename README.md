# Posifeed front-end logic in Dafny

Posifeed is a feedback-exchange web application. This project models the
logic of its React front-end: everything that is not layout. That logic is:

- **The HTTP client** (`Api`, over `Storage` and `Url`).
  - One `ApiClient` class holds the session token and mirrors it into
    `localStorage` under `auth_token`.
  - It composes request headers and turns a non-ok response into an error
    message.
  - It logs in and out.
  - It builds the query strings of the two `getFeedbacks` variants and the
    paths of the endpoint helpers.
  - `localStorage` is a `LocalStorage` class with one `map<string, string>`
    field. The client and the auth provider share the same store.
  - Every request is given the outcome of its `fetch` as a parameter: an
    ok body, a non-ok status with its error body, or a network failure.
- **The auth context** (`Auth`): the `user` and `loading` state, the mock
  login and logout that write the stored token, the shallow `updateUser`
  merge, and the `useAuth` guard.
- **The list pages**:
  - received feedback (`ReceivedFeedback`) and sent feedback
    (`SentFeedback`): order-preserving filters by category and period, the
    per-category counts, and the relative date;
  - users (`UsersPage`): the four-stage filter, the duplicate-free
    department list, the per-id updates of `isRead` and `active`, and the
    role labels.
- **The forms**: the password change on the settings page (`Settings`), the
  send-feedback schema and submit handler (`SendFeedback`), and the
  quick-feedback modal (`FeedbackModal`).
- **The arithmetic helpers**:
  - the growth rate, the chart scale and the category percentage
    (`Statistics`);
  - the "time ago" text and the sender line of the dashboard (`Dashboard`).

How JavaScript behaviour is modelled:

- Timestamps are integer milliseconds.
- Divisions are exact. `Math.round(x)` is `floor(x + 1/2)`, and
  `Math.floor` of a quotient is Dafny's `/` with a positive divisor.
- Strings are `seq<char>`, and `.length` is counted in UTF-16 code units.
- Truthiness of a `string | null` is `IsTruthy`: present and non-empty.
- Each React handler is one sequential step. Where the order of state
  writes matters, the handler returns it, as `loadingWrites`,
  `submittingWrites` or the modal's `events`.
- A JavaScript object has each property at most once. That is why
  `Api.ApiClient.GetFeedbacks` requires its parameter list to have
  distinct keys.

Where the application's documentation and its code disagree, the model
follows the code:

- `logout` sends `DELETE /auth/logout`.
- The received-feedback page marks an item read only after the server has
  accepted it; it is not optimistic.
- That page patches `/feedbacks/<id>/mark_read`, while the helper
  `markFeedbackAsRead` in `src/lib/api.ts` uses `/feedbacks/<id>/read`.
  Both paths are modelled as written.

## Model

| member | source | states |
|---|---|---|
| Api.ComposeHeaders | src/lib/api-simple.ts:28-35 | With no caller headers: the JSON content type is always present, `Authorization` is present exactly when the token is truthy and is then `Bearer <token>`, and no other header appears. Caller-supplied headers replace the whole header object. |
| Api.ResolveBaseUrl | src/lib/api.ts:14 | The base URL is the configured value when that is a non-empty string, and the localhost default otherwise. Its use is stated by Api.ApiClient.constructor. |
| Api.ThrownError | src/lib/api.ts:52-55 | A `null` error body, and only that, makes reading `error.message` throw a `TypeError`. Every other body gives an `Error`. A truthy `message` member becomes its text as `String` renders it. |
| Api.ErrorMessageCarriesStatus | src/lib/api-simple.ts:39-42 | A non-empty string `message` is thrown as it is. A truthy number is thrown as its decimal, and an object as `[object Object]`. An unparsable body acts as `{}`. A body with no usable message gives `HTTP Error: ` followed by the status, and the status can be parsed back from it. |
| Api.RequestResult | src/lib/api.ts:50-57 | `request` resolves exactly on an ok response, with its body. A non-ok response rejects with ThrownError of its status and body. A network failure rejects with the failure's own reason. |
| Api.ApiClient.constructor | src/lib/api-simple.ts:7-10 | The base URL is the configured one or the default. The token is the stored `auth_token` when present and null otherwise, so field and store agree. |
| Api.ApiClient.SetToken | src/lib/api-simple.ts:12-15 | Field and `auth_token` both hold the new token. Every other stored key is unchanged. |
| Api.ApiClient.ClearToken | src/lib/api-simple.ts:17-20 | The field is null and `auth_token` is removed. Every other stored key is unchanged, and field and store agree. |
| Api.ClearTokenTwice | src/lib/api.ts:30-33 | Clearing twice leaves the same state as clearing once. |
| Api.ApiClient.Request | src/lib/api-simple.ts:22-45 | The URL is base URL plus endpoint, the method defaults to GET, the body is passed through, the headers are ComposeHeaders of the current token, and the result is RequestResult of the outcome. |
| Api.ApiClient.Login | src/lib/api-simple.ts:48-59 | POSTs the credentials. The token is stored exactly when the request succeeds with a truthy token; otherwise field and store are unchanged. The response or error is returned unchanged, and field and store stay in agreement. |
| Api.ApiClient.Logout | src/lib/api-simple.ts:61-67 | Sends DELETE `/auth/logout`. Afterwards the token is cleared whether or not the request failed, and a failure is still reported with the request's error. |
| Api.ApiClient.GetJson | src/lib/api-simple.ts:74-76 | `get` sends a GET with no body. |
| Api.ApiClient.PostJson | src/lib/api-simple.ts:78-83 | `post` sends a POST carrying the data as its body. |
| Api.ApiClient.PatchJson | src/lib/api-simple.ts:85-90 | `patch` sends a PATCH carrying the data as its body. |
| Api.ApiClient.DeleteJson | src/lib/api-simple.ts:92-96 | `delete` sends a DELETE with no body. |
| Api.ApiClient.Call | src/lib/api.ts:82-192 | Each endpoint helper sends the path and options of RouteOf through `request`. |
| Api.ApiClient.GetFeedbacksSimple | src/lib/api-simple.ts:99-106 | GETs `/feedbacks` followed by the query suffix of the truthy `type` and `per_page`. |
| Api.BuildSimpleFeedbacksEndpoint | src/lib/api-simple.ts:100-104 | The step-by-step appends give `/feedbacks`, plus `?query` when anything was appended. The endpoint is bare `/feedbacks` exactly when `type` is empty or absent and `per_page` is absent or 0. |
| Api.SimpleFeedbacksQuery | src/lib/api-simple.ts:101-104 | With both parameters truthy, the query holds exactly the `type` pair and then the `per_page` pair, in that order. |
| Api.SimpleFeedbacksZeroPerPage | src/lib/api-simple.ts:102 | A `per_page` of 0 is falsy and so is left out, exactly as if it were absent. |
| Api.QuerySuffix | src/lib/api.ts:100-103 | `?` plus the query when some pair was appended, and the empty string exactly when none was. |
| Url.QueryRoundTrip | src/lib/api.ts:92-100 | The serialized query determines its pairs. Splitting on `&` gives one encoded pair per appended pair, in order, and splitting a pair on `=` gives its encoded name and value. |
| Api.DefinedPairs | src/lib/api.ts:93-97 | One pair for each parameter whose value is not undefined. |
| Api.BuildSearchParams | src/lib/api.ts:92-97 | The `forEach` loop appends exactly the defined parameters, in entry order. It is proved against DefinedPairs by a loop invariant. |
| Api.FeedbacksQueryContents | src/lib/api.ts:93-103 | Every defined parameter appears in the query, including `type` and zero values, and then the `?` is present. |
| Api.FeedbacksQueryEmptyIff | src/lib/api.ts:93-103 | The `?` and query are left out exactly when every parameter is undefined. |
| Api.FeedbacksTypeInPath | src/lib/api.ts:99 | When a `type` is given, the path is `/feedbacks/<type>`. |
| Api.ApiClient.GetFeedbacks | src/lib/api.ts:87-105 | GETs the `type`-dependent path followed by the query suffix of all defined parameters. |
| Api.RouteOf | src/lib/api.ts:107-192 | The path of every helper is a fixed path, or a prefix, a decimal id and a suffix. |
| Api.NamedRoutes | src/lib/api.ts:125-168 | `markFeedbackAsRead(id)` is PATCH `/feedbacks/<id>/read` with no body. `getUserStats` without a period asks for period `30`. |
| Api.RouteInjective | src/lib/api.ts:107-192 | Two helper calls that send the same path and options are the same call. The one exception is `getUserStats` with no period versus period `'30'`. |
| Auth.Merge | src/contexts/AuthContext.tsx:103-105 | Every field the patch has takes the patch's value, and every field it lacks keeps the user's. |
| Auth.MergeLaws | src/contexts/AuthContext.tsx:103-105 | An empty patch changes nothing, a patch applied twice acts once, and two successive patches are one combined patch. |
| Auth.MockToken | src/contexts/AuthContext.tsx:70 | Builds the mock token from the clock reading. Its shape is stated by Auth.MockTokenCarriesTime. |
| Auth.MockTokenCarriesTime | src/contexts/AuthContext.tsx:70 | The mock token is `mock-jwt-token-` followed by the clock reading, which can be parsed back. |
| Auth.MockUser | src/contexts/AuthContext.tsx:74-86 | The mock user has the given email, is active, and belongs to department 1. `createdAt` and `updatedAt` are two separate clock readings, each given as its own parameter, so they may differ. |
| Auth.MockUserConsistent | src/contexts/AuthContext.tsx:74-86 | The role is admin exactly when `admin` occurs in the email. Exactly then the id is 1, the name is 管理者 and the department is 管理部. Otherwise the user is the ordinary user: role `user`, id 2, name ユーザー and department 開発部. |
| Auth.PlaceholderUser | src/contexts/AuthContext.tsx:48-57 | The fixed user `initializeAuth` installs for any stored token: id 1, role `user`, active, with no department. `createdAt` and `updatedAt` are two separate clock readings. Its use is stated by Auth.AuthProvider.InitializeAuth. |
| Auth.UseAuth | src/contexts/AuthContext.tsx:28-34 | Returns the context when there is one, and otherwise fails with the provider message. |
| Auth.AuthProvider.constructor | src/contexts/AuthContext.tsx:40-41 | Starts with no user, loading. |
| Auth.AuthProvider.InitializeAuth | src/contexts/AuthContext.tsx:44-63 | A truthy stored token installs the placeholder user, and otherwise the user is unchanged. Loading ends in both cases, and the store is only read. |
| Auth.AuthProvider.Login | src/contexts/AuthContext.tsx:65-95 | Succeeds exactly when email and password are both non-empty. It then stores the mock token and sets the mock user. On failure it rejects with the message and changes neither user nor store. |
| Auth.AuthProvider.Logout | src/contexts/AuthContext.tsx:97-101 | The user is null and `auth_token` is removed. Other stored keys and `loading` are unchanged. |
| Auth.LogoutTwice | src/contexts/AuthContext.tsx:97-101 | Logging out twice leaves the same state as logging out once. |
| Auth.LoginThenLogout | src/contexts/AuthContext.tsx:65-101 | Login followed by logout leaves no user and no token, and every other stored key as it was. |
| Auth.AuthProvider.UpdateUser | src/contexts/AuthContext.tsx:103-105 | A null user stays null, and a present user becomes the merge. |
| Auth.LoginLeavesClientToken | src/contexts/AuthContext.tsx:65-95 | The mock login writes `auth_token` but never tells the API client. A client that had no token still has none, is out of step with the store, and sends no Bearer header. |
| Categories.ParseCategory | src/pages/SendFeedback.tsx:25-27 | A string that parses names the category it parses to. |
| Categories.CategoryNames | src/types/simple.ts:20 | Every category's name parses back to it, and names and labels are distinct across categories. |
| ReceivedFeedback.FilterByCategory | src/pages/ReceivedFeedback.tsx:57-63 | Defines the category filter effect. What it keeps is stated by ReceivedFeedback.FilterByCategoryExact. |
| ReceivedFeedback.FilterByCategoryExact | src/pages/ReceivedFeedback.tsx:57-63 | `all` keeps the whole list. A category keeps exactly the items of that category. The result is always an order-preserving subsequence. |
| ReceivedFeedback.CategoryCount | src/pages/ReceivedFeedback.tsx:177 | Defines the per-category count of the tab labels. Its sum is stated by ReceivedFeedback.CategoryCountsCover. |
| ReceivedFeedback.CategoryCountsCover | src/pages/ReceivedFeedback.tsx:173-177 | The four per-category counts add up to the total count. |
| ReceivedFeedback.MarkRead | src/pages/ReceivedFeedback.tsx:67-70 | The length is kept. Each item with the id becomes read with everything else kept, and every other item is unchanged. |
| ReceivedFeedback.MarkReadProperties | src/pages/ReceivedFeedback.tsx:67-70 | Items with the id are read, ids and categories are kept, other items are untouched, and marking twice is marking once. |
| ReceivedFeedback.MarkReadKeepsCounts | src/pages/ReceivedFeedback.tsx:177 | Marking an item read changes no category count. |
| ReceivedFeedback.MarkReadEndpoint | src/pages/ReceivedFeedback.tsx:67 | Defines the `/feedbacks/<id>/mark_read` path. Its use is stated by ReceivedFeedback.ReceivedFeedbackPage.MarkAsRead. |
| ReceivedFeedback.ReceivedFeedbackPage.constructor | src/pages/ReceivedFeedback.tsx:13-18 | Starts with empty lists, category `all` and no selection. |
| ReceivedFeedback.ReceivedFeedbackPage.ApplyFilter | src/pages/ReceivedFeedback.tsx:57-63 | The filtered list is FilterByCategory of the list and the selection. |
| ReceivedFeedback.ReceivedFeedbackPage.MarkAsRead | src/pages/ReceivedFeedback.tsx:65-74 | Sends PATCH to the mark-read path with no body. The list becomes MarkRead only when the request succeeded, and is unchanged on failure. |
| ReceivedFeedback.ReceivedFeedbackPage.OpenFeedbackDetail | src/pages/ReceivedFeedback.tsx:76-81 | Selects the item. A mark-read request is sent exactly when the item is unread. |
| SentFeedback.AnyIsIdentity | src/pages/SentFeedback.tsx:83-98 | An unselected category or period keeps every item. |
| SentFeedback.ComputeFiltered | src/pages/SentFeedback.tsx:79-101 | The staged reassignment of `filtered` equals one filter by both tests. |
| SentFeedback.SentFilter | src/pages/SentFeedback.tsx:79-101 | Defines one filter by both the category and the period test. What it keeps is stated by SentFeedback.SentFilterExact. |
| SentFeedback.SentFilterExact | src/pages/SentFeedback.tsx:79-101 | An item is kept exactly when it is in the list, has the selected category, and was created at or after the cutoff (the boundary is inclusive). The result is a subsequence, and with both selectors at `all` it is the whole list. |
| SentFeedback.SentFilterCommutesAndSettles | src/pages/SentFeedback.tsx:79-101 | Filtering by period first gives the same list, and re-filtering the result changes nothing. |
| SentFeedback.DiffDays | src/pages/SentFeedback.tsx:116 | The day count is the floor of the elapsed time over one day. |
| SentFeedback.RelativeDate | src/pages/SentFeedback.tsx:113-125 | Defines `getRelativeDate`. Its buckets are stated by SentFeedback.RelativeDateBuckets. |
| SentFeedback.RelativeDateBuckets | src/pages/SentFeedback.tsx:113-125 | Covers every bucket: 今日, 昨日, 2–6 days, weeks 1–4, months 1–12 and years ≥ 1. A future date gives a negative "days ago". |
| SentFeedback.SentCategoryCount | src/pages/SentFeedback.tsx:201 | Defines the per-category count of the tab labels. Its bound is stated by SentFeedback.SentCountsBound. |
| SentFeedback.SentCountsBound | src/pages/SentFeedback.tsx:193-201 | The four counts add up to at most the total, and exactly the total when every item's category is one of the four. |
| SentFeedback.SentFeedbackPage.constructor | src/pages/SentFeedback.tsx:26-31 | Starts with empty lists and both selectors at `all`. |
| SentFeedback.SentFeedbackPage.ApplyFilter | src/pages/SentFeedback.tsx:79-101 | The filtered list is SentFilter at the given clock reading. |
| UsersPage.UnselectedStages | src/pages/Users.tsx:81-103 | A stage left at its default keeps every user. |
| UsersPage.ComputeFilteredUsers | src/pages/Users.tsx:78-106 | The four staged narrowings equal one filter by all four tests. |
| UsersPage.UsersFilter | src/pages/Users.tsx:78-106 | Defines one filter by all four tests. What it keeps is stated by UsersPage.UsersFilterExact. |
| UsersPage.UsersFilterExact | src/pages/Users.tsx:78-106 | A user is kept exactly when it passes every selected stage. Search is on lower-cased name or email; department needs a department of that name; role and status must match. The result is a subsequence, and with no selection it is the whole list. |
| UsersPage.UsersFilterOrderIrrelevant | src/pages/Users.tsx:78-106 | The stages in the opposite order give the same list, and filtering again changes nothing. |
| UsersPage.DepartmentNames | src/pages/Users.tsx:108 | A name appears exactly when it is non-empty and some user has a department of that name. |
| UsersPage.Departments | src/pages/Users.tsx:108 | Defines `departments` as the duplicate-free department names. Its contents and order are stated by UsersPage.DepartmentsExact. |
| UsersPage.DepartmentsExact | src/pages/Users.tsx:108 | Every non-empty department name in use appears exactly once, in first-occurrence order. |
| UsersPage.SetActive | src/pages/Users.tsx:114-116 | The length is kept. Users with the id get the new status, and every other user is unchanged. |
| UsersPage.SetActiveProperties | src/pages/Users.tsx:114-116 | Only `active` changes, other users are untouched, and repeating the update is idempotent. |
| UsersPage.UsersPageState.constructor | src/pages/Users.tsx:19-26 | Starts with empty lists, no error and every selector at its default. |
| UsersPage.UsersPageState.ApplyFilter | src/pages/Users.tsx:78-106 | The filtered list is UsersFilter of the users and the selections. |
| UsersPage.UsersPageState.ToggleUserStatus | src/pages/Users.tsx:110-122 | PATCHes the negated status. On success only that user changes; on failure the list is kept and the fallback error is set. |
| UsersPage.RoleLabel | src/pages/Users.tsx:132-138 | `admin` becomes 管理者, `user` becomes 一般ユーザー, and any other string is returned unchanged. |
| UsersPage.RoleLabelsDistinct | src/pages/Users.tsx:132-138 | The two roles get different labels, and neither label is a role name. |
| Settings.PasswordError | src/pages/Settings.tsx:69-77 | Passes exactly when the passwords match and are at least 8 long. A mismatch reports the mismatch first; a match that is too short reports the length error. |
| Settings.PasswordBoundaries | src/pages/Settings.tsx:69-77 | 8 characters pass, 7 do not, and a mismatch wins over shortness. |
| Settings.SettingsPage.constructor | src/pages/Settings.tsx:8-37 | The profile form holds the user's name and email (or empty strings), the password fields are empty, and the notification defaults apply. |
| Settings.SettingsPage.SyncProfile | src/pages/Settings.tsx:39-46 | A present user overwrites the profile form, an absent one leaves it, and nothing else changes. |
| Settings.SettingsPage.HandlePasswordUpdate | src/pages/Settings.tsx:66-100 | A failed check sets only its error, with no request and no change to `isLoading` or `success`. Otherwise it sends the three fields. Loading goes true then false. Success empties the fields and sets the message; failure sets the error and keeps the fields. |
| Settings.SettingsPage.HandleProfileUpdate | src/pages/Settings.tsx:48-64 | Sends the profile form, with loading true then false, and sets the success or error message from the outcome. |
| Settings.SettingsPage.HandleNotificationUpdate | src/pages/Settings.tsx:102-117 | Sends the switches, with loading true then false, and sets the success or error message from the outcome. |
| SendFeedback.ValidateFeedback | src/pages/SendFeedback.tsx:23-30 | A failure carries at least one error. A missing `isAnonymous` becomes false. |
| SendFeedback.ValidateFeedbackExact | src/pages/SendFeedback.tsx:23-30 | Accepts exactly a non-empty recipient, one of the four category names and content of length 10–500, and passes the values on unchanged. On failure each field is reported at most once. Each error is tied to its field and cause: a missing recipient or content gets the generic required message, an empty recipient its own message, a missing category its message, a category outside the four the enum message, and content that is too short or too long its message. |
| SendFeedback.ContentBoundaries | src/pages/SendFeedback.tsx:28 | Lengths 10 and 500 pass, and 9 and 501 fail with their messages. |
| SendFeedback.FindRecipient | src/pages/SendFeedback.tsx:134 | Returns the first user whose decimal id equals the string, or nothing when no user matches. |
| SendFeedback.FindRecipientById | src/pages/SendFeedback.tsx:134 | Looking up an id's decimal finds a user with that id whenever one exists. A string with a leading zero, like `01`, finds nobody. |
| SendFeedback.SendFeedbackPage.constructor | src/pages/SendFeedback.tsx:61-65 | Starts not submitting, with no messages and an empty form. |
| SendFeedback.SuccessMessage | src/pages/SendFeedback.tsx:136 | Defines the success message. A recipient that was not found prints as `undefined`. Its use is stated by SendFeedback.SendFeedbackPage.OnSubmit. |
| SendFeedback.SendFeedbackPage.OnSubmit | src/pages/SendFeedback.tsx:125-143 | The flag goes true then false and the error is cleared. The success message names the recipient found (or `undefined`), and the form is reset. |
| Statistics.RoundHalfUp | src/pages/Statistics.tsx:152 | The result lies within one half of the quotient, with the upper half excluded. |
| Statistics.RoundHalfUpUnique | src/pages/Statistics.tsx:152 | Exactly one integer satisfies those bounds. |
| Statistics.GrowthRate | src/pages/Statistics.tsx:150-153 | Defines `calculateGrowthRate`, with a negative previous count handled the same way. Its value and sign are stated by Statistics.GrowthRateSpec and Statistics.GrowthRateSign. |
| Statistics.GrowthRateSpec | src/pages/Statistics.tsx:150-153 | From zero: 100 for a rise and 0 otherwise. Otherwise the rate is the percentage change rounded half up, and no change gives 0. |
| Statistics.GrowthRateSign | src/pages/Statistics.tsx:150-153 | For a positive previous count, the rate is ≥ 0 exactly when the fall is at most half a percent. A rise gives ≥ 0 and a fall gives ≤ 0. |
| Statistics.SmallFallShowsPlus | src/pages/Statistics.tsx:333-336 | 199 after 200 shows `+0%`. |
| Statistics.GrowthLabel | src/pages/Statistics.tsx:336 | Defines the growth label. Its sign and read-back are stated by Statistics.GrowthLabelSign. |
| Statistics.GrowthLabelSign | src/pages/Statistics.tsx:333-336 | The label starts with `+` exactly for a non-negative rate and with `-` exactly for a negative one. It ends in `%`, and the rate can be read back from it. |
| Statistics.MaxValue | src/pages/Statistics.tsx:159-161 | At least 1, at least every count, and either 1 or one of the counts. |
| Statistics.Percentage | src/pages/Statistics.tsx:468-469 | 0 for an empty total. Otherwise the result lies within one half of 100·count/total, with the upper half excluded. A missing count is read as 0. |
| Statistics.PercentageSpec | src/pages/Statistics.tsx:468-469 | A missing count is 0 and the whole total is 100. A count within the total gives a result between 0 and 100. |
| Dashboard.DiffHours | src/pages/Dashboard.tsx:95 | The hour count is the floor of the elapsed time over one hour. |
| Dashboard.FormatRelativeTime | src/pages/Dashboard.tsx:92-102 | Defines `formatRelativeTime`. Its buckets are stated by Dashboard.RelativeTimeBuckets. |
| Dashboard.RelativeTimeBuckets | src/pages/Dashboard.tsx:92-102 | Under a day: whole hours. From 24 hours on: whole days elapsed, at least one. Exactly 24 hours gives 1日前. |
| Dashboard.SenderLabel | src/pages/Dashboard.tsx:279 | Defines the sender line. What it shows is stated by Dashboard.SenderLabelExact. |
| Dashboard.SenderLabelExact | src/pages/Dashboard.tsx:279 | The line is 匿名 exactly when there is no sender, and otherwise `from ` followed by the display name. |
| FeedbackModal.SubmitDisabled | src/components/FeedbackModal.tsx:236 | Defines the `disabled` condition of the send button. When it holds is stated by FeedbackModal.SubmitDisabledExact. |
| FeedbackModal.SubmitDisabledExact | src/components/FeedbackModal.tsx:236 | The button is disabled exactly while submitting or when the category or recipient is missing or the content is all whitespace. Content length has no upper limit. |
| FeedbackModal.CounterLabel | src/components/FeedbackModal.tsx:198 | Defines the counter text. Its contents are stated by FeedbackModal.CounterLabelCarriesLength. |
| FeedbackModal.CounterLabelCarriesLength | src/components/FeedbackModal.tsx:198 | The counter ends in ` / 500`, and the content's length in UTF-16 units can be read back from it. It is shown for any length, past 500 included. |
| FeedbackModal.ModalState.constructor | src/components/FeedbackModal.tsx:42-46 | Starts with no category, empty recipient and content, not anonymous and not submitting. |
| FeedbackModal.ModalState.ResetEffect | src/components/FeedbackModal.tsx:49-57 | Closing clears the four form fields, and opening keeps them. |
| FeedbackModal.ModalState.HandleSubmit | src/components/FeedbackModal.tsx:59-81 | A missing required field gives only the alert and leaves `isSubmitting` alone. Otherwise the flag goes up and down, the alert is shown, `onSuccess` runs before `onClose`, and the form fields are unchanged. |
| FeedbackModal.SubmitThenClose | src/components/FeedbackModal.tsx:49-81 | A complete submit followed by closing reports `onSuccess` before `onClose` and leaves the form empty and not submitting. |

## Left out

- The network, `fetch`, `JSON.stringify` and `response.json()`. A request is given its outcome as a value, and request bodies are `Json` values before serialization.
- `import.meta.env` is a parameter of the client's constructor.
- `Date`, `Date.now()`, ISO strings and their parsing: timestamps are integer milliseconds, and ISO strings are opaque parameters. Each `new Date().toISOString()` call is a parameter of its own. `toLocaleDateString` and `Intl.NumberFormat` (locale formatting) are left out.
- Floating-point error: the growth rate and the percentage are computed over exact rationals.
- Api.ThrownError: JSON numbers are integers, so a fractional or exponent-form `message` is not modelled. The `TypeError` for a `null` error body is a constructor of its own. Its message text is the engine's and is not part of this model.
- `Number.prototype.toString` is modelled for integers only. Numbers of 1e21 and above, and non-integers, are left out.
- `toLowerCase` is modelled on ASCII letters only. Other characters are kept as they are; Unicode case mapping is left out.
- `trim` uses the ECMAScript whitespace set but no Unicode normalization.
- React scheduling: effects and handlers run as single sequential steps given the outcome of their awaited call, with no interleaving or unmount races.
- `alert`, `console`, `setTimeout` delays and all rendering (JSX, inline styles, layout components, routing, the login form).
- The mock statistics generator of src/pages/Statistics.tsx, which is random and floating-point.
- The schema and form libraries' machinery. Only the predicate the schema declares is modelled.
- SendFeedback.InvalidCategory: stands for the schema library's own message for a value outside the enum. Its exact wording is not part of this model.
- SendFeedback.SendFeedbackPage.OnSubmit: the `catch` branch is not modelled, because the mock send cannot fail once the schema has accepted the data.
- UsersPage.UsersPageState.ToggleUserStatus: always sets the fixed fallback message on failure. The client's errors have no `response` property, so `err.response?.data?.error` is always undefined.
- Auth.UserPatch: a patch property explicitly set to `undefined` (which would overwrite the field with `undefined`) is not modelled; an absent property is `None`.
- The `getFeedbacks` parameter object of src/lib/api.ts is a list of distinct properties, in the order the caller wrote them.
