# policy-frontend, modelled in Dafny

policy-frontend is a React/Redux front end for managing insurance policies. This
project models the parts of it that carry logic, and proves properties of that model:

- **The shared HTTP client** (`ApiClient`). It covers the base-URL list, the token
  helpers over local storage, and the request interceptor that attaches
  `Authorization: Bearer <token>` (section 2.1 of RFC 6750). It also covers the
  response interceptor, which re-sends a failed request at most twice:
  - once after refreshing the token on 401 Unauthorized (section 15.5.2 of RFC 9110);
  - once against the next base URL.
- **The two Redux slices.**
  - `PolicySlice` holds the policy list, the pagination, the current policy, and the
    loading and error fields.
  - `AuthSlice` holds the signed-in state, read from local storage at start-up.

  Both are classes whose reducers assign fields in place.
- **The forms.**
  - The add/edit policy dialog (`PolicyDialog`): age, premium, sum assured and terms,
    the validation result, and the prefill from a displayed row.
  - The registration form (`RegisterForm`) and the login form (`LoginForm`). Their
    shared email and password-length rules are in `FormRules`.
- **The policy table** (`PolicyTable`). It formats rows for display and converts
  between the grid's 0-based page and the server's 1-based page.
- **The async thunks** (`AuthActions`, `PolicyActions`, shared parts in `Thunks`).
  These are the guards that run before any request, the handling of the one reply,
  the login's writes to storage, and the message each `catch` block rejects with.

Support modules:
- `Common`: `Option`/`Result` and JavaScript's `||` on strings.
- `Strings`: the JavaScript whitespace set, `trim`, `parseInt`, `String(n)`,
  `replace` with a string pattern (first occurrence only), and en-US digit grouping.
- `Dates`: dates as (year, month, day), ages, and `setFullYear`.
- `Storage`: `localStorage` as a class over a map.

Conventions:
- Time: "today" and "now" are parameters, and the local time zone is taken to be UTC.
- Network: the network and the refresh endpoint are oracles passed in as functions.
- Date parsing: `new Date(text)` is a parameter, with None standing for an Invalid Date.

What the code does not do, and the model therefore does not either:
- The application presents benefit projections and illustrations, but no projection or
  illustration is computed anywhere in the code: the illustration page renders static
  text, so nothing of the kind is modelled.
- Both entries of the base-URL list come from the same environment variable. A usable
  configuration therefore always yields two identical URLs, so the fallback re-sends
  to the same server.

## Model

| member | source | states |
|---|---|---|
| ApiClient.GetApiBaseUrls | src/utils/createApiClient.js:4-19 | Succeeds exactly when the variable holds an http(s) URL. It then yields that URL twice, and every entry is an http(s) URL. Otherwise it fails with "No valid API base URLs configured." |
| ApiClient.NextUrlIndex | src/utils/createApiClient.js:110-112 | `(indexOf + 1) % length` is always a valid index. It is 0 for an unknown URL (index -1), the entry after the current one otherwise, and wraps to 0 after the last |
| ApiClient.IndexOf | src/utils/createApiClient.js:110 | -1 exactly when the URL is absent, otherwise its first position |
| ApiClient.BearerRoundTrip | src/utils/createApiClient.js:56 | The header the interceptor writes parses back, under RFC 6750 section 2.1, to the stored token exactly when that token is a b64token |
| ApiClient.SelectBranch | src/utils/createApiClient.js:70-117 | The interceptor's branch, both directions each. It refreshes iff the status is 401 and `_retry` is unset. It falls back iff it does not refresh, a config exists, `_retried` is unset, there is more than one URL and `baseURL` is a string. A 401 without a config throws; anything else is rejected |
| ApiClient.RetryConsumesItsFlag | src/utils/createApiClient.js:70-109 | Once `_retry` is set the refresh branch can no longer be chosen, and once `_retried` is set the fallback cannot |
| ApiClient.Request.RetriesLeft | src/utils/createApiClient.js:70-109 | The one-shot retries a request still has: at most 2, and 0 exactly when both flags are set |
| ApiClient.Client.constructor | src/utils/createApiClient.js:44-49 | The client is built over a non-empty URL list and the given storage, with no refresh call, redirect or fallback made yet |
| ApiClient.Client.GetToken | src/utils/createApiClient.js:24-26 | Returns the stored access token, None when the key is absent |
| ApiClient.Client.GetRefreshToken | src/utils/createApiClient.js:28-30 | Returns the stored refresh token, None when the key is absent |
| ApiClient.Client.SetTokens | src/utils/createApiClient.js:32-35 | Storage afterwards is the old storage with both token keys overwritten |
| ApiClient.Client.ClearTokens | src/utils/createApiClient.js:37-41 | Removes exactly accessToken, refreshToken and userData; every other key is kept |
| ApiClient.Client.AttachBearer | src/utils/createApiClient.js:52-61 | Sets Authorization to "Bearer " + token only when a non-empty token is stored and headers exist. Otherwise the headers are unchanged |
| ApiClient.Client.HandleError | src/utils/createApiClient.js:64-119 | Per branch: the new flags, base URL, headers and storage, the verdict, and the refresh and redirect counts. See RefreshDone for the refresh branch. The fallback moves `baseURL` to `urls[NextUrlIndex]`. A rejection carries the ORIGINAL error. A re-send always spends a flag. Storage outside the three session keys is never touched. A refresh call or a redirect to login happens only when this call sets `_retry`, and a fallback exactly when it sets `_retried` |
| ApiClient.Client.Transmit | src/utils/createApiClient.js:52-61 | One dispatch goes to the request's base URL and, when a truthy access token is stored and the request has headers, carries that token's bearer credentials (so the dispatch after a refresh carries the new token); otherwise its authorization is unchanged |
| ApiClient.Client.Dispatch | src/utils/createApiClient.js:52-119 | A request is dispatched at most 1 + (unset flags) times. The first dispatch uses the original base URL. Every dispatch but the last failed, and the outcome is the last dispatch's reply. A request never crashes. It is dispatched again exactly when the first dispatch failed and the interceptor either refreshed the token successfully or fell back (Resends). After a fallback the second dispatch goes to `urls[NextUrlIndex]`. After a successful refresh of a request with headers it carries the new token's bearer credentials. Each dispatch carries the bearer credentials of the access token stored at that moment, when it is truthy and the request has headers. At most one refresh call and one redirect to login are made, none once `_retry` is set, and at most one fallback, none once `_retried` is set. Storage outside the session keys is unchanged |
| ApiClient.Client.NewRequest | src/utils/createApiClient.js:44-49 | A new request targets `urls[0]` with JSON headers and no flags set |
| ApiClient.Client.Send | src/utils/createApiClient.js:44-119 | A logical call makes at most 3 dispatches and at most 1 refresh call. It makes at most one fallback and at most one redirect to login. The first dispatch carries the stored access token, if truthy. The call dispatches again exactly after a successful refresh or a fallback. A failure other than 401 with more than one URL is re-sent to the second URL. A 401 with a truthy refresh token that the endpoint accepts is re-sent with the new token's bearer credentials. It resolves exactly when its last dispatch succeeded, with that dispatch's data, and is rejected with that dispatch's error. Storage outside the three session keys is unchanged |
| PolicySlice.PaginationFrom | src/features/policy-detail-module/policySlice.js:55-60 | Each field is the payload's value when present (`??`, so 0 is kept), otherwise its default 1, 1, 0 or 10 |
| PolicySlice.PolicyState.constructor | src/features/policy-detail-module/policySlice.js:4-15 | The state starts equal to `initialState` |
| PolicySlice.PolicyState.ClearPolicyError | src/features/policy-detail-module/policySlice.js:21-23 | error becomes null and no other field changes |
| PolicySlice.PolicyState.ResetPolicyState | src/features/policy-detail-module/policySlice.js:24-26 | Every field equals `initialState` again |
| PolicySlice.PolicyState.Pending | src/features/policy-detail-module/policySlice.js:31-34 | loading true and error null; policies, currentPolicy and pagination untouched. The fetch's pending case at lines 45-48 is identical |
| PolicySlice.PolicyState.CreateFulfilled | src/features/policy-detail-module/policySlice.js:35-39 | loading false, currentPolicy = payload.policy, error null; the list and pagination untouched |
| PolicySlice.PolicyState.CreateRejected | src/features/policy-detail-module/policySlice.js:40-43 | loading false and error = payload; currentPolicy, list and pagination untouched |
| PolicySlice.PolicyState.FetchFulfilled | src/features/policy-detail-module/policySlice.js:49-68 | A payload with a list copies it and takes PaginationFrom. A malformed one empties the list and resets the pagination. The error ends null either way, and currentPolicy is untouched |
| PolicySlice.PolicyState.FetchRejected | src/features/policy-detail-module/policySlice.js:69-74 | error = payload, or "Failed to fetch policies" when the payload is absent or empty. The list is emptied and the pagination reset |
| AuthSlice.InitialAuthState | src/features/authentication-module/authSlice.js:5-12 | Authenticated iff the accessToken key is present, even with an empty value. The user is restored iff userData is non-empty. Not loading, no error |
| AuthSlice.ClearedSessionStartsSignedOut | src/features/authentication-module/authSlice.js:5-12 | After the three session keys are removed, the initial state is signed out with no user |
| AuthSlice.AuthState.constructor | src/features/authentication-module/authSlice.js:15-17 | The store's state is InitialAuthState of local storage |
| AuthSlice.AuthState.LoginSuccess | src/features/authentication-module/authSlice.js:19-23 | Authenticated, user = payload.user, error null; loading unchanged |
| AuthSlice.AuthState.Logout | src/features/authentication-module/authSlice.js:24-28 | Not authenticated, no user, error null; loading unchanged |
| AuthSlice.AuthState.ClearAuthMessages | src/features/authentication-module/authSlice.js:29-31 | Only error changes, to null |
| AuthSlice.AuthState.SignUpPending | src/features/authentication-module/authSlice.js:35-38 | loading true and error null; authentication and user unchanged |
| AuthSlice.AuthState.SignUpFulfilled | src/features/authentication-module/authSlice.js:39-44 | loading false, authenticated, user = payload.data.user, error null |
| AuthSlice.AuthState.SignUpRejected | src/features/authentication-module/authSlice.js:45-49 | loading false, not authenticated, error = payload or "Sign up failed"; the user is NOT cleared |
| Dates.AgeOn | src/components/dashboard/policy-management/AddEditPolicyDialog.jsx:182-195 | The result is the age in completed years: that birthday has come and the next has not |
| Dates.AtLeastAgeIffAnniversaryReached | src/components/authentication/RegisterPage.jsx:152-158 | Someone is at least k years old exactly when their k-th birthday is on or before today |
| Dates.ShiftYearsJs | src/components/authentication/RegisterPage.jsx:153-154 | `setFullYear(year + n)` keeps month and day. The exception is 29 February in a common target year, which becomes 1 March |
| PolicyDialog.CalculateAge | src/components/dashboard/policy-management/AddEditPolicyDialog.jsx:182-195 | An empty date gives 0 and an unparsable date gives NaN (None). Otherwise the result is AgeOn, the age in completed years |
| PolicyDialog.AgeError | src/components/dashboard/policy-management/AddEditPolicyDialog.jsx:211-220 | No age error exactly when the date is empty, unparsable, or gives an age of 23 to 56 |
| PolicyDialog.NumberFieldErrorMeaning | src/components/dashboard/policy-management/AddEditPolicyDialog.jsx:229-242 | A numeric field (premium, and PPT at 268-280) is clear iff NumberInRange holds: all digits, with a value in [lo, hi]. Blank gives the required message |
| PolicyDialog.SumAssuredErrorMeaning | src/components/dashboard/policy-management/AddEditPolicyDialog.jsx:245-259 | With a numeric premium, the sum assured is clear iff SumAssuredAccepted holds: all digits, at least 10 × premium and at least 5,000,000 |
| PolicyDialog.PtErrorMeaning | src/components/dashboard/policy-management/AddEditPolicyDialog.jsx:283-299 | With a numeric PPT, PT is clear iff PtAccepted holds: all digits, in [10, 20] and greater than PPT. Out of range is reported before the comparison |
| PolicyDialog.NumericFieldsClearIffAccepted | src/components/dashboard/policy-management/AddEditPolicyDialog.jsx:229-299 | The premium, sum assured, PPT and PT messages are all empty iff the four numbers meet their rules together (NumbersAccepted) |
| PolicyDialog.NoErrorsIffAccepted | src/components/dashboard/policy-management/AddEditPolicyDialog.jsx:197-302 | No message is set exactly when the form meets every numeric rule (Accepted) |
| PolicyDialog.ValidateForm | src/components/dashboard/policy-management/AddEditPolicyDialog.jsx:197-302 | Every rule is checked independently. The result is true iff no message was set, iff the form is Accepted |
| PolicyDialog.AgeErrorLeavesDobClear | src/components/dashboard/policy-management/AddEditPolicyDialog.jsx:211-220 | An age outside [23, 56] sets the age message only; the date-of-birth message stays empty |
| PolicyDialog.StripAmount | src/components/dashboard/policy-management/AddEditPolicyDialog.jsx:153-154 | Corrected prefill of an amount: the result contains no comma |
| PolicyDialog.PrefillForm | src/components/dashboard/policy-management/AddEditPolicyDialog.jsx:148-170 | Without a row every field is empty. With a row, date, gender and frequency are copied, the two amounts are stripped of "$" and of every comma (so hold no comma), and the two terms of " years" |
| PolicyDialog.DropCurrencySign | src/components/dashboard/policy-management/AddEditPolicyDialog.jsx:153 | Removing the first "$" from a displayed amount leaves its grouped digits |
| PolicyDialog.AmountRoundTrip | src/components/dashboard/policy-management/AddEditPolicyDialog.jsx:153-154 | With the correction, every displayed amount reads back as its decimal digits |
| PolicyDialog.YearsRoundTrip | src/components/dashboard/policy-management/AddEditPolicyDialog.jsx:156-157 | Removing " years" from a displayed term gives back the term's digits |
| PolicyDialog.PrefillOfFormattedPolicy | src/components/dashboard/policy-management/AddEditPolicyDialog.jsx:148-158 | Prefilling from the display row of a policy gives the policy's own numbers as text |
| PolicyDialog.StripAmountAsWrittenRoundTripIff | src/components/dashboard/policy-management/AddEditPolicyDialog.jsx:153-154 | As written, a displayed amount reads back iff it is below 1,000,000 |
| PolicyDialog.StripAmountAsWrittenBelowMillion | src/components/dashboard/policy-management/AddEditPolicyDialog.jsx:153-154 | As written, a displayed amount below 1,000,000 (at most one comma) reads back as its digits |
| PolicyDialog.StripAmountAsWrittenKeepsComma | src/components/dashboard/policy-management/AddEditPolicyDialog.jsx:153-154 | As written, a displayed amount of 1,000,000 or more still holds a comma after the prefill |
| PolicyDialog.AsWrittenPrefillRejectsLargeAmounts | src/components/dashboard/policy-management/AddEditPolicyDialog.jsx:153-154 | As written, every amount of 1,000,000 or more, so every sum assured the dialog accepts, is prefilled into text the dialog rejects as "Sum Assured must be a valid number" |
| PolicyTable.FormatAmount | src/components/dashboard/policy-management/PolicyManagementTable.jsx:110-111 | A displayed amount is non-empty and starts with "$". That the rest is the en-US grouping of the digits, and reads back as them, is stated by PolicyDialog.DropCurrencySign and PolicyDialog.AmountRoundTrip |
| PolicyTable.FormatYears | src/components/dashboard/policy-management/PolicyManagementTable.jsx:113-114 | A term is displayed with the suffix " years" |
| PolicyTable.FormatPolicy | src/components/dashboard/policy-management/PolicyManagementTable.jsx:106-115 | id, dob, gender and premiumFrequency are copied unchanged |
| PolicyTable.FormatPolicies | src/components/dashboard/policy-management/PolicyManagementTable.jsx:105-116 | One row per policy, same length and order |
| PolicyTable.RowIdsArePolicyIds | src/components/dashboard/policy-management/PolicyManagementTable.jsx:107 | Distinct policy ids give distinct row ids |
| PolicyTable.RowCount | src/components/dashboard/policy-management/PolicyManagementTable.jsx:254 | The row count is totalItems, or 0 without pagination |
| PolicyTable.TableState.constructor | src/components/dashboard/policy-management/PolicyManagementTable.jsx:88-89 | page is currentPage, or 1 when that is missing or 0. pageSize is itemsPerPage, or 5 when that is missing or 0 |
| PolicyTable.TableState.HandlePageChange | src/components/dashboard/policy-management/PolicyManagementTable.jsx:217-220 | page = grid page + 1 and pageSize = grid page size. The grid model derived at line 258 is then exactly the one the grid reported |
| FormRules.IsEmailIffMatchesPattern | src/components/authentication/RegisterPage.jsx:216 | The direct check (first "@", last ".") accepts exactly the strings the case-insensitive email pattern matches |
| FormRules.EmailError | src/components/authentication/RegisterPage.jsx:213-219 | The email is valid iff it matches the pattern. Empty gives "Email is required". LoginPage.jsx:113-119 applies the same rule |
| FormRules.PasswordLengthError | src/components/authentication/LoginPage.jsx:143-149 | A password passes `required` and `minLength` iff it has at least 8 characters |
| RegisterForm.NameError | src/components/authentication/RegisterPage.jsx:112-119 | The name is valid iff it has at least 2 characters, all ASCII letters or whitespace. Empty gives "Name is required" |
| RegisterForm.BlankNameIsAccepted | src/components/authentication/RegisterPage.jsx:112-119 | A name of whitespace alone passes iff it has at least two characters; a single whitespace character gets the pattern message |
| RegisterForm.ContactError | src/components/authentication/RegisterPage.jsx:183-189 | Valid iff an optional "+" is followed by 2 to 15 digits, the first not 0 |
| RegisterForm.PlusIsOptional | src/components/authentication/RegisterPage.jsx:186 | A leading "+" changes nothing: "+s" passes iff s passes |
| RegisterForm.DigitStringIsPhoneNumber | src/components/authentication/RegisterPage.jsx:186 | A digit string without a leading zero passes iff it has 2 to 15 digits |
| RegisterForm.DigitsOfNatArePhoneNumber | src/components/authentication/RegisterPage.jsx:186 | A number written in decimal passes iff it lies in [10, 10^15) |
| RegisterForm.PhoneNumberOfNat | src/components/authentication/RegisterPage.jsx:186 | A number written in decimal, with or without "+", passes iff it has 2 to 15 digits |
| RegisterForm.PasswordError | src/components/authentication/RegisterPage.jsx:243-254 | Valid iff at least 8 characters, only letters, digits and @$!%*?&, with at least one lower-case letter, one upper-case letter, one digit and one special character |
| RegisterForm.MissingClassIsWeak | src/components/authentication/RegisterPage.jsx:243-254 | A password of at least 8 characters that lacks lower case, upper case, a digit or a special character gets the strength message |
| RegisterForm.StrongPasswordExample | src/components/authentication/RegisterPage.jsx:250 | Example only: "Passw0rd!" is strong and "password" is not |
| RegisterForm.OldEnoughIffAge | src/components/authentication/RegisterPage.jsx:152-158 | The corrected 13-year rule accepts exactly the people aged 13 or more |
| RegisterForm.OldEnoughAsWrittenAgreesOffLeapDay | src/components/authentication/RegisterPage.jsx:152-158 | On every day but 29 February, the rule as written agrees with the corrected rule |
| RegisterForm.OldEnoughAsWrittenAcceptsTwelveYearOld | src/components/authentication/RegisterPage.jsx:152-158 | On 2028-02-29 the rule as written accepts someone born on 2015-03-01, who is 12 |
| RegisterForm.DobError | src/components/authentication/RegisterPage.jsx:142-160 | The date is valid iff it is present, parses, is strictly before now and gives an age of at least 13. An unparsable date gets the "future" message |
| RegisterForm.ValidRegistrationHasAllFields | src/components/authentication/RegisterPage.jsx:112-254 | A registration the form accepts has all five fields non-empty |
| LoginForm.LoginPasswordError | src/components/authentication/LoginPage.jsx:143-149 | The login password is valid iff it has at least 8 characters, of any kind |
| LoginForm.ValidLoginHasEmail | src/components/authentication/LoginPage.jsx:113-119 | A login the form accepts has a non-empty email |
| LoginForm.RegisteredPasswordPassesLogin | src/components/authentication/LoginPage.jsx:143-149 | Every password registration accepts passes login. "password" passes login but not registration |
| Thunks.CatchMessage | src/features/authentication-module/authActions.js:46-61 | A 401 response gives "Session expired". Another response gives its body message or the response default. With no response, an Error gives its message, anything else the other default |
| Thunks.AxiosFlagFalseStillReadsResponse | src/features/authentication-module/authActions.js:10-12 | `isAxiosError: false` still counts as an axios error, so the response decides the message |
| Thunks.NoResponseUsesErrorMessage | src/features/authentication-module/authActions.js:55-57 | An axios error without a response falls through to `error.message` |
| Thunks.ExpireSession | src/utils/tokenExpired.js:19-24 | A non-empty access token is removed; an empty one or an absent key leaves storage exactly as it was; every other key is kept and none is added |
| Thunks.TokenExpiration | src/utils/tokenExpired.js:10-28 | Storage afterwards is ExpireSession of the old storage |
| AuthActions.AuthErrorMessage | src/features/authentication-module/authActions.js:47-57 | 401 gives "Session expired". A response without a message gives "Unknown error", and a non-Error gives "An unknown error occurred" |
| AuthActions.LoginGuard | src/features/authentication-module/authActions.js:18-21 | The login is stopped iff the email is empty, with "Email Id is required." |
| AuthActions.LoginWrites | src/features/authentication-module/authActions.js:31-36 | Writes userData, accessToken and refreshToken and keeps every other key |
| AuthActions.LoginSurvivesReload | src/features/authentication-module/authActions.js:31-36 | After a successful login, a reload's InitialAuthState is signed in as the same user |
| AuthActions.ValidLoginPassesGuard | src/features/authentication-module/authActions.js:18-21 | Credentials the login form accepts always get past the guard |
| AuthActions.LoginUser | src/features/authentication-module/authActions.js:15-63 | The guard sends nothing and changes nothing. Success writes the session, marks the store signed in and fulfils with `response.data`. Failure rejects with the body message. A thrown error rejects with AuthErrorMessage, and a 401 also expires the session |
| AuthActions.RegisterGuard | src/features/authentication-module/authActions.js:69-72 | The registration is stopped iff any of the five fields is empty, with "All fields are required." |
| AuthActions.RegisterUser | src/features/authentication-module/authActions.js:66-103 | The guard sends nothing. Otherwise it posts the registration, fulfils with the body on success, and rejects with the body message or AuthErrorMessage |
| AuthActions.ValidRegistrationIsSent | src/features/authentication-module/authActions.js:69-72 | A registration the form accepts is always posted |
| PolicyActions.PolicyErrorMessage | src/features/policy-detail-module/policyActions.js:34-44 | 401 gives "Session expired". A response gives its body message or the thunk's default. Without a response, an Error gives its message, anything else the default |
| PolicyActions.CreateGuard | src/features/policy-detail-module/policyActions.js:15-18 | The request is stopped iff dob, gender or sumAssured is empty, with "Required fields are missing" |
| PolicyActions.CreatePolicy | src/features/policy-detail-module/policyActions.js:11-50 | The guard sends nothing. Otherwise it posts the form, fulfils with the body on success, and rejects with the body message or PolicyErrorMessage(…, "Failed to create policy") |
| PolicyActions.AcceptedFormIsSent | src/features/policy-detail-module/policyActions.js:15-18 | A form the dialog accepts always gets past the guard |
| PolicyActions.GuardIgnoresPremium | src/features/policy-detail-module/policyActions.js:15-18 | Any form with date of birth, gender and sum assured but no premium is posted, though the dialog reports the premium as required |
| PolicyActions.GetAllPolicyDetails | src/features/policy-detail-module/policyActions.js:53-85 | Sends page and limit unchanged. It fulfils with `response.data.data` on success and rejects with the body message or PolicyErrorMessage(…, "Failed to fetch policies") |

## Left out

- Network and timing:
  - Real HTTP, Promises and the axios internals are oracles. Each thunk sees one reply; the client sees a function from attempt to reply.
  - Concurrent requests sharing the token store are not modelled.
- Side effects with no state:
  - Toasts and `console` output are left out.
  - `window.location.href` redirects appear only as a ghost counter in the client; `tokenExpiration`'s redirect is not modelled.
- Time and dates:
  - The time zone is taken to be UTC.
  - `new Date(text)` is a parameter, because its parsing is implementation-defined outside ISO dates.
- JSON and strings:
  - `JSON.parse`/`JSON.stringify` of `userData` is left out; the user is the text it is stored as.
  - Strings count characters, not UTF-16 code units, so `minLength` and `{2,}` are counted per character.
- Numbers:
  - Amounts and terms are whole numbers.
  - `parseFloat`, non-integer amounts and locales other than en-US are not modelled.
  - `parseInt` is exact, so digit strings beyond 2^53 are not rounded.
- Thrown exceptions:
  - A `catch` block is not modelled reading a missing `response.data`, which would throw a TypeError.
  - A thunk is not modelled throwing a non-object value.
- Application wiring:
  - The store registers only the auth reducer, so the policy slice is not connected to the running app. The slice is modelled on its own.
  - `signUpUser`, which the auth slice listens to, is exported nowhere. Its cases are modelled as the reducers they are.
  - The auth slice reads `signUpUser.pending` when its reducer is built (authSlice.js:2, 35). With the import missing, that throws before the first action is handled, unless the bundler rejects the import first. The model treats the slice as if `signUpUser` existed.
  - The login page submits through `signUpUser` as well (LoginPage.jsx:18, 83), and no component dispatches `loginUser`. The login form therefore never reaches the `loginUser` thunk in the running app. AuthActions.ValidLoginPassesGuard relates the form's rules to that thunk's guard as if the two were connected.
  - The policy table never passes a `policy` to the dialog (PolicyManagementTable.jsx:311-313), so the edit prefill cannot be reached from the table. It is modelled as the dialog defines it.
- Out of scope:
  - Layout and routing components are not modelled.
  - The static illustration page has no computation.
- PolicyDialog.PrefillForm: strips the sum assured and the premium with the corrected StripAmount, which removes every comma, not with the source's first-comma `.replace(",", "")`. See Findings.
- PolicyDialog.StripAmount: the rest of the model uses this corrected comma removal, not the first-comma `replace` of the source. See Findings.
- RegisterForm.DobError: uses the corrected 13-year rule (`OldEnough`), not the `setFullYear` comparison of the source. See Findings.

## Findings

| source | as written | input that shows it | evidently intended | confidence | as-written member | corrected member |
|---|---|---|---|---|---|---|
| src/components/dashboard/policy-management/AddEditPolicyDialog.jsx:153-154 | `.replace(",", "")` removes only the first comma of a displayed amount | any amount of 1,000,000 or more, e.g. a sum assured of 5,000,000 (displayed "$5,000,000"), prefills "5000,000", which the dialog rejects as not a number; every sum assured the dialog accepts is at least 5,000,000 | remove every grouping comma, so that every displayed amount reads back as its digits | high for the string behaviour, not executed; the table does not currently open the dialog with a row | PolicyDialog.StripAmountAsWritten (PolicyDialog.StripAmountAsWrittenRoundTripIff, PolicyDialog.AsWrittenPrefillRejectsLargeAmounts) | PolicyDialog.StripAmount (PolicyDialog.AmountRoundTrip, PolicyDialog.PrefillOfFormattedPolicy) |
| src/components/authentication/RegisterPage.jsx:152-158 | `setFullYear(getFullYear() - 13)` on 29 February lands on 1 March of a common year | today 2028-02-29, date of birth 2015-03-01: accepted, though the person is 12 | accept exactly the people whose 13th birthday has come | medium, not executed | RegisterForm.OldEnoughAsWritten (RegisterForm.OldEnoughAsWrittenAcceptsTwelveYearOld) | RegisterForm.OldEnough (RegisterForm.OldEnoughIffAge, RegisterForm.OldEnoughAsWrittenAgreesOffLeapDay) |
