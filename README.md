# Test-case generator front end: a Dafny model

This project models the client-side logic of a React front end for a test-case
generator. The back end writes generated test cases into Google Sheets and
holds the session. The model covers five pieces:

- **The session store** is `AuthProvider`, class `AuthContext.AuthProvider`.
  - It has three state cells: `user`, `isAuthenticated` and `isLoading`.
  - Five operations change them: `checkAuthStatus`, `login`, `signup`, `logout` and `refreshAuth`.
  - The backend address is chosen from the hostname (`getApiUrl`).
  - The invariant `isAuthenticated <==> user != null` is proved to hold after every operation.
- **The route guard** is `ProtectedRoute`, modelled as the pure decision `ProtectedRoute.Decide`.
- **The main page** is `HomePage`, class `HomePage.Page`. The model covers:
  - the generation form, its validator, the edit-and-clear-error rule and the reset defaults;
  - the spreadsheet and sheet selection cascade, and the two load effects;
  - the four actions: generate, analyze, modify and the custom arrangement prompt;
  - the success message.
- **The sign-up page** (`SignUpPage`) has three fields.
- **The login page** (`LoginPage`) has two fields.

  For both pages the model covers the validator, `handleChange` and the submit handler. The submit handler also maps the server's error text onto field errors.

The network is not modelled. Each handler takes the outcome of its request as a
parameter of type `Http.Response<T>`, which is one of:

- `Ok(body)`: a 2xx status with a body that parsed or did not;
- `NotOk(status, error)`: any other status, with the `message` of the error body, or an error body that did not parse;
- `NetworkFailure(reason)`: the request itself failed.

`alert` and `window.location.href` are returned as values: `Dispatch`, `Feedback`, `Outcome` or an alert string.

The asynchronous page actions and `refreshAuth` are split at their `await`. The session store's other operations and the page's loads change nothing before their `await`, so each is one method taking the outcome. `Begin…` runs up to the request. It checks the guards, sets the in-flight flag and returns the request body it sends. `Finish…` runs from the response on. It stores the results, commits the follow-up reload, returns the alert and runs the `finally` steps. For `refreshAuth`, `BeginRefresh` sets loading and `CheckAuthStatus` is the rest. The state updates of a handler are applied in source order.

Four scenario methods, `AuthContext.SessionScenario`, `HomePage.SelectionScenario`, `SignUpPage.SignUpScenario` and `LoginPage.LoginScenario`, drive one object through a sequence of operations with concrete outcomes. They check that the contracts compose: for example, a failed login after a sign-in keeps the user, and a refresh shows loading with the old session until its response.

The JavaScript primitives the code relies on are written out in the `Text` module:

- `trim`, with ECMAScript's whitespace set;
- `includes`;
- `toLowerCase`;
- `length`, counted in UTF-16 code units, so a character outside the Basic Multilingual Plane counts twice;
- `${n}`;
- `Array.prototype.join`.

The e-mail test `/\S+@\S+\.\S+/.test(s)` is the predicate `Forms.MatchesEmailPattern`. `Forms.EmailPatternMatches` and `Forms.EmailPatternParts` connect it to the regular-expression reading, one direction each.

Files:

- `wrappers.dfy`: `Option`.
- `text.dfy`: the string primitives.
- `http.dfy`: response outcomes.
- `forms.dfy`: the rules shared by the pages.
- `auth_context.dfy`, `protected_route.dfy`, `home_page.dfy`, `signup_page.dfy` and `login_page.dfy`: one file per source file.

## Model

| member | source | states |
|---|---|---|
| Http.OrElse | src/pages/HomePage.jsx:279 | `message || fallback`: the result is the message or the fallback, and it is the fallback exactly when the message is absent, empty or equal to the fallback. |
| Http.CaughtMessage | src/pages/HomePage.jsx:277-280 | The `error.message` a `catch` block sees: the parse error of an unreadable body, the non-empty `message` of a non-2xx error body or else the fallback, or the network error. |
| AuthContext.ApiUrl | src/context/AuthContext.jsx:20-34 | The local backend `http://localhost:5000` is chosen exactly when the hostname is `localhost` or `127.0.0.1`, or starts with `192.168.`, `10.` or `172.`. Every other hostname gets `https://test-gen-backend.onrender.com`. |
| AuthContext.ApiUrlExamples | src/context/AuthContext.jsx:20-34 | Each prefix selects the local backend whatever follows it. A public domain and `localhost.example.com` select production. |
| AuthContext.HttpStatusError | src/context/AuthContext.jsx:104 | The fallback text starts with `HTTP error! status: ` and the rest is decimal digits that read back as the status. |
| AuthContext.HttpStatusErrorInjective | src/context/AuthContext.jsx:104 | The fallback text `HTTP error! status: <code>` determines the status code. |
| AuthContext.AuthResultOf | src/context/AuthContext.jsx:85-129 | `login`/`signup` succeed exactly on a 2xx response with a readable body, and then carry that user. A non-2xx status gives the body's non-empty `message`, or `HTTP error! status: <code>` when there is none. A 2xx body that does not parse, an unreadable error body and a network failure each give their own error text. No path throws. |
| AuthContext.AuthProvider.constructor | src/context/AuthContext.jsx:14-17 | A fresh store has no user, is not authenticated and is loading. It keeps the invariant. The base URL is `ApiUrl(hostname)`. |
| AuthContext.AuthProvider.CheckAuthStatus | src/context/AuthContext.jsx:48-79 | A readable 2xx body signs that user in. Any other status, an unreadable body or a network failure signs out. Loading always ends, and the invariant holds. |
| AuthContext.AuthProvider.Authenticate | src/context/AuthContext.jsx:81-130 | The result is `AuthResultOf(r)`. On success the user is stored and authenticated. On failure `user` and `isAuthenticated` are exactly as before. `isLoading` is untouched, and the invariant is preserved. |
| AuthContext.AuthProvider.Login | src/context/AuthContext.jsx:81-130 | Same as `Authenticate`, for POST `/auth/login`. |
| AuthContext.AuthProvider.Signup | src/context/AuthContext.jsx:132-172 | Same as `Authenticate`, for POST `/auth/signup`. |
| AuthContext.AuthProvider.Logout | src/context/AuthContext.jsx:174-198 | Whatever the response, the store ends signed out (no user, not authenticated). `isLoading` is unchanged. |
| AuthContext.AuthProvider.BeginRefresh | src/context/AuthContext.jsx:201-202 | The store is loading while `/auth/me` is in flight, with the user and `isAuthenticated` kept and the invariant preserved. |
| AuthContext.AuthProvider.RefreshAuth | src/context/AuthContext.jsx:201-204 | `BeginRefresh`, then the same outcome as `CheckAuthStatus`, ending with loading false. |
| ProtectedRoute.Decide | src/components/ProtectedRoute.jsx:3-19 | Exactly one of three outcomes. It shows the placeholder iff loading. It redirects iff not loading and not authenticated, to `redirectTo` or by default `/login`. It renders the children unchanged iff not loading and authenticated. |
| ProtectedRoute.NoRedirectWhileLoading | src/components/ProtectedRoute.jsx:6-12 | While loading, the guard never redirects, whatever `isAuthenticated` is. |
| ProtectedRoute.GuardOnSettledStore | src/components/ProtectedRoute.jsx:3-19 | Over a settled store that keeps its invariant, the guard renders exactly when a user is held, and otherwise goes to `/login`. |
| Text.TrimEmptyIffBlank | src/pages/HomePage.jsx:226 | `s.trim()` is empty exactly when every character of `s` is ECMAScript whitespace. |
| Text.TrimmedIsEmpty | src/pages/SignUpPage.jsx:35 | `!s.trim()` holds exactly when `s` is blank. |
| Text.ContainsTransitive | src/pages/SignUpPage.jsx:84 | An occurrence of a longer text includes an occurrence of each of its parts. |
| Text.ContainsToLower | src/pages/LoginPage.jsx:70-72 | Lower-casing keeps every occurrence of a needle. |
| Text.Utf16Length | src/pages/SignUpPage.jsx:37 | `length` lies between the number of characters and twice that number. It is 0 only for the empty string. |
| Text.NatToStringRoundTrip | src/pages/HomePage.jsx:314 | The decimal text of a count reads back as the count. |
| Text.NatToStringInjective | src/context/AuthContext.jsx:104 | Distinct numbers have distinct decimal texts. |
| Forms.ClearError | src/pages/HomePage.jsx:215-219 | No key is added or removed and no other field's error changes. The edited field's error, if present, ends as `''`. |
| Forms.ClearErrorIdempotent | src/pages/SignUpPage.jsx:24-29 | A second edit of the same field changes no more errors. |
| Forms.MatchesEmailPattern | src/pages/SignUpPage.jsx:43 | `/\S+@\S+\.\S+/.test(s)`: some `'@'` and later `'.'` have a character before, between and after them, with no whitespace from the character before the `'@'` to the one after the `'.'`. The two lemmas below prove it equal to the regular expression's match. |
| Forms.EmailPatternMatches | src/pages/SignUpPage.jsx:43 | Any string holding `x@y.z` with non-empty, whitespace-free `x`, `y` and `z` matches the unanchored pattern. |
| Forms.EmailPatternParts | src/pages/SignUpPage.jsx:43 | Conversely, every matching string is some `pre + x + "@" + y + "." + z + post` with non-empty, whitespace-free `x`, `y` and `z`. |
| Forms.PartsAround | src/pages/SignUpPage.jsx:43 | The one-character `x`, the `y` between the two marks and the one-character `z` around an `'@'` and a later `'.'` in a whitespace-free stretch are non-empty and whitespace-free, and glue back to the string. |
| Forms.EmailPatternNotBlank | src/pages/SignUpPage.jsx:41-45 | A matching address is never blank, so the two e-mail messages never compete. |
| Forms.NoAtNoMatch | src/pages/SignUpPage.jsx:43 | A string without `@` never matches. |
| Forms.EmailError | src/pages/SignUpPage.jsx:41-45 | A blank address is "Email is required", and any other failing address is "Please enter a valid email". An address is accepted exactly when it matches the pattern. |
| Forms.PasswordError | src/pages/LoginPage.jsx:39-43 | An empty password (not trimmed) is "Password is required", and a non-empty one shorter than 8 UTF-16 units gets the page's too-short message. A password is accepted exactly when it is at least 8 long. |
| Forms.BlankPasswordAccepted | src/pages/SignUpPage.jsx:47-51 | Eight spaces pass the password rule. |
| Forms.AstralPasswordAccepted | src/pages/SignUpPage.jsx:49 | Four emoji pass the password rule, since `length` counts each of them twice. |
| HomePage.WithText | src/pages/HomePage.jsx:209-212 | Only the named text field of the form changes. |
| HomePage.ValidateForm | src/pages/HomePage.jsx:223-248 | There is exactly one key per failed rule, each holding that rule's message. The rules are: one of the three text fields is blank after trimming, no spreadsheet is selected, or both generation options are off. The map is empty iff every rule passes. |
| HomePage.DefaultForm | src/pages/HomePage.jsx:50-58 | The form on mount, also restored after a successful generation (lines 299-307): empty module, summary and acceptance criteria, both generation options on, 20 test cases and 10 scenarios. |
| HomePage.DefaultFormIsIncomplete | src/pages/HomePage.jsx:50-58 | The default form fails exactly on its three text fields, plus the spreadsheet when none is chosen. |
| HomePage.OnlyGenerationErrorExample | src/pages/HomePage.jsx:244-246 | A filled form with both options off fails only on `generation`. |
| HomePage.SuccessMessage | src/pages/HomePage.jsx:310-322 | The alert starts with `Successfully generated ` and ends with ` and added to your spreadsheet!`, whatever the counts. |
| HomePage.SuccessParts | src/pages/HomePage.jsx:311-319 | The `parts` array has one entry per non-zero count: `<n> test cases` first, `<m> test scenarios` last. |
| HomePage.SuccessMessageCases | src/pages/HomePage.jsx:310-322 | The success alert has four shapes. It includes `"<n> test cases"` only for a non-empty list of cases and `"<m> test scenarios"` only for a non-empty list of scenarios, joined by `' and '` between the fixed prefix and suffix. |
| HomePage.FindSpreadsheet | src/pages/HomePage.jsx:610 | The result is the first spreadsheet with that id, or none exactly when no spreadsheet has it. |
| HomePage.LoadsDue | src/pages/HomePage.jsx:110-121 | Sheets load only with a spreadsheet selected and connected, and test cases only with a spreadsheet and a sheet selected. Each load runs only when one of its own dependencies changed: the spreadsheet or the connection for sheets, the sheet or the spreadsheet for test cases. A load whose condition holds is skipped only when its dependencies are unchanged. |
| HomePage.Page.constructor | src/pages/HomePage.jsx:35-72 | The initial value of every state cell, with the default form. |
| HomePage.Page.CheckConnectionStatus | src/pages/HomePage.jsx:123-138 | A readable 2xx body sets `isConnected`, and it replaces the spreadsheet list when connected with a list present. Failures change nothing, and the load effects this starts are returned. |
| HomePage.Page.LoadAvailableSheets | src/pages/HomePage.jsx:140-152 | Only the sheet list changes. It is replaced on success and kept on any failure. |
| HomePage.Page.LoadExistingTestCases | src/pages/HomePage.jsx:154-166 | Only the test-case list changes. It is replaced on success and kept on any failure. |
| HomePage.Page.HandleInputChange | src/pages/HomePage.jsx:207-220 | Only the named field and its error change. The error is cleared only when one was set. |
| HomePage.Page.SetGenerateTestCases | src/pages/HomePage.jsx:718-721 | Only the option flag changes. |
| HomePage.Page.SetGenerateTestScenarios | src/pages/HomePage.jsx:761-764 | Only the option flag changes. |
| HomePage.Page.SetTestCasesCount | src/pages/HomePage.jsx:738-741 | Only the count changes. |
| HomePage.Page.SetTestScenariosCount | src/pages/HomePage.jsx:781-784 | Only the count changes. |
| HomePage.Page.SelectSpreadsheet | src/pages/HomePage.jsx:609-613 | The result selects the first spreadsheet with the id, or none, and always resets the sheet to `''`. Nothing else changes, and test cases never load right after. |
| HomePage.Page.SelectSheet | src/pages/HomePage.jsx:635-636 | With a spreadsheet selected, only the sheet changes and the sheet list does not reload. With none selected the select is disabled, so nothing changes. |
| HomePage.Page.SetAnalysisType | src/pages/HomePage.jsx:948 | Only the analysis type changes. |
| HomePage.Page.SetModificationPrompt | src/pages/HomePage.jsx:1033 | Only the modification prompt changes. |
| HomePage.Page.SetCustomPrompt | src/pages/HomePage.jsx:1150 | Only the custom prompt changes. |
| HomePage.Page.BeginGenerate | src/pages/HomePage.jsx:251-275 | A failed validation stores exactly its errors, sends nothing and leaves `isGenerating` alone. Otherwise the flag is set, the errors are cleared and the form is sent with the selected spreadsheet's id. |
| HomePage.Page.FinishGenerate | src/pages/HomePage.jsx:277-332 | On success it stores the content, commits the sheet reload, resets the form to the same defaults as on mount and reports `SuccessMessage`. On failure only the alert, and the form is kept. `isGenerating` ends false. |
| HomePage.Page.BeginAnalyze | src/pages/HomePage.jsx:334-349 | Without a sheet there is only the alert, and no state changes. Otherwise `isAnalyzing` is set and the request is sent. |
| HomePage.Page.FinishAnalyze | src/pages/HomePage.jsx:351-368 | On success the analysis is stored. On failure an alert is returned with the caught message. `isAnalyzing` ends false. |
| HomePage.Page.BeginModify | src/pages/HomePage.jsx:370-391 | Without a sheet, or with a blank prompt, there is only the matching alert and no state changes. Otherwise `isModifying` is set and the request is sent. |
| HomePage.Page.FinishModify | src/pages/HomePage.jsx:393-415 | On success it stores the result, clears the prompt, commits the reload and reports the summary. On failure only the alert. `isModifying` ends false. |
| HomePage.Page.BeginCustomPrompt | src/pages/HomePage.jsx:417-439 | Without a sheet, or with a blank prompt, there is only the matching alert and no state changes. Otherwise the flag is set and `promptResult` is cleared before sending. |
| HomePage.Page.FinishCustomPrompt | src/pages/HomePage.jsx:441-462 | On success it stores the arrangement, commits the reload and reports the summary. On failure only the alert. The flag ends false. |
| SignUpPage.WithField | src/pages/SignUpPage.jsx:18-21 | Only the named field changes. |
| SignUpPage.UsernameError | src/pages/SignUpPage.jsx:35-39 | A blank name is "Username is required", and a non-blank one shorter than 3 UTF-16 units is "Username must be at least 3 characters". A name is accepted exactly when it is non-blank and at least 3 long. |
| SignUpPage.ValidateSignUp | src/pages/SignUpPage.jsx:32-54 | There is one entry per failing field, with that field's message, and every key is one of the three fields. The map is empty exactly when the form is acceptable. |
| SignUpPage.EmptyFormRejected | src/pages/SignUpPage.jsx:32-54 | The empty form fails on all three fields with their "required" messages. |
| SignUpPage.SignUpServerErrors | src/pages/SignUpPage.jsx:84-97 | The server's error text is classified in order and case-sensitively: `already exists` (which covers `User already exists`) gives only the e-mail error, then the password text gives only the password error, then `All fields are required` gives the three "required" errors. Otherwise it is an alert `Signup failed: <error>`. |
| SignUpPage.AlreadyExistsBlamesEmail | src/pages/SignUpPage.jsx:84-85 | Any `… already exists`, a duplicate username included, is shown as a duplicate e-mail. |
| SignUpPage.Page.constructor | src/pages/SignUpPage.jsx:7-14 | Empty form, no errors, not loading. |
| SignUpPage.Page.HandleChange | src/pages/SignUpPage.jsx:16-30 | Only the named field changes, and only its error is cleared. |
| SignUpPage.Page.BeginSubmit | src/pages/SignUpPage.jsx:56-68 | A rejected form stores exactly its errors and nothing is sent. An acceptable one sets `isLoading` and sends email, username and password. The earlier errors stay. |
| SignUpPage.Page.FinishSubmit | src/pages/SignUpPage.jsx:68-104 | On success the store is signed in, the page alerts, the form resets to empty and the page goes to `/dashboard`. On failure the store and the form are kept, and the server text becomes field errors or an alert. `isLoading` ends false on every path. |
| LoginPage.WithField | src/pages/LoginPage.jsx:17-20 | Only the named field changes. |
| LoginPage.ValidateLogin | src/pages/LoginPage.jsx:30-46 | There is one entry per failing field, with that field's message (the too-short one spelt "atleast"). The map is empty exactly when the form is acceptable. |
| LoginPage.ShortPasswordReported | src/pages/LoginPage.jsx:39-43 | With a valid address, a 6-character password is the only error, in the page's wording. |
| LoginPage.LoginServerErrors | src/pages/LoginPage.jsx:70-84 | The lower-cased error text is classified in order. `invalid email or password` puts that message on both fields. Otherwise `all fields are required` gives both "required" errors. Otherwise it is an alert quoting the original text. |
| LoginPage.InvalidCredentialsLowerCase | src/pages/LoginPage.jsx:70-72 | The server's `Invalid email or password` lower-cases to the phrase searched for. |
| LoginPage.InvalidCredentialsRecognised | src/pages/LoginPage.jsx:70-76 | `Invalid email or password` anywhere in the error text marks both fields. |
| LoginPage.ShoutedRequiredLowerCase | src/pages/LoginPage.jsx:70 | `ALL FIELDS ARE REQUIRED` lower-cases to the phrase searched for. |
| LoginPage.ShoutedRequiredRecognised | src/pages/LoginPage.jsx:77-81 | The match ignores case, so a shouted `ALL FIELDS ARE REQUIRED` gives both "required" errors. |
| LoginPage.Page.constructor | src/pages/LoginPage.jsx:6-12 | Empty form, no errors, not loading. |
| LoginPage.Page.HandleChange | src/pages/LoginPage.jsx:15-28 | Only the named field changes, and only its error is cleared. |
| LoginPage.Page.BeginSubmit | src/pages/LoginPage.jsx:48-60 | A rejected form stores exactly its errors and nothing is sent. An acceptable one sets `isLoading`, clears every error and sends the credentials. |
| LoginPage.Page.FinishSubmit | src/pages/LoginPage.jsx:60-87 | On success the store is signed in, the form resets to empty and the page goes to `/dashboard`. On failure the store and the form are kept, and the server text becomes field errors or an alert. `isLoading` ends false. |

## Left out

- Rendering, markup, styling and spinners are not modelled, including all of `Navbar`. They are presentation only.
- The route table in `App` is not modelled. It is router configuration.
- HTTP, `fetch` and JSON parsing are not modelled. Each request's outcome is a parameter. A readable body is assumed to have the fields the handler reads; a body that does not parse is `Malformed`.
- The query strings and request options of the load calls are not modelled. Only the JSON bodies the actions post are.
- `alert` and `window.location.href` are returned as values, not performed.
- The Google connect flow is not modelled: popup, `setInterval` polling and `setTimeout`. It depends on browser timing.
- Logging and the debug helpers are not modelled. This covers console output, the `document.cookie` checks in timers, `debugAuth`, `testConnection`, the `AuthQuickTest` component and `testApiConnection`. They affect no state the model keeps.
- The `activeTab` switch is not modelled. It only chooses what is shown.
- HomePage's static prompt catalogues are not modelled. They are constant data.
- HomePage's own fallback `getApiUrl` is not modelled. It uses port 3000 and is never reached, because the session store always supplies a non-empty base URL.
- React effect scheduling and `setState` batching are not modelled. Each handler applies its updates in source order.
  - The follow-up reloads use the selection captured when the action started. The model takes their outcome as given, and commits whatever arrives, as the code does.
  - The load effects are returned as `Loads` rather than started.
  - Their dependency comparison is by value, whereas React compares object identity. A re-fetched but equal spreadsheet object would re-run an effect in React.
- The request arguments of `AuthProvider.Login` and `AuthProvider.Signup` are not parameters. The store's change depends only on the outcome. The pages' `BeginSubmit` methods return the credentials sent.
- Text.ToLower: covers only the characters that lower-case into ASCII letters (A–Z and the Kelvin sign). Other characters are left unchanged. This is weaker than `toLowerCase`, but it gives the same classification for the two lower-case ASCII phrases searched for: every other lower-cased character is either non-ASCII or, for U+0130, an `i` followed by U+0307, which cannot be part of either phrase.
- The 2xx body of `/auth/me`, `/auth/login` and `/auth/signup` is assumed to be a user record, never `null`. With `null` the store would hold no user but `isAuthenticated` true (src/context/AuthContext.jsx:61-64, 122-123), which the invariant excludes.
- The `disabled` conditions of HomePage's four action buttons (src/pages/HomePage.jsx:877, 960, 1042, 1163) are not modelled, so a `Begin…` may run while its in-flight flag is set. Their other conditions repeat the handlers' own guards. The sheet selector's `disabled` (line 636) is modelled by `SelectSheet`, because it keeps the page invariant that a sheet is chosen only inside a chosen spreadsheet.
- SignUpPage's `isFormLoading` (src/pages/SignUpPage.jsx:107) is not modelled. It only disables the inputs and the button.
- The `catch` block of the sign-up submit ("An unexpected error occurred") is not modelled. It is unreachable, because `signup` never throws.
