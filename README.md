# Guard and firearm management: a verified model

This project models the core logic of a security agency's guard and firearm
management application and proves properties of that model in Dafny.
The application is a React front end over two back ends:

- an Express server on PostgreSQL (`backend/server.ts`) that holds accounts,
  e-mail verification codes, firearms and firearm allocations;
- an older one on MongoDB (`backend/server.js`).

Beside them sits a guard-replacement system for shifts, check-ins, no-show
detection and replacement requests. It comes in a MongoDB version
(`backend/guard-replacement-system.js`, with its HTTP routes) and a
Sequelize version (`backend/guard-replacement-system.ts`).

What the model covers:

- **Back-end handlers.** Each one is a method of a class whose fields are the
  tables. Maps stand for SQL tables keyed by primary key. Sequences stand for
  MongoDB collections in insertion order. Each `ensures` gives the handler's
  status code, message and the exact new contents of every table, for every
  branch of its guard chain. A request that passes every guard is promised
  success, not only the shape of a success.
- **Front-end screens.** The screens with state the source mutates (forms,
  loading flags, error banners) are classes whose methods are the event
  handlers. Their pure parts are functions with lemmas:
  - the phone formatter and the code sanitiser;
  - the registration checks;
  - the permit, maintenance and merit classifiers;
  - the CSV writer;
  - the list filters and sorts;
  - the alert-list updates;
  - the view routing of the application shell.

The clock (integer milliseconds), the `Math.random` draw, the bcrypt salt,
the local time-zone offset and the outcome of every network call are
parameters. bcrypt is an ideal one-way hash: `Crypto.Matches(p, Hash(q, s))`
holds exactly when `p == q`.

Files (one module per source file, and `Common` for the shared JavaScript
built-ins):

| file | module | models |
|---|---|---|
| common.dfy | Common | `filter`, `find`, stable `sort`, `slice`, `includes`, `toLowerCase` on ASCII letters, `split('T')[0]`, `\D` removal, decimal rendering, day arithmetic |
| crypto.dfy | Crypto | `bcrypt.hash` / `bcrypt.compare` |
| auth_server.dfy | AuthServer | `backend/server.ts` |
| legacy_server.dfy | LegacyServer | `backend/server.js` |
| replacement_mongo.dfy | ReplacementMongo | `backend/guard-replacement-system.js` |
| replacement_sql.dfy | ReplacementSql | `backend/guard-replacement-system.ts` |
| replacement_routes.dfy | ReplacementRoutes | `backend/routes/guard-replacement.routes.js` |
| phone_format.dfy | PhoneFormat | `formatPhoneNumber` (three identical copies) |
| login_page.dfy | LoginPage | `src/components/LoginPage.tsx` and `.jsx` |
| verification_page.dfy | VerificationPage | `src/components/VerificationPage.jsx` |
| superadmin_dashboard.dfy | SuperadminDashboard | `src/components/SuperadminDashboard.jsx` |
| guard_dashboard.dfy | GuardDashboard | `src/components/GuardDashboard.jsx` |
| reports_csv.dfy | ReportsCsv | `exportToCSV` of `src/components/ReportsAnalytics.jsx` |
| reports_analytics.dfy | ReportsAnalytics | the report builders of `src/components/ReportsAnalytics.jsx` |
| performance_dashboard.dfy | PerformanceDashboard | `src/components/PerformanceDashboard.jsx` |
| firearm_maintenance.dfy | FirearmMaintenance | `frontend/src/components/FirearmMaintenance.jsx` |
| guard_firearm_permits.dfy | GuardFirearmPermits | `frontend/src/components/GuardFirearmPermits.jsx` |
| firearm_inventory.dfy | FirearmInventory | `frontend/src/components/FirearmInventory.jsx` |
| firearm_allocation.dfy | FirearmAllocation | `frontend/src/components/FirearmAllocation.jsx` |
| alerts_center.dfy | AlertsCenter | `src/components/AlertsCenter.jsx` |
| edit_user_modal.dfy | EditUserModal | `src/components/EditUserModal.tsx` |
| app.dfy | AppTsx, AppJsx | `src/App.tsx`, `src/App.jsx` |

Properties worth knowing about:

- **Back-end agreement.** A registration the client form accepts always
  passes the server's checks (`LoginPage.ClientChecksImplyServerChecks`).
  The server accepts passwords shorter than six characters that the form
  rejects (`LoginPage.ServerAcceptsShortPasswords`).
- **CSV.** Every exported record parses back to its row's values
  (`ReportsCsv.RecordRoundTrip`). An export splits into exactly one line
  more than it has rows when no value holds a line break
  (`ReportsCsv.CsvHasRowsPlusOneLines`).
- **Unreachable screen.** In the TypeScript shell the admin dashboard can
  never be shown. Superadmins and guards fall through to the user dashboard
  (`AppTsx.AdminDashboardUnreachable`, `AppTsx.SelectLoggedIn`).
- **Allocation table.** It shows `'N/A'` as the serial of every issued
  firearm, because its firearm list holds only available ones
  (`FirearmAllocation.IssuedFirearmShowsNA`).
- **No-show sweep.** In the MongoDB version, a second sweep finds nothing
  new (`ReplacementMongo.DetectNoShowsTwiceIsEmpty`). Once a replacement is
  accepted in the Sequelize version, the shift is never a no-show again
  (`ReplacementSql.System.AcceptReplacement`).

The code and its evident intent part in two places; see "## Findings".

- **Login screen.** After a login that the server refuses with 403, the
  page verifies the register form's e-mail field instead of the address
  the server sent back. `LoginPage.LoginForm.OnLoginResponse` models the
  handler as written, and `LoginPage.LoginForm.OnLoginResponseCorrected`
  the intended one.
- **Superadmin dashboard.** A cell save puts to `/api/users/<id>`, which no
  route of the server serves. `SuperadminDashboard.Dashboard.Save` models
  the request as written, and `SuperadminDashboard.Dashboard.SaveCorrected`
  the one to `/api/user/<id>` that the profile update handler serves.

## Model

| member | source | states |
|---|---|---|
| Crypto.Hash | backend/server.ts:156 | a hash records bcrypt's cost 10, matches its own password, and matches no other password |
| AuthServer.ParseFirearmStatus | backend/models/Firearm.ts:42-46 | the status column accepts exactly 'available', 'allocated' and 'maintenance', each mapped to its own value; anything else is rejected |
| AuthServer.CodeValue | backend/server.ts:58-60 | for a draw in [0, 1), `floor(100000 + r*900000)` lies in 100000..999999 |
| AuthServer.ConfirmationCode | backend/server.ts:58-60 | the code is six decimal digits whose value is `CodeValue(r)` |
| AuthServer.RegisterCheck | backend/server.ts:110-146 | no error exactly when the request meets every rule; missing fields are reported first, with the admin or user message by role; then a non-Gmail address |
| AuthServer.RegisterAdminCodeLast | backend/server.ts:136-146 | an admin-code error means every earlier check passed and the role is admin; the code alone then decides between 'Admin code is required', 'Invalid admin code' and acceptance |
| AuthServer.RegisterUserIgnoresAdminCode | backend/server.ts:111-146 | for a user account the admin code never changes the outcome |
| AuthServer.RegisterAdminLicenceOptional | backend/server.ts:110-115 | an admin account's outcome does not depend on its licence fields |
| AuthServer.RoleOf | backend/models/User.ts:43-46 | the stored role is the one named in the request |
| AuthServer.NewUser | backend/server.ts:161-172 | the new row is unverified, carries the request's email, username and role, and stores the hash rather than the password |
| AuthServer.ViewOf | backend/server.ts:323-330 | a login answer carries the id, email, username, role, full name and phone number of the row, and no password |
| AuthServer.UpdatedProfile | backend/server.ts:387-390 | each non-empty field overwrites its column; empty fields and all other columns keep their values |
| AuthServer.UpdatedProfileEmpty | backend/server.ts:387-390 | an update with no fields leaves the row as it was |
| AuthServer.UpdatedProfileIdempotent | backend/server.ts:387-390 | repeating an update changes nothing more |
| AuthServer.WithoutUser | backend/server.ts:258-262 | the verification rows left are exactly those of other users, unchanged |
| AuthServer.Server.constructor | backend/server.ts:85-101 | the tables start empty and consistent |
| AuthServer.Server.Register | backend/server.ts:104-199 | a failed check answers 400 with its message and stores nothing; a known email answers 'User already exists' and stores nothing; a taken username answers 500 and stores nothing; otherwise exactly one unverified user and one code valid for ten minutes are added, and the answer is 201, or 500 when the e-mail fails (the rows stay) |
| AuthServer.Server.CreateAccount | backend/server.ts:155-180 | a new user with the hashed password, `verified` false, and one code for it valid for ten minutes are stored under fresh keys; nothing else changes |
| AuthServer.Server.Verify | backend/server.ts:202-238 | empty fields answer 400 with nothing changed; an unknown code answers 'Invalid confirmation code' with nothing changed; a known code is deleted, and its user becomes verified unless the code had expired ('Confirmation code expired') |
| AuthServer.Server.UseCode | backend/server.ts:218-231 | the found code is deleted whether or not it expired; an expired one answers 'Confirmation code expired' and changes no user; a live one marks its user verified and answers success |
| AuthServer.Server.ResendCode | backend/server.ts:241-278 | an empty email answers 400 and an unknown one 404, with nothing changed; otherwise every earlier code of that user is removed and exactly one new ten-minute code remains for them |
| AuthServer.Server.ReplaceCode | backend/server.ts:258-269 | every code of the user is removed and one new ten-minute code is stored under a fresh key, which is then the user's only code |
| AuthServer.Server.Login | backend/server.ts:281-339 | missing fields answer 400; no row matching the email or phone answers 401; an unverified row answers 403 'Please verify your email first' with its email; a wrong password answers 401; otherwise 200 'Login successful' with the row's public view |
| AuthServer.Server.UpdateProfile | backend/server.ts:378-399 | an unknown id answers 404 and changes nothing; otherwise the row becomes `UpdatedProfile` of itself and nothing else changes |
| AuthServer.Server.CreateFirearm | backend/server.ts:420-444 | a missing serial, model or caliber answers 400; a bad status or a taken serial answers 500; either way nothing is stored; otherwise one firearm is added, 'available' when no status is given |
| AuthServer.Server.UpdateFirearm | backend/server.ts:479-497 | an unknown id answers 404; a status the column rejects answers 500; either way nothing changes; otherwise non-empty status and caliber overwrite and the rest stays |
| AuthServer.Server.Issue | backend/server.ts:518-559 | missing ids answer 400 and unknown firearm or guard 404, with nothing changed; otherwise one active allocation is added and the firearm becomes allocated |
| AuthServer.Server.Return | backend/server.ts:562-593 | a missing id answers 400 and an unknown one 404, with nothing changed; otherwise the allocation is marked returned at `now` and its firearm becomes available |
| AuthServer.IssueThenReturn | backend/server.ts:518-593 | issuing and then returning leaves the firearm available and a returned allocation on record |
| LegacyServer.Store.constructor | backend/server.js:20-28 | the collection starts empty |
| LegacyServer.Store.Register | backend/server.js:35-67 | missing fields answer 400 and a known email 'User already exists', with nothing stored; otherwise exactly one document holding the password's hash is appended |
| LegacyServer.Store.Login | backend/server.js:70-101 | missing fields answer 400; the first document with that email decides: 200 'Login successful' with its view when the password matches, 401 otherwise or when there is none; a view is only ever returned for a document whose hash matches |
| LegacyServer.RegisterThenLogin | backend/server.js:35-101 | registering a fresh email and logging in with the same password succeeds with the new id |
| ReplacementMongo.MarkNoShows | backend/guard-replacement-system.js:125-170 | exactly the no-show shifts change, each to status 'no-show' with a replacement required; ids and order are kept |
| ReplacementMongo.NoShowsAreNoShows | backend/guard-replacement-system.js:141-160 | every reported entry comes from a scheduled shift more than 15 minutes late with no attendance record |
| ReplacementMongo.DetectNoShowsTwiceIsEmpty | backend/guard-replacement-system.js:125-170 | a second sweep reports nothing, because the first one marked its shifts |
| ReplacementMongo.TopCandidates | backend/guard-replacement-system.js:175-242 | at most `maxResults` candidates, in non-increasing score order, each a verified user other than the missing guard who is available that day |
| ReplacementMongo.NoCandidateOffMidnight | backend/guard-replacement-system.js:189-196 | availability is stored at local midnight and looked up at the shift's exact start, so a shift that does not start at midnight finds no candidate |
| ReplacementMongo.Upsert | backend/guard-replacement-system.js:326-350 | the first document for the (guard, day) key is replaced, or the record is appended when there is none |
| ReplacementMongo.UpsertProperties | backend/guard-replacement-system.js:326-350 | keys stay unique, the new record is present, it is the only one for its key, and every other document is kept |
| ReplacementMongo.UpsertLastWins | backend/guard-replacement-system.js:326-350 | setting the same key twice is the same as setting it once with the second value |
| ReplacementMongo.System.constructor | backend/guard-replacement-system.js:14-46 | the collections start empty over the given users |
| ReplacementMongo.System.CreateShift | backend/guard-replacement-system.js:51-71 | one scheduled shift with no replacement is appended and nothing else changes |
| ReplacementMongo.System.RecordCheckIn | backend/guard-replacement-system.js:76-98 | one attendance record is appended and the first shift with that id goes in progress |
| ReplacementMongo.System.RecordCheckOut | backend/guard-replacement-system.js:103-120 | the first attendance record of that guard and shift gets its check-out time, and the shift becomes completed |
| ReplacementMongo.System.DetectNoShows | backend/guard-replacement-system.js:125-170 | the shifts become `MarkNoShows` of the old ones; the result lists the no-shows found, one entry per shift that was a no-show |
| ReplacementMongo.CheckShift | backend/guard-replacement-system.js:131-147 | true exactly when the shift passes the sweep's filter and no attendance record names it |
| ReplacementMongo.System.FindReplacementGuards | backend/guard-replacement-system.js:175-242 | the result is the top `maxResults` of the scored candidates, ordered by score, each a candidate for that shift |
| ReplacementMongo.System.SendReplacementRequest | backend/guard-replacement-system.js:247-281 | one pending request is appended, naming the shift, the guards offered and an expiry 30 minutes ahead |
| ReplacementMongo.System.AcceptReplacement | backend/guard-replacement-system.js:286-321 | succeeds exactly when the request exists; it is then accepted by that guard and its shift is assigned to them; otherwise the shifts are unchanged |
| ReplacementMongo.System.SetGuardAvailability | backend/guard-replacement-system.js:326-350 | the availability becomes the upsert of the record for that guard at the date's local midnight |
| ReplacementSql.NoShowIds | backend/guard-replacement-system.ts:335-354 | a shift is a no-show exactly when it is scheduled, started over 15 minutes ago and its `replacementRequired` flag is false; only an accepted replacement sets that flag, so a shift with a pending request is still reported by every later sweep |
| ReplacementSql.NoShowIdsGrow | backend/guard-replacement-system.ts:335-354 | a later sweep finds at least the no-shows of an earlier one |
| ReplacementSql.System.constructor | backend/guard-replacement-system.ts:87-256 | the tables start empty |
| ReplacementSql.System.CreateShift | backend/guard-replacement-system.ts:261-282 | one new scheduled shift under a fresh key; nothing else changes |
| ReplacementSql.System.RecordCheckIn | backend/guard-replacement-system.ts:287-307 | an unknown shift fails with 'Shift not found' and changes nothing; otherwise one attendance row is added and the shift goes in progress |
| ReplacementSql.System.RecordCheckOut | backend/guard-replacement-system.ts:312-330 | an unknown record fails with 'Attendance record not found'; otherwise it gets its check-out time and its shift becomes completed |
| ReplacementSql.System.DetectNoShows | backend/guard-replacement-system.ts:335-354 | the ids returned are exactly the no-shows, and nothing is written |
| ReplacementSql.System.SendReplacementRequest | backend/guard-replacement-system.ts:359-378 | one pending request for the shift's guard and site, expiring in 30 minutes |
| ReplacementSql.System.AcceptReplacement | backend/guard-replacement-system.ts:383-419 | with no request for that guard and shift it fails with 'Replacement not found' and changes nothing; otherwise the request is accepted and the shift is assigned, so it is never a no-show again |
| ReplacementSql.System.SetGuardAvailability | backend/guard-replacement-system.ts:424-449 | afterwards exactly one row exists for the guard and today, holding the new value; every other row is kept |
| ReplacementSql.SetTwice | backend/guard-replacement-system.ts:424-449 | after two settings on one day the guard's row holds the second |
| ReplacementRoutes.CreateShiftRoute | backend/routes/guard-replacement.routes.js:14-32 | a missing field answers 400 'All fields are required' with nothing changed; otherwise 201 and exactly one scheduled shift is appended; attendance, availability, requests and users stay as they were |
| ReplacementRoutes.CheckInRoute | backend/routes/guard-replacement.routes.js:37-54 | missing ids answer 400 with nothing changed; otherwise 201, one attendance record is appended and the first shift with that id goes in progress; availability, requests and users stay as they were |
| ReplacementRoutes.CheckOutRoute | backend/routes/guard-replacement.routes.js:59-75 | missing ids answer 400 with nothing changed; otherwise 200, the first matching attendance record is checked out and the shift completed; availability, requests and users stay as they were |
| ReplacementRoutes.AvailabilityRoute | backend/routes/guard-replacement.routes.js:80-99 | a missing field answers 400 with nothing changed; otherwise 200 and the availability is upserted at the date's local midnight; shifts, attendance, requests and users stay as they were |
| ReplacementRoutes.FileRequests | backend/routes/guard-replacement.routes.js:119-131 | the requests filed, ids aside, are `Filings` of the no-shows in order, and the stored requests grow by exactly their pending documents, in the same order; shifts, attendance, availability and users stay as they were |
| ReplacementRoutes.FileOne | backend/routes/guard-replacement.routes.js:120-129 | exactly when the search finds candidates, the pending document naming them (30-minute expiry) is appended to the stored requests; otherwise nothing is stored |
| ReplacementRoutes.FilingsExactly | backend/routes/guard-replacement.routes.js:119-131 | the filings name, in order, exactly the no-shows whose search finds candidates, each with exactly those candidates |
| ReplacementRoutes.NoShowsRoute | backend/routes/guard-replacement.routes.js:105-144 | the sweep's no-shows are counted and marked; with none the answer is 'No no-shows detected'; requests are filed exactly for the no-shows with candidates, and the stored requests grow by exactly their pending documents; attendance, availability and users stay as they were |
| ReplacementRoutes.AcceptRoute | backend/routes/guard-replacement.routes.js:149-168 | a missing guard id answers 400 with nothing changed; otherwise the request is accepted, answering 200 exactly when it exists; on 200 the request's shift is assigned to the accepting guard, on 500 the shifts stay; attendance, availability and users never change |
| ReplacementRoutes.DeclineRoute | backend/routes/guard-replacement.routes.js:173-186 | always answers 200 'Replacement assignment declined' |
| PhoneFormat.CountryDigits | src/components/LoginPage.tsx:18-30 | the digits always start with the country code 63 |
| PhoneFormat.CleanedDigits | src/components/LoginPage.tsx:18-33 | the cleaned number is 2 to 12 digits starting with 63 |
| PhoneFormat.FormatPhoneNumberShape | src/components/LoginPage.tsx:18-45 | the output starts with +63, is at most 16 characters, and has dashes exactly at the `+63-###-###-####` positions and digits elsewhere, never ending in a dash |
| PhoneFormat.FormatPhoneNumberDigits | src/components/LoginPage.tsx:18-45 | the digits of the output are the first twelve of the country-coded input |
| PhoneFormat.FormatPhoneNumberIdempotent | src/components/LoginPage.tsx:18-45 | formatting an already formatted number changes nothing |
| PhoneFormat.FormatPhoneNumberExample | src/components/LoginPage.tsx:18-45 | `09161234567` becomes `+63-916-123-4567` |
| LoginPage.RegisterFailure | src/components/LoginPage.tsx:104-149 | no error exactly when the form passes; each message appears exactly when every earlier check passed and its own check failed, in the order basics, details (which differ between the .tsx and .jsx), Gmail, admin code, password length |
| LoginPage.RegisterBody | src/components/LoginPage.tsx:152-166 | the body copies the form; the .tsx leaves the licence fields out for admins, the .jsx always sends them |
| LoginPage.ClientChecksImplyServerChecks | src/components/LoginPage.tsx:104-166 | a registration the form accepts always passes the server's checks |
| LoginPage.ServerAcceptsShortPasswords | src/components/LoginPage.tsx:145-149 | a password shorter than six characters is stopped by the form only; the server would accept it |
| LoginPage.TypedPhoneIsNeverEmpty | src/components/LoginPage.tsx:383 | once anything is typed, the phone field is never empty, so the 'phone number is required' check cannot fire after typing |
| LoginPage.VerificationEmailAsWrittenIsEmpty | src/components/LoginPage.tsx:208-231 | on a freshly loaded login screen the register email is empty, so the as-written e-mail is empty while the server's is not |
| LoginPage.LoginForm.constructor | src/components/LoginPage.tsx:48-63 | every field starts empty, the role 'user', and no flag set |
| LoginPage.LoginForm.SetPhoneNumber | src/components/LoginPage.tsx:383 | the phone field becomes the formatted input and nothing else changes |
| LoginPage.LoginForm.SetVerificationCode | src/components/LoginPage.tsx:279 | the code field keeps the first six characters of the input |
| LoginPage.LoginForm.ToggleRegistering | src/components/LoginPage.tsx:502-508 | the mode flips; the error, password, admin code and identifier are cleared |
| LoginPage.LoginForm.Submit | src/components/LoginPage.tsx:65-221 | in verification mode an empty code is refused, otherwise the code is sent; in register mode the first failing check is shown, otherwise the body is sent; in login mode empty fields are refused, otherwise the credentials are sent |
| LoginPage.LoginForm.OnVerifyResponse | src/components/LoginPage.tsx:85-97 | failure shows the server's message or 'Verification failed'; success leaves verification mode and clears the code and e-mail |
| LoginPage.LoginForm.OnRegisterResponse | src/components/LoginPage.tsx:176-205 | failure shows the message and keeps the form; a pending verification switches to code entry for the registered email and clears the form; otherwise it returns to login with the password cleared |
| LoginPage.LoginForm.OnLoginResponse | src/components/LoginPage.tsx:225-243 | as written: a 403 asking for verification switches to code entry for the register form's email field (not the server's) and clears the password; any other failure shows the message; success logs in |
| LoginPage.LoginForm.OnLoginResponseCorrected | src/components/LoginPage.tsx:225-243 | corrected: the same branches, with code entry for the email the server sent back with the 403 |
| LoginPage.LoginForm.OnFetchError | src/components/LoginPage.tsx:245-248 | a thrown error shows 'Error: ' and its message and stops loading |
| LoginPage.VerifyAfterLoginAsWritten | src/components/LoginPage.tsx:224-231 | as written, after a 403 login and a code the page verifies whatever the register email field holds; when it is empty, as on a fresh page load, the server answers 400 'Email and code are required' |
| LoginPage.VerifyAfterLogin | src/components/LoginPage.tsx:224-231 | corrected: after a 403 login and a code, the page verifies the e-mail of the account that matched, and the server no longer asks for it |
| VerificationPage.SanitizeCode | src/components/VerificationPage.jsx:66 | the code is the first six digits of the input, in order, and nothing else |
| VerificationPage.SanitizeCodeIdempotent | src/components/VerificationPage.jsx:66 | sanitising twice is sanitising once |
| VerificationPage.CodeEntry.constructor | src/components/VerificationPage.jsx:5-9 | the page starts with an empty code and no messages |
| VerificationPage.CodeEntry.SetCode | src/components/VerificationPage.jsx:66 | the code becomes the sanitised input |
| VerificationPage.CodeEntry.Submit | src/components/VerificationPage.jsx:11-30 | a code that is not six characters long is refused with 'Please enter a valid 6-digit code'; otherwise the e-mail and code are sent |
| VerificationPage.CodeEntry.OnResponse | src/components/VerificationPage.jsx:31-43 | failure shows the server's message or 'Verification failed'; success shows the redirect message |
| VerificationPage.CodeEntry.OnFetchError | src/components/VerificationPage.jsx:44-46 | a thrown error shows 'Error: ' and its message |
| VerificationPage.TypeThenSubmit | src/components/VerificationPage.jsx:11-30 | typing anything with six or more digits and submitting sends exactly its first six digits |
| SuperadminDashboard.OrEmpty | src/components/SuperadminDashboard.jsx:60-63 | an absent column reads as the empty string |
| SuperadminDashboard.Normalize | src/components/SuperadminDashboard.jsx:58-64 | the four optional columns become strings and every other field is kept |
| SuperadminDashboard.FilteredUsersExactly | src/components/SuperadminDashboard.jsx:74-80 | a user is listed exactly when the name or email contains the search ignoring case, or the phone contains it as typed, and the role filter matches; order is kept |
| SuperadminDashboard.FilteredUsersUnfiltered | src/components/SuperadminDashboard.jsx:74-80 | an empty search with 'all' lists everyone |
| SuperadminDashboard.StatsOf | src/components/SuperadminDashboard.jsx:151-157 | the total is the number of users |
| SuperadminDashboard.StatsAddUp | src/components/SuperadminDashboard.jsx:151-157 | verified plus unverified is the total, and admins plus users never exceed it |
| SuperadminDashboard.StartValue | src/components/SuperadminDashboard.jsx:294-357 | an edit starts from the cell's value, and the expiry date from its part before 'T' |
| SuperadminDashboard.SaveError | src/components/SuperadminDashboard.jsx:101-112 | the legacy 'All fields are required' answer is hidden; any other failure shows 'Error updating user: ' and the message |
| SuperadminDashboard.Dashboard.constructor | src/components/SuperadminDashboard.jsx:36-43 | no users, no edit, no error, empty search and filter 'all' |
| SuperadminDashboard.Dashboard.Loaded | src/components/SuperadminDashboard.jsx:56-66 | the users become the normalised list and the error is cleared |
| SuperadminDashboard.Dashboard.LoadFailed | src/components/SuperadminDashboard.jsx:67-68 | the error shows 'Error loading users: ' and the message |
| SuperadminDashboard.Dashboard.StartEdit | src/components/SuperadminDashboard.jsx:294-357 | a click starts an edit only when none is open |
| SuperadminDashboard.Dashboard.EditValue | src/components/SuperadminDashboard.jsx:288-351 | typing changes the open cell's value only, formatted when it is the phone number |
| SuperadminDashboard.Dashboard.Save | src/components/SuperadminDashboard.jsx:90-99 | as written: with a cell open exactly one field, the edited one, is sent for that user to `/api/users/<id>`, a route the server does not serve; with none nothing is sent |
| SuperadminDashboard.Dashboard.SaveCorrected | src/components/SuperadminDashboard.jsx:90-99 | corrected: the same request, sent to the served profile update route `/api/user/<id>` |
| SuperadminDashboard.Dashboard.OnSaveResponse | src/components/SuperadminDashboard.jsx:101-117 | the edit closes either way; success clears the error and refetches, failure shows `SaveError` |
| SuperadminDashboard.Dashboard.OnSaveThrew | src/components/SuperadminDashboard.jsx:118-121 | a thrown save shows 'Error updating user: ' and the message, closes the editor and refetches nothing |
| SuperadminDashboard.SaveRouteAsWrittenUnserved | backend/server.ts:378-479 | no PUT route of the server (`/api/user/:id`, `/api/firearms/:id`) serves `/api/users/<id>`, the path the dashboard saves to |
| SuperadminDashboard.SaveRoute | backend/server.ts:378 | corrected: a save puts to the profile update route `/api/user/:id`, which the server serves |
| GuardDashboard.GetPermitStatus | src/components/GuardDashboard.jsx:40-54 | with whole days rounded up: expired below 0, expiring soon up to 30, caution up to 90, active beyond; days left never negative |
| GuardDashboard.PermitStatusMonotone | src/components/GuardDashboard.jsx:40-54 | a later expiry is never more urgent |
| GuardDashboard.PermitExpiringToday | src/components/GuardDashboard.jsx:40-54 | a permit expiring now, or one millisecond short of a day ago, is still 'expiring soon'; one a full day past is expired |
| GuardDashboard.AllocationsPartition | src/components/GuardDashboard.jsx:85-93 | current and returned allocations split the list: every allocation is in exactly one |
| GuardDashboard.PermitCountersBounded | src/components/GuardDashboard.jsx:94-95 | the expired and expiring counters together never exceed the number of permits |
| GuardDashboard.Dashboard.constructor | src/components/GuardDashboard.jsx:5-9 | nothing loaded and no renewal requested |
| GuardDashboard.Dashboard.RenewalAnswered | src/components/GuardDashboard.jsx:56-83 | a successful request marks that permit as requested; a failed one changes nothing |
| GuardDashboard.RenewalOfferedAfterRequest | src/components/GuardDashboard.jsx:217-254 | once requested, a permit no longer offers renewal, and other permits are unaffected |
| ReportsCsv.Lookup | src/components/ReportsAnalytics.jsx:183 | a header the row lacks reads as 'undefined' |
| ReportsCsv.LookupDistinct | src/components/ReportsAnalytics.jsx:183 | with distinct keys a header reads its own value |
| ReportsCsv.Escape | src/components/ReportsAnalytics.jsx:184 | doubling quotes never shortens a value |
| ReportsCsv.FieldValues | src/components/ReportsAnalytics.jsx:182-183 | one value per header |
| ReportsCsv.QuotedFields | src/components/ReportsAnalytics.jsx:182-186 | one quoted field per value |
| ReportsCsv.Records | src/components/ReportsAnalytics.jsx:181-187 | one record per row |
| ReportsCsv.CsvLines | src/components/ReportsAnalytics.jsx:178-188 | one header line plus one line per row |
| ReportsCsv.CsvLinesShape | src/components/ReportsAnalytics.jsx:178-188 | line 0 is the first row's keys joined by commas, and line i+1 is row i's record over those keys |
| ReportsCsv.ExportToCsv | src/components/ReportsAnalytics.jsx:172-188 | nothing is exported exactly when there is no data or it is empty; otherwise the lines joined by '\n' |
| ReportsCsv.ParseQuotedFields | src/components/ReportsAnalytics.jsx:182-186 | reading back the joined quoted fields gives the values, whatever quotes or commas they hold |
| ReportsCsv.RecordRoundTrip | src/components/ReportsAnalytics.jsx:181-187 | every record parses back to its row's values in header order |
| ReportsCsv.RowValuesInHeaderOrder | src/components/ReportsAnalytics.jsx:178-183 | over its own keys a row's record carries its values in order |
| ReportsCsv.SplitLines | src/components/ReportsAnalytics.jsx:188 | splitting on '\n' gives at least one line |
| ReportsCsv.NoBreakInLine | src/components/ReportsAnalytics.jsx:178-188 | when no value holds a line break, no line of the export does |
| ReportsCsv.CsvHasRowsPlusOneLines | src/components/ReportsAnalytics.jsx:172-188 | when no value holds a line break the export splits back into exactly its header and records |
| ReportsAnalytics.OrElse | src/components/ReportsAnalytics.jsx:36-78 | an absent or empty value reads as the column's fallback ('N/A', or 'Not Returned' for a return date), any other value as itself |
| ReportsAnalytics.AuditRowShape | src/components/ReportsAnalytics.jsx:36-46 | an audit row has exactly the nine audit headers, in order, and an empty firearm is all 'N/A' |
| ReportsAnalytics.GuardFilteredExactly | src/components/ReportsAnalytics.jsx:65-68 | with no guard filter every allocation is kept; with one, exactly that guard's allocations, in order |
| ReportsAnalytics.AllocationRowShape | src/components/ReportsAnalytics.jsx:70-79 | an allocation row has exactly the allocation headers, and its fifth field says 'Not Returned' when no return date is set |
| ReportsAnalytics.PermitReportStatus | src/components/ReportsAnalytics.jsx:101-102 | 'EXPIRED' below 0 days, 'EXPIRING SOON' up to 30, 'ACTIVE' beyond |
| ReportsAnalytics.ReportStatusAgreesWithDashboard | src/components/ReportsAnalytics.jsx:99-113 | the report and the guard dashboard agree on expired and expiring permits; the report's 'ACTIVE' covers the dashboard's caution and active |
| ReportsAnalytics.PermitRowShape | src/components/ReportsAnalytics.jsx:99-113 | a permit row has exactly the permit headers, in order |
| ReportsAnalytics.CostText | src/components/ReportsAnalytics.jsx:140 | an absent or zero cost reads 'N/A', any other cost '$' and its decimal value |
| ReportsAnalytics.MaintenanceRowShape | src/components/ReportsAnalytics.jsx:133-141 | a maintenance row has exactly the maintenance headers, in order |
| ReportsAnalytics.ReportExport | src/components/ReportsAnalytics.jsx:172-188 | for rows of one report the CSV header is that report's header list, and every record parses back to its row's values |
| ReportsAnalytics.Reports.constructor | src/components/ReportsAnalytics.jsx:5-11 | no data, not loading, no guard filter |
| ReportsAnalytics.Reports.SetFilterGuard | src/components/ReportsAnalytics.jsx:9 | only the guard filter changes |
| ReportsAnalytics.Reports.StartGenerating | src/components/ReportsAnalytics.jsx:30 | loading starts and the data stays |
| ReportsAnalytics.Reports.GenerationFailed | src/components/ReportsAnalytics.jsx:50-55 | loading stops and the data stays |
| ReportsAnalytics.Reports.FirearmAuditLoaded | src/components/ReportsAnalytics.jsx:29-56 | the data is one audit row per firearm, all with the audit headers |
| ReportsAnalytics.Reports.AllocationHistoryLoaded | src/components/ReportsAnalytics.jsx:58-89 | the data is one row per allocation passing the guard filter, all with the allocation headers |
| ReportsAnalytics.Reports.PermitExpiryLoaded | src/components/ReportsAnalytics.jsx:91-124 | the data is one permit row per permit, classified against today, all with the permit headers |
| ReportsAnalytics.Reports.MaintenanceLoaded | src/components/ReportsAnalytics.jsx:126-151 | the data is one row per record, all with the maintenance headers |
| ReportsAnalytics.Reports.ExportCsv | src/components/ReportsAnalytics.jsx:172-188 | the file is the CSV of the current data, and there is none exactly when the data is missing or empty |
| PerformanceDashboard.GetMeritLabel | src/components/PerformanceDashboard.jsx:106-112 | each label holds exactly on its band: 90 and up, 80-90, 70-80, 60-70, below 60 |
| PerformanceDashboard.ColorMatchesLabel | src/components/PerformanceDashboard.jsx:98-112 | the colour is always the colour of the label, and two scores share a colour exactly when they share a label |
| PerformanceDashboard.MeritLabelMonotone | src/components/PerformanceDashboard.jsx:106-112 | a higher score never gets a lower label |
| PerformanceDashboard.FilteredGuardsExactly | src/components/PerformanceDashboard.jsx:77-81 | a guard is listed exactly when the name or email contains the search ignoring case, or the phone contains it as typed; order is kept |
| PerformanceDashboard.SortedGuardsOrdered | src/components/PerformanceDashboard.jsx:83-96 | the sorted list is a permutation of the filtered one, in non-increasing order of the chosen score |
| PerformanceDashboard.SortedByMerit | src/components/PerformanceDashboard.jsx:85-86 | sorted by merit, earlier guards never score lower |
| PerformanceDashboard.UnknownSortKeepsOrder | src/components/PerformanceDashboard.jsx:93-94 | an unknown sort key leaves the order unchanged (the sort is stable) |
| FirearmMaintenance.LastMaintenanceAge | frontend/src/components/FirearmMaintenance.jsx:86-99 | 'Never' exactly without records; otherwise by the newest record's whole days: today, one day, days under 30 (or negative), months under 365, years |
| FirearmMaintenance.ShouldWarnMaintenance | frontend/src/components/FirearmMaintenance.jsx:101-110 | warn without records, otherwise exactly when the newest record is more than 180 days old (not rounded) |
| FirearmMaintenance.WarningMatchesAge | frontend/src/components/FirearmMaintenance.jsx:86-110 | more than 180 whole days always warns, and a warning means at least 180 whole days |
| FirearmMaintenance.OnlyNewestRecordCounts | frontend/src/components/FirearmMaintenance.jsx:86-110 | the age and the warning depend on the first record only |
| FirearmMaintenance.AgeExamples | frontend/src/components/FirearmMaintenance.jsx:86-110 | no records gives 'Never' and a warning; a record from now gives 'Today' and no warning; 400 days gives one year |
| FirearmMaintenance.FilteredFirearmsExactly | frontend/src/components/FirearmMaintenance.jsx:112-115 | a firearm is listed exactly when its serial or model contains the search ignoring case; order is kept |
| FirearmMaintenance.GatherRecords | frontend/src/components/FirearmMaintenance.jsx:33-44 | the loop builds `Gathered`, the record map of the fetch outcomes |
| FirearmMaintenance.GatheredKeys | frontend/src/components/FirearmMaintenance.jsx:33-44 | a firearm not in the list has no entry |
| FirearmMaintenance.GatheredEntry | frontend/src/components/FirearmMaintenance.jsx:33-44 | with distinct ids: an OK fetch stores its records (or none), a thrown fetch stores an empty list, and a failed answer stores nothing |
| FirearmMaintenance.Tracker.constructor | frontend/src/components/FirearmMaintenance.jsx:5-17 | loading, nothing fetched, type 'inspection' |
| FirearmMaintenance.Tracker.FetchAll | frontend/src/components/FirearmMaintenance.jsx:23-52 | success stores the list and the gathered records and clears the error; failure shows the message and keeps both |
| FirearmMaintenance.Tracker.Submit | frontend/src/components/FirearmMaintenance.jsx:54-70 | a request is sent exactly when a firearm is selected; otherwise 'Please select a firearm' |
| FirearmMaintenance.Tracker.OnSubmitResponse | frontend/src/components/FirearmMaintenance.jsx:72-83 | success closes and resets the form and refetches; failure shows the message or 'Failed to record maintenance' |
| GuardFirearmPermits.PermitStatus | frontend/src/components/GuardFirearmPermits.jsx:102-111 | 'No Permit' exactly without one; 'Expired' exactly after its expiry; 'Expiring Soon' exactly when within 30 days but not past; 'Active' otherwise |
| GuardFirearmPermits.ExpiredTakesPrecedence | frontend/src/components/GuardFirearmPermits.jsx:169-180 | an expired permit also counts as expiring, yet the expired test wins; a permit expiring now is 'Expiring Soon' |
| GuardFirearmPermits.FilteredGuardsExactly | frontend/src/components/GuardFirearmPermits.jsx:113-116 | a guard is listed exactly when the name or email contains the search ignoring case; order is kept |
| GuardFirearmPermits.GatherPermits | frontend/src/components/GuardFirearmPermits.jsx:33-44 | the loop builds `Gathered`, the permit map of the fetch outcomes |
| GuardFirearmPermits.GatheredMissing | frontend/src/components/GuardFirearmPermits.jsx:33-44 | a guard not in the list has no entry |
| GuardFirearmPermits.GatheredEntry | frontend/src/components/GuardFirearmPermits.jsx:33-44 | with distinct ids a guard's permit is the fetched one after an OK answer, and none otherwise |
| GuardFirearmPermits.EditPrefill | frontend/src/components/GuardFirearmPermits.jsx:87-97 | with a permit the form takes its number and the date parts before 'T'; without one it is blank |
| GuardFirearmPermits.PrefillDateStable | frontend/src/components/GuardFirearmPermits.jsx:92-93 | a date without 'T' is kept whole |
| GuardFirearmPermits.PermitsPage.constructor | frontend/src/components/GuardFirearmPermits.jsx:5-17 | loading, nothing fetched, blank form |
| GuardFirearmPermits.PermitsPage.FetchAll | frontend/src/components/GuardFirearmPermits.jsx:23-52 | success keeps only the guards and gathers their permits, clearing the error; failure shows the message and keeps both |
| GuardFirearmPermits.PermitsPage.EditClick | frontend/src/components/GuardFirearmPermits.jsx:87-100 | the form takes the guard's permit prefill and the modal opens for that guard |
| GuardFirearmPermits.PermitsPage.Submit | frontend/src/components/GuardFirearmPermits.jsx:54-71 | a request is sent exactly when a guard is selected; otherwise 'Please select a guard' |
| GuardFirearmPermits.PermitsPage.OnSubmitResponse | frontend/src/components/GuardFirearmPermits.jsx:73-85 | success closes and blanks the form and refetches; failure shows the message or 'Failed to save permit' |
| FirearmInventory.FilteredFirearmsExactly | frontend/src/components/FirearmInventory.jsx:89-95 | a firearm is listed exactly when the serial or model contains the search ignoring case and the status filter matches; order is kept |
| FirearmInventory.FilteredFirearmsUnfiltered | frontend/src/components/FirearmInventory.jsx:89-95 | an empty search with 'all' lists the whole inventory |
| FirearmInventory.FormOf | frontend/src/components/FirearmInventory.jsx:63-68 | the edit form copies exactly the four editable fields |
| FirearmInventory.Inventory.constructor | frontend/src/components/FirearmInventory.jsx:5-18 | loading, no edit, filter 'all', blank form |
| FirearmInventory.Inventory.FetchFirearms | frontend/src/components/FirearmInventory.jsx:24-37 | success stores the list and clears the error; failure shows the message |
| FirearmInventory.Inventory.Save | frontend/src/components/FirearmInventory.jsx:42-49 | PUT to the firearm's address exactly while an edit is under way, otherwise POST to the collection; the body is the form |
| FirearmInventory.Inventory.OnSaveResponse | frontend/src/components/FirearmInventory.jsx:51-59 | success closes, blanks the form and ends the edit; failure shows 'Failed to save firearm' and keeps them |
| FirearmInventory.Inventory.Edit | frontend/src/components/FirearmInventory.jsx:62-71 | the form takes the firearm's fields, the edit targets its id and the modal opens |
| FirearmInventory.EditThenSave | frontend/src/components/FirearmInventory.jsx:42-71 | editing a firearm and saving sends a PUT of its own fields to its own address |
| FirearmAllocation.OfferedLists | frontend/src/components/FirearmAllocation.jsx:38-49 | only available firearms and only guards are offered; nothing else is dropped and order is kept |
| FirearmAllocation.GetGuardName | frontend/src/components/FirearmAllocation.jsx:112-115 | an id no guard has reads 'Unknown Guard' |
| FirearmAllocation.GetGuardNameFound | frontend/src/components/FirearmAllocation.jsx:112-115 | otherwise it reads the name of the first guard with that id |
| FirearmAllocation.GetFirearmInfo | frontend/src/components/FirearmAllocation.jsx:117-121 | a listed firearm shows its serial; one known only from an allocation 'N/A'; otherwise 'Unknown' |
| FirearmAllocation.IssuedFirearmShowsNA | frontend/src/components/FirearmAllocation.jsx:33-121 | an issued firearm is never in the available list, so the table shows 'N/A' for it |
| FirearmAllocation.AllocationPage.constructor | frontend/src/components/FirearmAllocation.jsx:5-23 | empty lists and blank forms, the return condition 'good' |
| FirearmAllocation.AllocationPage.FirearmsLoaded | frontend/src/components/FirearmAllocation.jsx:33-42 | the list keeps only available firearms |
| FirearmAllocation.AllocationPage.GuardsLoaded | frontend/src/components/FirearmAllocation.jsx:44-53 | the list keeps only guards |
| FirearmAllocation.AllocationPage.AllocationsLoaded | frontend/src/components/FirearmAllocation.jsx:55-64 | a missing allocation list is empty |
| FirearmAllocation.AllocationPage.LoadFailed | frontend/src/components/FirearmAllocation.jsx:33-64 | a failed fetch shows its message |
| FirearmAllocation.AllocationPage.OnIssueResponse | frontend/src/components/FirearmAllocation.jsx:75-86 | success closes the modal, blanks the issue form and clears the error; failure shows the message or 'Failed to issue firearm'; the return form is untouched |
| FirearmAllocation.AllocationPage.OnReturnResponse | frontend/src/components/FirearmAllocation.jsx:98-109 | the same for the return form, with 'Failed to return firearm' |
| AlertsCenter.MarkAsRead | src/components/AlertsCenter.jsx:40-42 | alerts with that id become read, the others are unchanged, positions kept |
| AlertsCenter.MarkAsReadIdempotent | src/components/AlertsCenter.jsx:40-42 | marking twice is marking once |
| AlertsCenter.DeleteAlertExactly | src/components/AlertsCenter.jsx:56 | deleting removes exactly the alerts with that id and keeps the order of the rest |
| AlertsCenter.UnreadCount | src/components/AlertsCenter.jsx:89 | the counter never exceeds the number of alerts |
| AlertsCenter.AbsentIdUnchanged | src/components/AlertsCenter.jsx:40-56 | marking or deleting an id nobody has changes nothing |
| AlertsCenter.MarkAsReadCount | src/components/AlertsCenter.jsx:31-89 | with unique ids, marking an unread alert lowers the counter by one |
| AlertsCenter.DeleteAlertCount | src/components/AlertsCenter.jsx:48-89 | with unique ids, deleting an unread alert lowers the counter by one, a read one leaves it |
| AlertsCenter.AfterDelete | src/components/AlertsCenter.jsx:56-57 | a delete closes the detail view |
| AlertsCenter.AfterMarkAsRead | src/components/AlertsCenter.jsx:40-42 | marking keeps the detail view |
| AlertsCenter.AlertIcon | src/components/AlertsCenter.jsx:67-76 | a known type gets its icon, any other the general one |
| AlertsCenter.AlertColor | src/components/AlertsCenter.jsx:78-87 | a known type gets its colour, any other '#95e1d3' |
| AlertsCenter.UnknownTypeLooksGeneral | src/components/AlertsCenter.jsx:67-87 | both tables cover the same types, so an unknown type is drawn exactly like a general alert |
| AlertsCenter.AlertsQuery | src/components/AlertsCenter.jsx:17 | the unread filter asks for '?isRead=false', and every other filter for '?limit=100' |
| EditUserModal.InitialForm | src/components/EditUserModal.tsx:22-27 | absent columns start as ''; a present, non-empty expiry starts as its part before 'T', and an absent or empty one as '' |
| EditUserModal.HandleChange | src/components/EditUserModal.tsx:33-39 | the named field takes the value and the other three are unchanged |
| EditUserModal.SavePayload | src/components/EditUserModal.tsx:47-52 | the payload has exactly the four snake_case keys |
| EditUserModal.SavePayloadRoundTrip | src/components/EditUserModal.tsx:47-52 | each key carries its own form field, so the form can be read back from the payload |
| EditUserModal.ChangeThenSave | src/components/EditUserModal.tsx:33-52 | after one change the payload differs in that input's key only, which holds the new value |
| EditUserModal.AfterSubmit | src/components/EditUserModal.tsx:41-59 | the dialog closes exactly when the save succeeds; a failure shows the error's message or 'Failed to update user' |
| AppTsx.AdminView | src/App.tsx:46-57 | each of the five view names selects its screen, and any other the branch's dashboard |
| AppTsx.Select | src/App.tsx:43-75 | the login page is shown exactly when nobody is logged in |
| AppTsx.SelectLoggedIn | src/App.tsx:45-74 | an admin gets the named screen or the superadmin dashboard; every other role, superadmin and guard included, gets the user dashboard |
| AppTsx.AdminDashboardUnreachable | src/App.tsx:59-72 | the admin dashboard is never shown, whatever the state |
| AppTsx.ManagementScreensNeedAdmin | src/App.tsx:45-58 | any screen other than the login page and the user dashboard means a logged-in admin |
| AppTsx.App.constructor | src/App.tsx:22-24 | logged out, no user, view 'users' |
| AppTsx.App.Login | src/App.tsx:26-31 | logged in with the user and view 'users', so an admin lands on the superadmin dashboard and anyone else on the user dashboard |
| AppTsx.App.Logout | src/App.tsx:33-37 | logged out, no user, view 'users', and the login page shown |
| AppTsx.App.ViewChange | src/App.tsx:45-58 | only the view changes |
| AppJsx.Select | src/App.jsx:28-44 | login page exactly when logged out; superadmin and admin get the performance screen exactly on 'performance' and otherwise their own dashboards; every other role gets the user dashboard |
| AppJsx.EveryScreenReachable | src/App.jsx:28-44 | every screen is shown in some state |
| AppJsx.App.constructor | src/App.jsx:10-12 | logged out, no user, view 'users' |
| AppJsx.App.Login | src/App.jsx:14-18 | logged in with the user and view 'users', never opening on the performance screen |
| AppJsx.App.Logout | src/App.jsx:20-24 | logged out, no user, view 'users', and the login page shown |
| AppJsx.App.ViewChange | src/App.jsx:30-41 | only the view changes |

## Left out

- Rendering: JSX, CSS, `useEffect` triggers, `alert` and `window.confirm`, Blob downloads and the tabs are not modelled. They are presentation, not logic.
- Network and database I/O are not modelled. Each `fetch` outcome and each database answer is a parameter, and each handler is one atomic step. Server start-up and schema sync are out.
- Concurrency is not modelled. The `Promise.all` of the allocation screen and the interleaving of requests are out; each answer is applied on its own.
- Sending e-mail (nodemailer) is out; whether it succeeded is a parameter.
- bcrypt internals are out. bcrypt is an ideal hash, so hash collisions are not modelled.
- UUIDs and ObjectIds are out. Ids are natural numbers from a counter. A malformed UUID that makes the database throw is not modelled.
- Wall-clock time and `Math.random` are parameters. The local time-zone offset of `setHours(0, 0, 0, 0)` is a parameter too.
- Dates in the report rows and the expiry dates read by the permit screens are pre-rendered strings. `toLocaleDateString` and the parsing of invalid date strings are not modelled.
- Floating point is not modelled:
  - scores are real numbers;
  - NaN, `toFixed(2)` in the reliability score and decimal maintenance costs are out;
  - the proximity placeholder (50, or 80 with a location) is kept as written;
  - the `lastCompletedShift` placeholder date is out.
- The flattening of the `Op.lt` filter into `sequelize.Op` is out. The model assumes the comparison works as intended.
- exportToJSON and exportToPDF in ReportsAnalytics.jsx are not modelled; they only serialise and print.
- Deleting users and firearms (`handleDelete`, `DELETE` routes) is out; they lie outside the named core. So are the `GET` listing routes. Resending a verification code from the login screen is out too.
- Filters that crash on a null name, serial or model (`null.toLowerCase()`) are out. The model's records always hold strings.
- EditUserModal.HandleChange: input names are limited to the four inputs of the dialog; an arbitrary `name` adding a fifth key is not modelled.
- AlertsCenter.AlertIcon and AlertsCenter.AlertColor: a type naming a JavaScript object-prototype property (such as `constructor`) is treated as unknown and gets the general icon and colour. The source would return that property instead.
- Common.ToLower: Unicode case mapping is not modelled. Only the ASCII letters A-Z are lowered and the length is kept, whereas JavaScript `toLowerCase` also lowers other letters ('Ñ' to 'ñ') and can lengthen a string ('İ' becomes two code units). The case-insensitive searches (`FilteredUsersExactly`, both `FilteredGuardsExactly`, both `FilteredFirearmsExactly`) are exact only for ASCII text.
- ReportsCsv.ExportToCsv: lines are joined with '\n' rather than the CRLF of RFC 4180 section 2 rule 1, and header names are not quoted (section 2 rule 7 only for the fields). This is the source's behaviour and the model keeps it; the round-trip lemmas say nothing about the header line.
- GuardFirearmPermits.PermitStatus: the permit's expiry is a millisecond number beside its display string; the string is not parsed.
- ReplacementSql.System.DetectNoShows: the model returns the set of no-show ids. The rows' order and contents as `findAll` returns them are not modelled.
- AuthServer.DB_ERROR: the text of the exception Sequelize raises on a violated unique or enum constraint (its `error.message`) is not modelled; one fixed string stands for it.
- Request URLs other than the dashboard's save route are not modelled; each front-end call is taken to reach the handler it names.
- FirearmMaintenance.GatherRecords and GuardFirearmPermits.GatherPermits: the outcome of each per-item fetch is given in advance, not awaited inside the loop.

## Findings

| source | as written | input that shows it | evidently intended | confidence | as-written member | corrected member |
|---|---|---|---|---|---|---|
| src/components/LoginPage.tsx:230 (also src/components/LoginPage.jsx:198) | after a login answered 403 'Please verify your email first', the page keeps the register form's `email` as the address to verify. On a fresh page load that field is empty (switching to register and back keeps whatever was typed there). | on a freshly loaded page, log in with a correct identifier and password of an unverified account, then enter the code: the page posts `{ email: '', code }` and backend/server.ts:205-208 answers 400 'Email and code are required' | verify the address the server sent back with the 403 (`data.email`) | not executed | LoginPage.VerifyAfterLoginAsWritten | LoginPage.VerifyAfterLogin |
| src/components/SuperadminDashboard.jsx:95 | `handleCellSave` puts the edited field to `/api/users/${userId}`, but backend/server.ts serves profile updates at `/api/user/:id` (line 378) and has no PUT route under `/api/users` | edit any cell on the superadmin dashboard and save: the PUT reaches no handler, the answer is not ok, and the page shows 'Error updating user: Failed to update user' | put to `/api/user/${userId}` | not executed | SuperadminDashboard.Dashboard.Save | SuperadminDashboard.Dashboard.SaveCorrected |
