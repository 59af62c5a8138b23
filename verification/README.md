# Animal Husbandry Punjab portal — a Dafny model of its pure logic

This project models the deterministic core of the Animal Husbandry Punjab institute portal and proves properties about it:

- **The census-to-SQL seed generator.** A district → tehsil → village tree becomes the lines of a SQL script:
  - one `INSERT … ON CONFLICT … DO NOTHING` per district and per tehsil;
  - village rows in multi-row INSERTs of at most 100, with single quotes in village names doubled (the quote-symbol escape of ISO/IEC 9075-2, section 5.3 `<literal>`);
  - a summary block at the end.
- **The back end's pure rules:**
  - the password, phone, user-id and SQL-stripping sanitisers;
  - the User-Agent → device-name parser and the refresh-token lifetime default;
  - the WebAuthn challenge store, counter default, transport → device-name mapping and credential deletion;
  - the error classes and the global error handler's dispatch order;
  - the home-data assembler (financial year, role gate, null defaults, vaccine map);
  - the in-memory user store.
- **The front end's validators and screen logic:**
  - email, phone, password, match and required validators;
  - the login, profile, change-password and forgot-password forms;
  - the four-step registration wizard with its employee list;
  - notification list operations and the four sort orders;
  - monthly-report filtering and counts;
  - the searchable single/multi select;
  - the relative-time labels of the sessions and passkeys screens;
  - the `localStorage` wrapper with its in-memory fallback;
  - the token-expiry window of the auth service.

Time is an explicit integer `now` (milliseconds). Query results, request outcomes and thrown exceptions are inputs. String values are `seq<char>`, and JavaScript's `undefined`/`null` are `Option`.

One Dafny module per source file:

| module | models |
|---|---|
| `VillagesSql` | the seed generator |
| `Sanitize` | the back end's sanitisers |
| `Validation` | the front end's shared validators |
| `RefreshTokens` | `parseDeviceName` and the token lifetime |
| `WebAuthn` | the passkey service |
| `Errors` | the error classes and handler |
| `Home` | the home-data assembler |
| `Users` | the in-memory user store |
| `Notifications` | the notifications screen |
| `Reports` | the monthly-report screen |
| `SearchableSelect` | the searchable single/multi select |
| `Register` | the registration wizard |
| `Forms` | the login, profile, change-password and forgot-password screens |
| `Sessions` | the active-sessions screen |
| `Passkeys` | the manage-passkeys screen |
| `Storage` | the `localStorage` wrapper |
| `AuthSession` | the auth service's session bookkeeping |

Four modules hold shared helpers:

- `Text`: the JavaScript string operations used, namely `trim` with its whitespace set, `includes`, ASCII `toLowerCase`, and number ↔ decimal text.
- `Elapsed`: floor division and unit words for "N units ago".
- `Optional`: the option type and JavaScript truthiness.
- `Lists`: the subsequence relation and occurrence counts.

The older copies under `ahpunjabfrontend/src/components/` share the validation of the `screens/` copies but differ in how fields are edited:

- `ChangePasswordScreen.tsx` and `ForgetPasswordScreen.tsx` validate as the newer screens do (`Forms.ValidatePasswords`, `Forms.ResetPassword`, `Forms.BackToLogin`). They edit each field through its bare state setter (lines 105, 145 and 185, and line 160), which leaves any shown error in place. That edit is `Forms.SetField`, and `Forms.EditVersusSet` relates it to the newer screens' `Forms.EditField`.
- `RegisterScreen.tsx` has the same handlers, starting five lines earlier, but keeps the villages of service as one text chosen from a plain select (lines 14 and 341) rather than a list from the multi select. `Register.Initial` follows the newer copy. `Register.ServiceVillagesIgnored` shows that no step's validation reads that field, so both copies accept the same forms.
- `NotificationsScreen.tsx` asks no confirmation in `clearAllNotifications`. That copy is `Notifications.ClearAll` with `confirmed` true.

## Model

| member | source | states |
|---|---|---|
| VillagesSql.EscapeQuotes | Database/scripts/convert_villages_json_to_sql.py:101 | escaping never shortens a name and leaves a name without quotes unchanged |
| VillagesSql.EscapeRoundTrip | Database/scripts/convert_villages_json_to_sql.py:101-106 | a SQL literal reader applied to the escaped name followed by the closing quote returns exactly the original name and the rest of the line: escaping is undone by SQL's quote-doubling rule |
| VillagesSql.ReadQuoted | Database/scripts/convert_villages_json_to_sql.py:101-106 | a quoted, escaped village name reads back as the name itself, whatever follows the literal |
| VillagesSql.VillageRowReadsBack | Database/scripts/convert_villages_json_to_sql.py:102-106 | the first literal of every emitted village value row reads back as the village's own name |
| VillagesSql.DistrictNameNotEscaped | Database/scripts/convert_villages_json_to_sql.py:42 | a district name is embedded verbatim: for "O'Brien" the literal in the district INSERT reads back as "O", so names with quotes are not round-tripped |
| VillagesSql.Convert | Database/scripts/convert_villages_json_to_sql.py:19-126 | the loop program emits exactly the lines of the section-by-section definition, and its three counters equal the number of districts, the total tehsils and the total villages |
| VillagesSql.EmitDistricts | Database/scripts/convert_villages_json_to_sql.py:36-46 | the district loop emits the district blocks in input order and counts one per district |
| VillagesSql.EmitTehsils | Database/scripts/convert_villages_json_to_sql.py:55-70 | the tehsil loop emits each district's tehsil group in order and counts every tehsil |
| VillagesSql.EmitTehsilGroup | Database/scripts/convert_villages_json_to_sql.py:55-68 | one district's tehsils are emitted in order under its comment, counting one per tehsil |
| VillagesSql.EmitVillages | Database/scripts/convert_villages_json_to_sql.py:81-112 | the village loop emits every tehsil's batches in order and counts every village |
| VillagesSql.EmitDistrictVillages | Database/scripts/convert_villages_json_to_sql.py:83-112 | one district's tehsils' village batches in order, counting their villages |
| VillagesSql.EmitTehsilVillages | Database/scripts/convert_villages_json_to_sql.py:86-112 | one tehsil's comment and batches, counting its villages |
| VillagesSql.EmitBatches | Database/scripts/convert_villages_json_to_sql.py:94-112 | the batch loop emits one statement per chunk of the village list, counting every village |
| VillagesSql.ChunksPartition | Database/scripts/convert_villages_json_to_sql.py:79-95 | a village list is cut into ceil(n/100) chunks, each non-empty and at most 100 long, all but the last exactly 100, whose concatenation is the list itself |
| VillagesSql.ChunkAt | Database/scripts/convert_villages_json_to_sql.py:94-95 | chunk k is exactly the slice from 100·k to min(100·k + 100, n) |
| VillagesSql.ChunkIndex | Database/scripts/convert_villages_json_to_sql.py:94 | there is a chunk k exactly when 100·k < n, which is the range of the batch loop |
| VillagesSql.ChunksCount | Database/scripts/convert_villages_json_to_sql.py:94 | the number of chunks is ceil(n/100) |
| VillagesSql.EmptyTehsilSkipped | Database/scripts/convert_villages_json_to_sql.py:88-89 | a tehsil contributes no village lines (no comment, no INSERT) iff its village list is empty; otherwise its first line is its comment with the village count |
| VillagesSql.EmitDistrictCount | Database/scripts/convert_villages_json_to_sql.py:36-46 | the script holds exactly one district INSERT line per district |
| VillagesSql.EmitDistrictConflicts | Database/scripts/convert_villages_json_to_sql.py:40-44 | every district INSERT is followed, two lines later, by `ON CONFLICT (district_name) DO NOTHING;` |
| VillagesSql.EmitTehsilCount | Database/scripts/convert_villages_json_to_sql.py:55-70 | the script holds exactly one tehsil INSERT per tehsil of the document |
| VillagesSql.EmitTehsilConflicts | Database/scripts/convert_villages_json_to_sql.py:63-67 | every tehsil INSERT is closed by its own ON CONFLICT clause |
| VillagesSql.EmitVillageCount | Database/scripts/convert_villages_json_to_sql.py:81-112 | the number of village INSERTs is the sum over tehsils of ceil(villages/100) |
| VillagesSql.EmitVillageConflicts | Database/scripts/convert_villages_json_to_sql.py:107-110 | every village INSERT is closed by `ON CONFLICT (village_name, tehsil_id) DO NOTHING;` |
| VillagesSql.EmitMarkersOnce | Database/scripts/convert_villages_json_to_sql.py:20-126 | the DISTRICTS, TEHSILS, VILLAGES and SUMMARY banners and the `DO $$` summary opener each occur exactly once |
| VillagesSql.EmitSectionOrder | Database/scripts/convert_villages_json_to_sql.py:20-126 | the sections occur in the fixed order districts, tehsils, villages, summary, and the `DO $$` block follows the summary banner |
| VillagesSql.EmitFrame | Database/scripts/convert_villages_json_to_sql.py:20-28 | the script starts with the fixed header and ends with the summary `DO $$ … END $$;` block |
| VillagesSql.EmitLength | Database/scripts/convert_villages_json_to_sql.py:20-126 | the script is 29 fixed lines plus the three sections' lines |
| VillagesSql.EmitSummaryStartAt | Database/scripts/convert_villages_json_to_sql.py:115-126 | the summary block starts right after the summary banner at the computed position |
| Sanitize.ValidatePassword | Backend/src/middleware/sanitize.js:142-187 | a missing or empty password gives exactly ["Password is required"]; otherwise the errors are exactly the rules the password breaks, in the source's order, and the result is valid iff there are none |
| Sanitize.ValidIffStrong | Backend/src/middleware/sanitize.js:142-187 | a password is accepted iff it is 8..128 long, has a lower-case letter, an upper-case letter, a digit and a special character, and is not a common password |
| Sanitize.CommonPasswordsRejected | Backend/src/middleware/sanitize.js:174-181 | every password of the fixed common list is rejected with the "too common" error |
| Sanitize.DigitsOnly | Backend/src/middleware/sanitize.js:127 | the result holds only digits, every digit of the input occurs in it, and digit text is unchanged |
| Sanitize.DigitsOnlyIsFilter | Backend/src/middleware/sanitize.js:127 | the result is a subsequence of the input with every digit as often as in the input and nothing else, so exactly the digits in order |
| Sanitize.DigitsOnlyIdempotent | Backend/src/middleware/sanitize.js:127 | stripping twice is stripping once |
| Sanitize.IsValidPhone | Backend/src/middleware/sanitize.js:124-135 | a phone is accepted iff it is non-empty and its digits are exactly ten with the first in 6–9; the optional country code plays no part |
| Sanitize.CountryCodeRejected | Backend/src/middleware/sanitize.js:127-134 | "+91" followed by any valid ten-digit mobile is rejected, because stripping leaves twelve digits |
| Sanitize.IsValidPhoneWithCode | Backend/src/middleware/sanitize.js:134 | the intended rule accepts everything the written one does, plus numbers whose digits are "91" and a valid ten-digit mobile |
| Sanitize.CountryCodeAccepted | Backend/src/middleware/sanitize.js:134 | under the intended rule, "+91" followed by a valid mobile is accepted |
| Sanitize.IsValidUserId | Backend/src/middleware/sanitize.js:194-201 | a user id is accepted iff it is present, 3..50 long and every character is a letter, digit, `_` or `-` |
| Sanitize.SanitizeSql | Backend/src/middleware/sanitize.js:208-226 | empty or missing input is returned as is; otherwise the output holds no `'`, `"`, `;` or `\`, only characters of the input, and has no leading or trailing whitespace |
| Sanitize.SanitizePlainText | Backend/src/middleware/sanitize.js:208-226 | text without quotes, comment markers or SQL keywords is only trimmed |
| Sanitize.CommentMarkerSurvives | Backend/src/middleware/sanitize.js:214-216 | each pass runs once, so a dash, a block-comment opener and a dash come out as the line-comment marker `--` |
| Validation.ValidateEmail | ahpunjabfrontend/src/utils/validation.ts:6-9 | an email is accepted iff it is L@D.T with L, D and T non-empty and free of whitespace and `@` |
| Validation.EmailPatternIff | ahpunjabfrontend/src/utils/validation.ts:6-9 | the pattern holds iff the text has no whitespace, exactly one `@`, and a `.` with something on both sides after it |
| Validation.ValidatePhone | ahpunjabfrontend/src/utils/validation.ts:16-19 | a phone is accepted iff, after removing whitespace and `-`, it is ten digits starting with 6–9; anything accepted holds only digits, whitespace and `-` |
| Validation.PhoneAcceptedByServer | ahpunjabfrontend/src/utils/validation.ts:16-19 | every phone the form accepts is accepted by the server's `isValidPhone` |
| Validation.ServerMoreLenient | Backend/src/middleware/sanitize.js:127-134 | the converse fails: "(" followed by a valid mobile passes the server and not the form |
| Validation.ServerIgnoresPrefix | Backend/src/middleware/sanitize.js:127-134 | the server accepts any digit-free prefix before a valid mobile |
| Validation.ValidatePassword | ahpunjabfrontend/src/utils/validation.ts:27-37 | valid iff non-empty and at least minLength long; the empty password gets "Password is required", a short one the message naming minLength |
| Validation.PasswordMinimumMonotone | ahpunjabfrontend/src/utils/validation.ts:27-37 | a password valid at one minimum is valid at every smaller one |
| Validation.ValidatePasswordsMatch | ahpunjabfrontend/src/utils/validation.ts:45-47 | true iff the two strings are equal character by character |
| Validation.ValidateRequired | ahpunjabfrontend/src/utils/validation.ts:54-56 | true iff the value has a non-whitespace character |
| Text.TrimEmptyIffAllSpace | ahpunjabfrontend/src/utils/validation.ts:55 | `trim()` yields the empty text iff every character is JavaScript whitespace |
| Text.NatToStringRoundTrip | ahpunjabfrontend/src/services/authService.ts:75 | the decimal digits of a number read back as that number |
| RefreshTokens.ParseDeviceName | Backend/src/services/refreshTokenService.js:20-69 | a falsy User-Agent gives "Unknown Device"; otherwise the name starts with the detected device and contains the detected browser |
| RefreshTokens.DetectBrowser | Backend/src/services/refreshTokenService.js:27-35 | first match wins: Chrome without Edg, then Edge, then Firefox, then Safari without Chrome; each outcome is stated as an iff |
| RefreshTokens.IPhoneBeforeMac | Backend/src/services/refreshTokenService.js:38-57 | any User-Agent mentioning iPhone is an iPhone, even though it also says Mac OS X |
| RefreshTokens.AndroidBeforeLinux | Backend/src/services/refreshTokenService.js:38-57 | an Android User-Agent with none of the earlier markers is named by the Android rule, not Linux |
| RefreshTokens.AndroidName | Backend/src/services/refreshTokenService.js:48-54 | the Android device is the trimmed capture of `Android.*;\s*([^)]+)\)` when it matches, else "Android Device" |
| RefreshTokens.AndroidCapture | Backend/src/services/refreshTokenService.js:49 | a capture exists iff the regular expression matches somewhere, and it is never empty |
| RefreshTokens.AndroidCaptureIsFirstMatch | Backend/src/services/refreshTokenService.js:49 | the capture is that of the leftmost match, with the greedy `.*` taking the last possible `;` |
| RefreshTokens.Compose | Backend/src/services/refreshTokenService.js:60-68 | the name starts with the device when there is one, contains the browser when there is one, and is "Unknown Device" when neither is found |
| RefreshTokens.NothingRecognised | Backend/src/services/refreshTokenService.js:60-68 | a User-Agent with no recognised device or browser is named "Unknown Device" |
| RefreshTokens.ExpiresAt | Backend/src/services/refreshTokenService.js:81-82 | the token lives `expiresIn` ms when that is truthy, else 604 800 000 ms (seven days) |
| WebAuthn.BeginRegistration | Backend/src/services/webauthnService.js:24-72 | refused iff the user or its staff id is missing; otherwise the entry under the staff id is replaced by the new challenge stamped now, and nothing else changes |
| WebAuthn.BeginAuthentication | Backend/src/services/webauthnService.js:176-215 | "User not found" without an account, "No passkeys registered…" without credentials, otherwise the `auth_` entry is replaced by the new challenge |
| WebAuthn.AuthenticationKeepsRegistrations | Backend/src/services/webauthnService.js:208-212 | starting an authentication never touches a pending registration challenge |
| WebAuthn.LookUp | Backend/src/services/webauthnService.js:83-91 | a key is missing, stale exactly when older than the window, or fresh with its entry |
| WebAuthn.VerifyRegistration | Backend/src/services/webauthnService.js:81-169 | a missing challenge fails and changes nothing; a present one is deleted whatever the outcome; one older than 300 000 ms fails "Challenge expired"; success stores the credential with its counter and enables passkeys; an error result leaves the database alone, statements that throw not being modelled |
| WebAuthn.RegistrationChallengeSingleUse | Backend/src/services/webauthnService.js:158-168 | a second verification with the same challenge finds it missing |
| WebAuthn.RegistrationWindowExact | Backend/src/services/webauthnService.js:83-91 | a just-issued registration challenge is stale exactly after 300 000 ms |
| WebAuthn.StoredCounter | Backend/src/services/webauthnService.js:129 | the stored counter is the reported one, else the credential's, else 0 |
| WebAuthn.VerifyAuthentication | Backend/src/services/webauthnService.js:223-306 | the same lifecycle on the `auth_` key with a 60 000 ms window; success updates only the matching credential's counter |
| WebAuthn.AuthenticationChallengeSingleUse | Backend/src/services/webauthnService.js:284-305 | a second authentication with the same challenge finds it missing |
| WebAuthn.SetCounter | Backend/src/services/webauthnService.js:275-281 | exactly the rows with the credential id get the new counter; the rest are unchanged |
| WebAuthn.DeleteCredential | Backend/src/services/webauthnService.js:330-350 | true iff a row owned by the user was removed; exactly those rows go; `passkey_enabled` is cleared iff the user has no credential left |
| WebAuthn.RegisterThenDelete | Backend/src/services/webauthnService.js:330-350 | deleting a user's only credential restores the credential list and turns passkeys off |
| WebAuthn.GenerateDeviceName | Backend/src/services/webauthnService.js:380-395 | internal → "This Device", then usb, nfc, ble, else "Unknown Device"; missing transports count as none |
| WebAuthn.DeviceNameIgnoresOrder | Backend/src/services/webauthnService.js:380-395 | the name depends only on which transports are present, not their order |
| Errors.NewAppError | Backend/src/utils/errors.js:7-13 | an AppError keeps its message and defaults to status 500 |
| Errors.SubclassStatuses | Backend/src/utils/errors.js:34-167 | subclass statuses lie in 400..500; only DatabaseError is 500; only ValidationError and WebAuthnError are 400 |
| Errors.NewAuthenticationError | Backend/src/utils/errors.js:55-60 | status 401, message defaulting to "Authentication failed" |
| Errors.NewAuthorizationError | Backend/src/utils/errors.js:66-71 | status 403, message defaulting to "Insufficient permissions" |
| Errors.NewNotFoundError | Backend/src/utils/errors.js:77-87 | status 404; the message names the resource (default "Resource") and quotes a truthy identifier, else is "<resource> not found" |
| Errors.NewRateLimitError | Backend/src/utils/errors.js:143-148 | status 429, the fixed message and `retryAfter` defaulting to 60 |
| Errors.Handle | Backend/src/utils/errors.js:183-275 | every response has success false; an AppError answers with its own status and message, and a stack only outside production; a validation failure is 400; the 500 fallback hides the message and stack in production |
| Errors.ClassDecidesStatus | Backend/src/utils/errors.js:210-215 | each error class is answered with its class's status |
| Errors.ValidationFirst | Backend/src/utils/errors.js:218-225 | a validation failure is 400 "Request validation failed" whatever its code or status |
| Errors.UniqueViolationBeforeRateLimit | Backend/src/utils/errors.js:228-259 | code 23505 wins over a 429 status: the answer is 409 |
| Errors.OtherIntegrityCodesFallThrough | Backend/src/utils/errors.js:228-274 | a 23xxx code other than 23505/23503 is handled like no code at all |
| Errors.ProductionHidesInternals | Backend/src/utils/errors.js:262-274 | in production a foreign error's own message is never sent: the reply carries the generic message or one of the two fixed integrity-violation messages |
| Home.FinancialYearStart | Backend/src/services/homeService.js:108-112 | the start year is the one whose April..next March contains today |
| Home.FinancialYearUnique | Backend/src/services/homeService.js:108-112 | that year is unique |
| Home.FinancialYearBounds | Backend/src/services/homeService.js:113-114 | the bounds are "FY-04" and "(FY+1)-03" |
| Home.Coordinate | Backend/src/services/homeService.js:267-268 | a truthy coordinate is shown with its suffix; 0 or null shows "N/A" |
| Home.AttachedStatus | Backend/src/services/homeService.js:255-259 | a missing report status is "Pending" and a missing status type "error" |
| Home.ToVillage | Backend/src/services/homeService.js:292-305 | null or zero population and animal counts become 0 |
| Home.MissingCountsAreZero | Backend/src/services/homeService.js:292-305 | a village row with every count null has all counts 0 |
| Home.FindAnnual | Backend/src/services/homeService.js:313-315 | finds a row with the code iff one exists |
| Home.VaccineMap | Backend/src/services/homeService.js:311-324 | one entry per monthly row's code, carrying the monthly doses and the annual figures, 0 when no annual row has the code |
| Home.GetHomeData | Backend/src/services/homeService.js:9-332 | null iff there is no staff row; otherwise it assembles location, staff cards, villages, vaccines and, for admins only, attached institutes |
| Home.NonAdminSeesNoInstitutes | Backend/src/services/homeService.js:231-233 | a non-admin's attached list is empty whatever the attached-institute rows are |
| Users.InitialUsers | Backend/src/services/userService.js:3 | the store starts with exactly Arsh, 21, id 1 |
| Users.FindAll | Backend/src/services/userService.js:5-7 | the current list is returned unchanged |
| Users.FindAllAfterCreates | Backend/src/services/userService.js:5-13 | after a run of creations without ids, the list holds the earlier users, then one user per body with its name and age, and the ids are still 1, 2, 3, … |
| Users.Create | Backend/src/services/userService.js:9-13 | exactly one user is appended and returned, the earlier users are unchanged, and its id is length+1 unless the data supplies one |
| Users.CreateKeepsSequential | Backend/src/services/userService.js:9-13 | without a supplied id, ids stay 1, 2, 3, … |
| Users.SequentialDistinct | Backend/src/services/userService.js:9-13 | sequential ids are pairwise distinct |
| Users.IdOverrideDuplicates | Backend/src/services/userService.js:10 | a supplied id equal to an existing one creates a duplicate id |
| Notifications.Click | ahpunjabfrontend/src/screens/NotificationsScreen.tsx:83-88 | only entries with that id become read; all others are unchanged |
| Notifications.ClickLowersBadge | ahpunjabfrontend/src/screens/NotificationsScreen.tsx:83-88 | the unread count drops by exactly the number of unread entries with that id |
| Notifications.Delete | ahpunjabfrontend/src/screens/NotificationsScreen.tsx:90-93 | no entry with that id is left, and every entry with another id is kept |
| Notifications.DeleteIsFilter | ahpunjabfrontend/src/screens/NotificationsScreen.tsx:90-93 | the result is a subsequence of the list holding every entry with another id as often as the list does and none with that id: exactly those entries are removed, the rest in order |
| Notifications.DeleteAbsorbsClick | ahpunjabfrontend/src/screens/NotificationsScreen.tsx:83-93 | deleting after a click is deleting alone, and deleting is idempotent |
| Notifications.MarkAll | ahpunjabfrontend/src/screens/NotificationsScreen.tsx:95-97 | every entry becomes read, everything else and the length unchanged |
| Notifications.MarkAllClearsBadge | ahpunjabfrontend/src/screens/NotificationsScreen.tsx:95-97 | afterwards the unread count is 0 |
| Notifications.ClearAll | ahpunjabfrontend/src/screens/NotificationsScreen.tsx:99-103 | the list empties iff the clearing is confirmed |
| Notifications.UnreadCount | ahpunjabfrontend/src/screens/NotificationsScreen.tsx:137 | at most the length, and 0 iff every entry is read |
| Notifications.DateFromRelativeTime | ahpunjabfrontend/src/screens/NotificationsScreen.tsx:20-34 | the first number of the text times the first matching unit (hour, day, week, month) subtracted from now; no unit gives now |
| Notifications.LabelReadsBack | ahpunjabfrontend/src/screens/NotificationsScreen.tsx:20-34 | a label written like the sample data ("2 hours ago", "1 day ago", any count and unit) is read back as that many units before now |
| Notifications.SortNotifications | ahpunjabfrontend/src/screens/NotificationsScreen.tsx:105-134 | a permutation of the list, sorted by the option's key |
| Notifications.SortStable | ahpunjabfrontend/src/screens/NotificationsScreen.tsx:105-134 | entries with equal keys keep their relative order |
| Notifications.DateOrders | ahpunjabfrontend/src/screens/NotificationsScreen.tsx:109-113 | "newest" is date-descending and "oldest" date-ascending |
| Notifications.UnreadFirst | ahpunjabfrontend/src/screens/NotificationsScreen.tsx:115-120 | unread entries come before read ones, and ties are newest first |
| Notifications.UrgentOrder | ahpunjabfrontend/src/screens/NotificationsScreen.tsx:122-128 | urgent, reminder, announcement, then info; ties newest first |
| Reports.FilteredReports | ahpunjabfrontend/src/screens/MonthlyReportScreen.tsx:158-167 | a report is kept iff it is of the selected academic year and matches the status filter |
| Reports.FilteredIsSubsequence | ahpunjabfrontend/src/screens/MonthlyReportScreen.tsx:158-167 | the kept reports are in source order |
| Reports.AcademicYear | ahpunjabfrontend/src/screens/MonthlyReportScreen.tsx:159-164 | year "S-YY" selects exactly the reports whose year reads S or S+1 |
| Reports.StatusCounts | ahpunjabfrontend/src/screens/MonthlyReportScreen.tsx:170-183 | each count is the length of the list under that filter, and "all" is the sum of the four statuses |
| SearchableSelect.SingleResults | ahpunjabfrontend/src/components/SearchableSelect.tsx:23-25 | with search on and a query, the options containing it case-insensitively; otherwise all options |
| SearchableSelect.SingleResultsInOrder | ahpunjabfrontend/src/components/SearchableSelect.tsx:23-25 | the results keep the options' order |
| SearchableSelect.Pick | ahpunjabfrontend/src/components/SearchableSelect.tsx:98-101 | the parent gets the option and the results close |
| SearchableSelect.Clear | ahpunjabfrontend/src/components/SearchableSelect.tsx:66-69 | the parent gets the empty text and the search box is back |
| SearchableSelect.Type | ahpunjabfrontend/src/components/SearchableSelect.tsx:56-91 | typing shows the results iff the query is non-empty, hiding the chosen value |
| SearchableSelect.AddOption | ahpunjabfrontend/src/components/SearchableSelect.tsx:139-142 | the values with the option appended |
| SearchableSelect.RemoveOption | ahpunjabfrontend/src/components/SearchableSelect.tsx:144-146 | the option no longer occurs, every other value still does, and without the option the values are unchanged |
| SearchableSelect.RemoveIsFilter | ahpunjabfrontend/src/components/SearchableSelect.tsx:144-146 | the result is a subsequence of the values with the same count of every other value and none of the option, so it is shorter by exactly the option's occurrences |
| SearchableSelect.MultiResults | ahpunjabfrontend/src/components/SearchableSelect.tsx:148-153 | nothing for an empty query; otherwise the unchosen options that match |
| SearchableSelect.AddFromResultsKeepsDistinct | ahpunjabfrontend/src/components/SearchableSelect.tsx:148-184 | adding a shown result never creates a duplicate value |
| SearchableSelect.RemoveUndoesAdd | ahpunjabfrontend/src/components/SearchableSelect.tsx:139-146 | removing a just-added result restores the values |
| SearchableSelect.RemovedIsOfferedAgain | ahpunjabfrontend/src/components/SearchableSelect.tsx:144-153 | a removed option is offered again by a matching query |
| Register.Initial | ahpunjabfrontend/src/screens/RegisterScreen.tsx:14-45 | the wizard starts at step 1 with every field empty, no errors and no employees |
| Register.Edit | ahpunjabfrontend/src/screens/RegisterScreen.tsx:47-67 | a negative number typed into a population field is ignored; any other edit sets the field and clears its error |
| Register.PopulationNeverNegative | ahpunjabfrontend/src/screens/RegisterScreen.tsx:49-60 | a population field can only take a value that is not a negative number |
| Register.PopulationExamples | ahpunjabfrontend/src/screens/RegisterScreen.tsx:49-60 | digits are accepted and minus-digits rejected |
| Register.Step1Errors | ahpunjabfrontend/src/screens/RegisterScreen.tsx:83-87 | no error iff district, tehsil, village and institute type are all filled |
| Register.Step2Errors | ahpunjabfrontend/src/screens/RegisterScreen.tsx:88-99 | no error iff type and name are filled and the mobile and email pass the shared validators |
| Register.Step2MobileMessage | ahpunjabfrontend/src/screens/RegisterScreen.tsx:92-95 | the mobile error appears iff the mobile fails, with the required or the invalid message |
| Register.Step2EmailMessage | ahpunjabfrontend/src/screens/RegisterScreen.tsx:96-99 | the email error appears iff the email fails, with the required or the invalid message |
| Register.ValidateStep | ahpunjabfrontend/src/screens/RegisterScreen.tsx:80-105 | steps 1 and 2 as above; steps 3 and 4 always pass |
| Register.ServiceVillagesIgnored | ahpunjabfrontend/src/components/RegisterScreen.tsx:75-100 | whatever the villages of service hold, a list or the older copy's single text, every step validates alike |
| Register.Next | ahpunjabfrontend/src/screens/RegisterScreen.tsx:157-163 | the errors become the step's, and the step advances iff they are empty and the step is below 4 |
| Register.Previous | ahpunjabfrontend/src/screens/RegisterScreen.tsx:165-169 | the step goes back iff it is above 1 |
| Register.Submit | ahpunjabfrontend/src/screens/RegisterScreen.tsx:171-175 | registration proceeds iff the current step validates |
| Register.StepStaysInRange | ahpunjabfrontend/src/screens/RegisterScreen.tsx:157-169 | Next and Previous keep the step in 1..4 |
| Register.NextAdvancesIff | ahpunjabfrontend/src/screens/RegisterScreen.tsx:157-163 | Next advances iff the step's validation passes |
| Register.PreviousThenNext | ahpunjabfrontend/src/screens/RegisterScreen.tsx:157-169 | going back and then forward over a valid step returns to the same step |
| Register.EmployeeErrors | ahpunjabfrontend/src/screens/RegisterScreen.tsx:111-125 | no error iff type, name and a valid mobile are given and the email is empty or valid |
| Register.AddEmployee | ahpunjabfrontend/src/screens/RegisterScreen.tsx:107-151 | an invalid entry or a full list leaves the list unchanged; otherwise one employee is appended and the four fields are cleared |
| Register.EmployeesCapped | ahpunjabfrontend/src/screens/RegisterScreen.tsx:127-140 | the list never exceeds 10 and grows by at most one |
| Register.RemoveEmployee | ahpunjabfrontend/src/screens/RegisterScreen.tsx:153-155 | exactly the entry at the index goes, the rest in order |
| Register.RemoveLastUndoesAdd | ahpunjabfrontend/src/screens/RegisterScreen.tsx:107-155 | removing the just-added employee restores the list |
| Register.ValidateField | ahpunjabfrontend/src/screens/RegisterScreen.tsx:188-212 | only the edited field's error changes; a non-empty name field shorter than 2 is flagged |
| Forms.EditField | ahpunjabfrontend/src/screens/LoginScreen.tsx:13-19 | the field takes the value, a pending error on it is blanked, nothing else changes |
| Forms.SetField | ahpunjabfrontend/src/components/ChangePasswordScreen.tsx:105 | the older screens' bare setter: the field takes the value, the other fields and every error stay |
| Forms.EditVersusSet | ahpunjabfrontend/src/components/ForgetPasswordScreen.tsx:160 | the newer and older edits store the same values and leave different errors exactly when the edited field was showing one |
| Forms.EditTwice | ahpunjabfrontend/src/screens/ChangePasswordScreen.tsx:17-23 | editing twice keeps only the second value |
| Forms.ValidateLogin | ahpunjabfrontend/src/screens/LoginScreen.tsx:21-35 | username error iff blank after trim; password error iff shorter than 6, with the required or length message; valid iff no error |
| Forms.BlankUsernameRejected | ahpunjabfrontend/src/screens/LoginScreen.tsx:24-26 | an all-whitespace username never validates |
| Forms.ValidateProfile | ahpunjabfrontend/src/screens/ProfileScreen.tsx:29-54 | name, email and mobile errors iff blank or failing the shared validators, with the required or invalid message |
| Forms.ValidatePasswords | ahpunjabfrontend/src/screens/ChangePasswordScreen.tsx:25-50 | each field's error iff its rule fails; an unchanged password gets "must be different" in place of any other; valid iff none |
| Forms.AcceptedNewPasswordIsLongEnough | ahpunjabfrontend/src/screens/ChangePasswordScreen.tsx:25-50 | an accepted new password passes the shared validator at length 8 |
| Forms.ResetPassword | ahpunjabfrontend/src/screens/ForgetPasswordScreen.tsx:24-40 | an error iff the email fails, required or invalid; submitted iff it was or the email is valid |
| Forms.BackToLogin | ahpunjabfrontend/src/screens/ForgetPasswordScreen.tsx:52-57 | back to an empty, unsubmitted form without errors |
| Forms.ForgotRoundTrip | ahpunjabfrontend/src/screens/ForgetPasswordScreen.tsx:24-57 | from the opening state an empty request is refused, a valid one submits, and going back undoes any request |
| Sessions.FormatDate | ahpunjabfrontend/src/screens/ActiveSessionsScreen.tsx:86-105 | under a minute a clock time, then minutes, hours and days as floor divisions, then month/day under 30 days, else a full date |
| Sessions.Monotone | ahpunjabfrontend/src/screens/ActiveSessionsScreen.tsx:86-105 | as time passes the same session's label never goes back to a more recent form, a smaller unit or a smaller count |
| Elapsed.FloorBounds | ahpunjabfrontend/src/screens/ActiveSessionsScreen.tsx:89-92 | the shown count n is the floor: n·unit ≤ diff < (n+1)·unit |
| Elapsed.UnitWord | ahpunjabfrontend/src/screens/ActiveSessionsScreen.tsx:98-100 | the unit gets a plural "s" iff the count exceeds 1 |
| Sessions.IconIgnoresCase | ahpunjabfrontend/src/screens/ActiveSessionsScreen.tsx:107-114 | the phone icon depends only on the lower-cased name |
| Sessions.Current | ahpunjabfrontend/src/screens/ActiveSessionsScreen.tsx:116 | the first current session, none iff no session is current |
| Sessions.Others | ahpunjabfrontend/src/screens/ActiveSessionsScreen.tsx:117 | exactly the non-current sessions |
| Sessions.OthersCount | ahpunjabfrontend/src/screens/ActiveSessionsScreen.tsx:116-117 | others plus current sessions account for every session |
| Sessions.OthersInOrder | ahpunjabfrontend/src/screens/ActiveSessionsScreen.tsx:117 | the others keep their order |
| Sessions.RevokeAllOthers | ahpunjabfrontend/src/screens/ActiveSessionsScreen.tsx:52-66 | nothing to revoke iff every session is current; a revoke is confirmed and counts the others |
| Passkeys.FormatDate | ahpunjabfrontend/src/screens/ManagePasskeysScreen.tsx:87-101 | "Never" iff no date; under a minute "Just now", then minutes, hours and days below 30, else a locale date |
| Passkeys.FutureIsJustNow | ahpunjabfrontend/src/screens/ManagePasskeysScreen.tsx:90-96 | a future timestamp shows "Just now" |
| Passkeys.Monotone | ahpunjabfrontend/src/screens/ManagePasskeysScreen.tsx:90-100 | as time passes the label never goes back to a smaller unit or count |
| Passkeys.DisplayName | ahpunjabfrontend/src/screens/ManagePasskeysScreen.tsx:208 | never empty; the device name when it is truthy |
| Storage.Create | ahpunjabfrontend/src/utils/storage.ts:10-24 | `localStorage` is used iff the probe does not throw, with an empty memory |
| Storage.GetItem | ahpunjabfrontend/src/utils/storage.ts:29-40 | the stored value when available; otherwise the memory value, null when absent or empty |
| Storage.SetItem | ahpunjabfrontend/src/utils/storage.ts:45-59 | memory is always written; `localStorage` only when available and not throwing |
| Storage.RemoveItem | ahpunjabfrontend/src/utils/storage.ts:64-74 | memory always loses the key |
| Storage.Clear | ahpunjabfrontend/src/utils/storage.ts:79-89 | memory is always emptied |
| Storage.Keys | ahpunjabfrontend/src/utils/storage.ts:94-105 | the stored keys when available, else exactly the memory keys |
| Storage.SetThenGet | ahpunjabfrontend/src/utils/storage.ts:29-59 | a value just set is read back (in memory, unless it is empty) |
| Storage.SetLeavesOthers | ahpunjabfrontend/src/utils/storage.ts:29-59 | setting one key leaves every other key's reading unchanged |
| Storage.RemoveThenGet | ahpunjabfrontend/src/utils/storage.ts:29-74 | a removed key reads as null |
| Storage.ClearThenGet | ahpunjabfrontend/src/utils/storage.ts:29-105 | after clearing every key reads null and there are no keys |
| AuthSession.ParseInt | ahpunjabfrontend/src/services/authService.ts:153 | empty text and text starting with a non-number character are NaN; text starting with a digit is a non-negative number |
| AuthSession.ParseIntRoundTrip | ahpunjabfrontend/src/services/authService.ts:75 | the expiry written as decimal text reads back as the same number |
| AuthSession.Login | ahpunjabfrontend/src/services/authService.ts:37-93 | non-JSON and network failures give their messages; a failed reply its message or "Login failed"; an ok reply with a token stores token, expiry now+900 000 and user; failures leave storage alone, writes that throw not being modelled |
| AuthSession.Refresh | ahpunjabfrontend/src/services/authService.ts:112-135 | succeeds iff an ok reply carries a token, which is stored with expiry now+900 000; nothing else changes |
| AuthSession.Logout | ahpunjabfrontend/src/services/authService.ts:95-110 | the three keys are removed whatever the request did; other keys stay |
| AuthSession.GetUser | ahpunjabfrontend/src/services/authService.ts:141-144 | the stored user iff it is non-empty |
| AuthSession.IsAuthenticated | ahpunjabfrontend/src/services/authService.ts:146-171 | false without token or expiry; otherwise signed in iff now ≤ expiry, refreshing iff also less than a minute is left; an unparsable expiry is signed in |
| AuthSession.LoginThenAuthenticated | ahpunjabfrontend/src/services/authService.ts:75-168 | after a login, signed in exactly through the next 15 minutes, refreshing in the last one |
| AuthSession.RefreshThenAuthenticated | ahpunjabfrontend/src/services/authService.ts:127-168 | the same after a refresh |
| AuthSession.FailureKeepsSession | ahpunjabfrontend/src/services/authService.ts:80-91 | a failed login or refresh does not change whether one is signed in |
| AuthSession.LogoutSignsOut | ahpunjabfrontend/src/services/authService.ts:104-109 | after logout nobody is signed in and there is no user |
| AuthSession.GarbledExpiryNeverExpires | ahpunjabfrontend/src/services/authService.ts:153-170 | a non-numeric expiry counts as signed in at every time and never refreshes |

## Left out

- File, network and database I/O. The JSON load and the file write of the seed generator are replaced by a `Document` value and a list of lines. Every `fetch` and every `pg` query becomes an input (a query's rows, a request's outcome), and the SQL text of the queries is not modelled.
- Console output: the progress lines of the seed generator and every `console.log`.
- The SHA-256 of `hashToken`, JWT signing, `@simplewebauthn`'s option generation and attestation/assertion checks, and base64url handling. These are foreign libraries. A verification result is an input of `WebAuthn.VerifyRegistration` and `WebAuthn.VerifyAuthentication`.
- `sanitizeString`, `sanitizeInput` and `isValidEmail` of `sanitize.js`. They are `DOMPurify` and `validator` behaviour.
- React rendering, alerts and `confirm` dialogs, which become a `confirmed` flag. Also left out: Fastify route configuration, and floating-point progress percentages.
- Locale formatting: `toLocaleDateString`/`toLocaleTimeString` results are tags (`ClockTime`, `MonthDay`, `LocaleDate`, …). `Date.now()`/`new Date()` is the parameter `now`.
- `toLowerCase` on non-ASCII letters: case folding is modelled for ASCII only.
- Home.Coordinate: coordinates are integers; the source's floating-point latitudes and longitudes are not modelled.
- AuthSession.ParseInt: only decimal text is read; `parseInt`'s `0x` prefix handling is not modelled. The stored expiry is always decimal.
- AuthSession.Login: the user is kept as its JSON text, and JSON parsing in `getUser` is not modelled. An absent user is stored as the text "undefined", as `JSON.stringify` does.
- AuthSession.IsAuthenticated: the background refresh is a flag in the result; its asynchronous outcome is not modelled.
- Reports.NumberOf: `Number(...)` is modelled for empty text and digit runs; signs, decimals, exponents and surrounding whitespace read as NaN here.
- Storage.Keys: a set, so the order `Object.keys` gives is not modelled.
- Notifications.SortNotifications: `Array.prototype.sort` is modelled as a stable sort, as required of it since ECMAScript 2019.
- Notifications.DateFromRelativeTime: months are 30 days, as in the source. An absent number is treated as `parseInt("0")`.
- Sanitize.SanitizeSql: the contract does not promise that `--`, `/*`, `*/` or the keywords are absent from the result, because they need not be. Each pass runs once, so text joined by a later pass is not searched again (`Sanitize.CommentMarkerSurvives`).
- Sanitize.ValidatePassword, Sanitize.IsValidUserId, Validation.ValidatePassword, Forms.ValidateLogin, Forms.ValidatePasswords, Register.ValidateField: lengths count characters (Unicode scalar values), whereas JavaScript's `.length` counts UTF-16 code units. The two differ only for characters outside the Basic Multilingual Plane, which count once here and twice in the source.
- Register.NegativeFloat: floating-point rounding and exponents are not modelled; a minus sign followed by a non-zero digit reads as negative. A value that underflows is therefore negative here, while `parseFloat` turns it into -0, which is not below 0, so the source accepts it. Examples are "-1e-400" and a minus sign, "0.", four hundred zeros and a "1".
- WebAuthn.VerifyRegistration: a database statement that throws is not an input. In the source, `saveCredential` and the `passkey_enabled` UPDATE run without a transaction (`webauthnService.js` lines 140-155), so an UPDATE that throws leaves the credential stored while the call fails. The promise that an error leaves the database alone covers the missing and expired challenge and a failed verification only.
- AuthSession.Login, AuthSession.Refresh: a `localStorage.setItem` that throws is not modelled. In the source an exception after the first write is caught (`authService.ts` lines 86-92 and 131-134) and reported as a network error or `false`, with the keys written before it kept.

## Findings

| source | as written | input that shows it | evidently intended | confidence | as-written member | corrected member |
|---|---|---|---|---|---|---|
| Backend/src/middleware/sanitize.js:127-134 | all non-digits are removed before testing `^(\+91)?[6-9]\d{9}$`, so the `+91` group can never match and a number with its country code is rejected | "+919876543210": stripping leaves twelve digits "919876543210" | accept an optional "91" country code before a ten-digit mobile starting with 6–9 | not executed | Sanitize.IsValidPhone, Sanitize.CountryCodeRejected | Sanitize.IsValidPhoneWithCode, Sanitize.CountryCodeAccepted |
