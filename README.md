# U&I couple pairing, modelled in Dafny

U&I pairs two people into one couple account. Pairing takes two phases:

1. The first partner registers and verifies their e-mail. Verification creates a *pending* couple with a six-digit invitation code and mails the code to them.
2. The second partner registers with that code and verifies. That verification moves the couple to *verified*.

After that, logging in as either partner returns the other partner's profile.

This project models the server side of that workflow over the two MySQL tables `users` and `couples`, together with the login check, the `/login` status mapping and the client's `auth` slice:

| file | module | what it models |
|---|---|---|
| `schema.dfy` | `Schema` | The two tables: rows, enums, nullability, defaults and varchar widths. It also has the constraints MySQL enforces on every insert: auto-increment keys, the unique e-mail, the unique invitation token and the `couple_id` foreign key. It holds the `select … where … limit 1` lookups and the `update couples` statement. |
| `codes.dfy` | `Codes` | The two random generators, as predicates on their possible outputs. It also covers the decimal rendering of the invitation code. |
| `registration.dfy` | `Registration` | `registerUser` and `verifyUser` as methods of `PairingStore`, a class holding both tables and their auto-increment counters. |
| `login_service.dfy` | `LoginService` | `loginService`: the e-mail lookup, the verified check and the password check, in that order. Then the partner lookup and the nine-column profiles. |
| `login_controller.dfy` | `LoginController` | The `/login` handler's error-to-status mapping. |
| `auth_slice.dfy` | `AuthSlice` | `initialState`, `setCredentials` and `clearCredentials`, as a class whose methods change its fields in place. |
| `pairing.dfy` | `Pairing` | The whole pairing flow on fresh tables: register, verify, register with the code, verify, then log in as each partner. |
| `wrappers.dfy` | `Wrappers` | `Option`. |

The environment is passed in as parameters:

- the bcrypt hash of the password, and bcrypt's comparison as a function `passwordMatches(plain, hash)`;
- the generated verification token, which must be 32 lower-case hex characters;
- the generated invitation code, which must be in 100000..999999;
- the current time `now`, in milliseconds;
- whether the mail transport delivered the message, as the boolean `emailSent`.

Two invariants sit on the tables:

- `Schema.SchemaValid` is what the database guarantees.
- `Registration.WorkflowInvariant` is what the two operations keep true beyond that:
  - a token is present exactly while the user is unverified;
  - a first partner has a couple only once verified;
  - every second partner has a couple;
  - no two first partners share a couple;
  - a verified second partner's couple is verified.

Every method of `PairingStore` preserves both invariants. Every method also preserves `UsersGrow`/`CouplesGrow`: no row is deleted; user ids, e-mails and first-partner flags never change, and neither do couple ids or invitation tokens; a user's `couple_id`, once set, stays; `verified` and a couple's verified status never revert.

The model follows the code as written where the intended design differs:

- **Re-verifying is an error.** Verifying an already verified user fails with "User already verified" and status 500; it is not an idempotent success.
- **Every failure is a 500.** All `verifyUser` failures, including an unknown id, a wrong token and an expired token, give status 500. None of them carries the driver code `ER_PARSE_ERROR` that would turn it into a 400.
- **No role check.** `registerUser` does not compare the second partner's role with the first partner's. It also does not stop several second partners from joining the same pending couple: the invitation is rejected only when no pending couple holds the code.
- **The invitation mail is part of the transaction.** It is sent inside `verifyUser`'s transaction, so a failed mail rolls back the verification and the new couple.
- **The registration mail comes after the commit.** It is sent after the insert commits, so a failed mail gives status 500 but the new user row stays.
- **Invitation codes are unique across all couples.** A verified couple's code still blocks a new couple from using the same code, and the first partner's verification then fails.

Two of `verifyUser`'s error exits cannot happen on tables that satisfy the schema:

- **"Couple creation failed"** (line 231): `ReselectFindsInsertedCouple` proves that the re-select finds the new row.
- **"Couple verification failed"** (lines 258-260): `LinkedCoupleIsOneRow` proves that the update touches exactly one row.

Under the workflow invariant, `verifyUser`'s last branch ("Email verification completed", line 269) is not reachable either (`DefaultBranchUnreachable`). The model still keeps that branch as the source has it.

## Model

| member | source | states |
|---|---|---|
| `Schema.FirstMatch` | server/services/login.service.js:19-23 | `limit 1` picks the first row, in key order, that satisfies the condition. The index it returns satisfies the condition and no earlier row does; it returns none exactly when no row does. |
| `Schema.FindUserById` | server/services/registration.service.js:189-194 | The row whose id is the requested one. None exactly when no row has that id. |
| `Schema.FindUserByEmail` | server/services/login.service.js:19-28 | The first row holding the e-mail. None exactly when no row holds it. |
| `Schema.FindPendingCouple` | server/services/registration.service.js:81-95 | The first couple holding the token whose status is pending. None exactly when there is none. An absent token matches nothing. |
| `Schema.FindPartner` | server/services/login.service.js:61-70 | The first row with the same couple id and a different user id. None exactly when there is none. |
| `Schema.Truthy` | server/services/login.service.js:51 | A `couple_id` is truthy exactly when it is non-NULL and non-zero; the same test decides the branches at server/services/registration.service.js:212 and 252. |
| `Schema.CoupleIds` | server/database/schema/users.js:6 | The ids `couple_id` may reference: exactly the ids present in `couples`. |
| `Schema.CountCouplesWithId` | server/services/registration.service.js:254-258 | The `rowsAffected` of the couple update is zero exactly when no couple has that id. |
| `Schema.MarkCoupleVerified` | server/services/registration.service.js:254-256 | Exactly the couple with that id becomes verified. Every other couple and the table's length are unchanged. |
| `Schema.SchemaValid` | server/database/schema/users.js:5-17 | What the database holds both tables to: ids increase and stay below the auto-increment counters, e-mails and invitation tokens are unique, every `couple_id` references a couple, and every value fits its column. |
| `Schema.UserInsertAccepted` | server/database/schema/users.js:5-13 | MySQL accepts a user insert exactly when its values fit their varchar columns (strict mode), no row holds the e-mail, and a given `couple_id` references an existing couple. MySQL's check that `date_of_birth` is a valid DATE is not modelled. |
| `Schema.CoupleInsertAccepted` | server/database/schema/couples.js:4-6 | MySQL accepts a couple insert exactly when the invitation token fits its column and no couple, pending or verified, holds the same token. |
| `Codes.IsVerificationToken` | server/services/registration.service.js:25 | A generated verification token is 32 lower-case hexadecimal characters. |
| `Codes.IsInvitationCode` | server/services/registration.service.js:32 | A generated invitation code is an integer from 100000 to 999999. |
| `Codes.DecimalString` | server/services/registration.service.js:32 | `toString()` of an invitation code (any number below 10^21, where JavaScript still writes plain digits): at least one character, all decimal digits, no leading zero. |
| `Codes.DecimalRoundTrip` | server/services/registration.service.js:32 | Reading the rendered code back gives the number. |
| `Codes.DecimalLength` | server/services/registration.service.js:32 | A number in [10^k, 10^(k+1)) renders as k+1 digits. |
| `Codes.InvitationCodeIsSixDigits` | server/services/registration.service.js:31-35 | Any code the generator can produce renders as exactly six digits. |
| `Registration.PasswordGiven` | server/services/registration.service.js:64-67 | `!password` is false exactly for a present, non-empty password; otherwise registration throws "Password is required". |
| `Registration.IsTrue` | server/services/registration.service.js:78 | `isFirstPartner` is truthy only when it is `true`; an absent or false flag takes the second-partner path. |
| `Registration.RegisterResponse.Status` | server/services/registration.service.js:97-171 | 200 for a registration, 400 for a rejected invitation code, 500 for any thrown error. |
| `Registration.RegisterResponse.Message` | server/services/registration.service.js:97-171 | The fixed message of each of the three response literals. |
| `Registration.VerifyError.Text` | server/services/registration.service.js:196-259 | The message of each error `verifyUser` can throw; a database or mail error carries a representative text. |
| `Registration.VerifyResponse.Status` | server/services/registration.service.js:245-277 | 200 for each success branch; every failure is 500, since no error carries `ER_PARSE_ERROR`. |
| `Registration.VerifyResponse.Message` | server/services/registration.service.js:245-277 | A success carries its branch's message; a failure is "Verification failed: " followed by the error's message. |
| `Registration.TokenMatches` | server/services/registration.service.js:198 | `verification_token !== token` is false exactly when a stored token equals the given one; a NULL column never equals an absent token. |
| `Registration.Expired` | server/services/registration.service.js:199 | The expiry is before `now`; a NULL expiry compares as 0. An expiry equal to `now` is not expired. |
| `Registration.MarkVerified` | server/services/registration.service.js:203-209 | The row becomes verified and its token and expiry become NULL; no other column changes. |
| `Registration.UserRow` | server/services/registration.service.js:107-119 | The insert builds a row exactly when the NOT NULL columns e-mail, role and first name are given. The row carries the assigned id, the couple id, the e-mail and the hash; it is unverified and holds the token and its expiry. |
| `Registration.InsertUserKeepsSchema` | server/database/schema/users.js:5-11 | An accepted insert with the next auto-increment id keeps ids increasing and e-mails unique. It keeps every reference and column limit valid. |
| `Registration.InsertUserKeepsWorkflow` | server/services/registration.service.js:105-119 | Inserting an unverified row that holds a token and an expiry, and is paired exactly when it is a second partner, keeps the workflow invariant and only grows the users table. |
| `Registration.MarkVerifiedKeepsSchema` | server/services/registration.service.js:203-209 | Marking a row verified and clearing its token keeps every schema constraint. |
| `Registration.ReselectFindsInsertedCouple` | server/services/registration.service.js:217-231 | Right after a pending couple is inserted with a unique code, re-selecting by that code and `pending` finds the new row, so "Couple creation failed" is never thrown. |
| `Registration.ReselectInsertedCouple` | server/services/registration.service.js:223-231 | The id the re-select yields is the inserted couple's id. |
| `Registration.ReferencedCoupleIsOld` | server/database/schema/users.js:6 | A couple id referenced by a user is positive and below the couples' next auto-increment value. |
| `Registration.InsertCoupleKeepsCouples` | server/database/schema/couples.js:4-6 | An accepted couple insert with the next id keeps couple ids increasing and invitation tokens unique across all couples. |
| `Registration.LinkNewCoupleKeepsRefs` | server/services/registration.service.js:234-236 | Linking a user to the couple just inserted keeps every `couple_id` pointing at an existing couple. |
| `Registration.LinkNewCoupleKeepsSchema` | server/services/registration.service.js:203-236 | Marking a first partner verified, inserting their couple and linking them keeps every schema constraint. |
| `Registration.MarkCoupleVerifiedKeepsIds` | server/services/registration.service.js:254-256 | Confirming a couple leaves the set of couple ids unchanged. |
| `Registration.MarkCoupleVerifiedGrows` | server/services/registration.service.js:254-256 | Confirming a couple keeps every row, id and token, and never reverts a status. |
| `Registration.ConfirmCoupleKeepsSchema` | server/services/registration.service.js:252-260 | Marking a second partner verified and confirming their couple keeps every schema constraint. |
| `Registration.LinkedCoupleIsOneRow` | server/services/registration.service.js:258-260 | The couple a user references is exactly one row, so the update affects one row and "Couple verification failed" is never thrown. |
| `Registration.DefaultBranchUnreachable` | server/services/registration.service.js:212-269 | Under the workflow invariant an unverified user is either a first partner without a couple or a second partner with one. |
| `Registration.FirstPartnerLinkKeepsWorkflow` | server/services/registration.service.js:212-236 | A first partner's verification and link to a new couple keep the workflow invariant. |
| `Registration.SecondPartnerConfirmKeepsWorkflow` | server/services/registration.service.js:252-256 | A second partner's verification together with their couple's confirmation keeps the workflow invariant. |
| `Registration.FirstPartnerVerificationKeepsTables` | server/services/registration.service.js:203-236 | The writes of a first partner's verification keep the schema and the workflow invariant. They only grow both tables. |
| `Registration.VerifiedRowGrows` | server/services/registration.service.js:203-209 | Verifying one row, while keeping its id, e-mail, flag and any couple, only grows the users table. |
| `Registration.AppendCoupleGrows` | server/services/registration.service.js:217-220 | Inserting a couple only grows the couples table. |
| `Registration.PairingStore.constructor` | server/database/schema/users.js:4-20 | Both tables start empty and both counters start at 1. The empty tables satisfy the schema and the workflow invariant. |
| `Registration.PairingStore.RegisterUser` | server/services/registration.service.js:49-173 | The password check comes first: a missing or empty password gives 500 and no row. A second partner with no pending couple for the code gets 400 and no row. Otherwise exactly one unverified row is inserted if the table accepts it. That row has the generated token, an expiry one year after `now`, and no couple (first partner) or the matched couple (second partner). After the commit a failed mail gives 500 and the row stays. Both invariants are preserved and `couples` is untouched. |
| `Registration.PairingStore.InsertAndNotify` | server/services/registration.service.js:103-164 | The insert transaction followed by the mail. A rejected insert changes nothing; an accepted one appends the row and advances the counter whether or not the mail goes out. |
| `Registration.PairingStore.VerifyUser` | server/services/registration.service.js:183-279 | The four guards, in order: unknown id, already verified, token mismatch, expired. Any failure leaves both tables unchanged. Past the guards, the row is verified and its token and expiry are cleared. A first partner without a couple gets exactly one new pending couple holding the code and is linked to it; a duplicate code or a failed mail fails the whole transaction. A second partner's couple becomes verified. Both invariants are preserved. |
| `Registration.PairingStore.VerifyFirstPartner` | server/services/registration.service.js:212-250 | A duplicate code or a failed invitation mail gives a failure with both tables unchanged. Otherwise the user is verified and linked to the new pending couple, and the success message names the user's e-mail. |
| `Registration.PairingStore.InsertCoupleAndLink` | server/services/registration.service.js:203-236 | The transaction's writes for a first partner: one couple appended with the next id, and the user verified and linked to it. |
| `Registration.PairingStore.VerifySecondPartner` | server/services/registration.service.js:252-266 | The user is verified and exactly their couple becomes verified. Success is always reported, because the update cannot miss. |
| `Registration.PairingStore.VerifyUnpaired` | server/services/registration.service.js:268-269 | Any other user is only marked verified, with "Email verification completed". |
| `LoginService.Project` | server/services/login.service.js:86-108 | The profile sent to the client: the nine public columns, without the password hash, the token, the expiry or `verified`. |
| `LoginService.PartnerOf` | server/services/login.service.js:50-82 | A partner is sought only when `couple_id` is truthy. Any partner found has the same couple id and a different user id. None exactly when no such row exists. |
| `LoginService.Login` | server/services/login.service.js:16-111 | An unknown e-mail gives "Invalid email or password". An unverified account gives "User is not verified", whatever the password. A verified account with a wrong password gives "Invalid email or password". Login succeeds exactly when all three checks pass. The session carries the user's id and e-mail for one day, and the result holds the user's profile and `PartnerOf`. |
| `LoginService.ProjectionHidesSecrets` | server/services/login.service.js:84-110 | The returned profile depends only on the nine listed columns. It never shows the password hash, the token, its expiry, `verified` or `created_at`. |
| `LoginService.PartnerSharesCouple` | server/services/login.service.js:50-82 | A partner in a successful login shares the user's truthy couple id and has a different id. |
| `LoginService.VerifiedCheckedBeforePassword` | server/services/login.service.js:33-42 | For an unverified account the password and the comparison are never consulted. |
| `LoginService.UnknownEmailLooksLikeWrongPassword` | server/services/login.service.js:25-42 | An unknown e-mail and a wrong password give the same failure. |
| `LoginController.ErrorStatus` | server/controller/login.controller.js:16 | 403 exactly for the message "User is not verified", 401 for every other message. |
| `LoginController.HandleLogin` | server/controller/login.controller.js:10-18 | Success is 200 with the service's result as the body, unchanged. A failure has body `{message}`, with 403 exactly for the unverified message and 401 for any other error. |
| `LoginController.LoginStatuses` | server/controller/login.controller.js:11-17 | In terms of the users table: 403 exactly for an existing unverified account; 401 exactly for an unknown e-mail or a verified account with a wrong password; 200 exactly when all checks pass. |
| `AuthSlice.InitialState` | client/src/redux/slices/authSlice.js:5-10 | Token, user and partner are null and `isAuthenticated` is false. |
| `AuthSlice.AfterSetCredentials` | client/src/redux/slices/authSlice.js:17-23 | The state after `setCredentials`: token, user and partner from the payload, `isAuthenticated` true. |
| `AuthSlice.AfterClearCredentials` | client/src/redux/slices/authSlice.js:25-30 | Clearing yields exactly the initial state, whatever the prior state. |
| `AuthSlice.AuthStore.constructor` | client/src/redux/slices/authSlice.js:5-14 | The store starts in the initial state. |
| `AuthSlice.AuthStore.SetCredentials` | client/src/redux/slices/authSlice.js:17-23 | The four fields are overwritten in place. Token, user and partner come from the payload, and `isAuthenticated` becomes true. |
| `AuthSlice.AuthStore.ClearCredentials` | client/src/redux/slices/authSlice.js:25-30 | The four fields are overwritten in place with the initial state. |
| `AuthSlice.ClearIsIdempotent` | client/src/redux/slices/authSlice.js:25-30 | Clearing twice is the same as clearing once. |
| `AuthSlice.SetThenClearIsInitial` | client/src/redux/slices/authSlice.js:17-30 | Setting credentials and then clearing them gives the initial state. |
| `AuthSlice.LastSetWins` | client/src/redux/slices/authSlice.js:17-23 | A second `setCredentials` overwrites the first completely. |
| `Pairing.FirstRegisters` | server/services/registration.service.js:73-163 | On empty tables, a first partner's registration inserts row 1: unverified, holding the token, with no couple. It answers 200 with the registration message. |
| `Pairing.FirstVerifies` | server/services/registration.service.js:212-250 | Verifying that row creates pending couple 1 holding the six-digit code and links the row to it. It answers 200, reporting the code sent to the first partner's e-mail. |
| `Pairing.SecondRegisters` | server/services/registration.service.js:77-163 | Registering with that code inserts row 2, linked to couple 1. It answers 200. |
| `Pairing.SecondVerifies` | server/services/registration.service.js:252-266 | Verifying row 2 confirms couple 1. It answers 200 with the couple-verified message. |
| `Pairing.RegisterAndVerifyBoth` | server/services/registration.service.js:49-266 | The four steps each answer 200 with their success message, and leave exactly two verified users in one verified couple. |
| `Pairing.PairedLogins` | server/services/login.service.js:50-110 | Two verified members of one couple, alone in the table, each log in and see the other as partner. |
| `Pairing.PairTwoUsers` | server/services/login.service.js:16-111 | After both partners register and verify, both logins succeed. Each shows the other's profile as partner, both share couple 1, and only the first is the first partner. |

## Left out

- **Foreign libraries.** bcrypt's hashing and comparison, JWT signing and nodemailer are not modelled. The hash is an input, the comparison is the parameter `passwordMatches`, a session is the claims it would sign, and delivery of each mail is the boolean `emailSent`. Mail contents and the verification URL are not modelled.
- **Randomness.** `crypto.randomBytes` and `Math.random` are not modelled. The token and the code are inputs, constrained to what the generators can produce.
- **Clocks.** `Date.now()` and `new Date()` become the parameter `now`. The `created_at` defaults are evaluated once when the schema modules load, so each is a constant of the store. Datetime precision and time zones are not modelled.
- **Driver result shapes.** The `insertId` extraction (registration.service.js:124-128) becomes the id the table assigns. A driver shape that left it undefined is not modelled. `rowsAffected` becomes the number of couples with that id.
- **Concurrency.** The check-then-act race between the couple lookup outside the transaction and the insert is not modelled, nor is any interleaving of requests. Each operation runs alone.
- **Failed inserts.** An auto-increment value consumed by a rolled-back insert is not modelled: the counter advances only on commit.
- **Row order.** `limit 1` without `order by` is modelled as the first row in id order.
- **Collation.** MySQL's case-insensitive comparison of e-mails and tokens is not modelled; strings compare exactly.
- **Request decoding.** The decoding of request bodies and query strings is not modelled:
  - `userId` arrives as an integer; a value `Number()` cannot parse is treated as an unknown id.
  - An absent or null payload field is `None`.
  - `is_first_partner` sent as JSON `null` would be stored as NULL rather than the default `false`; the model stores `false`.
  - An absent invitation token matches no couple.
  - Enum columns receive only their declared values; a value outside the enum, which MySQL would reject, is not representable.
- **Error texts.** Database and mail error messages (the duplicate-key text in `DuplicateInvitationCode`, a rejected user insert, nodemailer's own message in `InvitationEmailFailed` and in a failed verification mail) are modelled as error kinds with representative texts.
- **Logging.** All `console.log` output is not modelled.
- **Missing password at login.** A login body without `password` makes `bcrypt.compare` throw (server/services/login.service.js:38), which the controller answers with 401 and bcrypt's own message. `Login` takes the password as a string, so an absent one cannot be expressed.
- **SQL mode.** The model assumes MySQL's strict SQL mode: a value longer than its varchar column is rejected, so the insert fails with 500 and no row, rather than being truncated.
- Schema.UserInsertAccepted: does not reject a `date_of_birth` that is not a valid DATE, which MySQL's strict mode would refuse (server/database/schema/users.js:12); which strings MySQL takes as a DATE (formats, ranges, the SQL mode) is not modelled, so the predicate admits every value of that column.
- Registration.PairingStore.RegisterUser: accepts `dateOfBirth` whatever its shape. Which strings MySQL takes as a `DATE` (formats, ranges, the SQL mode) is not modelled; under strict mode a malformed date would fail the insert with 500 and no row (server/database/schema/users.js:12, server/services/registration.service.js:111, 165-171).
- Registration.PairingStore.InsertAndNotify: inserts the row whatever the shape of `date_of_birth`, for the same reason; a date MySQL rejects would leave no row and answer 500.
- **The rest of the repository.** The React pages, `api.js`, the redux-persist store, the Express app and routes, the registration controller, and the connection and re-export modules are not part of this model. The login page's `dispatch(setCredentials(data))` appears only through `AuthStore.SetCredentials`.
