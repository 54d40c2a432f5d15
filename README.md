# Micro-learning platform: the authentication core, in Dafny

This project models the authentication and session core of the
micro-learning platform and proves properties of the model. Two API servers
are covered: `apps/api`, and the older `backend`. The model covers:

- **The token helpers** (`lib/auth.ts`):
  - the environment settings;
  - the JWT access and refresh tokens;
  - the password hashes: Argon2id in `apps/api`, bcrypt in `backend`;
  - the one-time e-mail and reset tokens, which are stored only as SHA-256 digests;
  - the refresh-record expiry read from `JWT_REFRESH_EXPIRES_IN`.
- **The request gates** (`auth.middleware.ts`): bearer-token extraction, the
  access-token check, the optional gate and the role gates.
- **The authentication routes of both servers**: register, login, refresh,
  logout and me, plus e-mail verification, resend, forgot-password and
  reset-password in `apps/api`. They run over a user table, the refresh-token
  allow-list (the list of refresh tokens the server still accepts) and an
  outbox of mails.
- **The course routes and the enrollment routes** of `apps/api`:
  - the filtered, paginated listing;
  - the owner-or-admin checks;
  - create, update, delete, publish and students;
  - enroll, progress and unenroll.
- **The request schemas.** These are `backend/src/lib/validation.ts` and
  `packages/shared/src/schemas/index.ts`. A small interpreter of the Zod
  features they use (module `Zod`) gives each schema a meaning.
- **The front end's toast queue** (`useToast`).
- **The front end's session store** (`stores/auth.ts`). Its server calls are
  parameters holding the server's answer.

Each source file's form is kept:

- Route handlers, the toast queue and the session store change state. They
  are classes whose fields hold the tables or the store's refs. Their methods
  have `modifies` clauses and postconditions that give the whole new state.
- Helpers and schemas are pure. They are functions and lemmas.

Lookups that loop over a table are loops with invariants:

- `findFirst` is `ApiAuthRoutes.FindFirst`;
- `findUnique` is `BackendAuthRoutes.FindByEmail`;
- `findIndex` is `Toasts.FindIndex`.

JSON Web Tokens (JWTs, RFC 7519) are modelled by their meaning. A token is a
length-prefixed text of the claims, `iat` and `exp`, followed by a signature.
The signature is an injective function of the secret and that text. `sign`
and `verify` follow the jsonwebtoken library:

- `sign` refuses a payload that already has `exp` when `expiresIn` is given;
- `verify` rejects a token at or after its `exp` second;
- lifetimes such as "15m", "7d" or "2 Hours" are read as the `ms` package
  reads a whole number followed by a unit name (see Left out for the forms
  not modelled).

Some consequences of the code that a reader may not expect:

- **A refresh record expiring at this very moment is still accepted.** The
  check refuses only `expiresAt < now` (`RefreshStore.CheckRefresh`).
- **A refresh as written never issues tokens.** See Findings.
- **The rotated token may equal the presented one.** The tokens carry
  `iat` in whole seconds. So a rotation in the same second as the original
  login, for the same claims, issues the same refresh token again.
  `RefreshStore.RotationIsOneShot` states one-shot rotation for a new token
  that differs from the old one.
- **Two logins in one second clash.** Two logins of the same user in the same
  second produce the same refresh token. Creating its record again is a
  unique-key failure, which answers 500 (`ApiAuthRoutes.AuthDb.Login`).
- **A refresh lifetime set in hours is read as days for the record.** The
  record's expiry is computed as if a setting such as "12h" were 12 days,
  while the JWT itself lives 12 hours (`AuthLib.HourSettingReadAsDays`).

## Model

| member | source | states |
|---|---|---|
| Common.RoleFromName | backend/src/lib/validation.ts:12 | a role name is read back only as the role that has that name |
| Common.RoleNameRoundTrip | backend/src/lib/validation.ts:12 | every role's name reads back as that role; with `RoleFromName`, `z.nativeEnum(UserRole)` accepts exactly the three names |
| Crypto.HexEncode | apps/api/src/lib/auth.ts:95 | the hex text of n bytes has 2n characters, all lower-case hex digits |
| Crypto.HexRoundTrip | apps/api/src/lib/auth.ts:95 | decoding the hex text gives back the bytes, so the token text determines the random bytes |
| Crypto.Argon2Verify | apps/api/src/lib/auth.ts:37-43 | `argon2.verify` throws for a digest that is not an Argon2 digest (bcrypt or unrecognised text), and answers true exactly for the password that was hashed; the only Argon2 digests the system writes are Argon2id |
| Decimal.NatToString | frontend/src/composables/useToast.ts:9 | the decimal text of a counter is a non-empty run of digits, starting with 0 only for 0 |
| Decimal.NatToStringInjective | frontend/src/composables/useToast.ts:9 | different counters give different texts |
| Decimal.ParseIntOfNatToString | apps/api/src/lib/auth.ts:87 | `parseInt` of the digits of n, followed by anything that does not continue the number, is n |
| Decimal.StringToNumber | backend/src/lib/validation.ts:160-161 | `Number(text)`: a text that reads as a positive number is not blank; the exact reading is stated by the four `StringToNumber…` lemmas below |
| Decimal.StringToNumberOfNatToString | backend/src/lib/validation.ts:160-161 | `Number` of the decimal text of n is n |
| Decimal.StringToNumberBlank | backend/src/lib/validation.ts:160-161 | a blank or empty text reads as 0 |
| Decimal.StringToNumberPadded | backend/src/lib/validation.ts:160-161 | an optional sign and a run of digits, with white space around, read as the signed value of the digits |
| Decimal.StringToNumberSome | backend/src/lib/validation.ts:160-161 | a text that reads as a number is blank or a padded signed integer |
| Decimal.StringToNumberNaN | backend/src/lib/validation.ts:160-161 | a text reads as NaN exactly when it is neither blank nor a padded signed integer |
| Decimal.StringToNumberOfDigits | backend/src/lib/validation.ts:160-161 | a non-empty run of digits reads as its decimal value |
| Decimal.ParseInt | apps/api/src/lib/auth.ts:87 | `parseInt` of a blank text is NaN; a number read comes from a text whose trimmed start is non-empty, and a negative one from a text starting with "-" |
| Decimal.ParseUnsignedOfNatToString | apps/api/src/lib/auth.ts:87 | the digits of n followed by anything that does not continue the number read as n |
| Jwt.Verify | apps/api/src/lib/auth.ts:72-81 | a payload that verifies carries `iat` and an `exp` later than the current second |
| Jwt.Sign | apps/api/src/lib/auth.ts:48-57 | `jwt.sign` succeeds exactly with a non-empty secret, a payload without `exp` and a lifetime `ms` can read; a payload with `exp` is refused with its own error |
| Jwt.SignIsToken | apps/api/src/lib/auth.ts:48-57 | a successful signature is the token of the claims, issued at the signing second and expiring the lifetime later |
| Jwt.SignFresh | apps/api/src/lib/auth.ts:48-57 | a fresh payload signed now is the token issued at now / 1000 and expiring `ms / 1000` seconds later |
| Jwt.TokenDecodes | apps/api/src/lib/auth.ts:48-81 | a token splits into its body and signature, and the body decodes to the claims, `iat` and `exp` it was made from |
| Jwt.VerifyToken | apps/api/src/lib/auth.ts:72-81 | a token verifies under the signing secret before its `exp` second and gives back the claims; under another secret it is an invalid signature; at or after `exp` it is expired |
| Jwt.VerifyOwnToken | apps/api/src/lib/auth.ts:72-81 | under its own secret a token verifies exactly before its expiry, as its claims |
| Jwt.VerifyForeignToken | apps/api/src/lib/auth.ts:72-81 | a token signed under another secret never verifies |
| Jwt.SignatureDeterminesSecret | apps/api/src/lib/auth.ts:48-81 | equal signatures of one body come from equal secrets |
| Jwt.DefaultLifetimes | apps/api/src/lib/auth.ts:8-9 | "15m" is 15 minutes and "7d" is 7 days |
| Jwt.LetterUnits | apps/api/src/lib/auth.ts:8-9 | the units m, h and d are a minute, an hour and a day |
| Jwt.TimespanOfDigits | apps/api/src/lib/auth.ts:8-9 | digits followed by a known unit read as the number times the unit |
| Jwt.VerifySigned | apps/api/src/lib/auth.ts:48-57 | a signed token verifies under its own secret exactly until its `exp` second, and gives back the signed claims |
| Jwt.VerifyRejectsOtherSecret | apps/api/src/lib/auth.ts:48-81 | a token signed under one secret never verifies under another |
| Jwt.ResignVerifiedFails | apps/api/src/routes/auth.routes.ts:156-171 | a payload returned by verify cannot be signed again with an `expiresIn` |
| AuthLib.ConfigFrom | apps/api/src/lib/auth.ts:6-9 | an unset or empty variable gives its fallback, so no secret and no lifetime is ever empty |
| AuthLib.DefaultConfig | apps/api/src/lib/auth.ts:6-9 | with nothing set, the two secrets differ, access tokens live 15 minutes and refresh tokens 7 days |
| AuthLib.AuthTokensFromClaims | apps/api/src/lib/auth.ts:62-81 | both tokens are issued; each verifies only under its own secret, exactly until its own expiry, and gives back the claims; the access token expires `expiresIn` after the signing second |
| AuthLib.GenerateAccessToken | apps/api/src/lib/auth.ts:48-50 | the access token is issued exactly with a non-empty secret, a payload without `exp` and a readable lifetime |
| AuthLib.GenerateRefreshToken | apps/api/src/lib/auth.ts:55-57 | the refresh token is issued under the same conditions, with the refresh secret and lifetime |
| AuthLib.AccessSigned | apps/api/src/lib/auth.ts:48-50 | the access token of fresh claims is the token under the access secret, expiring `expiresIn` after the signing second |
| AuthLib.RefreshSigned | apps/api/src/lib/auth.ts:55-57 | the refresh token of fresh claims is the token under the refresh secret, expiring `refreshExpiresIn` after the signing second |
| AuthLib.GenerateAuthTokens | apps/api/src/lib/auth.ts:62-67 | the pair is issued exactly when both tokens are, and holds those two tokens; a failing access token fails the pair with its error |
| AuthLib.PairOfSigned | apps/api/src/lib/auth.ts:62-67 | two issued tokens make the pair |
| AuthLib.GeneratedPair | apps/api/src/lib/auth.ts:62-67 | with both secrets and lifetimes valid, the pair is the access and refresh tokens of the claims |
| AuthLib.PairVerifies | apps/api/src/lib/auth.ts:72-81 | with distinct secrets, each token of a pair verifies under its own secret exactly until its expiry, as the claims, and never under the other |
| AuthLib.VerifyAccessToken | apps/api/src/lib/auth.ts:72-74 | a payload that verifies carries an `exp` later than the current second |
| AuthLib.VerifyRefreshToken | apps/api/src/lib/auth.ts:79-81 | a payload that verifies carries an `exp` later than the current second |
| AuthLib.ReissueVerifiedFails | apps/api/src/lib/auth.ts:62-67 | `generateAuthTokens` throws for any payload that `verifyRefreshToken` returned |
| AuthLib.RemoveFirst | apps/api/src/lib/auth.ts:87 | `replace('d', '')` removes one character when a `d` occurs, and nothing otherwise |
| AuthLib.RefreshLifetimeDays | apps/api/src/lib/auth.ts:87 | the day count is never 0; it is what `parseInt` reads once the first `d` is removed, or 7 when that is NaN or 0 |
| AuthLib.RefreshExpirationInDays | apps/api/src/lib/auth.ts:86-89 | a setting "<n>d" makes the record expire n days from now, except that "0d" gives 7 days |
| AuthLib.HourSettingReadAsDays | apps/api/src/lib/auth.ts:86-89 | a setting "<n>h" makes the record expire n days from now while the refresh JWT lives n hours |
| AuthLib.RefreshTokenExpiration | apps/api/src/lib/auth.ts:86-89 | the record never expires at the current instant; a setting whose day count reads as NaN, 0 or 7 gives 7 days |
| AuthLib.RemoveFirstNoOccurrence | apps/api/src/lib/auth.ts:87 | `replace` leaves a text without `d` unchanged |
| AuthLib.GenerateSecureToken | apps/api/src/lib/auth.ts:94-96 | the token is 64 hex digits that decode back to the 32 random bytes |
| AuthLib.GenerateVerificationToken | apps/api/src/lib/auth.ts:101-106 | the token decodes to the random bytes and expires 24 hours from now |
| AuthLib.GenerateResetToken | apps/api/src/lib/auth.ts:111-116 | the token decodes to the random bytes and expires one hour from now |
| AuthLib.OneTimeTokenWindows | apps/api/src/lib/auth.ts:101-130 | a verification token is unexpired exactly up to 24 hours after issue, a reset token exactly up to one hour; the reset token expires first |
| AuthLib.ExpiryIsFinal | apps/api/src/lib/auth.ts:128-130 | `isTokenExpired`: once a token is expired it stays expired |
| AuthLib.HashTokenMatches | apps/api/src/lib/auth.ts:121-123 | two tokens have the same stored digest exactly when they are the same token |
| ApiAuthLib.HashPassword | apps/api/src/lib/auth.ts:25-32 | the digest is Argon2id with memory cost 65536, time cost 3 and parallelism 4 |
| ApiAuthLib.VerifyPassword | apps/api/src/lib/auth.ts:37-43 | true exactly for an Argon2id digest of the given password; never throws |
| ApiAuthLib.VerifyHashedPassword | apps/api/src/lib/auth.ts:37-43 | a digest accepts exactly the password it was made from; a digest argon2 cannot read accepts nothing, since the thrown error becomes false |
| BackendAuthLib.HashPassword | backend/src/lib/auth.ts:24-26 | the digest is bcrypt with cost 10 |
| BackendAuthLib.VerifyPassword | backend/src/lib/auth.ts:31-33 | true exactly for a bcrypt digest of the given password |
| BackendAuthLib.VerifyHashedPassword | backend/src/lib/auth.ts:31-33 | a digest accepts exactly the password it was made from; an Argon2id digest accepts none |
| Middleware.ExtractBearer | apps/api/src/middleware/auth.middleware.ts:16-22 | a credential is found exactly when the header starts with "Bearer ", and header = "Bearer " + credential |
| Middleware.ExtractBearerRoundTrip | apps/api/src/middleware/auth.middleware.ts:18-22 | the header "Bearer " + t yields t |
| Middleware.AuthMiddleware | apps/api/src/middleware/auth.middleware.ts:15-31 | no bearer header gives 401 "No token provided"; a token that fails verification gives 401 "Invalid token"; otherwise the payload is stored, and a throw from the rest of the chain is also answered 401 "Invalid token" |
| Middleware.OptionalAuth | apps/api/src/middleware/auth.middleware.ts:55-70 | it never rejects, and sets the user exactly when a bearer token verifies |
| Middleware.RequireRole | apps/api/src/middleware/auth.middleware.ts:36-50 | it passes exactly when there is a user whose role is listed; no user gives 401; an unlisted role gives 403 |
| Middleware.RoleGates | apps/api/src/middleware/auth.middleware.ts:75-84 | `requireAdmin` admits exactly ADMIN; `requireInstructor` admits exactly ADMIN and INSTRUCTOR; a LEARNER gets 403 from both |
| Middleware.RequireAdmin | apps/api/src/middleware/auth.middleware.ts:75-77 | passes exactly for a user whose role is ADMIN |
| Middleware.RequireInstructor | apps/api/src/middleware/auth.middleware.ts:82-84 | passes exactly for a user whose role is ADMIN or INSTRUCTOR |
| Middleware.BearerOf | apps/api/src/middleware/auth.middleware.ts:55-70 | the header "Bearer " + t yields the payload exactly when t verifies as an access token |
| Middleware.IssuedTokensAtTheGate | apps/api/src/middleware/auth.middleware.ts:15-31 | an issued access token is admitted as its claims exactly until its expiry; the refresh token is never admitted |
| RefreshStore.WithoutUser | apps/api/src/routes/auth.routes.ts:197-199 | `deleteMany` keeps exactly the records of other users, unchanged |
| RefreshStore.WithoutUserPurges | apps/api/src/routes/auth.routes.ts:197-199 | afterwards the user owns no record, and every other user keeps all of theirs |
| RefreshStore.CheckRefresh | apps/api/src/routes/auth.routes.ts:150-168 | it passes exactly for a token that verifies and has a record expiring no earlier than now; a bad token gives "Invalid refresh token", a missing or lapsed record gives "Refresh token expired or invalid" |
| RefreshStore.RefreshAsWritten | apps/api/src/routes/auth.routes.ts:150-187 | the handler as written never succeeds: the check's 401, or 500 for every token that passes the check |
| RefreshStore.Rotate | apps/api/src/routes/auth.routes.ts:170-186 | corrected rotation: a failed check leaves the store unchanged; success deletes exactly the presented key and adds a record for the new token, owned by the token's user, expiring as configured |
| RefreshStore.RotationIsOneShot | apps/api/src/routes/auth.routes.ts:173-176 | after a rotation that issued a different token, the old token is refused |
| RefreshStore.RotationKeepsClaims | apps/api/src/routes/auth.routes.ts:170-186 | rotated tokens verify as the presented token's claims until their own expiry |
| ApiAuthRoutes.UserWithEmail | apps/api/src/routes/auth.routes.ts:35-37 | the user found has the e-mail; none found means no user has it |
| ApiAuthRoutes.UniqueEmail | apps/api/src/routes/auth.routes.ts:35-41 | while e-mails are unique, the lookup by a user's e-mail finds that user |
| ApiAuthRoutes.FindFirst | apps/api/src/routes/auth.routes.ts:246-250 | the row found satisfies the condition; none found means no row does |
| ApiAuthRoutes.AuthDb.Register | apps/api/src/routes/auth.routes.ts:31-80 | a taken e-mail gives 409 and changes nothing; otherwise one unverified user is added holding the digest of a 24-hour verification token, one verification mail is queued, and no tokens are issued |
| ApiAuthRoutes.AuthDb.Login | apps/api/src/routes/auth.routes.ts:86-144 | an unknown e-mail and a wrong password both give the same 401; otherwise `lastLoginAt` is stamped and one refresh record is added for the issued token |
| ApiAuthRoutes.AuthDb.Refresh | apps/api/src/routes/auth.routes.ts:150-187 | the answer and the new allow-list are those of `RefreshStore.Rotate`; users and outbox are unchanged |
| ApiAuthRoutes.AuthDb.Logout | apps/api/src/routes/auth.routes.ts:193-202 | every refresh record of the caller is deleted, and no other |
| ApiAuthRoutes.AuthDb.Me | apps/api/src/routes/auth.routes.ts:208-230 | the caller's profile when the token names a user, otherwise 404 |
| ApiAuthRoutes.AuthDb.VerifyEmail | apps/api/src/routes/auth.routes.ts:236-279 | no token gives 400; a digest nobody holds gives 400 "Invalid"; a lapsed token gives 400 "expired"; otherwise the holder is verified, the token and expiry are cleared and a welcome mail is queued |
| ApiAuthRoutes.AuthDb.ResendVerification | apps/api/src/routes/auth.routes.ts:285-327 | the same answer for an unknown e-mail as for a known one; 400 for a verified user; otherwise the verification token is replaced and mailed |
| ApiAuthRoutes.AuthDb.ForgotPassword | apps/api/src/routes/auth.routes.ts:333-371 | the same answer whether or not the e-mail is known; a known user gets a one-hour reset token, stored as its digest and mailed |
| ApiAuthRoutes.AuthDb.ResetPassword | apps/api/src/routes/auth.routes.ts:377-427 | 400 for a missing token or password, for a password under 8 characters, for an unknown digest or for a lapsed reset; otherwise the password is replaced, the reset fields are cleared and all the user's refresh records are deleted |
| ApiAuthRoutes.RefreshReplayRefused | apps/api/src/routes/auth.routes.ts:173-184 | presenting a refresh token again, after it was rotated into a different one, is refused |
| ApiAuthRoutes.LogoutEndsRefresh | apps/api/src/routes/auth.routes.ts:193-202 | after logout, none of the caller's refresh tokens is accepted |
| ApiAuthRoutes.VerifyEmailOnce | apps/api/src/routes/auth.routes.ts:262-269 | a verification token that worked is refused as invalid the second time |
| ApiAuthRoutes.ResetEndsSessions | apps/api/src/routes/auth.routes.ts:410-422 | after a reset, the reset token is invalid and the user's earlier refresh tokens are refused |
| BackendAuthRoutes.UserWithEmail | backend/src/routes/auth.routes.ts:26-28 | the user found has the e-mail; none found means no user has it |
| BackendAuthRoutes.UniqueEmail | backend/src/routes/auth.routes.ts:26-32 | while e-mails are unique, the lookup by a user's e-mail finds that user |
| BackendAuthRoutes.FindByEmail | backend/src/routes/auth.routes.ts:85-87 | the row found has the e-mail; none found means no row has it |
| BackendAuthRoutes.AuthDb.Register | backend/src/routes/auth.routes.ts:22-75 | a taken e-mail gives 409; otherwise the user is created and a token pair is issued with its refresh record; the user row stays even when a later step fails |
| BackendAuthRoutes.AuthDb.Login | backend/src/routes/auth.routes.ts:81-126 | the same 401 for an unknown e-mail and a wrong password; otherwise one refresh record is added and no user field changes |
| BackendAuthRoutes.AuthDb.Refresh | backend/src/routes/auth.routes.ts:132-169 | the answer and the new allow-list are those of `RefreshStore.Rotate` |
| BackendAuthRoutes.AuthDb.Logout | backend/src/routes/auth.routes.ts:175-184 | every refresh record of the caller is deleted, and no other |
| BackendAuthRoutes.AuthDb.Me | backend/src/routes/auth.routes.ts:190-211 | the caller's profile, or 404 when the token names no user |
| BackendAuthRoutes.RegisterThenRefreshCheck | backend/src/routes/auth.routes.ts:56-69 | the refresh token handed out at registration passes the refresh check exactly while both the JWT and its record are unexpired |
| CourseRoutes.BuildWhere | apps/api/src/routes/courses.routes.ts:17-29 | the where object selects exactly the courses of the reference filter `Selected`: an empty category, instructor or search sets no filter, while a false `isFree` or `isPublished` still filters |
| Common.Lower | apps/api/src/routes/courses.routes.ts:26-27 | case folding keeps the length and lower-cases exactly the letters A to Z |
| CourseRoutes.LowerIdempotent | apps/api/src/routes/courses.routes.ts:26-27 | folding twice is folding once |
| CourseRoutes.SearchIgnoresCase | apps/api/src/routes/courses.routes.ts:24-29 | a match stays a match when the term or the text is lower-cased |
| CourseRoutes.Select | apps/api/src/routes/courses.routes.ts:31-34 | the rows selected are exactly the rows that match the where object, and no more than the table holds |
| CourseRoutes.Listed | apps/api/src/routes/courses.routes.ts:31-34 | the listed rows are exactly the table's rows that the query selects |
| CourseRoutes.SelectListed | apps/api/src/routes/courses.routes.ts:31-34 | filtering by a where object that means the query gives the query's rows, in table order |
| CourseRoutes.TotalPages | apps/api/src/routes/courses.routes.ts:64 | `Math.ceil(total / limit)`: the least page count whose pages hold every row |
| CourseRoutes.PageOf | apps/api/src/routes/courses.routes.ts:53-54 | a page holds at most `limit` rows: the slice after the `Skip` = `(page - 1) * limit` skipped rows, or nothing past the end |
| CourseRoutes.ListCourses | apps/api/src/routes/courses.routes.ts:14-67 | a truthy sortBy that names no sortable course column is answered 500, exactly; otherwise the data is the requested page of the listed rows and the total counts all listed rows, with the matching page count |
| CourseRoutes.PageNonEmpty | apps/api/src/routes/courses.routes.ts:53-64 | a page is non-empty exactly when its number is at most `totalPages`, and every page before the last one is full |
| CourseRoutes.PagesPartition | apps/api/src/routes/courses.routes.ts:53-64 | reading pages 1 to `totalPages` in order yields every row exactly once, in order |
| CourseRoutes.FirstPagesPrefix | apps/api/src/routes/courses.routes.ts:53-54 | the first k pages together are the first `k * limit` rows |
| CourseRoutes.DefaultListingNewestFirst | apps/api/src/routes/courses.routes.ts:50-54 | without a truthy sortBy the order (`OrderOf`) is newest first, so a newest-first table gives a newest-first page |
| CourseRoutes.ListedKeepsOrder | apps/api/src/routes/courses.routes.ts:31-52 | filtering keeps newest-first order |
| CourseRoutes.ManageGuard | apps/api/src/routes/courses.routes.ts:141-157 | a change is allowed exactly for a non-learner who owns the course or is ADMIN; a learner gets 403, a missing course 404, any other caller the route's own 403 |
| CourseRoutes.Patched | apps/api/src/routes/courses.routes.ts:159-161 | a patch keeps the instructor and creation time, keeps the publish flag when none is sent, and the empty patch changes nothing |
| CourseRoutes.PatchProperties | apps/api/src/routes/courses.routes.ts:159-161 | a patch never changes the instructor or the creation time; an empty patch changes nothing; patching twice equals patching once; a sent `isPublished` is applied |
| CourseRoutes.GetCourse | apps/api/src/routes/courses.routes.ts:73-108 | the stored course, or 404 |
| CourseRoutes.NewCourse | apps/api/src/routes/courses.routes.ts:114-135 | a new course is unpublished, owned by the caller, stamped now, and has the title, price and tags sent |
| CourseRoutes.CreateCourse | apps/api/src/routes/courses.routes.ts:114-135 | a learner gets 403; otherwise exactly one course is added, unpublished, with the caller as instructor |
| CourseRoutes.UpdateCourse | apps/api/src/routes/courses.routes.ts:141-174 | when the guard passes, the course becomes the patched course and nothing else changes; otherwise nothing changes |
| CourseRoutes.DeleteCourse | apps/api/src/routes/courses.routes.ts:180-202 | when the guard passes, exactly that course is removed |
| CourseRoutes.PublishCourse | apps/api/src/routes/courses.routes.ts:208-229 | when the guard passes, only the publish flag changes, and a body without the flag leaves it as it was |
| CourseRoutes.EnrollmentsOfCourse | apps/api/src/routes/courses.routes.ts:249-250 | exactly the enrollments of that course, unchanged |
| CourseRoutes.Students | apps/api/src/routes/courses.routes.ts:235-265 | the guard's error, or exactly the course's enrollments, dropped ones included |
| EnrollmentRoutes.Welcome | apps/api/src/routes/enrollments.routes.ts:99-106 | the notification is addressed to the learner, names the course title and carries the fixed message |
| EnrollmentRoutes.MyEnrollments | apps/api/src/routes/enrollments.routes.ts:14-41 | exactly the caller's enrollments, in every status |
| EnrollmentRoutes.Enroll | apps/api/src/routes/enrollments.routes.ts:47-109 | 404 for an unknown course, 400 for an unpublished one, 409 for an existing row of the pair in any status; otherwise one ACTIVE enrollment and one welcome notification |
| EnrollmentRoutes.Progress | apps/api/src/routes/enrollments.routes.ts:115-150 | the caller's enrollment in the course, or 404 |
| EnrollmentRoutes.Unenroll | apps/api/src/routes/enrollments.routes.ts:156-186 | the row is kept and marked DROPPED, or 404 |
| EnrollmentRoutes.EnrollDropEnroll | apps/api/src/routes/enrollments.routes.ts:65-76 | after enrolling and unenrolling, enrolling again is refused with 409; the row stays DROPPED and only one notification was sent |
| Zod.ParseValueAccepts | backend/src/lib/validation.ts:188-197 | a value parses exactly when its type accepts it, and parses to its normal form |
| Zod.ParseValue | backend/src/lib/validation.ts:188-197 | a failed parse reports at least one issue; what parses, and to what, is stated by `ParseValueAccepts` |
| Zod.ParseObject | backend/src/lib/validation.ts:188-197 | a successful parse is of an object and yields only keys the shape names; a failure reports at least one issue |
| Zod.ParseObjectAccepts | backend/src/lib/validation.ts:188-197 | an object parses exactly when every field of the shape accepts it |
| Zod.ParseStringAccepts | backend/src/lib/validation.ts:9-11 | a string type parses exactly what it accepts, unchanged |
| Zod.ParseNumberAccepts | backend/src/lib/validation.ts:160-161 | a number type parses exactly what it accepts, unchanged |
| Zod.ParseNumericAccepts | backend/src/lib/validation.ts:160-161 | a numeric text parses exactly when accepted, to the number it reads as |
| Zod.EnumKindsDiffer | backend/src/lib/validation.ts:12 | `z.enum` and `z.nativeEnum` accept the same values; a number is an invalid type for the first and an invalid enum value for the second; other values parse alike |
| Zod.FlagFieldOutput | backend/src/lib/validation.ts:169-170 | an optional flag text becomes true exactly for "true", and stays absent when not sent |
| Zod.FourFields | backend/src/lib/validation.ts:188-197 | a four-field object parses exactly when each of the four fields accepts it |
| Zod.OneCheckField | backend/src/lib/validation.ts:9-11 | a required string field with one check accepts exactly a sent string that passes the check |
| Zod.ParseItemsAccepts | backend/src/lib/validation.ts:52 | an array parses exactly when every element does |
| Zod.ParseFieldAccepts | backend/src/lib/validation.ts:188-197 | one key parses exactly when the field accepts the input |
| Zod.ParseFieldsAccepts | backend/src/lib/validation.ts:188-197 | an object parses exactly when every field of the shape accepts it |
| Zod.ParseFieldsOutput | backend/src/lib/validation.ts:188-197 | the result holds only keys the shape names; it holds every sent key and every defaulted key, and lacks absent keys without a default |
| Zod.ParseFieldsKeys | backend/src/lib/validation.ts:188-197 | unknown keys are dropped from the result |
| Zod.FieldOutput | backend/src/lib/validation.ts:188-197 | at a field with a unique name, the result holds the normal form of the sent value, or of the default, or lacks the key |
| Zod.ParseFieldsAppend | backend/src/lib/validation.ts:166-173 | parsing against two shapes in sequence succeeds exactly when both succeed, and the first shape's value wins for a key both name |
| Zod.Partial | backend/src/lib/validation.ts:57 | `.partial()` keeps the names and types, and makes every field optional |
| Zod.Omit | backend/src/lib/validation.ts:74 | `.omit` removes exactly the named field and keeps the others in order |
| Zod.ExtendWithMembers | backend/src/lib/validation.ts:57-59 | `.extend` with one field: the result holds the new field, keeps every field of another name, and holds nothing else from before |
| Zod.ExtendWithFresh | backend/src/lib/validation.ts:57-59 | extending with a new name appends |
| Zod.ExtendFresh | backend/src/lib/validation.ts:166-173 | extending with new, distinct names appends them in order |
| Zod.AppendAbsentOptional | backend/src/lib/validation.ts:57-59 | an appended optional field whose key is absent changes neither acceptance nor result |
| Zod.PartialAcceptsEmpty | backend/src/lib/validation.ts:57 | a partial schema accepts the empty object and yields it empty |
| Zod.PartialWeakens | backend/src/lib/validation.ts:57 | whatever a schema accepts, its partial form accepts |
| Zod.OmittedKeyStripped | backend/src/lib/validation.ts:74 | an omitted key never reaches the result, even when sent |
| Zod.OmitDistinct | backend/src/lib/validation.ts:74 | omitting keeps the names distinct |
| BackendValidation.RegisterAccepts | backend/src/lib/validation.ts:8-13 | registration is accepted exactly with a valid e-mail, a password of at least 6 characters, a name of at least 2, and a role, when sent, that names a role |
| BackendValidation.RegisterDefaultsRole | backend/src/lib/validation.ts:8-13 | an accepted registration yields the fields as sent, and LEARNER when no role was sent |
| BackendValidation.RegisterOutput | backend/src/lib/validation.ts:8-13 | the parsed registration holds all four keys, the e-mail, password and name as sent, and the role sent or LEARNER |
| BackendValidation.RoleField | backend/src/lib/validation.ts:12 | the role field accepts exactly a missing role or a string that names a role |
| BackendValidation.RoleNameListed | backend/src/lib/validation.ts:12 | a text is one of the role names exactly when it reads as a role |
| BackendValidation.RoleNumberIssue | backend/src/lib/validation.ts:12 | a numeric role gets the invalid-enum-value issue and any other non-string role the invalid-type issue, at the path "role" |
| BackendValidation.LoginAndRefreshAccept | backend/src/lib/validation.ts:15-22 | login is accepted exactly with a valid e-mail and a non-empty password; refresh exactly with a non-empty refresh token |
| BackendValidation.QuizBounds | backend/src/lib/validation.ts:102-105 | an accepted passing score is a whole number from 0 to 100, and an accepted attempt limit a positive whole number |
| BackendValidation.QuizDefaults | backend/src/lib/validation.ts:102-105 | a quiz without a passing score gets 70, and one without an attempt limit gets 3 |
| BackendValidation.DefaultPageTexts | backend/src/lib/validation.ts:160-161 | the default texts "1" and "10" read as 1 and 10 |
| BackendValidation.NumericAccepts | backend/src/lib/validation.ts:160-161 | a numeric-text field is accepted exactly when its text reads as a number that passes the checks |
| BackendValidation.NumericDefault | backend/src/lib/validation.ts:160-161 | the default text of a numeric field passes its checks |
| BackendValidation.PaginationAccepts | backend/src/lib/validation.ts:159-164 | a query is accepted exactly when page reads as a whole number ≥ 1, limit as one from 1 to 100, sortBy is text and sortOrder is "asc" or "desc", each when sent |
| BackendValidation.PageField | backend/src/lib/validation.ts:160 | the page field accepts exactly a missing page or a text reading as a whole number ≥ 1 |
| BackendValidation.LimitField | backend/src/lib/validation.ts:161 | the limit field accepts exactly a missing limit or a text reading as a whole number from 1 to 100 |
| BackendValidation.SortByField | backend/src/lib/validation.ts:162 | sortBy is accepted exactly when missing or a string |
| BackendValidation.SortOrderField | backend/src/lib/validation.ts:163 | sortOrder is accepted exactly when missing, "asc" or "desc" |
| BackendValidation.PageOutput | backend/src/lib/validation.ts:160 | the parsed page is the number the sent text reads as, or 1 |
| BackendValidation.LimitOutput | backend/src/lib/validation.ts:161 | the parsed limit is the number the sent text reads as, or 10 |
| BackendValidation.NumericOutput | backend/src/lib/validation.ts:160-161 | a numeric field yields the number its text reads as, or its default number |
| BackendValidation.PaginationDefaults | backend/src/lib/validation.ts:159-164 | an accepted query yields the page and limit sent, or 1 and 10, and the sort order sent, or "desc" |
| BackendValidation.CourseQueryShape | backend/src/lib/validation.ts:166-173 | the course query is the pagination shape followed by the six filters |
| BackendValidation.QueryFlags | backend/src/lib/validation.ts:169-170 | `isFree` and `isPublished` become true exactly for the text "true", and are absent when not sent |
| BackendValidation.IsFreeFlag | backend/src/lib/validation.ts:169 | `isFree` becomes true exactly for the text "true", and is absent when not sent |
| BackendValidation.IsPublishedFlag | backend/src/lib/validation.ts:170 | `isPublished` becomes true exactly for the text "true", and is absent when not sent |
| BackendValidation.QueryNumbers | backend/src/lib/validation.ts:166-173 | an accepted course query has a valid page and limit, parsed as they read, and the sort order sent or "desc", which is "asc" or "desc" |
| BackendValidation.DecodeNumbers | backend/src/lib/validation.ts:166-173 | valid page, limit and order decode to a listing query with those values |
| BackendValidation.QueryPaging | backend/src/lib/validation.ts:166 | a course query parses as a pagination query does, with the same page, limit and order |
| BackendValidation.CourseQueryDecodes | backend/src/lib/validation.ts:166-173 | every accepted course query yields a listing query with the page and limit sent (or 1 and 10) and ascending order exactly for "asc" |
| BackendValidation.PartialMembers | backend/src/lib/validation.ts:57 | the fields of a partial shape are exactly the original fields made optional |
| BackendValidation.UpdateShapes | backend/src/lib/validation.ts:74-122 | each update schema is its create schema without the parent id, every field optional |
| BackendValidation.UpdateCourseShape | backend/src/lib/validation.ts:57-59 | the course update schema is the create schema made optional, followed by an optional `isPublished` |
| BackendValidation.UpdatesAcceptEmpty | backend/src/lib/validation.ts:57-122 | the empty body is a valid update of every kind and yields an empty update |
| BackendValidation.UpdatesDropParent | backend/src/lib/validation.ts:74-122 | a parent id sent with an update never reaches the parsed body |
| BackendValidation.PartialStripsOmitted | backend/src/lib/validation.ts:74 | `.omit(k).partial()` never passes k on |
| BackendValidation.OmitThenPartial | backend/src/lib/validation.ts:74 | the fields of `.omit(k).partial()` are exactly the fields not named k, made optional |
| SharedSchemas.UsernameRule | packages/shared/src/schemas/index.ts:6-10 | a username is accepted exactly when it has 3 to 20 characters, all letters, digits or underscores |
| SharedSchemas.PasswordRule | packages/shared/src/schemas/index.ts:11-16 | a password is accepted exactly when it has at least 8 characters, among them an upper-case letter, a lower-case letter and a digit |
| SharedSchemas.UsernameMessages | packages/shared/src/schemas/index.ts:6-10 | a well-formed username that is too short gets exactly the minimum-length message; the empty one also gets the character-class message |
| SharedSchemas.RegisterAccepts | packages/shared/src/schemas/index.ts:4-18 | registration is accepted exactly with a valid e-mail, username and password, and a full name that is text when sent |
| SharedSchemas.OptionsRule | packages/shared/src/schemas/index.ts:73 | options are an array of 2 to 6 strings |
| SharedSchemas.RatingRule | packages/shared/src/schemas/index.ts:81 | a rating is exactly one of 1, 2, 3, 4, 5 |
| SharedSchemas.CourseRules | packages/shared/src/schemas/index.ts:35-36 | a price is any number not below zero; a level is one of the three level names |
| SharedSchemas.PaginationRules | packages/shared/src/schemas/index.ts:93-96 | the empty query gives page 1 of size 10; any accepted query gives a whole page ≥ 1 and a whole page size from 1 to 100 |
| SharedSchemas.LessonPreviewDefault | packages/shared/src/schemas/index.ts:59 | a lesson sent without `isPreview` is not a preview |
| SharedSchemas.UpdatesWeaker | packages/shared/src/schemas/index.ts:40-62 | each update schema accepts the empty body, and everything its create schema accepts |
| Toasts.GeneratedId | frontend/src/composables/useToast.ts:9 | a generated id is "toast-" followed by at least one more character; `GeneratedIdsDistinct` states that the rest determines the counter |
| Toasts.IdFor | frontend/src/composables/useToast.ts:9 | a non-empty id given in the options is kept; otherwise the id is generated from the next counter value; never empty |
| Toasts.NextCounter | frontend/src/composables/useToast.ts:9 | the counter moves by one exactly when an id is generated |
| Toasts.DismissDelay | frontend/src/composables/useToast.ts:10-25 | no duration means 3000 ms; a duration ≤ 0 means no dismissal; otherwise the duration; a delay is always positive |
| Toasts.Forced | frontend/src/composables/useToast.ts:42-56 | the convenience options are those given, with only the message and the variant replaced |
| Toasts.FirstIndex | frontend/src/composables/useToast.ts:31 | the first position with the id, or -1 exactly when no toast has it |
| Toasts.FindIndex | frontend/src/composables/useToast.ts:31 | the loop returns `FirstIndex`: the first match, or -1 exactly when there is none |
| Toasts.RemoveFirst | frontend/src/composables/useToast.ts:30-35 | removing shortens the list by one exactly when a toast has the id |
| Toasts.RemoveFirstSpec | frontend/src/composables/useToast.ts:30-35 | `remove` takes out exactly the first toast with the id and keeps the rest in order, or changes nothing |
| Toasts.RemoveFirstTakesOne | frontend/src/composables/useToast.ts:30-35 | removal takes one toast out of the multiset and keeps every other |
| Toasts.RemoveAfterShow | frontend/src/composables/useToast.ts:8-35 | removing a just-shown toast with a new id restores the list |
| Toasts.GeneratedIdsDistinct | frontend/src/composables/useToast.ts:9 | different counter values give different ids |
| Toasts.ToastQueue.constructor | frontend/src/composables/useToast.ts:4-5 | no toasts, counter 0 |
| Toasts.ToastQueue.Show | frontend/src/composables/useToast.ts:8-28 | the toast is appended under `IdFor`, the counter moves as `NextCounter` says, and a dismissal is requested exactly when `DismissDelay` gives one |
| Toasts.ToastQueue.Remove | frontend/src/composables/useToast.ts:30-35 | the list becomes `RemoveFirst` of the old list; counter and timers are unchanged |
| Toasts.ToastQueue.Clear | frontend/src/composables/useToast.ts:37-39 | the list is emptied and the counter kept |
| Toasts.ToastQueue.Expire | frontend/src/composables/useToast.ts:21-25 | a due dismissal removes its toast and is itself used up |
| Toasts.ToastQueue.ShowSuccess | frontend/src/composables/useToast.ts:42-44 | shows the message with the success variant |
| Toasts.ToastQueue.ShowError | frontend/src/composables/useToast.ts:46-48 | shows the message with the danger variant |
| Toasts.ToastQueue.ShowWarning | frontend/src/composables/useToast.ts:50-52 | shows the message with the warning variant |
| Toasts.ToastQueue.ShowInfo | frontend/src/composables/useToast.ts:54-56 | shows the message with the info variant |
| Toasts.ShowTwiceThenRemove | frontend/src/composables/useToast.ts:8-35 | two toasts shown without ids get different ids, the counter moves by two, and removing the second leaves the first |
| AuthStore.RoleFlags | frontend/stores/auth.ts:30-34 | the getters `IsAdminRole`, `IsInstructorRole` and `IsLearnerRole`: no user sets no flag; with a user, learner holds exactly when instructor does not; every admin is an instructor and not a learner |
| AuthStore.RestoreOf | frontend/stores/auth.ts:37-50 | something is restored exactly when all three entries are non-empty; a restored session is exactly what was stored |
| AuthStore.SaveThenRestore | frontend/stores/auth.ts:43-59 | a saved session (`SaveOf` writes the three entries only when the user and both tokens are there) is restored as it was |
| AuthStore.ClearThenRestore | frontend/stores/auth.ts:64-70 | after clearing, nothing is restored |
| AuthStore.Store.constructor | frontend/stores/auth.ts:22-26 | no user, no tokens, not loading, no error |
| AuthStore.Store.InitFromStorage | frontend/stores/auth.ts:37-50 | outside the browser, or with an entry missing, nothing changes; a whole session is restored and given to the API client; a user text that does not parse throws after both tokens were set |
| AuthStore.Store.SaveToStorage | frontend/stores/auth.ts:53-61 | storage becomes `SaveOf` of the current values in the browser: the three entries are written exactly when the user and both tokens are there; nothing else changes |
| AuthStore.Store.ClearStorage | frontend/stores/auth.ts:64-70 | the three entries are removed in the browser; nothing else changes |
| AuthStore.Store.SetAuth | frontend/stores/auth.ts:73-79 | the user and both tokens are set, the API client gets the access token, and the session is saved; `IsAuthenticated` then holds exactly when the access token is non-empty |
| AuthStore.Store.ClearAuth | frontend/stores/auth.ts:82-88 | the user and both tokens are nulled, the API client's token is removed, the entries are removed, and the store is not authenticated |
| AuthStore.Store.Register | frontend/stores/auth.ts:91-108 | success sets only the user; failure records the server message, or "Registration failed" when that is empty (`ErrorText`), and rethrows; tokens and storage are untouched; loading ends false |
| AuthStore.Store.Login | frontend/stores/auth.ts:111-124 | success sets the session as `SetAuth` does; failure records the server message, or "Login failed" when that is empty (`ErrorText`), rethrows and changes nothing else |
| AuthStore.Store.Logout | frontend/stores/auth.ts:127-142 | the server is called exactly when authenticated; whatever it answers, the session and the entries are cleared |
| AuthStore.Store.RefreshAccessToken | frontend/stores/auth.ts:145-165 | without a refresh token it answers false and changes nothing; success stores both new tokens and saves; failure clears the session and answers false |
| AuthStore.Store.FetchUser | frontend/stores/auth.ts:168-196 | without an access token nothing happens; success stores the user; a non-401 failure is recorded and rethrown; a 401 with no or failed refresh clears the session; a 401 then a successful refresh retries and succeeds |
| AuthStore.Store.Request | frontend/stores/auth.ts:199-256 | verify, resend, forgot and reset change no session state; failure records the message or the action's own fallback and rethrows |
| AuthStore.ReloadKeepsSession | frontend/stores/auth.ts:37-79 | a session set in one store is restored whole by a new store over the same storage |
| AuthStore.LogoutThenReload | frontend/stores/auth.ts:127-142 | after logout, a new store over the same storage is not authenticated |

## Findings

| source | as written | input that shows it | evidently intended | confidence | as-written member | corrected member |
|---|---|---|---|---|---|---|
| apps/api/src/routes/auth.routes.ts:171 | `generateAuthTokens(payload)` re-signs the payload returned by `verifyRefreshToken`, which already carries `iat` and `exp`; jsonwebtoken refuses `expiresIn` for a payload with `exp`, so the handler throws, and the server answers 500 | any refresh token issued at login that is still stored and unexpired | re-sign only `userId`, `email` and `role`, as login does, and rotate the record | not executed | RefreshStore.RefreshAsWritten | RefreshStore.Rotate |
| backend/src/routes/auth.routes.ts:153 | the same re-signing of the verified payload | any refresh token issued at registration or login, still stored and unexpired | the same | not executed | RefreshStore.RefreshAsWritten | RefreshStore.Rotate |

The route classes (`ApiAuthRoutes.AuthDb.Refresh`, `BackendAuthRoutes.AuthDb.Refresh`) use the corrected rotation.

## Left out

- The cryptography is abstract: HMAC-SHA-256 signatures, SHA-256, Argon2id and bcrypt. Digests and signatures are injective functions. Forgery resistance and secrecy are not modelled.
- Randomness, the clock and database-generated ids (cuids) are parameters: the 32 random bytes, password salts, `Date.now()` and new row ids.
- E-mail delivery (`lib/email.ts`) is not part of this model. Sent mails are recorded in an outbox. Delivery failures are caught by the handlers and never change an answer.
- Hono's routing and its app-level error handler in `apps/api/src/index.ts` are not part of this model. A failure is modelled as the status and message the handler raises. An error that is not an HTTP exception is modelled as 500.
- The JSON body parse of `c.req.json()` is not modelled. A body that is not JSON is not modelled either.
- The routes that read `token`, `email` or `password` directly take them as optional strings, and `CourseRoutes.PublishCourse` takes `isPublished` as an optional boolean. A value of another type (a string, or null, for `isPublished`, which the database rejects with 500) is not modelled.
- BackendAuthLib.VerifyPassword: bcrypt compares only the first 72 bytes of a password; the model treats the whole password as significant.
- Prisma behaviour is not modelled: column defaults other than those named, cascading deletes, and the `include`/`select` shapes of responses.
- CourseRoutes.Students: the enrollments are returned as a map without order; the `enrolledAt` descending order of `courses.routes.ts:261` is not modelled. The listing takes the table in the requested order.
- EnrollmentRoutes.MyEnrollments: the rows are returned in table order; the `enrolledAt` descending order of `enrollments.routes.ts:37` is not modelled.
- CourseRoutes.ListCourses: the course columns the database can order by are a parameter, since the Prisma schema is not part of this model. Sorting by such a column is taken as given. Only the newest-first default is proved to survive filtering.
- CourseRoutes.ListCourses: the query schema that `apps/api/src/routes/courses.routes.ts` imports from `apps/api/src/lib/validation.ts` is not part of this model; it is taken to be the `courseQuerySchema` of `backend/src/lib/validation.ts`, which `BackendValidation.CourseQueryDecodes` ties to the listing query.
- Concurrency is not modelled. Two requests racing between a lookup and an insert are not modelled. The refresh rotation is not atomic (a delete, then an insert), and a crash between the two is not modelled.
- String lengths are counted in characters, not in UTF-16 code units.
- Zod's default messages are not modelled. Only the messages the schemas spell out are modelled.
- The `email`, `url` and `cuid` formats are modelled as follows: e-mail and URL are predicates passed in; cuid is Zod 3's pattern.
- `Number(text)` is modelled for decimal integer texts only. Other texts such as "1e2", "0x10" and "1.5" read as not a number.
- Decimal.StringToNumber: integers are exact; a JavaScript number rounds digit runs above 2^53, which the model does not.
- Decimal.ParseInt: integers are exact; `parseInt` rounds above 2^53 as a double, which the model does not.
- CourseRoutes.Skip: `(page - 1) * limit` is exact; in JavaScript it rounds above 2^53.
- Jwt.TimespanMs: only a digit run, then spaces, then an optional unit name (in any case) is read; decimal lifetimes ("1.5h", ".5d") and negative ones ("-1d"), which `ms` accepts, are refused as invalid.
- AuthLib.RefreshTokenExpiration: its own contract states only that the expiry is never now and the 7-day fallback; the exact value for "<n>d" and "<n>h" settings is stated by `RefreshExpirationInDays` and `HourSettingReadAsDays`.
- Case-insensitive search folds only the ASCII letters A to Z.
- The values of the `QuestionType` enum come from the Prisma schema, which is not part of this model. They are taken to be MULTIPLE_CHOICE and TRUE_FALSE.
- Toasts.ToastQueue.Expire: the runtime's timers are modelled as a list of pending dismissals. Which one fires, and when, is left to the caller.
- The session store's intermediate states between `await`s are not modelled. Neither is the interleaving of two actions in flight.
- The API client is modelled by its answer to each call, and by the error it throws (message and optional status). How it shapes that error from the HTTP response is not part of this model.
- `JSON.stringify` and `JSON.parse` of the stored user are modelled by the stored value: either the user that was written, or some other text, which fails to parse. A text that parses to a non-user value is not distinguished.
- AuthStore.Store.FetchUser: the postcondition states the first call and one refresh-and-retry. Deeper retries are covered only through the recursion. An answer still pending when the given answers run out ends the run, and its outcome is reported as unknown.
- The seed script, the theme, the router, the shared constants and types, and the frontend's UI types are not part of this model.
