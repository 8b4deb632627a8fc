# complaints_api: a Dafny model of the complaint service core

complaints_api is a Go REST service. Students file complaints under
categories, with at most one complaint per hour. Administrators answer,
update and delete complaints and manage the categories. The model covers
what sits between the HTTP routes and the drivers:

- **Repository.** The PostgreSQL repository becomes one `Storage.Database`
  class. Its `categories` and `complaints` tables are maps from id to row.
  `Valid()` holds the schema's constraints: unique titles, the foreign key,
  and serial ids.
- **Rate gate.** `CheckComplaintLimit` allows a new complaint when the
  owner's latest one is at least an hour old.
- **Services.** The three copies of the complaint service are modelled:
  the rate-gated create and the calls they forward.
- **Tokens.** The student token (`GenerateJWT`, `EncodeJWT`) and the
  administrator token. The JWT library is left abstract.
- **Guards.** Both `AdminOnly` guards and the owner-only delete pipeline.
- **Cache-aside.** Both copies of the cache middleware, with their
  response recorder, and the three write handlers that invalidate cache
  keys.
- **Small helpers.** The status parser and the two response-envelope
  builders.

Modelling choices:

- **Errors.** Go's `%w` wrapping is a datatype. `errors.Is` is a recursive
  function over it. A single-row query that finds nothing fails with
  `Driver(NoRows)`, and `Is` matches it against `sql.ErrNoRows`. That
  assumes pgx v5.6 or later, whose `pgx.ErrNoRows` wraps `sql.ErrNoRows`.
  The repository has no go.mod, so the pgx version is not fixed. Under an
  older pgx those `errors.Is(err, sql.ErrNoRows)` tests are false.
- **Identifiers** are integers. Serial ids start at 1, so id 0 plays the
  zero UUID. `Text.Atoi` is `strconv.Atoi` and `strconv.ParseInt(s, 10, 64)`.
  It refuses a number outside the int64 range, as their `ErrRange` does.
  A path id given to `uuid.Parse` is parsed with the unbounded
  `Text.ParseDecimal` instead. A claim number is Go's `int(f)` of a
  float64, `Text.FloatToInt`. Out of range that conversion is
  implementation-defined, and the model takes amd64's minimum int64.
- **Time** is an explicit `now` in seconds.
- **Database.** A database whose every query fails is `online == false`.
  The same holds for the Redis server. Three repository calls take a
  flag saying whether one statement fails after an earlier one succeeded,
  as when the connection is lost in between:
  - the answer read after `SaveComplaint`'s INSERT;
  - the read-back after `UpdateComplaint`'s UPDATE;
  - `DeleteComplaint`'s DELETE, which the owner-delete handler runs after
    a successful ownership check.

  The handlers above them pass the flag on.
- **Serial ids.** A failed INSERT still uses up a value of the SERIAL
  sequence, as PostgreSQL's `nextval` is not rolled back.
- **Handlers.** A wrapped handler is the script of `WriteHeader`/`Write`
  calls it makes.
- **Panics.** A handler goroutine that panics is an `Aborted` outcome, or
  `aborted == true`. The handler renders nothing further and nothing
  downstream of it runs. Every router installs chi's `middleware.Recoverer`
  (main.go:103, cmd/complaints/main.go:76,
  internal/delivery/http/v1/handler.go:49), which catches the panic. When
  nothing was written yet it answers a bare 500. After an earlier reply
  that 500 changes nothing, because the first status wins. The model
  stops at what the handler itself renders.

Where the code's evident intent and its behaviour disagree, the model
follows the behaviour:

- **Delivery `AdminOnly` never answers 405.** It reads the barcode claim
  as `float64`. Its log calls then assert the same claim to be a `string`
  (internal/delivery/http/middleware/admin/adminOnly.go:53,59,64). So an
  `IsAdmin` error, or a caller who is not an admin, makes the handler
  panic. The request is refused, but no 401 or 405 is sent; Recoverer
  answers it with a bare 500.
  `DeliveryAdminGuard.AdminOnly` states this. The "Invalid token barcode"
  branch cannot be reached, because `Atoi(Itoa(n)) == n` for every
  int64 `n`, and `int(f)` is always one.
- **Owner delete of a missing complaint panics.** It does not return
  NotFound. The log call at deleteByOwner/delete.go:93 asserts the numeric
  barcode to be a string.
- **Owner delete does not stop on a malformed id.** It renders 403 and
  goes on with the zero id. With the database reachable, that id always
  reaches the panic above.
- **`DeleteComplaint` reads `RowsAffected` before the error.** So a failed
  statement is reported as `ErrComplaintNotFound`.
- **Errors can follow a write.** When `SaveComplaint`'s answer read fails,
  the complaint is stored but the student gets an error, and the next
  attempt within the hour is refused by the rate gate. When the read-back
  after `UpdateComplaint`'s UPDATE fails, the row is changed, the reply is
  500, and the cached listing stays stale.
- **`CheckComplaintLimit` always pairs a denial with an error.** The
  services' `!canSubmit` branch is unreachable, and a rate-limited create
  returns the limit error wrapped as "failed to check complaint limit: …".
  `errors.Is` still recognises it.
- **The cache stores only after `WriteHeader(200)`.** It stores a response
  only when the handler called `WriteHeader(200)`. A handler that only
  writes a body, as `render.JSON` without `render.Status` does, leaves the
  recorded status at 0 and is never cached (`CacheStore.WritesOnlyKeepStatus`).
- **The recorder keeps the last status.** The client sees the first one
  (`CacheStore.SentStatusIsFirst`).

## Model

| member | source | states |
|---|---|---|
| Errors.IsUnwrappedIffRoot | internal/service/complaint/complaints.go:23-26 | errors.Is against an unwrapped target holds exactly when the innermost error is that target |
| Errors.IsSurvivesWrapping | internal/service/complaint/complaints.go:23-26 | wrapping an error with `%w` any number of times keeps errors.Is true for every target it matched |
| Text.TrimPrefix | internal/delivery/http/middleware/admin/adminOnly.go:26-27 | strings.TrimPrefix gives the rest after the prefix when the string has it, and the string itself otherwise |
| Text.ToLower | internal/http-server/handlers/complaints/update_complaint_status/updateComplaintStatus.go:63 | strings.ToLower keeps the length and lowers each ASCII letter in place |
| Text.AtoiItoa | internal/delivery/http/middleware/admin/adminOnly.go:51-56 | strconv.Atoi(strconv.Itoa(n)) == n for every int64 n, and is the range error for every other integer; with int(f) always an int64, the conversion error branch is dead |
| Text.ParseDecimalItoa | internal/delivery/http/middleware/admin/adminOnly.go:51 | the digits strconv.Itoa writes read back as the same number, whatever its magnitude |
| Text.FloatToInt | internal/delivery/http/middleware/admin/adminOnly.go:51 | Go's int(f) always gives an int64, and keeps every value already in range |
| Text.HasPrefix | internal/http-server/middleware/admin_only/adminOnly.go:23-24 | the test behind `tokenString == authHeader` after TrimPrefix: the header starts with the prefix exactly when it is at least as long and agrees with it character by character |
| Text.Itoa | internal/delivery/http/middleware/admin/adminOnly.go:51 | strconv.Itoa gives decimal digits without leading zeros, preceded by '-' exactly for negative numbers |
| Text.Atoi | internal/lib/jwt/JWT.go:52 | strconv.Atoi (also ParseInt with base 10 and 64 bits) succeeds exactly when the text is a decimal number inside the int64 range, with that number as its value; outside the range it fails |
| Text.ParseDecimal | internal/http-server/handlers/complaints/delete/delete.go:45 | the stand-in for uuid.Parse succeeds exactly on one or more digits with an optional leading sign, with the digits' decimal value, negated after '-' |
| Text.JoinLength | internal/shared/api/response/response.go:33 | strings.Join (`Text.Join`)'s result is the parts' total length plus one separator between each neighbouring pair |
| Text.JoinHoldsEachPart | internal/lib/api/response/response.go:35 | part i appears in the joined string, in order, after the earlier parts and i separators |
| Text.JoinSeparatorAfterEachPart | internal/lib/api/response/response.go:35 | the separator follows every part but the last, right after parts 0..i and the i separators between them |
| Tables.SelectBelow | internal/storage/pg/complaints.go:91-139 | the selected complaints come out with strictly increasing ids below the id counter |
| Tables.SelectBelowMembers | internal/storage/pg/complaints.go:141-186 | a complaint is in the result exactly when it is the joined projection of a row that passes the WHERE filter and the inner JOIN |
| Tables.SelectBelowComplete | internal/storage/pg/complaints.go:188-226 | every row that passes the filter appears in the result |
| Tables.SelectBelowEmpty | internal/storage/pg/complaints.go:91-139 | the result is empty exactly when no row passes the filter |
| Tables.CategoriesBelowMembers | internal/storage/pg/categories.go:11-36 | the listing holds exactly the category rows, each with its own id and columns |
| Tables.LatestBelowIsMaximum | internal/storage/pg/complaints.go:230-238 | `ORDER BY created_at DESC LIMIT 1` is the maximum creation time of the owner's rows, and no row when the owner has none |
| Tables.LimitDecision | internal/storage/pg/complaints.go:228-251 | no prior row allows; a latest row younger than one hour denies with ErrLimitOneComplaintInOneHour; one hour or more (boundary included) allows; any other query error denies wrapped with the op name; denial always carries an error |
| Storage.Database.constructor | internal/storage/pg/postgres.go:29-45 | empty tables satisfy the schema's constraints (unique title, foreign key, serial ids) |
| Storage.Database.GetCategories | internal/storage/pg/categories.go:11-36 | the loop returns every category row, in ascending id order (the SQL has no ORDER BY, so this is one order it allows); an empty table is an empty list, not an error |
| Storage.Database.GetCategoryById | internal/storage/pg/categories.go:38-57 | present id gives that row; an absent id gives the wrapped no-rows error, which errors.Is does not match to ErrCategoryNotFound |
| Storage.Database.CreateCategory | internal/storage/pg/categories.go:59-69 | inserts exactly one row under a fresh id and returns it; a taken title fails the UNIQUE constraint, adds no row and uses up one sequence value |
| Storage.Database.DeleteCategoryById | internal/storage/pg/categories.go:71-79 | removes the row; an absent id succeeds and changes nothing; a referenced category fails the foreign key and remains |
| Storage.Database.SaveComplaint | internal/storage/pg/complaints.go:24-38 | adds exactly one pending row with the given barcode, category and message under a fresh id and returns that id with the category's answer; a missing category fails the foreign key, adds no row and uses up one sequence value; when the answer read fails after the INSERT the row stays and "failed to get categories answer" is returned |
| Storage.Database.IsOwnerOfComplaint | internal/storage/pg/complaints.go:41-52 | ErrComplaintNotFound for an absent id; otherwise true exactly when the stored barcode is the caller's |
| Storage.Database.GetComplaintByUUID | internal/storage/pg/complaints.go:54-89 | the row joined with its category; an absent id is ErrComplaintNotFound, any other failure ErrScanFailure |
| Storage.Database.ScanRows | internal/storage/pg/complaints.go:112-131 | the `for rows.Next()` loop appends exactly the filtered, joined rows, in ascending id order (one order the unordered SQL allows) |
| Storage.Database.GetComplaints | internal/storage/pg/complaints.go:91-139 | every complaint joined with its category; an empty table is ErrComplaintNotFound |
| Storage.Database.GetComplaintsByCategoryId | internal/storage/pg/complaints.go:141-186 | exactly the rows of that category; none is an empty list with no error |
| Storage.Database.GetComplaintsByBarcode | internal/storage/pg/complaints.go:188-226 | exactly the rows of that barcode, each with updated_at; none is an empty list with no error |
| Storage.Database.RowsAreSelection | internal/storage/pg/complaints.go:91-226 | under the schema constraints the scanned rows are the whole filtered table |
| Storage.Database.LastCreatedAt | internal/storage/pg/complaints.go:230-238 | the owner's latest created_at, no-rows when the owner has none, the driver error when the query fails |
| Storage.Database.CheckComplaintLimit | internal/storage/pg/complaints.go:228-251 | allows exactly when every complaint of the barcode is at least an hour old; denies a younger one with ErrLimitOneComplaintInOneHour |
| Storage.Database.UpdateComplaintStatus | internal/storage/pg/complaints.go:253-283 | NotFound for an absent id; otherwise changes only status, answer and updated_at of that one row |
| Storage.Database.DeleteComplaint | internal/storage/pg/complaints.go:285-300 | removes the row; an absent or already-deleted id, a database down from the start, or a failing DELETE is ErrComplaintNotFound and changes nothing |
| Storage.Database.UpdateComplaint | internal/storage/pg/complaints.go:302-371 | NotFound for an absent complaint; an absent target category is an error and changes nothing; otherwise overwrites the row, keeps created_at and returns the row read back; when the read-back fails the row stays overwritten and the op-wrapped error is returned |
| Storage.UpdatedRow | internal/storage/pg/complaints.go:325-340 | the UPDATE keeps created_at and sets updated_at to now |
| ComplaintService.Service.CreateComplaint | internal/service/complaint/complaints.go:21-39 | a gate error is returned wrapped and nothing is saved; a rate-limited owner gets an error errors.Is matches to ErrLimitOneComplaintInOneHour and nothing is saved; otherwise the store's id and answer are returned unchanged, or the save error wrapped, including the stored-but-unanswered case |
| ComplaintService.Service.GetComplaintById | internal/service/complaint/complaints.go:41-48 | forwards the repository's lookup, returning the complaint with the asked id |
| ComplaintService.Service.GetAllComplaints | internal/service/complaint/complaints.go:50-61 | ErrComplaintNotFound on an empty table, any other error as it is, otherwise every complaint |
| ComplaintService.Service.GetComplaintsByCategoryId | internal/service/complaint/complaints.go:63-66 | forwards the repository's result |
| ComplaintService.Service.UpdateComplaintStatus | internal/service/complaint/complaints.go:68-71 | forwards arguments and the repository's result: the offline error, NotFound, or success with only status, answer and updated_at of the row changed |
| ComplaintService.Service.UpdateComplaint | internal/service/complaint/complaints.go:73-76 | forwards arguments and the repository's result case by case: each error and the complete complaint read back after the UPDATE |
| ComplaintService.Service.DeleteComplaint | internal/service/complaint/complaints.go:78-80 | forwards argument and result: the row removed, or NotFound with nothing changed |
| LegacyComplaintService.Service.CreateComplaint | internal/service/complaintService/complaints.go:30-47 | never saves when the gate errors or denies; success returns exactly the saved category's answer; a save error is wrapped, including the stored-but-unanswered case |
| LegacyComplaintService.Service.GetAllComplaints | internal/service/complaintService/complaints.go:59-66 | any store error is returned with no list |
| ContextFreeComplaintService.Service.CreateComplaint | internal/service/complaints.go:28-45 | never saves when the gate errors or denies; success returns exactly the saved category's answer; a save error is wrapped, including the stored-but-unanswered case |
| ContextFreeComplaintService.Service.GetAllComplaints | internal/service/complaints.go:57-64 | any store error is returned with no list |
| Jwt.Parse | internal/lib/jwt/JWT.go:24-32 | claims come back exactly when the token decodes, the key function gives a key and the signature verifies; a key function error is wrapped |
| Jwt.ParseWithKey | internal/delivery/http/middleware/admin/adminOnly.go:33-43 | parsing with a fixed key accepts exactly the decodable tokens whose signature verifies with that key |
| Jwt.HmacKey | internal/lib/jwt/JWT.go:25-28 | the secret is handed out exactly for HMAC methods |
| Jwt.StudentClaims | internal/lib/jwt/JWT.go:12-15 | the claims have exactly the keys barcode and exp, with exp one day after issue |
| Jwt.EncodeJWT | internal/lib/jwt/JWT.go:21-61 | succeeds exactly for an HMAC-signed, verifying token with a numeric exp not before now and a numeric or decimal-string barcode, returning that barcode (int(f) of a number, strconv.Atoi of a string, so a string outside the int64 range fails); each other case gives its own error ("unexpected signing method" for non-HMAC, "invalid exp format", "token expired", "invalid barcode string", "barcode not found or invalid type") |
| Jwt.GeneratedTokenVerifies | internal/lib/jwt/JWT.go:11-19 | the token `Jwt.GenerateJWT` signs is HS256, decodes to exactly the student's claims and parses with the HMAC key function |
| Jwt.EncodeGenerated | internal/lib/jwt/JWT.go:11-61 | a token GenerateJWT issued for an int barcode gives back the barcode at any time up to and including one day after issue |
| Jwt.EncodeGeneratedExpired | internal/lib/jwt/JWT.go:45-47 | after that instant the same token is refused as expired |
| Jwt.NonHmacRejected | internal/lib/jwt/JWT.go:24-29 | a token signed with a method other than HMAC is never accepted |
| AdminToken.AdminClaims | internal/lib/jwt/generateJWT.go:10-15 | the claims have exactly the keys id, username, role and exp, taken from the admin, with exp one day after issue |
| AdminToken.GeneratedTokenVerifies | internal/lib/jwt/generateJWT.go:17-18 | the token `AdminToken.GenerateJWT` signs is HS256 and verifies against the fixed key with the admin's claims |
| Http.CheckAuthorization | internal/delivery/http/middleware/admin/adminOnly.go:19-31 | an empty header is a missing token; a header without the "Bearer " prefix is a bad format |
| Http.BearerIff | internal/http-server/middleware/admin_only/adminOnly.go:23-28 | a header yields token t exactly when it is "Bearer " followed by t |
| Http.CacheKey | internal/delivery/http/middleware/cache/CacheMiddleware.go:18 | the key is "cache:" followed by the URL path |
| Http.CacheKeyInjective | internal/http-server/middleware/cache/CacheMiddleware.go:16 | distinct paths have distinct keys |
| DeliveryAdminGuard.AdminOnly | internal/delivery/http/middleware/admin/adminOnly.go:16-72 | missing header, bad format or a failing token give 401 and next does not run; next runs exactly when the token verifies, its barcode is numeric and IsAdmin returns (true, nil) for int(barcode), with the barcode claim in the context; every other verified request panics; "Invalid token barcode" is never sent |
| RoleGuard.AdminOnly | internal/http-server/middleware/admin_only/adminOnly.go:14-60 | missing header, bad format or a token failing the fixed key give 401; a role that is absent, not a string or not "admin" gives 403; next runs exactly when all checks pass, with the barcode claim (or nil) in the context |
| RoleGuard.AdminTokenAdmitted | internal/http-server/middleware/admin_only/adminOnly.go:30-57 | a token from the admin GenerateJWT with role "admin" passes, with no barcode in the context |
| RoleGuard.OtherRoleForbidden | internal/http-server/middleware/admin_only/adminOnly.go:49-54 | a token from the admin GenerateJWT with any other role gets 403 |
| CacheStore.WritesOnlyKeepStatus | internal/delivery/http/middleware/cache/CacheMiddleware.go:28-34 | a handler that never calls WriteHeader leaves the recorded status where it was (0), so it is never cached |
| CacheStore.SentStatusIsFirst | internal/http-server/middleware/cache/CacheMiddleware.go:53-56 | once a status is sent, later WriteHeader calls do not change what the client sees |
| DeliveryCache.ResponseRecorder.constructor | internal/delivery/http/middleware/cache/CacheMiddleware.go:28-31 | a fresh recorder has an empty body and status 0 over the client's writer |
| DeliveryCache.ResponseRecorder.WriteHeader | internal/delivery/http/middleware/cache/CacheMiddleware.go:52-55 | records the status and forwards it |
| DeliveryCache.ResponseRecorder.Write | internal/delivery/http/middleware/cache/CacheMiddleware.go:57-60 | appends the bytes to the body and forwards them unchanged |
| DeliveryCache.Serve | internal/delivery/http/middleware/cache/CacheMiddleware.go:32 | after the handler the body is the in-order concatenation of its writes, the recorded status is its last WriteHeader, and the client got the same bytes |
| DeliveryCache.CacheMiddleware | internal/delivery/http/middleware/cache/CacheMiddleware.go:13-44 | a hit writes the cached bytes with 200 and the handler is not invoked; any Get error runs the handler once; the key is set to the handler's bytes exactly when it recorded status 200 and Set succeeds; a Set failure leaves the response alone |
| ServerCache.CacheMiddleware | internal/http-server/middleware/cache/CacheMiddleware.go:13-40 | the same cache-aside behaviour for the second copy, with its recorder (lines 42-56) |
| SharedResponse.Error | internal/shared/api/response/response.go:15-17 | exactly that status code and message, no data |
| SharedResponse.Messages | internal/shared/api/response/response.go:21-28 | one message per failed field, in input order: "Field X is a required field" for tag required, "Field X is not valid" otherwise |
| SharedResponse.ValidationError | internal/shared/api/response/response.go:19-35 | status 400, message "Validation failed", the messages joined with ", " under data.errors |
| LibResponse.OK | internal/lib/api/response/response.go:15-17 | status 200 and no message |
| LibResponse.Error | internal/lib/api/response/response.go:18-20 | exactly that status and message |
| LibResponse.ValidationError | internal/lib/api/response/response.go:21-37 | status 400 and the messages joined with ", " as the message; an empty list gives an empty message |
| OwnerDelete.DeleteByOwner | internal/http-server/handlers/complaints/deleteByOwner/delete.go:29-140 | header and token failures give 401 and a non-numeric barcode gives 403, with nothing deleted; the row and both cache keys change exactly when the ownership check returned (true, nil) for the same id and the token's barcode and the DELETE succeeds, then complaints/{id} and complaints are removed after the delete; a DELETE failing after the check gives 500 "Error on deleting complaint" with nothing changed or invalidated; not-owner gives 403, a lookup error 404, NotFound a panic, all with nothing changed; a malformed id is answered 403 and processing goes on with the zero id |
| AdminDelete.Delete | internal/http-server/handlers/complaints/delete/delete.go:27-87 | an empty id or an id that does not parse gives 400; NotFound, which includes a failing DELETE, gives 404; both leave store and cache unchanged; on success the row is gone and cache:/complaints is absent (the double Del is the same as one) |
| ComplaintUpdate.Update | internal/http-server/handlers/complaints/update/update.go:30-84 | a bad id or body gives 400 and an update error before the UPDATE 500, with store and cache unchanged; a read-back failure after the UPDATE gives 500 with the row changed and the cached listing left stale; success overwrites the row, removes cache:/complaints (a failed Del only logged) and replies 200 with exactly the complaint read back |
| CategoryUpdate.Validate | internal/http-server/handlers/category/update/update.go:20-25 | one required error exactly for each empty title, description or answer |
| CategoryUpdate.Update | internal/http-server/handlers/category/update/update.go:37-108 | an undecodable body, a failed validation or a missing path id gives 400; a malformed id is not rejected and the update runs with the id uuid.Parse left behind (the zero id for a wrong length or format); an update error gives 500 with the cache untouched; success removes only cache:/categories and echoes the body's id |
| StatusUpdate.ParseStatus | internal/http-server/handlers/complaints/update_complaint_status/updateComplaintStatus.go:62-72 | "approved" in any case is StatusApproved, "rejected" in any case is StatusRejected (stored "Rejected"), anything else is refused |
| StatusUpdate.ParseStatusIgnoresCase | internal/http-server/handlers/complaints/update_complaint_status/updateComplaintStatus.go:63 | a status and its lower-case form parse alike |
| StatusUpdate.ParseStatusOfStored | internal/http-server/handlers/complaints/update_complaint_status/updateComplaintStatus.go:64-67 | the stored status values parse back to themselves |
| StatusUpdate.UpdateStatus | internal/http-server/handlers/complaints/update_complaint_status/updateComplaintStatus.go:35-89 | a bad id, body or status gives 400 and the service is not called; a service failure gives 500; success gives 200 after changing only status, answer and updated_at |

## Left out

- The JWT library's own work is left out: HMAC signing and verification, and base64 and JSON decoding. It is the abstract `Jwt.Library`. The library's claim validation is not modelled either. That validation would refuse a token whose exp equals now, before `EncodeJWT` compares.
- Claim numbers are integers. float64 rounding (above 2^53, and of fractions) is not modelled. The int64 range of `int(f)` is modelled by `Text.FloatToInt`.
- `SignedString` can fail. The GenerateJWT functions return the token without that possible error; with an HMAC method and a byte key it does not fail.
- The "invalid token claims" branches are not modelled. `jwt.MapClaims` always passes that type assertion.
- bcrypt, the student-profile HTTP client, logging, configuration and wiring are not modelled.
- chi's `middleware.Recoverer` is not modelled. A panic is the `Aborted` outcome; the bare 500 that Recoverer writes when the handler had written nothing is not part of the modelled replies.
- Concurrency is not modelled. That includes the race between `CheckComplaintLimit` and `SaveComplaint`. Requests are taken one at a time.
- Redis TTLs are not modelled. An entry stays until it is deleted or overwritten.
- Response headers are not modelled, including Content-Type. net/http's panic on an invalid status code is not modelled either.
- Go's nil versus empty slices are not distinguished. A failed list query is just the error.
- Sentinel errors are kinds without their message texts.
- Errors compare by value, while Go compares `errors.New` values by identity. An `Is` test against a `Plain` error only names which unexported error was returned. No Go caller could make that comparison.
- The repository's queries use a `uuid` column (`RETURNING uuid`, `WHERE uuid = $1`). The schema in internal/storage/pg/postgres.go never creates it, only SERIAL `id` columns. Ids are integers here, so that mismatch, under which those queries would fail, is not modelled.
- Only the three mid-call failures named above are modelled. In every other repository call, a failure of a later statement has the same outcome as a database that is down from the start. One gap remains in the services' `CreateComplaint`: a connection lost between the rate check and the save is not modelled. It would return the wrapped save error with nothing stored.
- Text.ToLower: lowers ASCII letters only, where `strings.ToLower` lowers every Unicode letter. Its one caller compares the result with "approved" and "rejected", and no non-ASCII letter lowers into those.
- The service methods `CanUserDeleteComplaintById` and `DeleteComplaintById` are not part of this model. The handlers are modelled over `IsOwnerOfComplaint` and `DeleteComplaint`.
- The repository's `UpdateCategory` is not part of this model. The category handler receives it as a function, so the category table it changes is not modelled.
- The handlers render a struct with StatusCode/Message/Data while importing the package whose Response has Status/Message. The model uses the shared envelope for those handlers.
- The admin `GenerateJWT` reads `admin.Username`, which `domain.Admin` does not declare. The model's `Admin` has the field.
- The older services call the repository with parameter types that do not compile against it. They are modelled over the same `Database`.
- CheckComplaintLimit: a zero created_at, as the driver leaves it on error, is not compared. The query error is decided on directly, which gives the same result.
