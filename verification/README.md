# Soft-delete repositories, dashboard usecases and login of an e-commerce backend

This project models the data layer and the dashboard business layer of a Go e-commerce
service.

**The repositories.** Every entity (cart, categories, location, order items, orders,
payments, products, refund, reviews, role, users, otp) has a repository with the same
five operations:

- `GetList` and `GetDetail` build a `WHERE` clause from the non-zero fields of a filter
  record, let caller options write a raw prefix or suffix, run the read statement and
  scan the rows;
- `Create`, `Update` and `Delete` run one named statement inside a transaction and fail
  when no row was affected.

`Delete` is a soft delete: it only sets `is_deleted`, `deleted_at` and `deleted_by`.

**The dashboard usecases** of categories, location and role sit on top of the
repositories:

- every operation validates the caller's JWT;
- the list operation also reads the caller's role and requires it to be named `admin`;
- the list operation hides soft-deleted rows, pages the result with `helper.Paginate`
  and reports the totals;
- create, update and delete stamp the audit columns from the clock and the token.

**The dashboard login** looks the user up by email and password and the location by its
secret. It checks the caller's distance from that location, signs a token over the
user's id and role id, and answers with the user and the name of its role.

## Modules

- `errors.dfy` (`Errors`): error codes, `Error`, `Option`, `Result`.
- `decimal.dfy` (`Decimal`): `%v` formatting of an int64 and `strconv.Atoi`, with their
  round trip.
- `helper.dfy` (`Helper`): `Paginate` as a loop proved against the function `Window`,
  plus the paging lemmas.
- `store.dfy` (`Store`): the generic repository.
  - A table is a `Db<B>`: a map from id to `Row<B>`, the next auto-increment id, the
    entity's `Schema` (the columns of its struct and of its four statements, and its
    "no rows affected" messages) and an `Engine`. The engine holds the equality
    predicate on business fields and the meaning of raw fragments.
  - Failures of the driver (begin, exec, rows affected, commit, LastInsertId, build,
    query, scan) are explicit `ReadFaults` and `WriteFaults` parameters.
  - `Repository<B>` is a class whose methods are proved against the functions `ListOf`,
    `DetailOf`, `CreateIn`, `UpdateIn` and `DeleteIn`.
- `entities.dfy` (`Entities`): the entity records, their filter predicates and the
  schema of each `*_query.go` file, and the predicate `Table` tying a table to its
  schema and filter predicate.
- `usecase.dfy` (`Usecase`): the admin gate, the list, detail and write usecases, and
  the class `EntityUsecase<B>` that holds an entity repository and the role repository.
  One class serves categories, location and role; they differ only in their
  `AuditPolicy`.
- `auth.dfy` (`Auth`): `Login`, the coordinate loop `ParseCoordinates`, the class
  `AuthUsecase` and the lemmas that link the login to the admin gate.

## Behaviour the model makes explicit

These follow from the code as written. Each is stated by the lemma or the constant of
the model named beside it.

- An orders insert never commits. The insert binds `:total_prices`, which the `Orders`
  struct does not have. Lemma `Entities.OrdersCreateNeverCommits`.
- Every refund insert and update fails. The refund statements bind and select `status`,
  which the `Refund` struct does not have. A refund read that finds a row fails at the
  scan. Lemma `Entities.RefundStatusBreaksStatements`.
- A failed products delete reports "no users deleted": the constant
  `Entities.ProductsSchema` holds that message, and `Store.TransactCodeOrder` states
  that a delete touching no row fails with the schema's message.
- The query builder skips zero-valued fields, with these consequences:
  - a login with an empty email and password matches every user, and returns the one
    with the lowest id (`Auth.EmptyCredentialsSelectFirstRows`);
  - a token whose role id is `0` has the lowest-id role checked by the admin gate
    (`Usecase.GateAdmitsOnlyAdmins`).
- Detail lookups have no `is_deleted` filter, with these consequences:
  - a soft-deleted admin role still grants admin access (`Usecase.GateAdmitsAdmin`
    does not ask the role row to be live);
  - a soft-deleted user can still log in (`Auth.SoftDeletedUserStillFound`);
  - the detail usecase returns soft-deleted rows (`Usecase.DetailReturnsSoftDeleted`).
- An update writes the caller's `is_deleted`, so an update can bring a soft-deleted row
  back (`Store.UpdateReactivates`).
- A role that is found but is not `admin` reaches `err.Error()` on a nil error. That is a
  nil-pointer panic, modelled as the error code `Panic` (`Usecase.GateRejectsOtherRoles`).
- The detail, create, update and delete usecases check only the token, not the role
  (`Usecase.RejectedTokenChangesNothing`, `Usecase.DetailReturnsSoftDeleted`: neither
  mentions the role table).
- The location usecase stamps neither `updated_by` nor `deleted_by`
  (the constant `Usecase.LocationPolicy`).

## Model

| member | source | states |
|---|---|---|
| Decimal.DigitsWellFormed | src/business/usecase/auth/auth.go:88-90 | the decimal text of a natural number is a non-empty digit string whose value is that number |
| Decimal.AtoiItoa | src/business/usecase/categories/categories.go:61-64 | `strconv.Atoi` reads back the `%v` text of every int64 as the same number, so a role id written into a token is read back unchanged |
| Decimal.OverflowBeforeSyntax | src/business/usecase/categories/categories.go:61-64 | `strconv.Atoi` on digits past the uint64 range followed by a non-digit reports the range error, because it meets the overflow first |
| Helper.Paginate | src/utils/helper/helper.go:5-28 | the copy loop returns exactly `Window`: the slice from `(page-1)*pageSize` to the end clamped at `len`; empty when the start is past the end; `None` where Go panics (negative length, negative index) |
| Helper.WindowInRange | src/utils/helper/helper.go:5-28 | for `page >= 1` and `pageSize >= 0`: no panic; the page has at most `pageSize` elements; it is empty past the end; otherwise it has `min(start+pageSize, len) - start` elements and element `i` is `s[start+i]` |
| Helper.WindowIsSlice | src/utils/helper/helper.go:10-25 | any page Paginate returns is empty or a contiguous run of the input starting at `(page-1)*pageSize` |
| Helper.NonPositivePagePanics | src/utils/helper/helper.go:5-25 | with a positive page size, a page number below 1 on a non-empty list panics |
| Helper.PagesArePrefix | src/utils/helper/helper.go:5-28 | pages 1..k concatenated are the prefix of length `min(k*pageSize, len)` |
| Helper.PagesCoverSlice | src/utils/helper/helper.go:5-28 | pages 1..ceil(len/pageSize) concatenated give back the whole list: no row lost or repeated |
| Store.ApplyOptions | src/business/domain/categories/categories.go:40-45 | running the options in order over an empty prefix and suffix gives `RunOptions`: the slots each option leaves, or the first option's error |
| Store.RunOptionsAppend | src/business/domain/categories/categories.go:40-45 | running `a + b` is running `a` and then `b` on its slots, and stops at the first error |
| Store.FailingOptionAborts | src/business/domain/categories/categories.go:41-44 | an option that fails aborts the read with its error, whatever options follow |
| Store.NotDeletedOptionSetsSuffix | src/business/usecase/categories/categories.go:79-82 | the list usecases' option keeps the prefix and sets the suffix to `AND is_deleted = 0` |
| Store.SelectedMembers | src/business/domain/categories/categories.go:47-58 | the rows a query returns are exactly the stored rows satisfying its `WHERE`, each once, in ascending id |
| Store.SelectedEmpty | src/business/domain/categories/categories.go:94-97 | a query returns no row exactly when no stored row satisfies its `WHERE` (the case `QueryRow` reports as no rows) |
| Store.ReadAll | src/business/domain/categories/categories.go:60-68 | one record per row, in row order, each the row read back through the read statement's columns |
| Store.LiveListing | src/business/domain/categories/categories.go:34-71 | the live list holds, for each stored row, its read-back record exactly when the row is not deleted and matches the filter |
| Store.DetailIsFirstMatch | src/business/domain/categories/categories.go:73-105 | a successful detail read returns, read back, the stored row with the lowest id among those satisfying the filter and the options |
| Store.DetailStageCodes | src/business/domain/categories/categories.go:73-105 | a failed detail read carries the code of its first failing stage: builder SQLBuilder, options their own error, query or no row SQLRead, scan SQLRowScan |
| Store.ListStageCodes | src/business/domain/categories/categories.go:34-71 | a failed list read carries the error of its first failing stage: builder SQLBuilder, options and `Build` their own error, query SQLRead, and a scan error as it is, only when a row came back; no row is an empty list |
| Store.NoMatchIsEmptyList | src/business/domain/categories/categories.go:34-71 | a list read whose query runs and that no row satisfies returns an empty list, not an error |
| Store.DetailFindsById | src/business/domain/categories/categories.go:73-105 | a lookup by an existing id whose row matches returns that row read back |
| Store.UnfilteredDetailIsFirstRow | src/business/domain/categories/categories.go:73-105 | a detail lookup with every filter field at zero returns the row with id 1 |
| Store.SelectedSameIds | src/business/domain/categories/categories.go:47-58 | two tables on which a query's `WHERE` agrees row by row give the same ids in the same order |
| Store.SoftDeleteInvisibleToLookup | src/business/domain/categories/categories.go:161-184 | a soft delete does not change whether a row matches a filter that sets no deletion field and no raw fragment |
| Store.Transact | src/business/domain/categories/categories.go:107-134 | a write commits exactly when begin, bind, exec and rows-affected pass with at least one row and the commit succeeds; the only error after a commit is a LastInsertId failure, reported as SQLNoRowsAffected |
| Store.TransactCodeOrder | src/business/domain/categories/categories.go:107-134 | a failed write reports the code of its first failing stage: SQLTxBegin for begin, SQLTxExec for a binding or exec error, SQLNoRowsAffected for a RowsAffected error or for fewer than one row (with the entity's message), SQLTxCommit for a commit error once every earlier stage passed |
| Store.CreateIn | src/business/domain/categories/categories.go:107-134 | an insert keeps the table well formed (ids 1..next-1), with the same schema and engine |
| Store.UpdateIn | src/business/domain/categories/categories.go:136-159 | an update keeps the table well formed, with the same schema and engine |
| Store.DeleteIn | src/business/domain/categories/categories.go:161-184 | a delete keeps the table well formed, with the same schema and engine |
| Store.CreateEffect | src/business/domain/categories/categories.go:107-134 | a successful create adds exactly one row under a fresh id, holding the caller's fields; other rows are untouched; a failure before the commit changes nothing; a LastInsertId failure reports an error although the row is stored |
| Store.CreateReadBack | src/business/domain/cart/cart_query.go:4-36 | reading back an inserted row gives the caller's record with the new id, empty update and deletion users, and update and deletion times equal to the coalesced `TIMESTAMP("01-01-0001")`, which is not the zero time that was written |
| Store.UpdateEffect | src/business/domain/categories/categories.go:136-159 | an update succeeds exactly when the id is stored, no driver stage fails and the statement binds only existing columns; a successful update rewrites the business columns, `updated_*` and `is_deleted` of that id only; created and deleted columns are kept; a failure changes nothing |
| Store.DeleteEffect | src/business/domain/categories/categories.go:161-184 | a successful delete changes only `is_deleted`, `deleted_at` and `deleted_by` of that id; the row stays stored |
| Store.WriteToMissingIdFails | src/business/domain/categories/categories.go:148-152 | an update or delete of an id not stored changes nothing and fails with SQLNoRowsAffected and the entity's message |
| Store.DeleteHidesFromLiveList | src/business/domain/cart/cart_query.go:51-60 | after a successful soft delete the row is still stored but absent from every live list |
| Store.UpdateReactivates | src/business/domain/cart/cart_query.go:38-49 | an update with `is_deleted = 0` of a soft-deleted row brings it back into the live list |
| Store.Repository.constructor | src/business/domain/categories/categories.go:27-32 | a new repository over an empty table whose next id is 1 |
| Store.Repository.GetList | src/business/domain/categories/categories.go:34-71 | the option loop and the scan loop return exactly `ListOf` of the current table |
| Store.Repository.GetDetail | src/business/domain/categories/categories.go:73-105 | returns exactly `DetailOf` of the current table (what a found record is: `Store.DetailIsFirstMatch`) |
| Store.Repository.Create | src/business/domain/categories/categories.go:107-134 | result and new table are those of `CreateIn`; the table stays well formed |
| Store.Repository.Update | src/business/domain/categories/categories.go:136-159 | result and new table are those of `UpdateIn`; the table stays well formed |
| Store.Repository.Delete | src/business/domain/categories/categories.go:161-184 | result and new table are those of `DeleteIn`; the table stays well formed |
| Entities.Standard | src/business/domain/cart/cart_query.go:4-60 | the standard shape reads and binds only columns of the struct |
| Entities.ConsistentSchemas | src/business/domain/users/users_query.go:1-76 | the cart, categories, location, order items, payments, products, reviews, role and users statements use only columns their structs have |
| Entities.OrdersCreateNeverCommits | src/business/domain/orders/orders_query.go:20-36 | every orders insert fails at exec (`:total_prices`) and leaves the table unchanged; update and delete bind normally |
| Entities.RefundStatusBreaksStatements | src/business/domain/refund/refund_query.go:4-53 | refund insert and update always fail at exec; a refund read that finds a row fails at the scan; only the delete can succeed |
| Usecase.TotalPagesIsCeiling | src/business/usecase/categories/categories.go:88-93 | for a positive limit, the page count is the least number of `limit`-sized pages holding all rows, and 0 exactly when there are no rows |
| Usecase.PageNonEmptyIffWithinTotal | src/business/usecase/categories/categories.go:87-93 | for page >= 1 and a positive limit, the page returned is non-empty exactly when page <= totalPages |
| Usecase.GateAdmitsOnlyAdmins | src/business/usecase/categories/categories.go:51-75 | a passed gate means a valid token, a parseable role id, and a stored role named `admin` under that id (under id 1 when the id is 0) |
| Usecase.GateAdmitsAdmin | src/business/usecase/role/role.go:49-73 | a valid token whose role id names a stored `admin` role passes the gate when the role read does not fail |
| Usecase.GateRejectsOtherRoles | src/business/usecase/location/location.go:73-75 | a found role not named `admin` makes the gate panic (`err.Error()` on a nil error) |
| Usecase.LiveListIsLive | src/business/usecase/categories/categories.go:79-85 | every record of the list the usecases ask for is a stored row that is not deleted |
| Usecase.ListDashboardTotals | src/business/usecase/categories/categories.go:50-102 | a successful list passed the gate, echoes limit and page, and counts every live matching row in `totalRows` and `totalPages` |
| Usecase.ListDashboardPage | src/business/usecase/location/location.go:87-100 | the page is the window of the live list selected by page and limit; every record on it is a live stored row read back; the page is non-empty exactly when its number is within the page count |
| Usecase.CreateCase | src/business/usecase/categories/categories.go:125-148 | a create usecase keeps the table well formed |
| Usecase.UpdateCase | src/business/usecase/categories/categories.go:150-172 | an update usecase keeps the table well formed |
| Usecase.DeleteCase | src/business/usecase/categories/categories.go:174-197 | a delete usecase keeps the table well formed |
| Usecase.RejectedTokenChangesNothing | src/business/usecase/location/location.go:124-135 | a token that fails validation leaves the table unchanged and returns its error |
| Usecase.CreatedRowIsLive | src/business/usecase/categories/categories.go:138-140 | a successful create stores a live row under a fresh id, created now by the token's user, that every matching live list shows |
| Usecase.UpdateStampsAudit | src/business/usecase/role/role.go:161-162 | a successful update sets `updated_at` to now and, under the policy, `updated_by` to the token's user; other audit columns are kept |
| Usecase.DeleteSoftDeletes | src/business/usecase/location/location.go:185-186 | a successful delete keeps every row, marks this one deleted now (by the token's user under the policy) and removes it from every live list |
| Usecase.DetailReturnsSoftDeleted | src/business/usecase/categories/categories.go:104-123 | the detail usecase checks only the token and returns a soft-deleted row by its id |
| Usecase.EntityUsecase.constructor | src/business/usecase/categories/categories.go:39-48 | a usecase over the given validator, audit policy, entity repository and role repository |
| Usecase.EntityUsecase.CheckAdmin | src/business/usecase/categories/categories.go:51-75 | returns exactly `AdminGate` on the role table |
| Usecase.EntityUsecase.GetListDashboard | src/business/usecase/categories/categories.go:50-102 | returns exactly `ListDashboard` on the role and entity tables |
| Usecase.EntityUsecase.GetDetail | src/business/usecase/categories/categories.go:104-123 | returns exactly `DetailCase` on the entity table |
| Usecase.EntityUsecase.Create | src/business/usecase/categories/categories.go:125-148 | result and new table are those of `CreateCase` on the old table |
| Usecase.EntityUsecase.Update | src/business/usecase/categories/categories.go:150-172 | result and new table are those of `UpdateCase` on the old table |
| Usecase.EntityUsecase.Delete | src/business/usecase/categories/categories.go:174-197 | result and new table are those of `DeleteCase` on the old table |
| Auth.ParseAll | src/business/usecase/auth/auth.go:72-80 | succeeds exactly when every string parses, with the values in input order; a failure carries InvalidValue and the error of the first string that does not parse (every earlier string parses) |
| Auth.ParseCoordinates | src/business/usecase/auth/auth.go:72-80 | the parse loop returns exactly `ParseAll` |
| Auth.LoginSuccess | src/business/usecase/auth/auth.go:50-116 | a successful login found the lowest-id stored user matching the email and password and the lowest-id stored location matching the secret, parsed all four coordinates, was within the distance, signed that user's claims, and answers with that user and its role's name |
| Auth.LoginRecodesUserLookup | src/business/usecase/auth/auth.go:51-60 | a user lookup with no row becomes Unauthorized "Email Or Password Is Wrong"; any other lookup error is returned as it is |
| Auth.LoginRecodesLocationLookup | src/business/usecase/auth/auth.go:62-70 | once the user is found, a location lookup with no row becomes Unauthorized "Secret Is Wrong"; any other lookup error is returned as it is |
| Auth.LoginPassesOnLateFailures | src/business/usecase/auth/auth.go:97-107 | for a caller within range, a signing error and then a role lookup error are returned unchanged |
| Auth.UnknownCredentialsRejected | src/business/usecase/auth/auth.go:51-58 | when no user matches and the read does not fail, the login is Unauthorized "Email Or Password Is Wrong" |
| Auth.DistanceLimitIsInclusive | src/business/usecase/auth/auth.go:82-85 | a distance above the location's limit is refused as too far; a distance up to the limit itself succeeds when signing and the role lookup do |
| Auth.BadCoordinateIsInvalidValue | src/business/usecase/auth/auth.go:74-78 | a coordinate that does not parse ends the login with InvalidValue |
| Auth.ClaimsRoundTrip | src/business/usecase/auth/auth.go:87-95 | the claims carry the user id and role id as text that `Atoi` reads back, and expire `minutes * 60` seconds after issue |
| Auth.AdminLoginPassesGate | src/business/usecase/auth/auth.go:87-100 | the token of a user whose role is the stored `admin` role passes the list usecases' admin gate |
| Auth.EmptyCredentialsSelectFirstRows | src/business/usecase/auth/auth.go:51-64 | with empty email, password and secret, the lookups return the user and the location with id 1 |
| Auth.LookupUnchangedByDelete | src/business/domain/users/users.go:158-182 | a soft delete leaves unchanged, row by row, whether a filter with no raw fragment and no deletion field (`is_deleted`, `deleted_at`, `deleted_by` all zero) matches |
| Auth.SoftDeletedUserStillFound | src/business/usecase/auth/auth.go:51-54 | soft-deleting any user leaves the credential lookup finding the same user |
| Auth.AuthUsecase.constructor | src/business/usecase/auth/auth.go:38-48 | a login usecase over the given environment and the users, location and role repositories |
| Auth.AuthUsecase.LoginDashboard | src/business/usecase/auth/auth.go:50-116 | returns exactly `Login` on the current users, location and role tables |

## Left out

- Logging, tracing, the statement labels and the debug messages are not modelled.
- JWT signing and validation are the parameters `AuthEnv.sign` and `Validator`.
  - Signing, parsing and verifying tokens are not modelled.
  - `AdminLoginPassesGate` assumes the validator gives back the signed claims.
- `strconv.ParseFloat` and `distance.CalculateDistance` are parameters. Floating point
  and the truncation to int64 of the distance are folded into the `distance` parameter.
- `time.Now()` is a parameter. Times are integers (seconds), and the zero time is 0.
- The SQL text itself, the MySQL driver, connection pools and leader/follower routing
  are not modelled. A table is a map from id to row.
  - Raw prefix and suffix fragments are interpreted by `Engine.fragment`; only
    `AND is_deleted = 0` has a fixed meaning.
  - Row order is ascending id, which assumes no `ORDER BY` and a primary-key scan.
  - The equality of the query builder's filters is modelled per field, on non-zero values.
- The driver's failures are explicit fault parameters, not derived from a database state.
- A row that is found but does not scan is modelled for missing columns only.
- `rows.Err()` is not consulted by the code, so it is not modelled either.
- The location statements name the column `long` without quoting it
  (src/business/domain/location/location_query.go lines 7, 16, 29 and 43), and `LONG` is
  a reserved word of MySQL. If the server rejects these statements, every location read
  and write fails, and every login ends with "Secret Is Wrong". The model can only
  express that as a query or exec fault; it does not establish whether the server
  accepts the statements.
- The query builder and sqlx are assumed to behave as follows:
  - a missing row in `QueryRow` is the error SQLRead "sql: no rows in result set";
  - a named binding with no struct field makes the exec fail;
  - a selected column with no struct field makes the scan fail.
- The read statements coalesce a NULL update or deletion time to
  `TIMESTAMP("01-01-0001")`. The model reads that literal as MySQL's YY-MM-DD form,
  2001-01-01 (`Store.CoalescedTime`), not as Go's zero time. If the server instead
  rejected the literal as an invalid date, COALESCE would give NULL, and the scan of
  every row never updated or never deleted would fail. The model does not capture that
  reading.
- MySQL reports rows *changed*, not rows *matched*, by default. Under that default, an
  update writing identical values is a "no rows affected" failure, which the model does
  not capture.
- An auto-increment id that was consumed by a rolled-back insert is not skipped. The
  model's ids stay dense (1..next-1).
- Integer overflow of ids, of `(page - 1) * pageSize` and of the total counts is not
  modelled; Dafny integers are unbounded.
- Error message texts produced by foreign code (the driver, the JWT library) are
  abstract `Error` values.
  - The texts of `strconv.Atoi` errors and of the two panics are written out only so
    that the errors are distinct.
- Store.Repository.constructor: starts from an empty table whose next id is 1. The Go
  `Init` wraps an existing database connection, and the rows already in it are not
  modelled.
- The otp domain uses the generic repository; otp_query.go and the otp entity are not
  part of this model.
- categories_query.go is not part of this model. Its statements are assumed to follow
  the standard shape over the column `name`.
- The location, role and order items entity files are not part of this model. Their
  fields are taken from the columns of their query files.
- The HTTP handlers, routes, middlewares and the users, product, order and refund
  usecases are not part of this model.
