# Users CRUD service: a Dafny model of its decision logic

The service keeps one `users` table behind a CRUD HTTP interface. Before a
user is stored it is enriched with age, gender and likely nationality,
looked up by given name from three external providers. This project models
the three places where that service makes decisions, and proves what each
promises:

- **The user service** (`internal/service/users/user.go`, module `Service`).
  It parses `page` and `pageSize`, falling back to 1 and 10. It parses and
  checks ids. It calls the enrichment and the store, and turns every outcome
  into a status code (200, 404 or 500) and an optional error. `UserService`
  is a class holding a reference to the repository. Its postconditions
  state which repository calls it made, read off the repository's own call
  log (see below). That makes "nothing is called", "enrichment is keyed by
  the name only" and "the DTO sent to the store" part of each method's
  postcondition.
- **The user repository** (`internal/repository/users/user.go`, module
  `Repository`). `UserRepository` is a class. Its table is a field
  `rows: map<int, Record>`, and its `id serial` counter is a field `nextId`.
  A ghost field `calls` is the log of the calls made to it: each of its
  methods appends its own entry, with its arguments, and states so in its
  postcondition.
  `Save`, `Update` and `Delete` change those fields the way their fixed SQL
  statements change the table. `GetAll` is a loop over the rows of the
  `LIMIT`/`OFFSET` window, one DTO per row, at the offset line 39 computes
  in Go's 64-bit `int` (see Findings). `GetExtraInfo` is a loop over the
  three relations, taken in an unspecified order. Each failing lookup sends
  its error into a buffer of capacity three, and the first error received
  is reported.
- **The status decision of the handlers** (`internal/handlers/helpers.go`,
  module `Handlers`). `identifyStatus` takes one of three branches. It is
  checked against the status classes of section 15 of RFC 9110 (15.5 client
  errors, 15.6 server errors).

The supporting modules are `Base` (option, result, errors, status codes),
`Strconv` (Go's `strconv.Atoi` on a 64-bit platform as a total function,
with `Itoa` as its inverse for a round trip) and `Entity` (the records of
`internal/entity/user.go`).

Everything outside the process is a parameter:

- The three providers are a `Providers` value. It maps a lookup URL to
  `Ok(decoded payload)` or `Err(error)`; this is `fetchURL` as seen by its
  caller.
- A database failure of `Exec` is an `Option<Error>` argument.
- The answers of a listing query are a `QueryFaults` argument, and the order
  produced by `ORDER BY <sorting>` is an argument `order`. Its precondition
  `IsOrdering` says it lists every id of the table exactly once.

Two quirks of the source are modelled as written:

- **Arity mismatch.** `userService.GetAll` calls the repository's `GetAll`
  with page and page size only, but the repository interface also takes a
  sort column. As written, the program does not compile. The model gives
  `Service.UserService.GetAll` an extra, unconstrained `sorting` parameter
  and passes it on unchanged.
- **`(404, nil)`.** An id that parses but is below 1 gets status 404 with a
  nil error. The handlers check only the error, so they answer 200 "updated
  successfully" or "deleted successfully" although nothing was written.
  `Handlers.NonPositiveIdAcknowledged` proves this.

## Model

| member | source | states |
|---|---|---|
| `Strconv.Atoi` | internal/service/users/user.go:33-34 | A result is accepted only for an optional `+`/`-` followed by one or more digits, and it always lies in the 64-bit `int` range; the empty string is rejected |
| `Strconv.AtoiItoa` | internal/service/users/user.go:33-34 | Round trip: Atoi reads back every integer's canonical decimal form exactly when the integer fits in `int`, and rejects it otherwise |
| `Strconv.LeadingZeroIgnored` | internal/service/users/user.go:39-40 | A leading `0` does not change the value of a digit string |
| `Strconv.SignedLiterals` | internal/service/users/user.go:33-34 | `+digits` reads like `digits`; `-digits` reads as the negation, and is accepted down to -2^63 |
| `Strconv.AtoiExamples` | internal/service/users/user.go:32-40 | `""`, `"+"`, `"abc"` and `"1.5"` are rejected; `"0"`, `"3"`, `"20"` and `"-5"` read as 0, 3, 20 and -5 |
| `Service.PositiveOrDefault` | internal/service/users/user.go:29-43 | The result is the parsed value when the string is a decimal `int` above 0, and the default otherwise; it is always at least 1 |
| `Service.ListingDefaults` | internal/service/users/user.go:29-43 | `""` and `"0"` give page 1; `""` and `"-5"` give page size 10; `"3"` and `"20"` are taken as they are, and page 3 of size 20 starts at offset 40 |
| `Service.ListingRequestWrapsNegative` | internal/service/users/user.go:29-43 | The request `page=4611686018427387905&pageSize=2` is taken as it is, and the offset the store then computes is negative |
| `Service.EveryPositiveIntAccepted` | internal/service/users/user.go:29-43 | Every positive `int`, written canonically, becomes the page or page size unchanged |
| `Service.CheckId` | internal/service/users/user.go:83-86 | An id is accepted exactly when it parses to a value of at least 1; otherwise the status is 404, and the error is nil exactly when the id parsed |
| `Service.CheckIdExamples` | internal/service/users/user.go:111-114 | `"abc"` is rejected with Atoi's error; `"-1"` and `"0"` are rejected with a nil error; `"3"` is accepted as 3 |
| `Service.UserService.constructor` | internal/service/users/user.go:22-26 | The service holds the given repository |
| `Service.UserService.GetAll` | internal/service/users/user.go:28-57 | The repository is called once, with the defaulted page and page size and the sort column unchanged. A failure happens exactly when the query fails, the 64-bit offset is negative, the iteration fails, or a scan within the window fails; the result is then the zero value. On success the offset is non-negative and the result is the rows of that window, with the same page and page size, both at least 1; where the offset fits in `int` this is exactly that page of the listing |
| `Service.UserService.Save` | internal/service/users/user.go:59-80 | If enrichment fails, the status is 500 with one of the lookup errors, only the enrichment was called, and the table is unchanged. Otherwise the DTO sent to the store holds the request's names, the enriched age, gender and country, and id 0. A store failure then gives 500 with that error; success gives (200, nil) and exactly one new row under the next serial id |
| `Service.UserService.Update` | internal/service/users/user.go:82-108 | A rejected id gives 404 with nothing called and nothing changed. Enrichment failure gives 500 with no write. Otherwise the enriched DTO goes to the store for that id. A store failure gives 500; success gives (200, nil), with the row overwritten if it exists and the table unchanged if it does not |
| `Service.UserService.Delete` | internal/service/users/user.go:110-122 | A rejected id gives 404 with nothing called and nothing changed. Otherwise Delete is called with that id. A store failure gives 500; success gives (200, nil), with only that row removed |
| `Repository.Relations` | internal/repository/users/user.go:12-15 | The three lookup URLs are pairwise distinct, so the relations map always holds exactly three entries, one per payload, each under its own prefix followed by the name |
| `Repository.FailsIffSomeError` | internal/repository/users/user.go:86-91 | Enrichment fails exactly when at least one lookup produced an error |
| `Repository.UserRepository.GetExtraInfo` | internal/repository/users/user.go:62-105 | The call is logged with the name and the table is unchanged. The error is non-nil exactly when some lookup failed; it is then one of the failed lookups' errors, and the result is the zero value, so partial successes are discarded. Otherwise age and gender are the providers' values and the country is the first `country_id`, or `""` if there is none. No send ever finds the three-slot buffer full |
| `Repository.Window` | internal/repository/users/user.go:37-39 | `LIMIT limit OFFSET offset` keeps at most `limit` ids: position `j` of the result is position `offset + j` of the order, and the result is as long as possible |
| `Repository.OffsetIsPageStart` | internal/repository/users/user.go:39 | From page 1 on, the offset `(page-1)*pageSize` is non-negative |
| `Repository.PageContaining` | internal/repository/users/user.go:39 | Every position of the order lies inside the window of some page |
| `Repository.LaterPageStartsAfter` | internal/repository/users/user.go:39 | A later page's offset is at least an earlier page's offset plus the page size |
| `Repository.PagesDisjoint` | internal/repository/users/user.go:36-59 | No row is listed on two different pages |
| `Repository.Dtos` | internal/repository/users/user.go:44-53 | One DTO per row id, in query order, carrying the id and the row's six fields |
| `Repository.ListedOnItsPage` | internal/repository/users/user.go:36-59 | The row at position k of the order is listed, with all six fields, on a page whose window covers k |
| `Repository.SavedRowIsListed` | internal/repository/users/user.go:107-119 | Round trip: a stored row is listed, with all six stored fields and its id, on some page for every page size |
| `Repository.OffsetAsWrittenAgrees` | internal/repository/users/user.go:39 | Wherever `(page-1)*pageSize` fits in `int`, the 64-bit offset equals the unbounded one, so the listing lemmas hold of what the store returns |
| `Repository.OffsetWrapsNegative` | internal/repository/users/user.go:39 | With 64-bit wrap-around, page 4611686018427387905 of size 2 gets the offset -2^63, which the engine refuses |
| `Repository.OffsetWrapsToFirstPage` | internal/repository/users/user.go:39 | With 64-bit wrap-around, page 4611686018427387905 of size 4 gets offset 0 and lists the same rows as page 1; the unbounded offset is past the end |
| `Repository.UserRepository.constructor` | internal/repository/users/user.go:30-34 | A repository over a connection to a table holding the given rows, with the given next serial id above every id in it, and an empty call log |
| `Repository.UserRepository.GetAll` | internal/repository/users/user.go:36-60 | The call is logged with its arguments and the table is unchanged. The offset is `(page-1)*pageSize` wrapped to 64 bits. A query failure, a negative offset, a negative LIMIT, a scan failure inside the window, or a `rows.Err` failure each return that error and no users. Otherwise the result is one DTO per row of the window, in query order |
| `Repository.UserRepository.Save` | internal/repository/users/user.go:107-120 | The call is logged with the DTO. On success, exactly one row is added under a fresh serial id, holding the DTO's six fields; the DTO's id is ignored. On failure nothing changes |
| `Repository.UserRepository.Update` | internal/repository/users/user.go:122-133 | The call is logged with the id and the DTO. On success, the row with that id has all six fields overwritten and every other row is unchanged; a missing id is a silent success with no change |
| `Repository.UserRepository.Delete` | internal/repository/users/user.go:135-144 | The call is logged with the id. On success, exactly the row with that id is removed; a missing id is a silent success |
| `Handlers.IdentifyStatus` | internal/handlers/helpers.go:23-33 | The three branches are exclusive and exhaustive. At 500 and up, the code written is 500 whatever the input (lines 8-17). From 400 to 499 it is the status itself (lines 19-21). Below 400 the "Unknown status" branch also answers with the status itself |
| `Handlers.BranchesFollowStatusClasses` | internal/handlers/helpers.go:24-32 | On codes 100 to 599: the server-error branch is exactly class 5xx (RFC 9110 section 15.6), the client-error branch exactly class 4xx (section 15.5), and the unknown branch exactly 1xx to 3xx |
| `Handlers.RespondTo` | internal/handlers/user.go:55-62 | A handler answers with success exactly when the service's error is nil; otherwise it answers as `identifyStatus` decides for the returned status |
| `Handlers.MalformedIdIsNotFound` | internal/handlers/user.go:69-73 | An id that does not parse is answered 404 on the client-error path |
| `Handlers.NonPositiveIdAcknowledged` | internal/service/users/user.go:84-85 | An id that parses to a value below 1 is rejected with (404, nil), and the handler then reports success |
| `Handlers.ServiceFailuresAnswered` | internal/handlers/user.go:34-38 | A 404 with an error is answered 404 as a client error; a 500 with an error is answered 500 as a server error |

## Left out

- Goroutines, the `sync.WaitGroup` and the error channel of `GetExtraInfo`. The join is modelled as the three lookups running one after another in an order chosen nondeterministically; the order in which errors reach the channel is that order.
- `fetchURL` (HTTP GET, reading the body, JSON decoding) is the `Providers` oracle. One case is therefore not modelled: a provider whose body is the JSON literal `null` sets the decoding target to nil, and the merge would then dereference nil.
- URL escaping of the name is not modelled. The name is appended to each prefix as it is, and the oracle sees that URL.
- SQL execution by pgx is not modelled. This covers the interpolation of the sort column into the query text, how the sort column determines the order (given as the `order` argument), and the engine of the `users` table.
- Strconv.Atoi: does not distinguish syntax errors from range errors. Either one is a rejection, and the service reports it as `NumError("Atoi", input)`.
- Repository.UserRepository.Save: a failed insert leaves the serial counter unchanged, although PostgreSQL may already have consumed a sequence value. Exhausting the 32-bit `serial` range is not modelled.
- Repository.UserRepository.Update and Repository.UserRepository.Delete: ids above the 32-bit range of the `id` column are treated like any missing id, not as an encoding error of the driver.
- Repository.UserRepository.GetAll: a listing with no rows is the empty sequence. The source's nil slice would be encoded as JSON `null`; encoding is not modelled.
- Repository.UserRepository.GetAll: `page` and `pageSize` are required to lie in the 64-bit `int` range, which every Go caller's values do.
- Handlers.IdentifyStatus: codes below 100, which make net/http's `WriteHeader` panic, are not modelled. Codes of 500 and above take the server-error branch and are always written as 500. The response bodies (`http.StatusText`) and the logging of the error and stack trace are left out as output only.
- The JSON decoding of request bodies and the encoding of responses in `internal/handlers/user.go`, and the router table in `internal/handlers/routes.go`, are I/O.
- `internal/app/app.go` and `internal/app/migrate.go` are not part of this model: environment loading, the connection string and database connection, server start, signal-driven shutdown, and the retrying migration.
- `internal/repository/repository.go` and `internal/service/service.go` only wire constructors together.
- Request contexts and cancellation are not modelled.

## Findings

| source | as written | input that shows it | evidently intended | confidence | as-written member | corrected member |
|---|---|---|---|---|---|---|
| internal/repository/users/user.go:39 | `(page-1)*pageSize` is computed in Go's 64-bit `int` and wraps around | `GET /users?page=4611686018427387905&pageSize=4`: both values parse, and the offset wraps to 0, so page 1 is returned under page number 4611686018427387905. With `pageSize=2` the offset wraps to -2^63; the engine refuses a negative OFFSET and the request is answered 500 | the offset of page `page` comes after every earlier page, so no row is listed on two pages | medium, not executed | `Repository.OffsetWrapsToFirstPage` | `Repository.PagesDisjoint` |

`Repository.UserRepository.GetAll` and `Service.UserService.GetAll` model
the code as written, at the wrapped offset `Repository.OffsetAsWritten`;
`Repository.OffsetWrapsNegative` and `Service.ListingRequestWrapsNegative`
show the negative case. The corrected definition is the listing at the
unbounded offset, `Repository.Listing`, which the paging lemmas
(`PagesDisjoint`, `ListedOnItsPage`, `SavedRowIsListed`) are about.
`Repository.OffsetAsWrittenAgrees` shows that the two coincide wherever the
product fits in `int`, and `Service.UserService.GetAll` promises the
corrected listing there.
