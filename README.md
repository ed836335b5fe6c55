# Response envelopes and account/auth handlers of go-echo-rest-api

This project models two parts of an attendance-tracking CRUD API written in Go with Echo:

- **The response-envelope layer** (`src/pkg/rest/rest.go`). Every endpoint answers with one JSON body, `{result, error, message, detail, status}`. Three builders produce it: `ResponseData`, `ResponseMessage` and `ResponseError`. `ResponsePagination` wraps a page of data. `ErrorDetails.Add` gathers reasons per field.
- **The account and auth handlers** (`src/controller/v1/account/account.go`, `src/controller/v1/auth/auth.go`). Each handler is a fixed chain of checks (bind, validate, token, service call) that answers at the first failure. Known sentinel errors map to a status and a field-keyed detail.

Modules, one per file:

- `GoLib` (`golib.dfy`): the Go library behaviour the core depends on. `http.StatusText` is the full reason-phrase table. `strings.ToLower` is modelled on ASCII. `Quo` is Go's `/` on `int`, which truncates toward zero, over unbounded integers (see "## Left out" on integer width).
- `Rest` (`rest.dfy`):
  - the envelope `Response` and the JSON keys that survive `omitempty` (`WireKeys`);
  - `ErrorDetails`, a class whose `Add` rewrites its map in place;
  - the builders, as functions over a recorded `Sent(status, body)`;
  - `ResponseError`, as the method that fills `detail` with a loop over validation errors. It is specified by the function `ErrorResponse`.
- `Service` (`service.dfy`): the sentinel errors and `errors.Is`. A failure is modelled as the set of sentinels it matches. The module also holds the ordered-chain lookup `FirstMatch`, the request records, and the calls a handler makes on its collaborators.
- `Controller` (`controller.dfy`): the record of one handler run and the responses shared by all handlers. `Handled` holds the responses written, the calls made and whether the handler panicked. `AnswersOnce` and `Conforms` state the envelope rules every response keeps: reason-phrase message, no `status` in the body, the token in `error` exactly on non-2xx answers, no `result` on a non-2xx answer and no `detail` on a 2xx one.
- `Account` (`account.dfy`) and `Auth` (`auth.dfy`): the handlers as decision procedures over abstract inputs:
  - the token's account id (`None` when extraction fails);
  - the bound body (`None` when `ctx.Bind` fails);
  - the validator's list of field errors;
  - each collaborator's answer.

  `Account.Update` is also modelled as a method over a shared pointer. Go's `request := *req` copies the struct but keeps the `Username` pointer, so lower-casing `*request.Username` rewrites the bound request itself. The method shows this aliasing and is specified by `UpdateDecision`.

`uuid.GetUUID()` is the `uuid` argument of the builders and handlers. It is a non-empty token (`Uuid`), standing for what the generator returns at that call.

Notes on the code as written:

- **Nil `Username` in `Update`.** `Update` dereferences `*request.Username` without a nil check (account.go:136). The router installs no recovery middleware (routes.go:46-47). A request that passes bind, validation and the token check with a nil `Username` therefore panics and gets no response; the model records this as `panicked`. Whether the validator already rejects a nil `Username` depends on the struct tags of `http.UpdateUser`, which are not part of this model. For that reason this is stated as behaviour, not as a finding.
- **`Login` does not lower-case the username.** `Register` stores the username lower-cased, but `Login` passes it to the service as bound.
- **409 detail key.** The 409 from `Register` uses the detail key `"account"`. The other sentinel mappings, in `Update`, `Delete`, `Login` and `ForgotPassword`, use `"accounts"`. (Register's empty-username 400 uses `"username"`, and every bind failure uses `"body"`.)
- **Pagination counts only full pages.** `ResponsePagination` computes `total_page` as `total_data / limit` with truncation, so a partial last page is not counted (`PartialPageNotCounted`). For negative operands Go truncates rather than floors, and `Quo` follows the code.
- **Repeated validation errors overwrite.** `ErrorDetails.Add` joins repeated reasons with `" | "`. `ResponseError` does not do this for validation errors: a later error on the same lower-cased field overwrites the earlier tag (rest.go:156). `Add` also stores its key as given and does not lower-case it.

## Model

| member | source | states |
|---|---|---|
| GoLib.ToLower | src/pkg/rest/rest.go:156 | lower-casing keeps the length, maps each character on its own and leaves no upper-case ASCII letter |
| GoLib.Quo | src/pkg/rest/rest.go:104 | Go's integer division truncates toward zero: the remainder is smaller than the divisor in magnitude and has the sign of the dividend; for non-negative operands it agrees with floor division |
| Rest.WireKeys | src/pkg/rest/rest.go:20-26 | with `omitempty`, each of the five keys appears on the wire exactly when its field is set: `result` when present, `error` and `message` when non-empty, `detail` when non-empty, `status` when non-zero (so a status `StatusText` does not know sends no `message`) |
| Rest.Added | src/pkg/rest/rest.go:56-61 | after `Add(key, val)` the key holds `val` if it read "" or was absent, otherwise `old + " \| " + val`; every other key is unchanged |
| Rest.ErrorDetails.Add | src/pkg/rest/rest.go:56-61 | the in-place two-step update (append the separator, then the value) leaves exactly the map `Added` describes |
| Rest.AddTwiceJoins | src/pkg/rest/rest.go:56-61 | adding "a" then "b" to a fresh key gives "a \| b" |
| Rest.EmptyReasonSwallowed | src/pkg/rest/rest.go:57-60 | a key that still reads "" takes the next reason alone, so after an empty first reason the key holds the second reason with no separator |
| Rest.AddAllJoins | src/pkg/rest/rest.go:56-61 | adding reasons one after another, the first of them non-empty, to a key that reads "" leaves exactly their " \| "-join, in order (a later empty reason is joined like any other), and every other key keeps its presence and value |
| Rest.PickMessage | src/pkg/rest/rest.go:64-70 | the message is the first one given, extra ones are ignored, and with none it is the status's reason phrase |
| Rest.ResponseData | src/pkg/rest/rest.go:63-79 | the body has `result` = payload and the picked message, with no `error`, no `detail` and no `status`; the returned id is the fresh token, which the body does not carry |
| Rest.EffectivePagination | src/pkg/rest/rest.go:89-93 | a missing pagination is replaced by a default with page 1 and a positive limit instead of failing |
| Rest.ResponsePagination | src/pkg/rest/rest.go:86-111 | result carries data, total_data and the page copied over; total_page is Go's truncating `total_data / limit` (`Quo`), which for a non-negative total and a positive limit is the number of full pages (`total_page * limit <= total_data < (total_page + 1) * limit`); message is the reason phrase; a zero total is not an error; the only demand is a non-zero limit |
| Rest.PartialPageNotCounted | src/pkg/rest/rest.go:104 | 10 rows at 3 per page report 3 pages, not 4 |
| Rest.ResponseMessage | src/pkg/rest/rest.go:117-137 | `error` is non-empty iff the status is outside [200, 299], where it is the fresh token; the returned id equals `error`, so a 2xx returns ""; no result, detail or status |
| Rest.ValidationDetailKeys | src/pkg/rest/rest.go:153-157 | the keys of the validation detail are exactly the lower-cased fields of the validation errors |
| Rest.ValidationDetailLastWins | src/pkg/rest/rest.go:153-157 | each key holds the tag of the last validation error whose lower-cased field is that key |
| Rest.LaterFieldErrorWins | src/pkg/rest/rest.go:155-157 | two errors whose fields lower-case alike leave one entry, holding the second tag |
| Rest.DetailOf | src/pkg/rest/rest.go:153-165 | validation errors give `ValidationDetail` (lower-cased field to tag), a `map[string]string` is used verbatim, a `*ErrorDetails` by the map it points to, a string `s` becomes `{"error": s}`, any other shape gives no detail |
| Rest.ErrorResponse | src/pkg/rest/rest.go:139-171 | `error` is always the fresh token and is also the returned id; the message is the picked one; `detail` follows the argument's shape; no result, no status |
| Rest.ResponseError | src/pkg/rest/rest.go:139-171 | the type dispatch with its loop over validation errors produces exactly the response `ErrorResponse` describes |
| Rest.BuildersWireKeys | src/pkg/rest/rest.go:72-171 | no builder puts `status` on the wire; data and pagination bodies show only `result` and `message`; a message body shows `error` iff the status is not 2xx; an error body always shows `error` |
| Service.FirstMatchSpec | src/controller/v1/account/account.go:139-171 | an ordered `errors.Is` chain picks a sentinel iff the error matches one of its sentinels, and then picks the earliest: none before it matches |
| Service.EarlierSentinelWins | src/controller/v1/account/account.go:139-171 | a matching sentinel with no match before it in the chain is the one chosen, whatever matches after it |
| Account.Get | src/controller/v1/account/account.go:40-56 | one response; a token failure is a 401 with no service call; a service error is a 500; otherwise a 200 with the account as result; a token is in `error` exactly on the non-2xx answers; every answer keeps `Conforms`, so a non-2xx answer carries no `result` and a 2xx answer no `detail` |
| Account.Register | src/controller/v1/account/account.go:68-100 | bind failure is 400 `{"body": …}`, then a validation failure is 400 with the validator's detail, then an empty username is 400 `{"username": …}`, and in those cases `Create` is not called; otherwise `Create` is called once with the username lower-cased and the other fields unchanged; ErrAccountExist is 409 `{"account": …}`, another error 500, success a 201 carrying only a message (no `result`); every answer keeps `Conforms`, so a non-2xx answer carries no `result` and a 2xx answer no `detail` |
| Account.UpdateDecision | src/controller/v1/account/account.go:112-178 | the order is bind, validation, token, so a bad body with a bad token is a 400, not a 401; a nil `Username` past those checks panics with no response; otherwise the service gets the lower-cased username; the first matching sentinel of the eight is a 400 under "accounts" with its text, an unmatched error a 500, success a 200 carrying only a message (no `result`); the status is always one of 200/400/401/500; every answer keeps `Conforms`, so a non-2xx answer carries no `result` and a 2xx answer no `detail` |
| Account.UpdateMapsFirstSentinel | src/controller/v1/account/account.go:137-177 | of the sentinels an update error matches, the first one tested decides the 400 detail; an error matching none of the eight is a 500 |
| Account.Update | src/controller/v1/account/account.go:112-137 | the handler gives `UpdateDecision`'s answer for the request as bound, and the lower-casing through the copied struct rewrites the bound request's username itself |
| Account.Delete | src/controller/v1/account/account.go:190-210 | a token failure is a 401 with no call; ErrAccountNotRegistered is 400 `{"accounts": …}`; another error is a 500; success is a 200 carrying only a message (no `result`); every answer keeps `Conforms`, so a non-2xx answer carries no `result` and a 2xx answer no `detail` |
| Auth.Login | src/controller/v1/auth/auth.go:42-87 | one response; bind and validation failures are 400s before any call; a missing account is 400 `{"accounts": ErrAccountNotRegistered}`, decided by the boolean alone; a failed read is a 500; the password is compared only after the read succeeded, and a mismatch is 400 `{"accounts": ErrInvalidPassword}`; a token failure is a 500; success is a 200 with result `"Bearer " + token`; every answer keeps `Conforms`, so a non-2xx answer carries no `result` and a 2xx answer no `detail` |
| Auth.WrongPasswordRejected | src/controller/v1/auth/auth.go:71-76 | a known username with a wrong password is a 400 under "accounts" and no token is signed |
| Auth.ForgotPassword | src/controller/v1/auth/auth.go:99-129 | one response; bind and validation failures are 400s before the service call; ErrPasswordCannotBeEmpty is 400 `{"accounts": …}`, another error a 500, success a 200 carrying only a message (no `result`); every answer keeps `Conforms`, so a non-2xx answer carries no `result` and a 2xx answer no `detail` |

## Left out

- `MultipartForm` (rest.go:174-195): a wrapper over `mime/multipart` and a random object-id generator, whose output order follows Go's random map iteration.
- `GetData` (rest.go:198-206): a thin wrapper over JSON unmarshalling.
- Logging: the "more than one message" warnings, the `[GOUTILS-debug]` lines and the handlers' `log.Println` calls. They change nothing a client sees.
- JSON serialisation and `echo.Context`: a write is recorded as `Sent(status, body)`, and binding is an `Option` of the bound request.
- UUID generation: each builder receives the token as an argument. Uniqueness across calls is the generator's promise and is not modelled; each handler writes at most one response, so it uses at most one token.
- JWT extraction and signing, AES, bcrypt and the validator library: their answers are handler inputs. Validation is a list of `(field, tag)` errors. The validator's other error kind, `InvalidValidationError`, is not modelled; it arises only for a non-struct argument, and these handlers always pass a struct pointer.
- The service and repository layers: their results are inputs. An error is the set of sentinels `errors.Is` matches in it. The sentinel texts live in `src/constant`, which is not part of this model, so each sentinel's text stands as its Go name.
- The `pagination` package of go-utils is not part of this model. `DefaultPagination` assumes page 1 and limit 10. The contracts rely on the assumed page 1 and on the default limit being positive; the value 10 itself is used by no proof.
- `src/routes/routes.go` and `src/pkg/rest/responsestruct.go`: route wiring and Swagger-only structs, with no logic.
- Concurrency: each request is handled on its own and shares no state in this layer.
- GoLib.ToLower: models ASCII case mapping only; Unicode case folding of `strings.ToLower` is not modelled.
- Rest.ErrorDetails.Add: the class always holds an allocated map, so the panic Go raises when writing to a nil `ErrorDetails` map is not modelled.
- Rest.DetailOf: a `*ErrorDetails` argument is represented by the map it points to, so the panic on a typed nil pointer is not modelled.
- Integer width: Go's `int` is 64 bits and the model's integers are unbounded. In the modelled arithmetic this changes only `MinInt64 / -1` in `Quo` (rest.go:104), which Go wraps to `MinInt64` while `Quo` gives 2^63.
- Rest.ResponsePagination: a zero limit makes Go's `total_data / limit` (rest.go:104) panic with an integer divide by zero; the model requires a non-zero limit and does not model that panic.
- Rest.ResponseData: the payload is always present, so the case where `omitempty` drops a nil `interface{}` result is not modelled.
