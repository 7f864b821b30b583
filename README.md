# Payment registry of the echo server

A Dafny model of the in-memory payment registry in `go_echo_server2/main.go`.
The server keeps one process-wide slice of payment records. Start-up seeds it
with three fixed records. `POST /payments` appends a decoded record to the end.
`GET /payments` lists the slice, `GET /c` reports its length as `"count: N"`,
and `GET /payments/:id` scans it in insertion order for the first record with
the requested ID.

Files:

- `wrappers.dfy` — module `Wrappers`, the `Option` datatype.
- `decimal.dfy` — module `Decimal`: how `fmt.Sprintf("%d", n)` writes a
  non-negative integer (`FromNat`), its parser `Value`, and the round trips
  between them.
- `registry.dfy` — module `Registry`: the `Payment` record, handler responses
  (status code plus a JSON or plain-text body), the lookup specification
  `Lookup`, and the class `Store` whose field `payments` is the slice. The
  handlers are the class's members. `Seed` and `Create` change the store.
  `List` and `Count` are functions that only read it. `GetByID` is a loop
  method with no `modifies` clause, so it cannot change the store.

A request body is decoded by a JSON library the model does not see. `Create`
therefore takes the decode result as an `Option<Payment>`. On `None` the
source calls `log.Fatalf`, which ends the process. The model follows the code
here: `Create` returns `Terminated` and leaves the store unchanged. It does not
model the 400 response that a corrected server would send instead.

## Model

| member | source | states |
|---|---|---|
| Registry.Store.constructor | go_echo_server2/main.go:20 | the store starts out as an empty slice |
| Registry.Store.Seed | go_echo_server2/main.go:25-29 | after seeding the store is exactly {1,X672762,USD,100}, {2,E35565,EUR,200}, {3,J35565,JPN,3000}, in that order |
| Registry.SeedLookups | go_echo_server2/main.go:25-29 | on the seeded store, IDs "1", "2" and "3" find the first, second and third seed record, and every other ID is not found |
| Registry.Store.List | go_echo_server2/main.go:51-53 | status 200 with the whole store, in insertion order; it only reads the store |
| Registry.Store.Count | go_echo_server2/main.go:55-59 | status 200 with the JSON string "count: " followed by the decimal numeral of the store's length, and that text parses back to the length; it only reads the store |
| Registry.CountAgreesWithList | go_echo_server2/main.go:51-59 | the number in the count body equals the length of the list the list handler returns |
| Decimal.FromNat | go_echo_server2/main.go:57 | the `%d` numeral is non-empty, all digits, and has no leading zero; it starts with '0' only for zero |
| Decimal.ValueOfDecimal | go_echo_server2/main.go:57 | reading a numeral back gives the number it was written from |
| Decimal.DecimalOfValue | go_echo_server2/main.go:57 | every canonical numeral is the numeral of its own value |
| Decimal.FromNatInjective | go_echo_server2/main.go:57 | different counts give different count texts |
| Registry.Lookup | go_echo_server2/main.go:61-76 | the status is 302 exactly when some record has the ID; then the body is the first such record in insertion order; otherwise status 404 with the JSON string "payment not found" |
| Registry.Store.GetByID | go_echo_server2/main.go:69-75 | the linear scan with early return gives the `Lookup` answer on the current store, so the first match with 302 or "payment not found" with 404; it does not modify the store |
| Registry.FirstMatchExists | go_echo_server2/main.go:69-74 | when some record has the ID, a first such record exists at or before it, so the scan's early return always has a first match to stop at |
| Registry.Store.Create | go_echo_server2/main.go:78-90 | a decoded record is appended: the length grows by one, the new record is last, every earlier record is unchanged, and the reply is 200 "We got your payment!"; a failed decode ends the process and leaves the store unchanged |
| Registry.LookupAfterAppend | go_echo_server2/main.go:88 | after an append, lookup gives the old answer if the ID was already present, the new record if only it has the ID, and not found otherwise |
| Registry.DuplicateIsShadowed | go_echo_server2/main.go:88 | appending a record whose ID is already present is allowed and keeps both records, and lookup of that ID still returns the earlier record |
| Registry.FoundSurvivesCreate | go_echo_server2/main.go:88 | a record that lookup found before a create is still the one it finds afterwards |
| Registry.CreatedIsFound | go_echo_server2/main.go:88 | after a create the new record's ID is always found, and the new record is the one returned when no earlier record had that ID |

## Left out

- JSON decoding of the request body and JSON encoding of responses: these are library calls. Decoding is an `Option<Payment>` input to `Create`, and a response body is a tagged value (`JsonPayment`, `JsonPayments`, `JsonString`, `PlainText`) rather than bytes.
- The echo framework: routing, `c.Param`, the logger and recover middleware, `e.Start` and `main`'s wiring (go_echo_server2/main.go:31-44). The path parameter is the `id` argument of `GetByID`.
- `healthCheck` (go_echo_server2/main.go:47-49): a constant 200 "Status is OK" reply that never touches the store.
- `log.Fatalf` (go_echo_server2/main.go:85) ends the process; the model records only that the outcome is `Terminated` and that no append happens. The `echo.NewHTTPError` return after it (go_echo_server2/main.go:86) can never run and is not modelled.
- Closing the request body (`defer ... Close()`, go_echo_server2/main.go:82) is I/O.
- `amount` is a float64 in the source. It is only stored and returned, so the model holds it as a `real` and gives it no floating-point semantics.
- Concurrent access: the source touches the global slice without locking. The model is one sequential store.
- Registry.Store.Count: the length is an unbounded `nat`; Go's `int` bound on a slice length is not modelled, since no store can reach it.
- The servers in `go_gin_server2/main.go` and `go_http_server/main.go`: each is one constant-response handler with no state.
