# Record server request path, in Dafny

This project models the request handling of a small read-only HTTP server over a
file of person records (`main.go`). Every request goes through the same stages,
and each stage can stop it. Both routes are wrapped by the same `AuthMiddleware`
(`main.go:49`, `main.go:52`).

1. the token gate (`AuthMiddleware`): the `Authorization` header must be exactly `"robel"`, else 403 `"Forbidden"`;
2. the route: `/data` (all records) or `/data/{id}` (one record);
3. on the by-id route, the text after `/data/` is parsed with Go's `strconv.Atoi`, else 400 `"Invalid ID"`;
4. the store is loaded (`readAllJSONData("user.json")`), else 500 `"Failed to read data"`;
5. on the by-id route, the records are scanned in file order for the first whose id matches, else 404 `"Data not found"`.

Files:

- `wrappers.dfy` — `Option`.
- `strconv.dfy` — module `Strconv`: Go's `strconv.Atoi` for a 64-bit `int` (optional `+`/`-`, one or more ASCII digits, no underscores, value within int64; leading zeros accepted), and `Itoa`, the `%d` rendering the demo client uses to build `/data/<id>`, with the round trips between them.
- `server.dfy` — module `Server`: the `Data` record, requests and responses, the gate, both handlers as specification functions (`DataResponse`, `DataByIDResponse`), the whole pipeline `Serve`, and the by-id handler as the source runs it (`HandleDataByIDRequest`, a loop that stops at the first match), proved equal to its specification; `ServeHTTP` runs gate and handler and is proved equal to `Serve`.
- `properties.dfy` — module `ServerProperties`: precedence of the checks, the status and message mapping, pass-through of the whole collection, first-match lookup, the 404 characterisation, and the client's requests, and a worked example: a store with ids 1 and 2 asked for /data/1, /data/999, with a wrong token, for /data/x, and with a failed load.

The store load is an input (`LoadResult`: `Loaded(records)` or `LoadFailed`); `ReadAllJSONData`
builds it from the file read and the JSON decode, each taken as an abstract result, and
`StoreErrorIsServerError` and `ListAllFromFile` state the responses through it.
The route is an input too: the by-id handler requires a path that starts with `/data/`, which
the router guarantees. Without it the slice at `main.go:83` would panic on a path shorter than
`/data/`, and on a longer path without that prefix it would take text that is not the id segment.

## Model

| member | source | states |
|---|---|---|
| `Strconv.Atoi` | main.go:86-91 | a value is returned only for decimal text (optional sign, at least one digit) and only within Go's 64-bit int range; a negative value only for text starting with '-' |
| `Strconv.AtoiOfItoa` | client.go:54 | parsing the `%d` rendering of any 64-bit int gives that int back |
| `Strconv.ItoaOfAtoi` | main.go:86 | on canonical decimal text (no '+', no leading zero, no "-0") rendering Atoi's result gives the text back, so distinct canonical ids parse to distinct ints |
| `Strconv.AtoiLeadingZero` | main.go:86 | Atoi accepts leading zeros: "0" followed by digits parses like the digits alone |
| `Strconv.AtoiNegZero` | main.go:86 | "-0" is accepted and parses as 0, so `/data/-0` looks up id 0; with AtoiNegLeadingZero this covers every "-0…0" |
| `Strconv.AtoiPlusSign` | main.go:86 | a leading '+' is accepted and leaves the value unchanged: "+7" parses as 7 |
| `Strconv.AtoiNegLeadingZero` | main.go:86 | leading zeros after '-' are accepted: "-07" parses as -7 |
| `Strconv.AtoiRejectsNonDigit` | main.go:86-91 | any non-digit after the optional sign makes the parse fail, so the request gets 400 |
| `Strconv.NatDigits` | client.go:54 | the rendering of a natural number is a non-empty digit string without a leading zero |
| `Strconv.Itoa` | client.go:54 | the rendering of an int is decimal text, signed with '-' exactly when the int is negative |
| `Strconv.DigitsValueOfNatDigits` | client.go:54 | the digit string of n denotes n |
| `Strconv.NatDigitsOfDigitsValue` | main.go:86 | a digit string without leading zero is the rendering of the number it denotes |
| `ServerProperties.StoreErrorIsServerError` | main.go:116-132 | readAllJSONData fails when the file cannot be read or its bytes do not decode, and either failure gives 500 "Failed to read data" on both routes once the earlier checks pass (main.go:65-69, main.go:94-98) |
| `ServerProperties.ListAllFromFile` | main.go:63-77 | a file that reads and decodes is answered on "/data" with 200 and exactly the decoded records |
| `Server.HeaderGet` | main.go:34 | a missing Authorization header (or one with no values) reads as the empty string; otherwise its first value |
| `Server.FirstMatch` | main.go:102-109 | the index found holds a record with the requested id and no earlier record has it; none is found exactly when no record has the id |
| `Server.HandleDataByIDRequest` | main.go:81-113 | the by-id handler with its loop (invariant: no record before the current index matches) answers exactly as the by-id specification: 400, 500, the first matching record, or 404 |
| `Server.ServeHTTP` | main.go:31-45 | running the gate and then the route's handler answers exactly as the pipeline specification `Serve` |
| `ServerProperties.AuthMiddlewareIgnoresNext` | main.go:31-45 | AuthMiddleware with a token other than "robel" answers 403 "Forbidden" and its result does not depend on the wrapped handler |
| `ServerProperties.DataResponseFollowsLoad` | main.go:63-77 | handleDataRequest answers 200 with the loaded list exactly when the load succeeded, and the 500 text otherwise |
| `ServerProperties.DataByIDResponseOutcomes` | main.go:81-113 | handleDataByIDRequest: 400 when the id does not parse, else 500 when the load failed, else 200 exactly when some record has the id, else 404 "Data not found" |
| `ServerProperties.GateStopsRequest` | main.go:34-40 | without the exact secret the answer is 403 "Forbidden" whatever the route and the store: the wrapped handler is not reached |
| `ServerProperties.GatePassesThrough` | main.go:43 | with the secret the gate returns what the wrapped handler returns for the unchanged request |
| `ServerProperties.BothRoutesGated` | main.go:49-52 | `Serve` wraps both routes in the same gate: with the secret, `/data` answers as handleDataRequest and `/data/{id}` as handleDataByIDRequest |
| `ServerProperties.ForbiddenIffNotAuthorized` | main.go:37-40 | status 403 occurs exactly when the token is not the secret; no handler answers 403 |
| `ServerProperties.InvalidIDIsBadRequest` | main.go:86-94 | an id that does not parse gives 400 "Invalid ID" whatever the store holds: the parse precedes the load |
| `ServerProperties.LoadFailureIsServerError` | main.go:65-69 | a failed load gives 500 "Failed to read data" on both routes (by id: once the id parsed) and no record data (main.go:94-98 likewise) |
| `ServerProperties.ListAllReturnsWholeStore` | main.go:63-77 | `/data` answers 200 with the loaded records themselves, same length and same order |
| `ServerProperties.ByIDReturnsFirstMatch` | main.go:102-108 | a by-id 200 carries a record whose id is the parsed id and that is the first such record in file order |
| `ServerProperties.ByIDFindsPresentID` | main.go:102-108 | when some record has the parsed id, a by-id request answers 200 with a record of that id at or before it |
| `ServerProperties.NotFoundIffNoRecord` | main.go:102-112 | 404 "Data not found" exactly when the request passed the gate, the id parsed, the store loaded and no record has the id |
| `ServerProperties.StatusPrecedence` | main.go:37-112 | 403 before 400, 400 before 500, 500 before 200/404: each status exactly when all earlier checks passed and its own failed; 404 only by id |
| `ServerProperties.StatusAndPayload` | main.go:38-112 | every answer is 200, 400, 403, 404 or 500; errors carry their fixed message, "/data" successes the list, by-id successes one record |
| `ServerProperties.ClientPathParses` | client.go:54 | the path "/data/%d" the client builds has the router's prefix and its id text parses back to the id |
| `ServerProperties.ClientByIDCallsForbidden` | client.go:58 | the client's by-id calls, sent with "Bearer your_generated_token", are refused with 403 whatever the id and store |
| `ServerProperties.TwoRecordScenario` | main.go:81-113 | with records of ids 1 and 2: /data/1 gives record 1, /data/999 gives 404, a wrong token 403, /data/x 400, and a failed load 500 on both routes |

## Left out

- File reading (`ioutil.ReadFile`) and JSON decoding and encoding (`encoding/json`): library I/O and serialisation; the load is an input and the payload a value. The JSON key names of `Data` are recorded as comments only. Because encoding is not modelled, the difference between a store decoded from `null` (encoded back as `null`) and from `[]` is not captured.
- The response writer's step-by-step mutation (setting `Content-Type: application/json`, `http.Error`'s `text/plain` headers and the newline it appends to the message): a response is modelled as one value, status plus payload.
- Server setup, mux registration and `ListenAndServe` (`main.go:47-59`): process and network plumbing. The route is an input; how the mux matches "/data/{id}" (and what it does with other paths) is not modelled.
- Header key canonicalisation done by `Header.Get`: the request's header map is taken as already keyed by canonical names.
- URL percent-decoding of the path: the path is taken as already decoded.
- Per-request concurrency in `net/http`: handlers share no mutable state, so each request is modelled on its own; repeated requests with the same inputs give the same response because the model is a function of them.
- The demo client (`client.go`): I/O over an external HTTP library; only its path construction and the token it sends are used, in `ClientPathParses` and `ClientByIDCallsForbidden`.
- Strconv.Atoi: models the 64-bit `int` range only; a 32-bit build of the server would accept only int32 ids, and that build is not modelled.
