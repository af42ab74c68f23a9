# Bill service: a Dafny model of the in-memory bill store

The program is a small REST resource server. It keeps bills (`Bill{Id, Name}`)
in an unsynchronised `map[string]Bill` owned by `BillService`, and exposes five
go-restful handlers over it:

- `findAllBills` (`GET /bills`)
- `findBill` (`GET /bills/{bill-id}`)
- `updateBill` (`PUT /bills/{bill-id}`)
- `createBill` (`PUT /bills`)
- `removeBill` (`DELETE /bills/{bill-id}`)

This project models each handler as a pure function. It takes the store before
the request, the path parameters bound by the route, and the decoded body where
the handler reads one. It returns the store after the request together with an
abstract response. The response variants are: `Ok` (200), `OkAll` (200, the
whole store), `Created` (201), `NotFound` (404, "Bill could not be found."),
`ServerError` (500, the decoder's error text) and `OkEmpty` (the implicit 200
with no body that `removeBill` leaves).

Files:

- `wrappers.dfy`: `Option` and `Result`.
- `bills.dfy`: `Bill`, the store, Go's zero-value map lookup, insert/replace and
  delete, and the key/identifier invariant `KeysMatchIds`.
- `requests.dfy`: path parameters (a missing one reads as ""), and the abstract
  decoded body. The body is either a decode failure or a set of optional `Id`
  and `Name` fields. `ReadEntity` lays it over an initial bill: absent fields
  keep their prior value, as Go's JSON and XML decoders do.
- `responses.dfy`: the response datatype and its status codes. The codes are
  200 and 201 (sections 15.3.1 and 15.3.2 of RFC 9110), 404 (section 15.5.5 of RFC 9110)
  and 500 (section 15.6.1 of RFC 9110).
- `handlers.dfy`: the five handlers and the properties of single requests.
- `service.dfy`: requests handled one at a time from the empty store that
  `main` creates. It holds the invariants over any sequence of requests and
  the create/fetch/update/delete lifecycle of one bill.

Behaviour kept as the code has it:

- `findBill` answers 404 when the fetched bill's own `Id` is empty. It does
  not test whether the key is present. An absent key yields Go's zero bill, so
  both cases meet in the same check.
- `updateBill` never reads its path `bill-id`. It decodes the body over a zero
  bill and stores the result under the identifier the body carries. This is a
  full replace: omitted fields become "".
- `createBill` starts from `Bill{Id: PathParameter("bill-id")}`. Its route
  `PUT /bills` binds no such parameter, so the start is always the zero bill.
  The stored identifier is the one in the body, or "" when the body has none.
- Deleting an absent key does nothing.

Two expectations a reader might have hold only in part:

- One might expect the listing to show exactly the identifiers the lookup
  finds. This holds for every non-empty identifier (`Service.ListMatchesFind`).
  It fails for key "": a create or update whose body has no `Id` stores a bill
  under "", which the listing shows and the lookup never finds
  (`Service.EmptyKeyListedButNotFound`).
- One might expect an update at `id` to make the lookup of `id` return the
  new bill. This holds only when the body's `Id` is `id`. Otherwise the bill
  goes under the body's identifier and `id` keeps its old answer
  (`Handlers.FindAfterUpdate`).

## Model

| member | source | states |
|---|---|---|
| `Bills.Lookup` | api-example.go:68 | indexing the map gives the stored bill for a present key and the zero bill for an absent one, so the fetched bill's `Id` is empty exactly when the key is absent or its bill has an empty `Id` |
| `Bills.Save` | api-example.go:83 | writing a bill under its own `Id` inserts or replaces only that key; the other keys keep their bills; the key/identifier invariant is kept |
| `Bills.Delete` | api-example.go:108 | deleting removes only key `id`; deleting an absent key leaves the store unchanged; the key/identifier invariant is kept |
| `Requests.PathParameter` | api-example.go:67 | a path parameter the route does not bind reads as "" |
| `Requests.ReadEntity` | api-example.go:81 | decoding fails exactly on a malformed body and then carries its error; otherwise each field present in the body overwrites the initial bill's field and each absent field keeps its prior value |
| `Requests.ReadFullBody` | api-example.go:95 | a body carrying both fields decodes to exactly that bill, whatever initial bill it is laid over |
| `Handlers.FindAllBills` | api-example.go:60-62 | the listing writes the whole store with status 200 and changes nothing |
| `Handlers.FindBill` | api-example.go:66-74 | the lookup never changes the store; it answers `Ok(store[id])` exactly when `id` is a key whose bill has a non-empty `Id`, and otherwise 404 with "Bill could not be found." |
| `Handlers.UpdateBill` | api-example.go:79-88 | on a malformed body, the store is unchanged and the answer is 500 with the decode error; otherwise the decoded bill (absent fields empty) goes under its own `Id`, every other key keeps its bill, and the response echoes it |
| `Handlers.CreateBill` | api-example.go:93-102 | on a malformed body, the store is unchanged and the answer is 500; otherwise the bill's `Id` comes from the body, or from the path parameter when the body omits it; it is stored under that `Id`, no other key changes, and the answer is 201 with the stored bill |
| `Handlers.RemoveBill` | api-example.go:106-109 | removal drops only key `id` and leaves every remaining bill unchanged; nothing is written back |
| `Handlers.IdParams` | api-example.go:32 | the routes with a `{bill-id}` segment hand their identifier to the handler as that path parameter |
| `Handlers.FindOkIffPresent` | api-example.go:66-73 | when every key matches its bill's `Id`, the lookup succeeds exactly for a present, non-empty key and returns that key's bill |
| `Handlers.FindEmptyIdNotFound` | api-example.go:69 | when every key matches its bill's `Id`, looking up "" always answers 404, even if a bill with an empty `Id` sits under key "" |
| `Handlers.UpdateIgnoresPathId` | api-example.go:79-84 | two updates that differ only in the path `bill-id` give the same store and the same response |
| `Handlers.UpdateReplacesNotMerges` | api-example.go:80-83 | an update replaces the whole stored bill: a name the body omits becomes "", and a body with no `Id` is stored under key "" |
| `Handlers.FindAfterUpdate` | api-example.go:79-84 | after an update with bill `b`, looking up `b.Id` (when non-empty) returns `b`, and looking up any other identifier answers as before |
| `Handlers.FindAfterCreate` | api-example.go:93-98 | after creating a bill with a non-empty `Id`, looking it up returns that bill |
| `Handlers.CreateMatchesUpdateWithoutPathId` | api-example.go:94 | when the route binds no `bill-id`, a create stores the same bill as an update of the same body; only the status differs (201 against 200); a decode failure gives the same 500 from both |
| `Handlers.RemoveIdempotent` | api-example.go:106-109 | removing the same identifier twice leaves the same store as removing it once |
| `Handlers.RemoveAbsentIsNoOp` | api-example.go:108 | removing an absent identifier leaves the store exactly as it was |
| `Handlers.FindAfterRemove` | api-example.go:66-73 | after removing `id`, looking up `id` answers 404 |
| `Handlers.HandlersKeepKeysMatchIds` | api-example.go:83 | each of the five handlers keeps every bill stored under its own `Id` |
| `Service.Serve` | api-example.go:26-53 | the route table: listing and lookup leave the store unchanged, the lookup of `id` succeeds exactly for a present key whose bill has a non-empty `Id`; create (the route with no `{bill-id}`) and update store what an update with an empty path identifier stores, answering 201 and 200; removal drops exactly `id` |
| `Service.Run` | api-example.go:112 | a session yields one response per request, the first being the first request's answer against the starting store; an empty session leaves the store as it was |
| `Service.RunAppend` | api-example.go:112 | handling `a` then `b` is handling `b` against the store `a` left: the final store is the one `b` leaves and the responses are `a`'s followed by `b`'s |
| `Service.RunStep` | api-example.go:112 | the response to request `i` is that request's answer against the store the first `i` requests left, and the store after `i+1` requests is the one it leaves |
| `Service.ServeKeepsKeysMatchIds` | api-example.go:97 | a single request, whichever route it takes, keeps every bill under its own `Id` |
| `Service.RunKeepsKeysMatchIds` | api-example.go:83 | any sequence of requests keeps every bill under its own `Id` |
| `Service.FreshServiceKeysMatchIds` | api-example.go:112 | from the empty store, after any requests, every key equals its bill's `Id` |
| `Service.ServeKeepsAbsent` | api-example.go:97 | a request that writes no bill with identifier `id` leaves an absent `id` absent |
| `Service.RunKeepsAbsent` | api-example.go:83 | a key that no request of a sequence writes stays absent |
| `Service.NeverWrittenNotFound` | api-example.go:66-73 | from the empty store, looking up an identifier that no request wrote answers 404 |
| `Service.ListMatchesFind` | api-example.go:60-73 | from the empty store, a non-empty identifier is in the listing exactly when the lookup finds it |
| `Service.EmptyKeyListedButNotFound` | api-example.go:93-98 | a create whose body omits `Id` stores a bill under key ""; the listing shows it and the lookup of "" answers 404 |
| `Service.BillLifecycle` | api-example.go:76-108 | create bill "1", fetch it, rename it, delete it, fetch it again: 201, 200, 200 with the new name, empty 200, then 404, ending with an empty store |

## Left out

- Route registration and documentation metadata (`Register`, api-example.go:19-56). These are declarative calls into go-restful. The model keeps only what reaches the handlers: which routes bind `bill-id`.
- Swagger setup, logging and the HTTP listener (`main`, api-example.go:115-129). This is process bootstrap and I/O. Only the empty initial store (line 112) is modelled.
- JSON/XML encoding, decoding and content negotiation (`ReadEntity`, `WriteEntity`, `WriteError`). The decoded body is an abstract input, either a failure or optional `Id`/`Name` fields, and responses are abstract values.
- A JSON `null` body in `updateBill`. Decoding `null` into the `**Bill` argument sets the pointer to nil, and the next line dereferences it. The abstract body has no such case, so that panic is not modelled.
- Concurrent requests against the unsynchronised map. Requests are handled one at a time.
- Error text formatting: `ServerError` carries the decoder's error string as given. It does not model how go-restful renders it.
