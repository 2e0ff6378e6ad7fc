# niso: OAuth2 error value and example storage, in Dafny

This project models two parts of niso, a Go OAuth2 authorization-server engine.

- **The OAuth2 error value** (`error.go`), module `Errors`.
  - The ten error codes of sections 4.1.2.1 and 5.2 of RFC 6749 form a closed datatype, with their wire spellings.
  - `NisoError` is a class. It holds the code, the diagnostic cause, the message, a private redirect URI and a private state.
  - Its two constructors build it. `SetRedirectURI` and `SetState` each update one field in place.
  - `GetResponseDict` renders the three-key mapping `error`, `error_description`, `state`.
  - `GetRedirectURI` merges the non-empty values of that mapping into the query of the parsed redirect URI, one key per loop step. It then clears the fragment.
- **The in-memory storage of the example server** (`example/storage/storage.go`), module `Storage`.
  - `ExampleStorage` is a class with four `map` fields: clients, authorization codes, access tokens and refresh tokens.
  - Its save and delete methods reassign those maps.
  - An unknown client is reported as the distinguished `NotFoundError`. An unknown code or refresh token is reported as a plain error.

A URL is a record: scheme, host, path, a query map from key to its list of values, and a fragment. URL parsing belongs to Go's `net/url`, so it is a parameter of `GetRedirectURI`: a function from string to either a `Url` or a `UrlError`.

The response mapping always includes the `state` key, with `""` when no state is set (error.go:100-106). An empty value, state or otherwise, never reaches a redirect URL, because `GetRedirectURI` merges only non-empty values (error.go:88-92).

## Model

| member | source | states |
|---|---|---|
| `Errors.CodeString` | error.go:14-26 | each code has its RFC 6749 spelling; no spelling is empty |
| `Errors.ParseCodeString` | error.go:14-26 | every code is read back from its own spelling |
| `Errors.ParseCodeSound` | error.go:14-26 | a string reads back as a code exactly when it is that code's spelling |
| `Errors.CodeStringInjective` | error.go:14-26 | two codes with the same spelling are the same code |
| `Errors.CodeSetClosed` | error.go:14-26 | every code is among the ten declared ones, and the ten spellings are pairwise distinct |
| `Errors.Wrap` | error.go:57 | wrapping keeps the inner cause and adds the message; wrapping a nil error gives nil |
| `Errors.WrapKeepsInnerText` | error.go:57 | a wrapped cause's text is the message, then ": ", then the inner cause's text |
| `Errors.RootCause` | error.go:53-60 | following the wrappings ends at a cause that is not itself a wrapping |
| `Errors.RootCauseTextIsSuffix` | error.go:53-60 | however often a cause is wrapped, its text still ends with the text of the original cause, which is kept for diagnostics |
| `Errors.NisoError.New` | error.go:44-51 | the new error has the given code and message, a cause made from the message, and an empty redirect URI and state |
| `Errors.NisoError.NewWrapped` | error.go:53-60 | the new error has the given code and message, the given cause wrapped with the message, and an empty redirect URI and state |
| `Errors.NisoError.SetRedirectURI` | error.go:62-65 | sets the redirect URI; the frame allows no other field to change |
| `Errors.NisoError.SetState` | error.go:67-70 | sets the state; the frame allows no other field to change |
| `Errors.NisoError.Error` | error.go:72-74 | the text splits into the code in parentheses plus a space, followed by the cause's text; defined only when a cause is present |
| `Errors.NisoError.GetResponseDict` | error.go:99-106 | the mapping has exactly the keys `error`, `error_description`, `state`, holding the code's spelling, the message and the state (even when empty) |
| `Errors.ResponseDictRoundTrip` | error.go:99-106 | the code, message and state are recovered from the rendered mapping |
| `Errors.NisoError.GetRedirectURI` | error.go:76-97 | no redirect URI gives no URL and no error; a parse failure is returned unchanged; otherwise the result is the parsed URL with the mapping merged into its query and the fragment cleared |
| `Errors.MergeNonEmptyAt` | error.go:87-92 | after the merge a key is present iff it was in the query or has a non-empty mapping value; such a value overwrites the key with that single value; every other key keeps its values |
| `Errors.RedirectedQuery` | error.go:87-96 | the redirect keeps scheme, host and path and has no fragment; it always carries the error code; state and description are set when non-empty and otherwise leave the original parameter, or its absence, alone; unrelated parameters are kept; no other keys appear |
| `Errors.RedirectedIdempotent` | error.go:87-95 | rendering an already rendered URL with the same mapping changes nothing |
| `Storage.ExampleStorage.constructor` | example/storage/storage.go:18-34 | a new storage holds only client `1234` (secret `aabbccdd`, redirect `http://localhost:14000/appauth`) and no codes or tokens |
| `Storage.ExampleStorage.Close` | example/storage/storage.go:36-39 | always succeeds |
| `Storage.ExampleStorage.GetClientData` | example/storage/storage.go:41-48 | returns the client iff the id is stored, and that client carries the id; otherwise returns the not-found error |
| `Storage.ExampleStorage.SaveAuthorizeData` | example/storage/storage.go:50-54 | succeeds; the code map gains or replaces exactly the entry under the record's code; no other map changes |
| `Storage.ExampleStorage.GetAuthorizeData` | example/storage/storage.go:56-64 | returns the record iff the code is stored, and that record carries the code; otherwise returns a plain error, not a not-found error |
| `Storage.ExampleStorage.DeleteAuthorizeData` | example/storage/storage.go:66-70 | succeeds and removes only the given code, present or not |
| `Storage.ExampleStorage.SaveAccessData` | example/storage/storage.go:72-76 | succeeds; only the entry under the access token is written; no other map changes |
| `Storage.ExampleStorage.GetRefreshTokenData` | example/storage/storage.go:78-84 | returns the record iff the token is stored, and that record carries the token; otherwise returns a plain error, not a not-found error |
| `Storage.ExampleStorage.SaveRefreshTokenData` | example/storage/storage.go:86-90 | succeeds; the refresh map gains or replaces exactly the entry under the token; no other map changes |
| `Storage.ExampleStorage.DeleteRefreshTokenData` | example/storage/storage.go:92-96 | succeeds and removes only the given token, present or not |
| `Storage.FreshStorageClients` | example/storage/storage.go:18-48 | a new storage finds the demo client under `1234` and reports every other id as not found |
| `Storage.AuthorizeLifecycle` | example/storage/storage.go:50-70 | save then get returns the saved record, even over an earlier one; after a delete, a second delete changes nothing and get fails; the other maps are untouched |
| `Storage.RefreshLifecycle` | example/storage/storage.go:78-96 | the same save, get and delete round trip for refresh tokens |
| `Storage.AccessSaveKeepsOthers` | example/storage/storage.go:72-76 | saving an access token stores it and keeps every other access token, and the other maps, as they were |

## Left out

- URL parsing, percent-encoding, `url.Values.Encode` key order and `URL.String()` belong to Go's `net/url`. Parsing is a parameter. `GetRedirectURI` returns the URL record instead of its serialised string.
- `Errors.NisoError.GetRedirectURI`: the loop takes the keys of the response mapping in an arbitrary order, like Go's map iteration. The keys are distinct, so the order does not change the result.
- `Errors.NisoError.Error`: the text of a cause follows the wording of the pkg/errors library, which is not part of this model: `errors.New(m)` has text `m`, and `errors.Wrap(c, m)` has text `m + ": " + text(c)`. `Errors.CauseText`, `Errors.WrapKeepsInnerText`, `Errors.RootCauseTextIsSuffix` and the last ensures of `Error` rest on that wording. Stack traces are not modelled. When `NewWrapped` is given a nil cause, the stored cause is nil, and Go's `Error()` would panic on it. The model makes `Error` require a cause.
- The `context.Context` arguments of the storage methods are ignored by the storage, so they are left out.
- The storage holds Go pointers. The model stores immutable records, so a caller changing a record after saving it is not modelled. A record cannot be nil in the model either: in Go, `SaveAuthorizeData`, `SaveAccessData` and `SaveRefreshTokenData` read the key through the pointer (storage.go:52, 74, 88) and panic on a nil record, and that panic is not modelled.
- `Errors.ErrorCode`: Go's `ErrorCode` is an open string type and `Code` is an exported field, so `""` (the zero value) or any other string is a valid Go code. The model has only the ten declared constants. For a code outside them, and in particular `""`, the Go `GetResponseDict` renders that string as `error`, and `GetRedirectURI` leaves `error` out of the query when it is empty; so `CodeString`'s non-emptiness and `RedirectedQuery`'s "always carries the error code" hold only for the ten constants.
- The record types are declared in niso files that are not part of this model. The storage reads only the key of each record. The other fields are an assumed shape.
- `example/simple.go` is left out. It only wires HTTP routes, logging and the listener around server methods that are not part of this model.
- The server, the request validators, the grant handlers and the token generator are not part of this model.
