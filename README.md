# go-baseapp base server, modelled in Dafny

This project models the base server of `baseapp/server.go`. That package is a reusable wrapper around a goji HTTP router. The model covers four parts:

- **`NewServer`.** It builds a server skeleton and applies the `Param` options in order, stopping at the first error. If no option set middleware, it falls back to the default middleware chain. It then registers every middleware with the mux, in list order.
- **The accessors.** `HTTPConfig`, `Mux`, `Logger` and `Registry` return the stored fields.
- **`Start`.** This is the part before listening: the `sync.Once` guard around the metrics initialiser and the bind-address composition `Address + ":" + strconv.Itoa(Port)`.
- **`WriteJSON`.** It sets the JSON content type, then writes either the caller's status and the marshalled body, or 500 and an `{"error": ...}` body.

Modules:

- `BaseTypes` (types.dfy) holds the value types. The configuration is `HTTPConfig{address, port}`. The logger, registry, middleware and initialiser are opaque handles. It also has errors, Option/Result and bytes.
- `Decimal` (decimal.dfy) holds `Itoa` and its inverse `ParseInt`.
- `Builder` (builder.dfy) is the meaning of `NewServer` as pure functions: `Skeleton`, `ApplyParams` and `Build`. It also holds the lemmas about parameter order, early exit and untouched fields.
- `Goji` (goji.dfy) models the mux as an object whose middleware stack only grows through `Use`.
- `BaseApp` (baseapp.dfy) holds the `Server` class, its accessors and `Start`, the imperative `NewServer` proved equal to `Builder.Build`, and the bind address with its round trip.
- `JSONResponse` (response.dfy) holds the response writer as a trace of calls, and `WriteJSON` proved equal to the trace function `JSONEvents`.

How the parts the server only calls into are modelled:

- A `Param` is a value `Param(apply: Fields -> (Fields, Option<Error>))`. It changes the fields a param may set and possibly returns an error.
- `DefaultMiddleware` is a function parameter of `NewServer`. It returns a list, or `None` for a nil slice.
- The `ListenAndServe` call is a function parameter `listen` of `Start`. It maps the bind address to the error it returns.
- `json.Marshal` and `strconv.Quote` are function parameters of `WriteJSON`.

`NewServer` has two ghost out-parameters. `invoked` counts the params that were called. `defaultRequested` records whether the default middleware chain was requested. The server's ghost `history` records the effects of `Start` (initialiser run, listen) in order.

The initialiser runs at most once, and not at all before the first `Start` (`baseapp/server.go`, lines 95-97).

## Model

| member | source | states |
|---|---|---|
| `Builder.Skeleton` | baseapp/server.go:47-54 | the starting server holds the given config, nil middleware, the no-op logger, the default registry and no initialiser |
| `Builder.ApplyParams` | baseapp/server.go:56-60 | no more params are invoked than were given; with no error all of them were invoked; an error means at least one ran |
| `Builder.ErrorStopsApplication` | baseapp/server.go:56-59 | once a prefix of the params fails, the later params never run and do not affect the outcome (fields, error, invocation count) |
| `Builder.FirstErrorIsReturned` | baseapp/server.go:56-59 | if params `0..k-1` succeed and param `k` fails, the result is exactly param `k`'s error with the server as param `k` left it, after `k + 1` invocations |
| `Builder.ErrorComesFromLastInvoked` | baseapp/server.go:56-59 | conversely, any returned error is that of the last invoked param, which ran on the server as all earlier, successful params left it |
| `Builder.ApplyParamsSplit` | baseapp/server.go:56-60 | params run strictly in order: applying a list is applying its prefix and then the rest from the state the prefix left |
| `Builder.UntouchedFieldsKept` | baseapp/server.go:56-60 | a field (config, logger, registry) that no param changes keeps its value through the loop |
| `Builder.Build` | baseapp/server.go:46-71 | on a param error: the partial server, that error, no default requested, no `Use` call; otherwise: nil error, all params ran, the default is requested exactly when middleware is still nil, using the logger and registry the params left, and an explicit (even empty) list is kept unchanged; `Use` receives the resolved chain in order |
| `Builder.Elements` | baseapp/server.go:66 | ranging over a nil middleware slice yields nothing; ranging over a list yields that list |
| `Builder.BuildKeepsSkeleton` | baseapp/server.go:47-71 | untouched fields keep the skeleton's config, no-op logger and default registry; with no params the chain is the default for those values |
| `BaseApp.NewServer` | baseapp/server.go:46-71 | returns a fresh server and a fresh mux with exactly the fields, error, `Use` sequence, invocation count and default request of `Build`; the once-guard has not fired |
| `BaseApp.Server.ApplyParam` | baseapp/server.go:57 | calling one param on the server replaces exactly the fields it may set with the param's output and returns its error; the mux and the once-guard are untouched |
| `BaseApp.Server.RunParams` | baseapp/server.go:56-60 | the loop leaves the server, error and invocation count exactly as `ApplyParams` on the fields it started from |
| `BaseApp.Server.UseMiddleware` | baseapp/server.go:66-68 | the mux's stack grows by exactly the elements of the middleware list, in list order (nothing for a nil list) |
| `BaseApp.Server.Skeleton` | baseapp/server.go:47-54 | a fresh server holds the skeleton fields and a fresh mux with no middleware |
| `Goji.Mux.constructor` | baseapp/server.go:52 | a new mux has no middleware |
| `Goji.Mux.Use` | baseapp/server.go:67 | `Use` appends one middleware at the end of the mux's stack |
| `BaseApp.Server.HTTPConfig` | baseapp/server.go:74-76 | returns the stored configuration |
| `BaseApp.Server.Mux` | baseapp/server.go:79-81 | returns the server's own mux object (the same reference, not a copy) |
| `BaseApp.Server.Logger` | baseapp/server.go:84-86 | returns the stored logger |
| `BaseApp.Server.Registry` | baseapp/server.go:89-91 | returns the stored registry handle |
| `BaseApp.Server.Start` | baseapp/server.go:94-102 | runs the initialiser only if it is set and the guard has not fired, then listens on the bind address and returns the listener's error; the guard stays tied to "initialiser set and started" |
| `BaseApp.StartHistory` | baseapp/server.go:94-101 | after `n` calls of `Start` there are `n` events, plus one when an initialiser is set and `n > 0` |
| `BaseApp.StartEvents` | baseapp/server.go:95-101 | one `Start` ends with a listen on the address; it runs the initialiser first exactly when one is set and the guard has not fired |
| `BaseApp.StartHistoryShape` | baseapp/server.go:94-101 | after `n` calls of `Start`, the initialiser has run once if it is set and `n > 0`, before the first listen, and never otherwise; there are exactly `n` listens on the bind address |
| `BaseApp.InitRunsAtMostOnce` | baseapp/server.go:95-97 | across any number of `Start` calls the initialiser runs at most once, and never when it is nil |
| `BaseApp.BindAddress` | baseapp/server.go:99 | the bind address is the configured address, then ':', then `Itoa(port)`, and no ':' follows the separator |
| `BaseApp.BindAddressRoundTrip` | baseapp/server.go:99 | splitting the bind address at its last ':' gives back the address and `Itoa(port)`, and parsing gives back the configuration |
| `BaseApp.BindAddressInjective` | baseapp/server.go:99 | distinct configurations give distinct bind addresses |
| `Decimal.NatToDecimal` | baseapp/server.go:99 | renders a natural number as at least one decimal digit with no leading zero, and "0" exactly for zero |
| `Decimal.Itoa` | baseapp/server.go:99 | a leading '-' appears exactly for negative values, followed by digits with no leading zero |
| `Decimal.ItoaRoundTrip` | baseapp/server.go:99 | parsing the decimal rendering of any integer gives the integer back |
| `Decimal.ItoaInjective` | baseapp/server.go:99 | distinct ports render differently |
| `JSONResponse.ErrorBody` | baseapp/server.go:111 | the fallback body is `{"error": ` followed by the quoted message and `}` |
| `JSONResponse.JSONEvents` | baseapp/server.go:106-115 | three calls: the JSON content type header first; then the caller's status and the marshalled bytes, or status 500 and the error body when marshalling fails |
| `JSONResponse.JSONEventsWellFormed` | baseapp/server.go:106-115 | every `WriteJSON` trace sets the header first and writes exactly one status, before any body write |
| `JSONResponse.WriteJSON` | baseapp/server.go:105-116 | the calls made on the writer are exactly `JSONEvents` for the marshaller's result |
| `JSONResponse.ResponseWriter.SetHeader` | baseapp/server.go:106 | records one header set after the earlier calls |
| `JSONResponse.ResponseWriter.WriteHeader` | baseapp/server.go:110-113 | records one status write after the earlier calls |
| `JSONResponse.ResponseWriter.Write` | baseapp/server.go:114 | records one body write after the earlier calls |

## Left out

- `http.ListenAndServe` and the serving loop (line 101) are not modelled. `Start` gets a `listen` function and returns its error. `listen` is a fixed function of the bind address, so every `Start` on a server returns the same error. A second bind that fails differently from the first (for example because the port is now taken) is not modelled.
- Panics are not modelled. A nil `Param` panics at line 57, but a `Param` value here cannot be nil. A param, `DefaultMiddleware` or the initialiser may panic in Go; here they always return. `sync.Once.Do` marks itself done even when the initialiser panics (line 96); that case is not modelled either.
- The concurrency of `sync.Once` (blocking concurrent callers until the initialiser finishes) is not modelled. Only the sequential at-most-once flag is.
- The log call on line 100 and the logger's internals are left out. They do not affect the server's state.
- goji's dispatch and the request-time nesting of middleware (first registered = outermost) are left out. Only the order of `Use` calls is recorded.
- The bodies of `DefaultMiddleware` and the metrics registry are not part of this model. `DefaultMiddleware` is a parameter, and registries are opaque handles.
- The definition of `HTTPConfig` is not part of this model. It is the record `{address, port}`.
- `json.Marshal` and `strconv.Quote` are oracles. Marshal yields bytes or an error. Quote yields the bytes `Fprintf` writes for the quoted message.
- `NewServer`: a `Param` acts only on the fields config, middleware, logger, registry and the initialiser. A param that replaces the mux, or calls `Use` on it directly, is not modelled.
- The port is an unbounded integer rather than Go's 64-bit `int`. `Itoa` is defined for every integer, so no value of the Go range behaves differently.
- `ResponseWriter.Write`: the byte count and error that `Write` and `Fprintf` return are ignored by the source and not modelled. `Header().Set` is recorded as one event rather than as a header map.
