# Session-scoped TLS client factory: a Dafny model

This project models the core of the `cffi_src` factory of go-tls-client. The factory
hands out HTTP clients with a chosen TLS/HTTP2 fingerprint and keeps one client per
session id. It also translates request and response descriptions to and from the
library's objects.

- **Session registry** (`sessions.dfy`, module `Sessions`). `Registry` is a class
  holding `clients: map<string, Handle?>`.
  - The first call for a session id resolves a profile, builds the option list,
    builds a client and stores it under the id.
  - Later calls reuse that same handle. They may change its proxy and its redirect
    flag in place (`HandleModification`).
  - A conflicting or missing client choice is rejected before the registry is consulted.
  - The session id is the caller's when it is non-empty, otherwise the generated one.
  - `Valid()` states that no two ids share a live handle. Every method keeps it.
- **Client handle and options** (`clients.dfy`, module `Clients`). `Handle` is a class.
  Its profile, timeout and verification flag are `const`; proxy and redirect flag are
  mutable. `ClientOptions` builds the constructor options by appending, as the source
  does. `ApplyOptions` gives the configuration those options produce.
- **Profile resolution** (`profiles.dfy`, module `Profiles`).
  - A named identifier is looked up in the catalog, falling back to the default profile.
  - A custom definition is converted by `GetCustomTlsClientProfile`, which fills the
    settings map, the settings order and the priority frames with loops. Its result
    equals the reference definition `CustomProfileOf`. Orders and pairs are kept as given.
- **Translation** (`translation.dfy`, module `Translation`). `BuildRequest` validates
  and builds the header map. `CookiesToMap` flattens cookies, with the last cookie of
  a name winning. `BuildResponse` copies session id, status and headers.

The external HTTP/TLS library is the `Library` value in `types.dfy`. It holds the named
catalog, the default profile, the default timeout and the header-order key. It also
answers four questions: whether the JA3 string parses, whether a client configuration,
a new proxy, or a method and URL are accepted. Finally it serializes cookies. The
generated uuid is a parameter (`generatedId`) of `GetTlsClientFromInput`.

Two behaviours of the code are kept as written:
- `getTlsClient` stores the new client under the id before it looks at the
  construction error (cffi_src/factory.go:169-173). When construction fails, the entry
  is a nil client, modelled as `null`. A later call for that id calls methods on the
  nil client, which in Go is a runtime panic. The model returns `NilClientPanic` and
  changes nothing. `FailedConstructionPoisonsSession` states the two-call consequence.
- The Content-Type check in `BuildRequest` looks only for the two exact keys
  `content-type` and `Content-Type`. Any other casing is not recognized.

## Model

| member | source | states |
|---|---|---|
| `Sessions.SessionIdFor` | cffi_src/factory.go:20-25 | the session id is the caller's id when it is given and non-empty, otherwise the generated id |
| `Sessions.ClientChoiceError` | cffi_src/factory.go:27-35 | no error exactly when one of TLS identifier and custom client is given; both given and neither given each yield their own error |
| `Sessions.Registry.GetTlsClientFromInput` | cffi_src/factory.go:19-45 | returns the chosen session id in every case; an invalid client choice returns its error with the registry and the stored handle untouched; otherwise the outcome of the get-or-create step; the handles of all other ids keep their proxy and redirect flag |
| `Sessions.Registry.GetTlsClient` | cffi_src/factory.go:106-174 | known id: same map, the stored handle itself returned, proxy changed only when supplied and different, redirect flag as requested, or a proxy rejection changing nothing; nil entry: panic outcome, nothing changed; new id: profile failure leaves the map alone, otherwise the map gains exactly this id, mapped to a fresh handle with the requested configuration, or to nil with a construction error; the handles of all other ids keep their proxy and redirect flag |
| `Sessions.Registry.ReuseClient` | cffi_src/factory.go:113-126 | for an id with a live handle: the map is unchanged and that handle is modified as `handleModification` promises and returned, or a proxy rejection returns no client and changes nothing; the handles of all other ids keep their proxy and redirect flag |
| `Sessions.Registry.CreateClient` | cffi_src/factory.go:128-173 | for a new id: a profile failure returns that error and leaves the map alone; otherwise the map gains exactly this id, bound to the constructed client even when construction fails, and success holds exactly when the library accepts the requested configuration, giving a fresh handle with it |
| `Sessions.ResolveClientProfile` | cffi_src/factory.go:128-142 | the profile step yields exactly the reference resolution `ResolveProfile` |
| `Sessions.HandleModification` | cffi_src/factory.go:228-246 | proxy installed only when supplied and different; a rejected proxy returns an error and changes nothing; redirect flag ends as requested; `changed` holds exactly when the proxy or the flag changed; the same handle is returned |
| `Sessions.Registry.constructor` | cffi_src/factory.go:17 | the registry starts empty and valid |
| `Sessions.SameSessionReusesClient` | cffi_src/factory.go:113-126 | two calls with the same non-empty id: once the first built a client, the second returns that same object (whenever it returns one, and always when it supplies no proxy and a valid choice) |
| `Sessions.FailedConstructionPoisonsSession` | cffi_src/factory.go:169-173 | two calls on one new id: when the first call's construction fails, the id is left bound to nil, and a second call with a valid client choice gets the nil-client outcome |
| `Profiles.GetTlsClientProfile` | cffi_src/factory.go:218-226 | a catalog identifier yields its catalog profile; an unknown one yields the default profile; the lookup never fails |
| `Profiles.CustomProfileOf` | cffi_src/factory.go:177-215 | failure exactly when the JA3 string does not parse, and then the JA3 error; otherwise the "Custom"/"1" handshake identity with the parsed factory, the pseudo-header order and the connection flow copied |
| `Profiles.ResolveProfile` | cffi_src/factory.go:128-142 | failure exactly when a custom definition is given and its JA3 string does not parse, and then the JA3 error; otherwise an identifier, when given, wins over the custom profile; a custom definition alone gives its custom profile; neither gives the zero profile |
| `Profiles.GetCustomTlsClientProfile` | cffi_src/factory.go:176-216 | the loops build exactly the reference custom profile, or the JA3 parse failure |
| `Profiles.CustomProfilePreserves` | cffi_src/factory.go:177-215 | failure exactly when JA3 parsing fails; otherwise a "Custom"/"1" handshake identity with the parsed factory, settings order of the same length and elements in the same order, the same setting pairs in both directions, pseudo-header order and flow copied, priority frames copied field by field in order |
| `Profiles.SettingsOrderNotSorted` | cffi_src/factory.go:188-191 | a settings order 2, 4, 1 comes out as 2, 4, 1 |
| `Profiles.ResolveProfileOfOneChoice` | cffi_src/factory.go:128-142 | with exactly one choice, a new client's profile is the named lookup or the custom conversion |
| `Profiles.Setting` | cffi_src/factory.go:185 | the typed setting id has the same number as the caller's code |
| `Clients.ApplyOptionsAppend` | cffi_src/factory.go:150-167 | an appended option takes effect after all earlier ones |
| `Clients.ClientOptions` | cffi_src/factory.go:144-167 | the options produce: timeout from the input, or the default when it is 0; the resolved profile; the input's redirect and verification flags; the proxy only when non-nil and non-empty. A proxy option, a no-redirect option and a skip-verify option appear exactly when requested |
| `Clients.NewHttpClient` | cffi_src/factory.go:169 | success exactly when the library accepts the configuration the options produce; then a fresh handle with that configuration, else no handle |
| `Clients.Handle.constructor` | cffi_src/factory.go:169 | a handle carries the configuration it was built with |
| `Clients.Handle.SetProxy` | cffi_src/factory.go:232 | the proxy is replaced when the library accepts it and kept otherwise; the redirect flag is untouched |
| `Clients.Handle.SetFollowRedirect` | cffi_src/factory.go:241 | the redirect flag takes the new value and the proxy is untouched; it never fails |
| `Translation.BuildRequest` | cffi_src/factory.go:47-84 | empty method or URL is an error; a non-empty body without either exact Content-Type key is an error; a library refusal is an error; success exactly otherwise, with the body kept only when non-empty, every input header mapped to the one-element list of its value, and the header-order key mapped to the header order verbatim |
| `Translation.CookiesToMap` | cffi_src/factory.go:248-256 | the loop builds the reference cookie map; its keys are exactly the cookie names; each name maps to the serialization of the last cookie with that name; no cookies give the empty map |
| `Translation.CookieMapKeys` | cffi_src/factory.go:251-253 | the cookie map's key set is the set of cookie names |
| `Translation.CookieMapLastWins` | cffi_src/factory.go:251-253 | the last cookie of a name determines that name's value |
| `Translation.DistinctCookiesKeepBoth` | cffi_src/factory.go:251-253 | cookies named `a` and `b` give a map with exactly those two keys |
| `Translation.DuplicateCookieLastWins` | cffi_src/factory.go:251-253 | two cookies with one name give one key holding the later cookie's string |
| `Translation.BuildResponse` | cffi_src/factory.go:86-104 | an unreadable body is the only failure; otherwise session id, status, body and headers are copied; the cookie map has the cookie names as keys and the last cookie of each name as value |

## Left out

- The registry lock (cffi_src/factory.go:16, 107-108): the registry methods are atomic
  sequential methods. Concurrent first use of one id is not modelled.
- `uuid.New()`: a parameter. Nothing is assumed about it, not even uniqueness.
- Library internals are oracles in `Library`: `NewHttpClient`, JA3 parsing, the catalog
  and default profile, `http.NewRequest`, cookie serialization, `SetProxy` validation,
  and the values of the default timeout and of the header-order key.
- Clients.NewHttpClient: assumes the library returns a nil client together with its
  error. That library code is not part of this model.
- The base configuration (`BaseConfig`) assumes the library follows redirects, verifies certificates and
  uses no proxy unless an option says otherwise.
- The connection pool and the request execution of a client are not modelled.
- Translation.BuildResponse: reading and closing the body are I/O. The body is a
  stream value that either reads fully or fails. That the body is closed exactly once
  is not modelled.
- Error messages and the `TLSClientError` wrapper: errors are a tag per failure class.
  The cause chain of a wrapped error is not kept.
- With neither choice given, `ResolveProfile` yields the Go zero value profile.
  That path cannot be reached from `GetTlsClientFromInput`.
- No operation removes a session: the source has none.
