# passport-ember-auth: the EmberAuth strategy in Dafny

This project models the EmberAuth strategy for Passport (`lib/passport-ember-auth/strategy.js`). The strategy authenticates an HTTP request by an opaque token. The token can arrive in three carriers: the `Authorization` header as `<scheme> <token>`, a body field named by the token key, or a query field of the same name. The strategy hands the token to an application-supplied verifier. It then settles the request with exactly one of `success(user, info)`, `fail(status)` or `error(err)`.

Modules:

- `JsValues`: the JavaScript values passed through untouched (`err`, `user`, `info`, `passReqToCallback`) and JavaScript truthiness, which every `if` in the strategy uses.
- `SplitString`: `String.prototype.split` with a one-character separator. The proofs show that k separators give k + 1 pieces, that no piece contains the separator, and that `Join` undoes `Split`. They also show that exactly two pieces means exactly one space.
- `TokenPattern`: the scheme test `new RegExp(tokenKey, "i").test(scheme)`. It is modelled as case-insensitive substring containment. The recursive `Test` is proved equal to "the key occurs at some position".
- `Locator`: the request (three optional string maps) and `Locate`, a declarative reference definition of the locator. A non-empty header without exactly one space fails as malformed, whatever else the request holds. Otherwise each carrier that offers a non-empty value contributes it, and exactly one contribution must exist: none is `NotFound`, two or more is `Conflict`.
- `Dispatcher`: the inner `verified(err, user, info)` callback, and the three documented ways a verifier finishes.
- `EmberAuth`: construction (`Configure` as the case-by-case definition, `NewStrategy` sniffing the arguments step by step like the source) and the `Strategy` class. Its method `Authenticate` follows the source statement by statement: a local `token` is updated across three `if` blocks, with early returns. It is proved to fail with 400 and leave the verifier uncalled exactly when `Locate` finds no token. Otherwise it calls the verifier once with exactly the located token, as `(token, done)` or `(req, token, done)`, and settles the request as `Verified` says.
- `Scenarios`: the requests of `test/strategy-test.js`, stated for every space-free token, plus client methods that run whole strategies with the tests' verifiers.

The verifier is modelled as a total function from the call it receives to the arguments it passes to `done`. `Authenticate` returns both the call it made (`None` when the verifier was not called) and the resulting disposition.

Two behaviours of the code that a reader may not expect are modelled as written:

- A header whose token part is empty (`"AUTH_TOKEN "`) sets the token to `""`. The body and query checks test that value for truthiness, so it is treated as no token at all: it neither conflicts with a later body or query value nor succeeds on its own.
- The options argument may be left out only by passing the verifier first: the sniffing recognises nothing else. `new Strategy(undefined, verify)` passes the missing-verifier check and then throws while reading `options.tokenKey` (line 56). The model reports this as `OptionsNotObject`.

## Model

| member | source | states |
|---|---|---|
| `EmberAuth.Strategy.Authenticate` | lib/passport-ember-auth/strategy.js:72-118 | Fails with 400 and never calls the verifier exactly when no single token is located. Otherwise it calls the verifier once with exactly the located token: `(req, token)` when `passReqToCallback` is truthy, `(token)` otherwise. The disposition is then what `verified` makes of the callback's arguments. |
| `Locator.Locate` | lib/passport-ember-auth/strategy.js:73-102 | A located token is never empty. |
| `Locator.Contributions` | lib/passport-ember-auth/strategy.js:75-100 | At most three candidate tokens, one per carrier, none of them empty. |
| `Locator.MalformedHeaderDecides` | lib/passport-ember-auth/strategy.js:75-88 | A non-empty header with no space, or two or more spaces, is malformed. The body and query are irrelevant then. |
| `Locator.WellFormedHeader` | lib/passport-ember-auth/strategy.js:76-85 | A header `scheme token` (one space) is well formed. It offers `token` exactly when the key occurs in the scheme ignoring case and the token is non-empty. |
| `Locator.HeaderAlone` | lib/passport-ember-auth/strategy.js:75-102 | A matching header with a non-empty token, and no body or query value, yields that token. |
| `Locator.IgnoredHeader` | lib/passport-ember-auth/strategy.js:77-85 | A well-formed header whose scheme does not match, or whose token part is empty, changes nothing: the result equals that of the request without headers. |
| `Locator.EmptyHeaderSkipped` | lib/passport-ember-auth/strategy.js:75 | An empty `Authorization` value is skipped, not malformed. |
| `Locator.BodyAlone` | lib/passport-ember-auth/strategy.js:92-95 | With no usable header, a non-empty body value alone is the token. |
| `Locator.QueryAlone` | lib/passport-ember-auth/strategy.js:97-100 | With no usable header, a non-empty query value alone is the token. |
| `Locator.TwoCarriersConflict` | lib/passport-ember-auth/strategy.js:92-100 | Any two carriers that both offer a token conflict, whichever two they are and whatever their values. |
| `Locator.HeaderAndFieldConflict` | lib/passport-ember-auth/strategy.js:83-100 | A matching header with a token, plus a body or query value, is a conflict even when the values are equal. |
| `Locator.NothingSupplied` | lib/passport-ember-auth/strategy.js:102 | When no carrier offers a non-empty token, the result is `NotFound`. |
| `Locator.FoundComesFromOneCarrier` | lib/passport-ember-auth/strategy.js:84-99 | A found token is literally the header's second piece, the body value or the query value. |
| `Dispatcher.Verified` | lib/passport-ember-auth/strategy.js:106-110 | `error(err)` if and only if `err` is truthy, with `err` unchanged. `fail(401)` if and only if `err` and `user` are both falsy. `success` if and only if `err` is falsy and `user` truthy, with `user` and `info` passed unchanged. |
| `Dispatcher.DocumentedOutcomes` | lib/passport-ember-auth/strategy.js:19-23 | `done(err)`, `done(null, false)` and `done(null, user, info)` give `error(err)`, `fail(401)` and `success(user, info)`. |
| `EmberAuth.KeyOrDefault` | lib/passport-ember-auth/strategy.js:56 | The token key is the given key when non-empty, else `auth_token`. It is never empty. |
| `EmberAuth.Configure` | lib/passport-ember-auth/strategy.js:46-57 | Throws for a missing verifier exactly when neither argument supplies one. A lone function is the verifier, with the default key and a falsy `passReqToCallback`. An options object's key (defaulted) and flag are kept. `undefined` options followed by a verifier throw. A configured key is never empty. |
| `EmberAuth.NewStrategy` | lib/passport-ember-auth/strategy.js:46-58 | Fails exactly as `Configure` does. Otherwise it returns a fresh strategy holding `Configure`'s settings. |
| `EmberAuth.Strategy.constructor` | lib/passport-ember-auth/strategy.js:55-57 | Stores the verifier, the defaulted token key and the `passReqToCallback` option. |
| `SplitString.Split` | lib/passport-ember-auth/strategy.js:76 | k separators give k + 1 pieces, none containing the separator. |
| `SplitString.JoinSplit` | lib/passport-ember-auth/strategy.js:76 | Joining the pieces with the separator gives back the string. |
| `SplitString.SplitTwo` | lib/passport-ember-auth/strategy.js:76-79 | Two space-free strings joined by one space split back into exactly those two. |
| `SplitString.SplitWithoutSeparator` | lib/passport-ember-auth/strategy.js:76-77 | A string without a space is a single piece, so a header that is only a scheme is malformed. |
| `SplitString.TwoPieces` | lib/passport-ember-auth/strategy.js:76-79 | Exactly two pieces if and only if exactly one space. The string is then scheme, space, token. |
| `TokenPattern.Test` | lib/passport-ember-auth/strategy.js:81-83 | True if and only if the key occurs at some position of the scheme, letters compared without case. |
| `TokenPattern.SameUpToCaseMatches` | lib/passport-ember-auth/strategy.js:81-83 | A scheme equal to the key up to case matches. |
| `TokenPattern.UpperMatches` | lib/passport-ember-auth/strategy.js:81-83 | The upper-cased key matches the key. |
| `TokenPattern.EmbeddedMatches` | lib/passport-ember-auth/strategy.js:81-83 | A scheme containing the key anywhere matches: the test is containment, not equality. |
| `TokenPattern.ShortLabelFails` | lib/passport-ember-auth/strategy.js:81-83 | A scheme shorter than the key never matches. |
| `Scenarios.SchemeEqualUpToCase` | lib/passport-ember-auth/strategy.js:75-85 | A header whose scheme equals the key up to case yields its token. |
| `Scenarios.UpperSchemeResolves` | test/strategy-test.js:20-53 | `AUTH_TOKEN <token>` resolves with the default key. |
| `Scenarios.LowerSchemeResolves` | test/strategy-test.js:445-478 | `auth_token <token>` resolves with the default key. |
| `Scenarios.CustomSchemeResolves` | test/strategy-test.js:125-158 | `CUSTOM_KEY <token>` resolves with the key `custom_key`. |
| `Scenarios.FieldsResolve` | test/strategy-test.js:55-228 | Body and query fields under the default or custom key resolve. A query field under another key finds nothing. |
| `Scenarios.NoCredentials` | test/strategy-test.js:379-409 | A request with no headers, body or query finds nothing, whatever the key. |
| `Scenarios.SchemeOnlyMalformed` | test/strategy-test.js:411-443 | A header that is only a scheme, with no space and no token part (the test's `AUTH_TOKEN`), is malformed whatever the key. |
| `Scenarios.HeaderAndQueryConflict` | lib/passport-ember-auth/strategy.js:92-100 | A header and a query field with the same token conflict, for any scheme equal to the key up to case. |
| `Scenarios.SameTokenTwiceConflicts` | test/strategy-test.js:486-511 | The test's header-plus-query request is a conflict. |
| `Scenarios.DoubleSpaceMalformed` | lib/passport-ember-auth/strategy.js:76-88 | `AUTH_TOKEN  <token>` (two spaces) is malformed even with a body token. |
| `Scenarios.EmptyHeaderTokenYields` | lib/passport-ember-auth/strategy.js:83-102 | `AUTH_TOKEN ` offers nothing: a body token then resolves, and alone nothing is found. |
| `Scenarios.KeyInsideScheme` | lib/passport-ember-auth/strategy.js:81-85 | The key `tok` matches the scheme `auth_token`. |
| `Scenarios.ForeignSchemeIgnored` | lib/passport-ember-auth/strategy.js:81-85 | A `Bearer <token>` header is ignored without error, so nothing is found. |
| `Scenarios.Construction` | lib/passport-ember-auth/strategy.js:46-57 | No verifier throws. A lone verifier gets `auth_token`. Given key and flag are kept, and `""` falls back to `auth_token`. |

## Left out

- The `passport.Strategy` base class, `util.inherits`, the `name = 'EmberAuth'` property and `module.exports` are framework glue. The framework's `success`, `fail` and `error` actions are returned as a `Disposition` value instead of being called.
- The verifier is the application's code. It is modelled as a total function that always calls back exactly once. A verifier that never calls back, or calls back twice, is not modelled, and neither is the timing of its callback.
- TokenPattern.Test: the key is read as plain text, not as a JavaScript regular expression, so metacharacters in the key are not modelled. Case folding covers ASCII letters only.
- Header, body and query values are strings, and lookups see only a map's own keys. JavaScript's inherited properties (a key such as `constructor`) and non-string values are not modelled.
- Options given as a non-object primitive, and a verifier argument that is truthy but not a function (which would fail only when called), are not modelled.
- `JsValues.Value` numbers are integers: NaN and fractional numbers are not modelled.
- `test/index-test.js` checks a version string in a module file that is not part of this model.
