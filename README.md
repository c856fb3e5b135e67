# koa-semver, modelled in Dafny

koa-semver is a version-dispatch gate for Koa. A `KoaSemver` object holds an
ordered list `modes` of version extractors. `use` appends to that list, and
`clone` makes a second object around the same list. `match(target,
middleware)` builds a middleware, called a gate here. For each request the
gate does four things:

- It resolves the requested version: the first truthy result of the
  extractors, in list order.
- It treats a missing version as satisfying every target.
- It claims the request only when three things hold: no `ctx.state.version`
  record exists yet, a middleware was given, and the target is satisfied.
- When it claims, it writes the record `{target, requested}` and calls the
  middleware with the same `next`. Otherwise it calls `next()` and changes
  nothing.

The factories `param`, `header` and `query` build the built-in extractors.
Each one reads one request location and passes a non-empty value through
`semver.clean`.

The model has these files:

- `wrappers.dfy`: `Option` stands for `null`. `Result` stands for a value or
  a thrown `AssertionError` or `TypeError`.
- `koa.dfy`: the request data the extractors read (path parameters,
  headers, query), JavaScript truthiness of a string-or-null, and the
  downstream middleware. A middleware appends a message to the body and then
  ends the request or continues, like the handlers in the repository's tests.
- `semver.dfy`: `semver.clean` and `semver.satisfies` as function-valued
  fields of a `Library` record. The model assumes nothing about them.
- `handlers.dfy`: the factories (src/handlers.js), the extractors they
  return, and lodash `trimStart(name, ":")`.
- `koa_semver.dfy`: the class (src/KoaSemver.js). `modes` is a `ModeList`
  heap object, so `clone` and `new KoaSemver(modes)` share it exactly as the
  JavaScript does. A `Gate` keeps a reference to its `KoaSemver` object and
  reads the list when a request arrives. The file also has the
  `reduce` fold (`Fold`), satisfaction, the claim decision, and the gate
  body as an imperative method (`RunGate`) over a mutable per-request
  `Context`.
- `compose.dfy`: the gates of one request as a list run by a dispatcher
  loop (`Serve`), proved equal to a pure specification (`Chain`), and the
  chain-level properties.
- `scenarios.dfy`: how the shared list behaves under aliasing, and the
  requests the repository's tests send, modelled with the imperative classes.

## Where the tests and the code disagree

The model follows the code in each case.

- `__tests__/index.test.js:30-35` expects `use` to throw on non-functions.
  The code skips falsy values and pushes every truthy value, whether or not
  it is a function. In the model such an entry is `NonFunction`. Calling it
  throws a `TypeError` during resolution, but only if the fold reaches it.
- `__tests__/index.test.js:51` expects `clone` to copy the list. The code
  shares it (`Scenarios.UseThroughClone`).
- `__tests__/index.test.js:79` expects the body
  `["This is a middleware", "2"]`. The code writes the record before it
  calls the first middleware. When that middleware continues, the next gate
  finds the record and passes the request on. The body is therefore
  `["This is a middleware"]` (`Scenarios.ContinuationScenario`).

The code has no callability check in `use`, and `clone` shares the list.
There is no `matcher` method and no static `test` predicate. The factories
have no default field names. The record lives at `ctx.state.version`.

## Model

| member | source | states |
|---|---|---|
| `Handlers.TrimColons` | src/handlers.js:8 | The result is a suffix of the name. Only `:` characters are removed, and the result does not start with `:`. |
| `Handlers.TrimColonsUnique` | src/handlers.js:8 | Those three properties pin the trimmed name down uniquely. |
| `Handlers.TrimColonsIdempotent` | src/handlers.js:8 | Trimming twice equals trimming once. A name with no leading colon is unchanged. |
| `Handlers.Param` | src/handlers.js:5-13 | `param(name)` succeeds exactly when the name is truthy and otherwise throws its own `AssertionError`. On success it gives the path-parameter lookup of the trimmed name. See also `ParamIgnoresLeadingColon`, `ParamStripsColon` and `ParamReadsTrimmedName`. |
| `Handlers.Header` | src/handlers.js:15-22 | `header(name)` succeeds exactly when the name is truthy and otherwise throws its own `AssertionError`. On success it gives the header lookup of that name. See also `LookupResult`. |
| `Handlers.Query` | src/handlers.js:24-31 | `query(name)` succeeds exactly when the name is truthy and otherwise throws its own `AssertionError`. On success it gives the query lookup of that name. See also `LookupResult`. |
| `Handlers.Normalize` | src/handlers.js:11 | `value ? clean(value) : null`: a value is produced only from a non-empty field, and a non-empty field gives `clean(value)`. The same expression is at lines 20 and 29. See also `LookupResult`. |
| `Handlers.ParamIgnoresLeadingColon` | src/handlers.js:5-8 | `param(":" + n)` is the same extractor as `param(n)`. Because the assert runs before trimming, `param(":")` passes it and reads the parameter named `""`. |
| `Handlers.ParamStripsColon` | __tests__/index.test.js:86 | `param(":" + n)`, for a name `n` with no leading colon, is the lookup of path parameter `n`. For example, `":ver"` reads `params["ver"]`. |
| `Handlers.ParamReadsTrimmedName` | src/handlers.js:8-12 | The extractor `param(name)` returns reads `ctx.params` under the trimmed name. |
| `Handlers.LookupResult` | src/handlers.js:9-30 | A built-in extractor never throws. It gives `null` for an absent or empty value and `clean(value)` otherwise. |
| `Handlers.LookupReadsOnlySource` | src/handlers.js:9-30 | A built-in extractor depends only on its own location. Two requests that agree there get the same result. |
| `Handlers.Call` | src/KoaSemver.js:19 | Calling a list entry throws exactly when the entry is not a function. |
| `KoaSemver.KoaSemver.constructor` | src/KoaSemver.js:4-6 | `new KoaSemver()` holds a fresh, empty list. |
| `KoaSemver.KoaSemver.Sharing` | src/KoaSemver.js:4-6 | `new KoaSemver(modes)` holds the given list object itself, not a copy. |
| `KoaSemver.KoaSemver.Use` | src/KoaSemver.js:8-10 | A truthy handler is appended at the end with the earlier entries kept in order. A falsy one leaves the list unchanged. There is no callability check. |
| `KoaSemver.KoaSemver.Clone` | src/KoaSemver.js:12-14 | The result is a new object whose list is the same object as the original's. |
| `KoaSemver.KoaSemver.Match` | src/KoaSemver.js:16-17 | The gate keeps this object and the middleware. An omitted target defaults to `"*"`. |
| `KoaSemver.Resolve` | src/KoaSemver.js:18-21 | The `reduce` over `modes` starting from `null`. An empty list gives `null`, and the only exception is the `TypeError` of calling a non-function. `ResolveFirstSettled`, `FirstSettled`, `ResolveUnspecified`, `ResolveAllDeclineGivesLast`, `ResolveIgnoresLaterEntries` and `ResolveSkipsDeclining` describe it. |
| `KoaSemver.Fold` | src/KoaSemver.js:18-21 | Once the accumulator is truthy, the fold returns it and calls no further entry. |
| `KoaSemver.ResolveFirstSettled` | src/KoaSemver.js:18-21 | If every entry before `k` declines and entry `k` does not, the requested version is what entry `k` gives: a truthy version or a thrown `TypeError`. |
| `KoaSemver.FirstSettled` | src/KoaSemver.js:18-21 | If not every entry declines, there is a first one that does not. |
| `KoaSemver.ResolveUnspecified` | src/KoaSemver.js:18-21 | The result is falsy and nothing is thrown exactly when every entry declines. An empty list gives `null`. |
| `KoaSemver.ResolveAllDeclineGivesLast` | src/KoaSemver.js:18-21 | When every entry of a non-empty list declines, the requested version is the last entry's falsy result, not necessarily `null`. That value is what a claiming gate records. |
| `KoaSemver.ResolveIgnoresLaterEntries` | src/KoaSemver.js:18-21 | Once some entry settles the fold, appending entries changes nothing. Later entries are not consulted. |
| `KoaSemver.ResolveSkipsDeclining` | src/KoaSemver.js:18-21 | Entries that all decline are transparent, so the entries after them supply the version. |
| `KoaSemver.SatisfiedCases` | src/KoaSemver.js:16-23 | A missing version satisfies every target. A present one satisfies exactly when `semver.satisfies` says so. If `"*"` accepts every version, the default target accepts every request. That is a hypothesis, not a fact about node-semver, where `satisfies("1.0.0-beta", "*")` is false unless `includePrerelease` is set, so a default-target gate does not claim a prerelease request. |
| `KoaSemver.Satisfied` | src/KoaSemver.js:23 | Only a present version can fail a target, and a present version satisfies exactly when `semver.satisfies` says so. See also `SatisfiedCases`. |
| `KoaSemver.Decide` | src/KoaSemver.js:18-33 | The gate throws exactly when resolution throws. A claim needs an absent record and a present middleware, and it records the gate's own target. `ClaimRule` gives the full condition in both directions. |
| `KoaSemver.GateEffect` | src/KoaSemver.js:25-33 | The write-once step: when a record exists the state is untouched and the request is never ended. Otherwise the state is either untouched, or gains the record and exactly the middleware's message. A throw changes nothing, and only a claim can end the request. |
| `KoaSemver.ClaimRule` | src/KoaSemver.js:18-33 | In both directions: a gate claims exactly when resolution does not throw, no record exists, a middleware is present and the target is satisfied. A claim records `{target, requested}`. A gate throws exactly when resolution throws. |
| `KoaSemver.UnversionedGateClaims` | src/KoaSemver.js:23-30 | A gate whose extractors all decline claims a fresh request whenever it has a middleware, whatever its target. |
| `KoaSemver.Invoke` | __tests__/index.test.js:9-13 | The test middleware appends its message, leaves the record alone, and ends the request or continues. |
| `KoaSemver.RunGate` | src/KoaSemver.js:17-34 | The gate body changes the request's record and body, and passes control on, exactly as the pure gate effect prescribes. |
| `Compose.Chain` | src/KoaSemver.js:25-33 | The specification `Serve` is proved against: the gates run in order on one request. A request ends inside the chain only through a claim made on a request that had no record. `RecordedRequestPassesThrough`, `AtMostOneClaim`, `FirstClaimStands`, `FirstSatisfyingGateWins` and `NoSatisfyingGateFallsThrough` describe it. |
| `Compose.Serve` | src/KoaSemver.js:30-33 | The dispatcher loop over a request's gates ends with exactly the outcome and state of the pure chain specification. |
| `Compose.RecordedRequestPassesThrough` | src/KoaSemver.js:25-33 | Once a record exists, every gate passes the request on. The state is unchanged, no middleware runs, and without a throw the request falls through. |
| `Compose.AtMostOneClaim` | src/KoaSemver.js:25-30 | At most one gate dispatches per request, even when a claiming middleware continues. The body grows by at most one message. Any change means there was no record before and there is one now. |
| `Compose.FirstClaimStands` | src/KoaSemver.js:25-33 | If every gate before `k` passes and gate `k` claims, gate `k`'s record and message are the final state. The request stops there exactly when its middleware does not continue. |
| `Compose.FirstSatisfyingGateWins` | src/KoaSemver.js:18-33 | Among gates sharing one list, the first gate that has a middleware and whose target is satisfied claims the request, and no other gate does. |
| `Compose.UnversionedRequestTakesFirstGate` | src/KoaSemver.js:23-30 | A request with no version goes to the first gate that has a middleware, whatever its target. |
| `Compose.NoSatisfyingGateFallsThrough` | src/KoaSemver.js:31-33 | If no gate both has a middleware and accepts the version, the request falls through with its state unchanged. |
| `Scenarios.UseAfterMatch` | src/KoaSemver.js:8-18 | A gate built before a later `use` sees the new entry. |
| `Scenarios.UseThroughClone` | src/KoaSemver.js:8-14 | Entries added through a clone or through its original are seen by both. |
| `Scenarios.NoExtractorsScenario` | __tests__/index.test.js:54-63 | With no extractors, the first of three gates serves the request and the body is `["2"]`. |
| `Scenarios.ContinuationScenario` | __tests__/index.test.js:65-80 | A continuing first middleware does not let a later matching gate run. The body is `["This is a middleware"]`. |
| `Scenarios.HierarchyGates` | __tests__/index.test.js:196-204 | `param(":Semver")`, `query`, `header` register the lookups of `Semver` in that order. |
| `Scenarios.PathBeatsHeaderScenario` | __tests__/index.test.js:225-229 | The path parameter `1.0.0` wins over the header `2.4.0`. The `^1.0.0` gate serves the request. |
| `Scenarios.LaterExtractorScenario` | __tests__/index.test.js:215-219 | A path value `_` that `clean` rejects declines, and the query value is used instead. |
| `Scenarios.NoMatchScenario` | __tests__/index.test.js:161-163 | If no gate accepts `3.4.0`, the request falls through with no record and an empty body. |

## Left out

- The `semver` package: `clean` and `satisfies` are arbitrary functions supplied by the caller. A scenario states the few of their values it relies on as preconditions.
- Promises and `async`: gates and middlewares run to completion in order. A middleware is the tests' shape, which appends a message and then ends or continues. Work a middleware does after `next()` returns, calling `next()` twice, or throwing is not modelled.
- koa-router and Koa itself are not modelled. That covers route matching (including `/:ver?/path`), the 404 response, `app.listen` and supertest.
- Koa's `ctx.get` lower-cases the header name before the lookup and treats `Referer` and `Referrer` as one header. Headers here are a plain map read under the name as given.
- Without a router `ctx.params` is undefined, and a `param` extractor would throw. The model always has a parameter map.
- Handlers.LookupResult: the request maps hold only their own keys. In JavaScript two of the lookups are property reads on ordinary objects, which follow the prototype chain. `param` reads `ctx.params[name]`, so a name such as `"toString"`, `"constructor"` or `"__proto__"` reads an inherited, truthy non-string. `header` calls `ctx.get(name)`, which lower-cases the name and reads `req.headers[name] || ''`, so `"constructor"` and `"__proto__"` do the same. In both cases `semver.clean` throws on that value, so the real extractor throws, and so does the gate, where the model gives `null`. `query` is not affected: Koa builds `ctx.query` with Node's `querystring.parse`, whose result has no prototype, so an inherited name reads nothing and gives `null` as in the model.
- Repeated query keys (array values) are not modelled. Query values are strings.
- Custom extractors return a string or `null`, never throw, and see only the request maps, not `ctx.state` or the body. Numbers or objects returned by user functions are not modelled.
- Handlers.Call: "throws exactly when the entry is not a function" holds for the model's extractor kinds only. In JavaScript, a user extractor that throws makes the gate throw too.
- Compose.AtMostOneClaim: relies on middlewares leaving `ctx.state.version` alone, as the model's `Middleware` does. A real middleware that deletes the record and then calls `next()` lets a second gate claim the request.
- Factory names that are truthy non-strings (numbers) are not modelled.
- `match` with an explicit `null` target is not modelled. An omitted target (`None`) gets the default `"*"`.
- src/index.js is not part of this model beyond `KoaSemver.Sharing`. Its constructor forwarding shares the given array, not a copy.
- Concurrent `use` during live traffic is not modelled: execution is sequential.
