# chai-http core, modelled in Dafny

This project models the two pieces of logic in chai-http, a chai plugin:

- **The HTTP assertions of `lib/http.js`.** These are `status`, `header`, `headers`, `ip` and the content-type properties `json`, `text` and `html`. Each assertion is a total function of three things: the asserted object (a `Subject`), the arguments, and chai's negation flag. It returns `Pass`, or `Fail` with chai's message template and expected/actual values, or `Threw` when JavaScript would throw before asserting.
- **The request builder of `lib/request.js`.**
  - `chai.request(app)` wraps a handler function into a server and builds the verb table, in which `delete` is exposed as `del`.
  - Each verb returns a `Test`, and `.req` stores a hook on it.
  - `serverAddress` turns the target into a URL. For a server that is not listening, it first claims a port from the pool and listens on it.
  - `.res` runs the hook by arity (a hook may throw, which stops the run), hands the request to the transport and, when the transport answers, delivers the response. Then it closes the server and releases the port.

Files:
- `wrappers.dfy`: `Option` and `Result`.
- `decimal.dfy`: printing and reading decimal numbers, as in `String(port)`.
- `jsvalues.dfy`: the JavaScript values involved, with truthiness, `String(v)` and loose equality `==`.
- `text.dfy`: `indexOf`, checked against a declarative definition of "contains".
- `assertions.dfy`: the assertions (module `HttpAssertions`).
- `ports.dfy`: the port pool (module `PortPool`).
- `builder.dfy`: the builder, the verb table, `Test` and `.req` (module `RequestBuilder`).
- `lifecycle.dfy`: `serverAddress` and `.res` (module `RequestLifecycle`).

Later chai-http releases add case-insensitive and RegExp header matching, redirect/param/cookie assertions and a cookie agent; the lib/http.js and lib/request.js modelled here have none of them. In particular:
- The header lookup uses the exact key. There is no case folding.
- Header values are compared with `==`. There is no RegExp matching.
- `status` reads only `statusCode`.
- A target that is neither a function, a server nor a string is not rejected when the builder is made. The failure comes later, as a `TypeError` from `app.address()` when the test runs.
- There is no `redirect`, `redirectTo`, `param`, `cookie` or `charset` assertion. There is no cookie-keeping agent, no `keepOpen`/`close`, and no promise interface.

The asserted object may be `null` or `undefined` (the `Nullish` subject), as it is when a failed request leaves no response. Reading a property of it throws a `TypeError`, so `.header`, `.headers`, `.json`, `.text` and `.html` give `Threw`. So does `.status`: its `property('statusCode')` pre-check reads `statusCode` of the subject. The model follows the chai that test/http.js:39 pins (the message "expected {} to have a property 'statusCode'"), whose `property` assertion reads the property before testing it. chai itself is not part of this model.

`.res` as the code writes it (`RequestLifecycle.ResAsWritten`) has two defects, listed under "## Findings". `RequestLifecycle.Res` is the corrected run. The rows below marked "corrected run" state properties of it.

Effects become parameters:
- The transport (superagent's `end`) is `send: Request -> Result<R>`. `Err` stands for a request that fails without a response (a connection error, or a request with no URL). `req.end` then never calls the callback, so no clean-up runs.
- chai's `inspect` is `inspect: JsVal -> string`.
- `net.isIP` is `isIP: JsVal -> int`.
- Ports held outside the pool are the set `busy`.
- Whether the user's response callback throws is `callbackThrows`.
- Fresh uuids and fresh server objects are counters in `World`.

## Model

| member | source | states |
|---|---|---|
| HttpAssertions.AccessorTakesPrecedence | lib/http.js:56-59 | when a `getHeader` accessor exists, the lookup returns its answer whatever `headers` map the object also has |
| HttpAssertions.HeaderMapExactKey | lib/http.js:58 | without an accessor, a header is defined only if its exact key is in the `headers` map, and then the map's value is returned |
| HttpAssertions.HeaderLookupIsCaseSensitive | lib/http.js:58 | a header stored under "Content-Type" is `undefined` when looked up as "content-type" |
| HttpAssertions.NoHeaderSourceIsUndefined | lib/http.js:56-59 | with neither a headers map nor an accessor, every header is `undefined` |
| HttpAssertions.Status | lib/http.js:75-86 | on `null`/`undefined` it throws the `TypeError` of reading `statusCode`; on an object without a `statusCode` property it fails on the property check whatever the flag; otherwise it passes iff `statusCode == code` differs from the flag, and failures carry the positive or negated message with `code` and `statusCode` |
| HttpAssertions.StatusNegationInverts | lib/http.js:79-85 | with `statusCode` present, `.not.status(c)` passes exactly when `.status(c)` fails |
| HttpAssertions.StatusMissingFailsEitherWay | lib/http.js:76 | on a subject lacking `statusCode`, `.status(c)` and `.not.status(c)` stop identically at the property check: a failure with the property message on an object, the `TypeError` on `null`/`undefined` |
| HttpAssertions.StatusOf200 | test/http.js:28-35 | `{statusCode: 200}` passes `status(200)`, and `.not.status(200)` fails with "expected #{this} to not have status code #{act}" |
| JsValues.NumericStringLooselyEqual | lib/http.js:80 | a number is loosely equal to its own decimal spelling, in either order, so `status("200")` agrees with `status(200)` |
| JsValues.LooseEqSymmetric | lib/http.js:110 | the `==` comparison of header or status and expected value does not depend on operand order |
| JsValues.LooseEqNotTransitive | lib/http.js:110 | the `==` used by the assertions is not transitive: "0" == 0 and 0 == "" but "0" != "" |
| JsValues.StringToNumberOfIntToString | lib/http.js:80 | converting an integer to a string and back to a number returns the integer |
| HttpAssertions.Header | lib/http.js:105-123 | one argument: passes iff the header is not `undefined` (differing from the flag), with messages "expected header '<key>' to exist" / "to not exist"; two arguments: passes iff `header == value` (differing from the flag), with the have-value/not-have-value messages and `value`, `header` as expected/actual; throws iff the subject is `null`/`undefined` |
| HttpAssertions.NullHeaderExists | lib/http.js:117-121 | a header whose value is `null` counts as present: `.header(key)` passes and `.not.header(key)` fails with "to not exist" |
| HttpAssertions.HeaderNegationInverts | lib/http.js:108-122 | on an object, in both forms, `.not.header(...)` passes exactly when `.header(...)` fails |
| HttpAssertions.Headers | lib/http.js:138-144 | throws iff the subject is `null`/`undefined`; on an object passes iff (it has a headers map or a `getHeader` accessor) differs from the flag, failing with the matching message |
| HttpAssertions.HeadersNegationInverts | lib/http.js:138-144 | on an object, `.not.headers` passes exactly when `.headers` fails |
| HttpAssertions.NullishSubjectThrows | lib/http.js:56-59 | on `null`/`undefined` the header lookup throws, and so does `.headers` (which reads `this._obj.headers` at line 140): `.status`, `.header`, `.headers` and the content-type properties all throw whatever the flag |
| HttpAssertions.Ip | lib/http.js:160-166 | passes iff (`net.isIP` answers non-zero) differs from the flag, failing with the matching message |
| HttpAssertions.ContentType | lib/http.js:185-200 | on `null`/`undefined` it throws; on an object without headers it fails the non-negated `headers` check whatever the flag; it throws iff the content type is truthy but not a string; otherwise it passes iff (the content type is a non-empty string containing the kind's MIME type) differs from the flag; failures say "expected <shown> to include / to not include '<mime>'" |
| HttpAssertions.ContentTypeNegationInverts | lib/http.js:195-199 | with headers present and no throw, `.not.json` passes exactly when `.json` fails (likewise text, html) |
| HttpAssertions.ContentTypeWithoutHeadersFailsEitherWay | lib/http.js:189 | an object with neither headers nor accessor fails `.json` and `.not.json` with the same outcome |
| HttpAssertions.MissingContentTypeNamesHeaders | lib/http.js:190-197 | when the content type is `undefined`, the failure message names "headers" instead of the value |
| HttpAssertions.HtmlPageIsOnlyHtml | test/request.js:24-26 | a response with content type "text/html; charset=utf-8" is `.html`, `.not.text` and `.not.json` |
| Text.IndexOf | lib/http.js:196 | `indexOf` returns -1 iff the MIME type occurs nowhere, and otherwise the first position where it occurs |
| PortPool.Claim | lib/request.js:196-202 | a successful claim records under the pid an in-range port that was neither claimed nor busy; a failed claim means every port in range was taken |
| PortPool.Release | lib/request.js:167 | releasing removes exactly the pid's claim and keeps every other claim |
| PortPool.ClaimPreservesValid | lib/request.js:197 | a claim under a new pid keeps ports in range and never claimed twice |
| PortPool.ReleasePreservesValid | lib/request.js:167 | releasing keeps the pool well formed |
| PortPool.ReleaseUndoesClaim | lib/request.js:163-169 | releasing the pid just claimed returns the pool to exactly its prior state |
| RequestBuilder.VerbTable | lib/request.js:66-74 | the table's names are exactly the methods' exposed names, and each name maps to a listed method exposed under that name |
| RequestBuilder.VerbNameCollision | lib/request.js:67-69 | two different methods share an exposed name only if they are `del` and `delete` |
| RequestBuilder.VerbTableEntries | lib/request.js:66-74 | unless both `del` and `delete` are listed, every method has its own entry; `delete` is reachable only as `del` |
| RequestBuilder.NewBuilder | lib/request.js:61-64 | a handler function is wrapped into one new, non-listening, plain-http server and nothing else changes; any other target is kept unchanged and the world is untouched; consistency is kept |
| RequestBuilder.Invoke | lib/request.js:71-73 | a verb exists iff its name is in the table, and it yields a hook-less, pid-less test for the builder's server, the method the table maps the name to, and the given path |
| RequestBuilder.BuilderVerbsMakeTests | lib/request.js:66-74 | calling the exposed name of any listed method yields a test for the builder's server, the original method name and the path |
| RequestBuilder.WithHook | lib/request.js:124-127 | `.req(cb)` stores `cb` as the hook and leaves target, method, path and pid unchanged |
| RequestBuilder.LastHookWins | lib/request.js:124-127 | chaining `.req` twice is the same as setting only the second hook |
| RequestLifecycle.LocalUrlRoundTrip | lib/request.js:190-193 | a local URL reads back to its scheme, port and path when the path does not begin with a digit |
| RequestLifecycle.LocalUrlAmbiguousForDigitPaths | lib/request.js:192 | with no separator inserted, port 80 with path "80" gives the same URL as port 8080 with an empty path |
| RequestLifecycle.ServerAddress | lib/request.js:183-206 | a string target yields base followed by path with no claim; a listening server yields `https` or `http` `://127.0.0.1:<port><path>` on its own port with nothing claimed; a server that is not listening records a fresh pid, claims a port and listens on it, or reports the claim error with servers and pool unchanged; anything else has no `address` method |
| RequestLifecycle.Execute | lib/request.js:158-179 | from `new Request` on: a request goes out iff the hook lets it (it does not throw, and a two-argument hook continues without a truthy error), and it is the hook-prepared request for the given URL; a response is the transport's answer and a transport failure its error; only a delivered response whose callback returned triggers the close-and-release, otherwise the world is untouched |
| RequestLifecycle.ResAsWritten | lib/request.js:151-181 | as written: the test records the pid of any claim; a request goes out iff the transport answered or failed; it is the hook-prepared request for the resolved URL, or for no URL after a failed claim; a delivered response is the transport's answer, and if the test carries a pid the clean-up releases it and leaves the target server not listening |
| RequestLifecycle.Res | lib/request.js:151-181 | corrected run (see ## Findings): a request goes out iff the transport answered or failed; the request sent is the hook-prepared request for the resolved URL; a delivered response is the transport's answer to it; a transport failure leaves the world as address resolution left it; with a URL, a request goes out iff the hook lets it (it does not throw, and a two-argument hook continues without a truthy error) |
| RequestLifecycle.ResLeavesUrlTargetsAlone | lib/request.js:184-186 | corrected run (see ## Findings): for a URL target nothing changes in the world or the test, and the request goes to base followed by path |
| RequestLifecycle.ResLeavesListeningServersAlone | lib/request.js:203-205 | corrected run (see ## Findings): for a server already listening nothing changes in the world or the test, and the request goes to its existing port |
| RequestLifecycle.ResEphemeralServerRoundTrip | lib/request.js:151-205 | corrected run (see ## Findings): a server that is not listening gets a free port for the request; if the transport answers and the callback returns, the server is closed and the port released, leaving the world as before apart from the uuid consumed |
| RequestLifecycle.ResReportsClaimFailure | lib/request.js:197-198 | corrected run (see ## Findings): when no port can be claimed, nothing is sent, no server listens, the pool is unchanged and the claim error is reported |
| RequestLifecycle.ResInterruptedKeepsPort | lib/request.js:161-179 | corrected run (see ## Findings): if the hook throws (whatever its arity), its continuation is called with a truthy error or never called, the transport fails, or the callback throws, the server stays listening on the claimed port and the port stays claimed |
| RequestLifecycle.ResHookDispatch | lib/request.js:172-179 | corrected run (see ## Findings): a hook of any arity that throws stops the run with what it threw; a two-argument hook that never continues leaves the run waiting; one continuing with a truthy error throws it; in these cases nothing is sent and the world stays as address resolution left it; otherwise the prepared request is sent, and the transport's failure or the response is what the run ends with |
| RequestLifecycle.ResRestoresServersAndPool | lib/request.js:163-169 | corrected run (see ## Findings): after a delivered response whose callback returned, all servers and the pool are as before the run, for every kind of target |
| RequestLifecycle.ResPreservesConsistency | lib/request.js:151-206 | corrected run (see ## Findings): every run keeps fresh identities fresh and the pool well formed |
| RequestLifecycle.AsWrittenAgreesOnFirstRun | lib/request.js:151-181 | on a test's first run with a URL obtained, the code as written and the corrected run coincide |
| RequestLifecycle.AsWrittenSendsWithoutUrl | lib/request.js:157-159 | as written, after a failed claim the request is built with an undefined URL and handed to the transport; no claim error is reported, and the run ends with the transport's answer or failure |
| RequestLifecycle.AsWrittenStalePidClosesListeningServer | lib/request.js:165-168 | as written, a test carrying a pid from an earlier run closes a server that is already listening once the transport answers; the corrected run does not |
| RequestLifecycle.FirstRunRecordsPid | lib/request.js:196 | a run against a server that is not listening leaves the new pid recorded on the test |

## Left out

- The `ip` assertion's notion of validity: `net.isIP` and the `is-ip` package (lib/net.js) are not part of this model. `isIP` is a parameter.
- Transport and library internals: superagent's `Request` and `end`, `http.createServer`, `listen`/`close`, harbor's allocator and uuid generation.
  - The transport is the parameter `send`.
  - `listen` is assumed to succeed on the claimed port.
  - The pool hands out the lowest free port in its range. That is a stand-in for harbor's own choice.
  - Uuids are a counter.
- The `methods` package's list of HTTP method names. It is a parameter of the builder.
- chai's internals: `inspect` is a parameter. The `#{this}`, `#{exp}` and `#{act}` templates are kept unexpanded in failure messages. `this.assert`'s own behaviour (pass iff the condition differs from the negation flag) is modelled by `HttpAssertions.Assert`.
- Which requests superagent's transport fails, and with what error: `send` decides. The error it emits after a failure is not modelled beyond the `TransportError` outcome.
- Asynchrony: `.res` is modelled as one sequential run. Effects of the user's callback other than throwing are not modelled.
- JavaScript values other than `undefined`, `null`, booleans, integers and strings: objects, arrays, RegExps, NaN and fractional numbers.
- HttpAssertions.HeaderMapExactKey: the headers map holds the object's own keys only. In JavaScript, `obj.headers[key]` also finds names inherited from `Object.prototype` ("constructor", "toString", "__proto__"), so `.header('constructor')` passes on `{headers: {}}`; here those names read as `undefined`.
- RequestLifecycle.Res: a hook is modelled as throwing before it continues. A two-argument hook that calls its continuation and throws afterwards (the request already handed to the transport, the exception escaping the hook) is not modelled.
- JsValues.LooseEq: numbers are exact integers, not IEEE doubles. JavaScript rounds integers beyond 2^53, so there `"9007199254740993" == 9007199254740992` holds; here it does not.
- JsValues.ToStr: prints every integer in plain decimal. JavaScript's `String` switches to exponent notation from 1e21 on (`"1e+21"`).
- JsValues.LooseEq: a string is converted to a number only when it is a trimmed optional sign followed by decimal digits. Other spellings JavaScript accepts for an integer ("1.0", "1e2", "0x10") count as NaN here, so `==` is weaker than JavaScript's for them.
- The behaviour the code shown does not implement (see above): case-insensitive or RegExp header matching, redirect/param/cookie/charset assertions, the cookie agent, `keepOpen`/`close`, promises.
- The type declarations and the build, lint and documentation tooling: they have no runtime behaviour.

## Findings

| source | as written | input that shows it | evidently intended | confidence | as-written member | corrected member |
|---|---|---|---|---|---|---|
| lib/request.js:157-159 | the callback passed to `serverAddress` ignores its `err` argument and builds `new Request(method, url)` anyway | a server that is not listening while every port of the pool is taken: the claim fails and the request is built with `url` undefined and sent | report the claim error (as `makeRequest` does with `throw err`) and send nothing | medium, not executed | RequestLifecycle.AsWrittenSendsWithoutUrl | RequestLifecycle.ResReportsClaimFailure |
| lib/request.js:165-168 | the clean-up tests `self._pid`, which is set by a claim and never cleared | run `.res` on a test whose server is not listening, make the server listen elsewhere, run `.res` on the same test again: the second run closes that server | close and release only when this run claimed a port | low, not executed | RequestLifecycle.AsWrittenStalePidClosesListeningServer | RequestLifecycle.ResLeavesListeningServersAlone |
