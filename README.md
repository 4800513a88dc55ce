# A verified model of the `ajax` request helper

`src/ajax.js` installs one global function, `ajax(options)`, a browser-side
wrapper around `fetch`. Around the network call it keeps three pieces of
page-wide state: a cache of GET response bodies keyed by resolved URL, a
table of calls in flight keyed by `METHOD::resolvedURL` (so that identical
concurrent calls share one network call), and a counter of active requests
that drives a full-page loading indicator. It fills in option defaults,
merges default and per-call headers, encodes the payload, classifies the
response by status, normalises every failure into one error shape and
retries a failed call a bounded number of times.

This project models that bookkeeping in Dafny and proves what it promises.

- `values.dfy` (module `JsValues`): the JavaScript values the helper
  inspects, with JavaScript truthiness and the `||` operator.
- `urls.dfy` (`Urls`): `resolveURL`, with the case-insensitive
  `http://`/`https://` test.
- `errors.dfy` (`Errors`): `normalizeError` and the thrown-error shapes.
- `requests.dfy` (`Requests`): the option defaults, the header merge and
  the payload encoding at the top of `ajax`, as a specification function
  and as the step-by-step method that edits the header map.
- `responses.dfy` (`Responses`): one attempt's outcome, body reading,
  status classification, and the chain of attempts with bounded retry.
- `loader.dfy` (`Loader`): the clamped active-request counter.
- `dispatcher.dfy` (`Dispatch`): the `Dispatcher` class holding the cache,
  the in-flight table, the counter and the indicator flag, with the steps
  of a call: the synchronous dispatch (cache and de-duplication
  short-circuits, launching attempt 0), the settling of one attempt
  (cache write, retry, or the end of the call with all `finally` handlers),
  the attempt loop, and client methods showing shared in-flight calls,
  cache hits and overlapping calls.
- `wrappers.dfy` (`Wrappers`): `Option` and `Result`.

Modelling choices:

- The page origin (`window.location.origin`) is a parameter.
- The network is a supplied function from attempt number to that
  attempt's outcome. An outcome is either a response or a transport
  failure. A response carries its status, its content type, its text and
  the result of parsing that text as JSON. A transport failure is a
  network error or the timeout's abort, and carries what it threw.
- A promise handed back to callers is a `Handle`, told apart by the
  number of the network call that created it; the dispatcher counts the
  network calls it issues (`fetches`).
- Concurrency is modelled as separate steps on the shared state:
  `Dispatch` is what `ajax` does before returning; `Settle` is one
  attempt's success and failure handlers; `Run` settles attempts until
  the call is over. Other calls may be dispatched or run between these
  steps (`OverlappingCalls`).
- Options that the code compares with `!== false` (`cache`, `loader`) are
  JavaScript values, so that `0`, `null` and absence all leave them on.
- The code reads the request timeout only from `ajax.timeout` (line 60);
  there is no per-call timeout option.
- An HTTP error is normalised twice, once where it is thrown (line 123) and
  again in the failure handler (line 136); the surfaced error's `raw` is
  therefore the first normalised error, and its status, message and data
  are unchanged by the second pass (`NormalizeStable`).
- A cached body that is falsy (an empty text, `0`, `false`, `null`) is
  stored but never served: line 85 tests the entry's truthiness.
- `delete headers["Content-Type"]` removes only that exact spelling; a
  caller's `content-type` entry is still sent (`FormKeepsOtherSpelling`).
- Each retry replaces the in-flight entry with the new attempt's handle
  (line 166). The `finally` handlers of all attempts run only when the
  last attempt settles, innermost first, so the counter rises by one per
  attempt and falls back once per attempt at the end.

## Model

| member | source | states |
|---|---|---|
| `Urls.ResolveURL` | src/ajax.js:38-42 | an http(s) URL, in any letter case, is returned unchanged; any other URL comes out as the origin, then one '/', then the URL without its leading '/' if it had one; the result is never shorter than the URL |
| `Urls.LeadingSlashIrrelevant` | src/ajax.js:41 | a relative path and the same path with a leading '/' resolve to the same URL |
| `Urls.ResolveIdempotent` | src/ajax.js:38-42 | with an http(s) origin, resolving a resolved URL gives it back, so cache and de-duplication keys are fixed points |
| `Urls.ExampleRelativePaths` | src/ajax.js:38-42 | "/api/x" and "api/x" both resolve to "https://example.com/api/x" |
| `Urls.ExampleUpperCaseScheme` | src/ajax.js:39 | "HTTP://a" counts as absolute |
| `Urls.ExampleOtherScheme` | src/ajax.js:39 | "ftp://a" is not absolute and gets the origin and a '/' prefixed |
| `Errors.Normalize` | src/ajax.js:44-51 | the message is always truthy: the input's, or "Something went wrong"; the status is the input's when truthy and otherwise 0; the data is the input's when truthy and otherwise null; raw is the input |
| `Errors.NormalizeStable` | src/ajax.js:122-136 | normalising a normalised error keeps status, message and data; only raw changes |
| `Requests.Upper` | src/ajax.js:59 | every lower-case ASCII letter becomes its upper-case partner and every other character stays, so the length is kept and no lower-case ASCII letter remains |
| `Requests.ExampleUpper` | src/ajax.js:59 | "get" is sent as "GET" and "Post" as "POST" |
| `Requests.Prepared` | src/ajax.js:55-80 | a missing options object or a missing or empty URL is refused with "URL is required"; otherwise: the method is the uppercased option, or GET; the timeout is `ajax.timeout`, or 15000 when that is 0 or absent; retries is the option or 0; the retry delay is the option, or 1000 when it is 0 or absent; the loader and the cache are on unless their option is exactly `false`; every header other than Content-Type is the caller's value if given, else the default's, and no other key appears; a form element or FormData payload is sent as multipart with no Content-Type; other truthy data is sent as JSON with Content-Type application/json; with no payload there is no body and the headers are exactly the merge |
| `Requests.Prepare` | src/ajax.js:55-80 | building the header map by merge, then delete or assign of Content-Type, yields exactly the request `Prepared` describes |
| `Requests.FormKeepsOtherSpelling` | src/ajax.js:69-76 | for a form payload "Content-Type" is removed but a caller's "content-type" entry is kept with its value |
| `Responses.IncludesMeansOccurs` | src/ajax.js:118 | the `includes` scan finds a part exactly when the part occurs as a contiguous slice of the string |
| `Responses.ReadBody` | src/ajax.js:117-120 | the body is the JSON parse exactly when a content-type header is present and "application/json" occurs in it as a slice; otherwise it is the response text |
| `Responses.Classify` | src/ajax.js:114-134 | an attempt succeeds exactly when it got a response with status 200-299 whose body could be read, yielding that body; a status outside 200-299 throws a normalised error with that status, the body's `message` property (line 125: only an object has one) or "Request failed", and the body (null when falsy); transport and parse failures pass through unchanged |
| `Responses.Conclude` | src/ajax.js:135-142 | the attempt chain ends at the first successful attempt, with its body, or at the first failed attempt whose number is not below `retries`, with that failure normalised; every earlier attempt failed, and no attempt after number max(retries, start) is made |
| `Responses.AllAttemptsFail` | src/ajax.js:135-142 | when every attempt fails, exactly max(retries, 0) + 1 attempts are made and the call rejects with the normalisation of the last failure |
| `Responses.FirstSuccessWins` | src/ajax.js:131-139 | a success within the retry budget after failures only ends the chain at that attempt with its body |
| `Responses.RejectedResponse` | src/ajax.js:122-136 | an error status surfaces with that status, the body's message or "Request failed", and the body or null, whatever the double normalisation |
| `Loader.AfterHide` | src/ajax.js:29-36 | one hide lowers a positive count by one and otherwise leaves 0; the count is never negative |
| `Loader.HidesUndoShows` | src/ajax.js:23-36 | k shows followed by k hides return any count n >= 0 to n |
| `Dispatch.Decision` | src/ajax.js:53-98 | a call without URL throws; a GET with caching on is answered with the cached body exactly when a truthy entry exists under its resolved URL; otherwise a call whose `METHOD::resolvedURL` key is in flight gets that handle; otherwise attempt 0 is launched with the next handle |
| `Dispatch.Dispatcher.constructor` | src/ajax.js:3-5 | a fresh dispatcher has an empty cache and in-flight table, a zero counter and a hidden indicator |
| `Dispatch.Dispatcher.ShowLoader` | src/ajax.js:23-27 | the counter goes up by one and the indicator is visible |
| `Dispatch.Dispatcher.HideLoader` | src/ajax.js:29-36 | the counter goes down by one; at zero or below it is reset to 0 and the indicator hidden; otherwise visibility is unchanged; the indicator stays visible exactly while the counter is positive |
| `Dispatch.Dispatcher.Launch` | src/ajax.js:100-167 | starting an attempt shows the loader when the call uses it, issues one network call and registers a handle distinct from every registered one under the key, replacing any earlier entry |
| `Dispatch.Dispatcher.Dispatch` | src/ajax.js:53-171 | the call's synchronous answer is `Decision` on the state before it; a thrown, cached or joined call changes nothing; a launched call adds its key to the in-flight table, issues one network call and shows the loader when it uses it, and never touches the cache |
| `Dispatch.Dispatcher.Unwind` | src/ajax.js:143-146 | the `finally` handlers of attempts 0 to n hide the loader n + 1 times when it is used and leave the key absent from the in-flight table |
| `Dispatch.Dispatcher.Settle` | src/ajax.js:114-146 | a successful attempt writes its body under the cache key only for a GET with a cache key, and ends the call; a failed attempt below the retry count launches the next attempt with a new handle, touching neither the cache nor the settled result; a failed last attempt ends the call with the normalised failure; an ended call has its key removed and every attempt's loader increment undone |
| `Dispatch.Dispatcher.Run` | src/ajax.js:100-170 | the call settles as `Conclude` says; afterwards its key is absent from the in-flight table, one network call was issued per retry, the counter lost the increments of all its attempts, and the cache gained the body only when a GET with caching on succeeded |
| `Dispatch.Dispatcher.Ajax` | src/ajax.js:53-171 | a call run to its end with nothing in between leaves the in-flight table, the counter and the indicator as they were, made max(retries, 0) + 1 network calls at most, and caches only a successful GET body with caching on |
| `Dispatch.SameCallTwice` | src/ajax.js:94-98 | two identical calls issued before the first settles share its handle and make one network call |
| `Dispatch.SameGetAfterSettling` | src/ajax.js:82-91 | after a cached GET resolves with a truthy body, the same call is answered from the cache with no network call; after a falsy body or a rejection it goes to the network again |
| `Dispatch.OverlappingCalls` | src/ajax.js:23-36 | two calls started before either settles leave the counter at 0 and the indicator hidden once both are over |

## Left out

- Creating and styling the loading overlay element (src/ajax.js:7-21 and
  the `style.display` writes): DOM work; the indicator is a boolean.
- `fetch`, `AbortController` and the timers: the timeout and the retry
  delay are computed as the code computes them but waiting does nothing;
  a timed-out attempt is a transport failure supplied by the network
  function.
- JSON parsing and serialisation and `response.json()`/`text()`: foreign
  code; a JSON body sent is represented by the value it serialises, and a
  response carries its text and the result of parsing it.
- The chainable `success`/`error`/`final` wrappers (lines 87-89, 149-151):
  promise sugar without state of its own.
- The upload-progress side channel (lines 152-164): browser I/O, and it
  calls `resolve`/`reject` methods that native promises do not have.
- The event loop's real interleaving inside one call: the inner and outer
  `finally` handlers of a retried call run in separate microtasks, and a
  new call registered between them would lose its in-flight entry to the
  outer handler's `delete`. The model runs all of a call's `finally`
  handlers in one step.
- `Requests.Upper`: upper-cases ASCII letters only, because full Unicode
  case mapping (`"ß"` becoming `"SS"`) is not modelled.
- Numbers are integers: fractional values and NaN (a falsy number) are
  not represented. Options of unexpected types (a numeric URL, a string
  retry count) are not represented either.
- A `null` `ajax.defaultHeaders` or `options.headers` is modelled as an
  empty header map, which is what `|| {}` makes of it.
- The cache has no bound or expiry in the code, and none in the model.
