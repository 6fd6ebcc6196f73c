# tracklist-api `resolve` handler in Dafny

This project models the `GET /resolve` handler of tracklist-api. The handler searches
several music and video providers (soundcloud, youtube, mixcloud, spotify) for one
text query. It does three things:

1. It reads the query-string parameters `q`, `limit`, `sc`, `yt`, `mixcloud` and
   `spotify` and builds one request descriptor `{name, host, path}` for each selected
   provider, in a fixed order.
2. It keys one pending result per provider name, using a `map` and then a `reduce` into
   one object.
3. It waits for all of them with RSVP's `hash`. It answers with the object of results,
   or with the status and message of a rejection.

The model has four modules:

- `js_values.dfy` (`JsValues`) covers the JavaScript semantics the handler depends on:
  - truthiness, `||` and `===`;
  - `<=` between a number and a bound, where NaN compares false;
  - `undefined` inside a template literal, which becomes the text "undefined";
  - the decimal text of a count.
- `providers.dfy` (`Providers`) is the request builder:
  - the flag rules;
  - the per-provider limit caps (100 for soundcloud and mixcloud, 50 for youtube and
    spotify, default limit 10);
  - the four host and path templates;
  - the method `BuildRequests`, which grows the list with one push per selected
    provider. It is proved equal to a filter of the provider registry.
- `aggregate.dfy` (`Aggregate`) covers the rest of the pipeline:
  - the name-keyed reduce, as a loop method proved against a fold function;
  - the all-or-nothing settlement of `hash`;
  - `err.statusCode || err.status || 500`.
- `handler.dfy` (`Handler`) holds Koa's context as a class with the `status` and `body`
  fields the handler assigns, and `Resolve`, the handler as written.

Some behaviour is taken as parameters instead of being modelled:

- `encode` stands for encodeURIComponent.
- `toNumber` stands for the string-to-number conversion that `limit <= 100` applies to a
  limit given as text (the StringToNumber operation of ECMAScript).
- `fetch` stands for the outgoing HTTPS call followed by `JSON.parse`. It gives one
  outcome per request descriptor.
- The credentials `SC_CLIENT_ID` and `YT_API_KEY` are passed in a `Config` value.

Points where the handler behaves differently from what its purpose suggests, modelled as the code has them:

- A missing `q` does not stop the handler. It sets status 400 and a message. The
  requests are still built and dispatched, and the body is then overwritten.
- The settlement is all-or-nothing. Any rejected provider request turns the whole
  response into that error, using `statusCode || status || 500`. There is no
  partial-success response, no 502 and no per-provider timeout or cancellation.
- The limit written into a path is the query's own limit text when it is within the cap.
  It is not a parsed integer. A non-numeric limit is sent as the cap.
- `mixcloud=false` and `spotify=false` turn those providers ON, because any non-empty
  text is truthy. `sc` and `yt` are off only for the exact text `false`.

## Model

| member | source | states |
|---|---|---|
| `JsValues.Decimal` | index.js:57-61 | a count is written as a non-empty string of decimal digits with no leading zero; the numeral is "0" exactly for 0 |
| `JsValues.DecimalRoundTrip` | index.js:57-61 | reading the written numeral back gives the count |
| `Providers.OnUnlessFalse` | index.js:39-40 | the sc and yt flags select iff the parameter is missing or not exactly the text "false" |
| `Providers.OnIfTruthy` | index.js:41-42 | the mixcloud and spotify flags select iff the parameter is given and non-empty, so "false" selects and a missing one does not |
| `Providers.ClampLimit` | index.js:57 | the value the comparison saw never exceeds the cap; a given limit is forwarded unchanged iff it converts to a number within the cap, otherwise the cap is sent (NaN included); a missing limit sends 10 |
| `Providers.CredentialIsolation` | index.js:56-90 | a request depends on the configuration only through its own credential: soundcloud only on the client id, youtube only on the key, mixcloud and spotify on neither |
| `Providers.PathLimit` | index.js:56-90 | every pushed descriptor carries its provider's result key and fixed host, and a path that is its provider's template with the query's limit when within the cap, the cap otherwise, and 10 when no limit is given |
| `Providers.SelectFrom` | index.js:55-91 | the filtered list holds exactly the selected providers of its input, is no longer than it, and is in registry order when its input is |
| `Providers.SelectFromKeepsOrder` | index.js:55-91 | whatever the input's order, the filtered list is a subsequence of it: providers are only left out, never reordered |
| `Providers.SelectedProviders` | index.js:53-91 | at most four providers, exactly the selected ones, in the order soundcloud, youtube, mixcloud, spotify |
| `Providers.RequestsOrdered` | index.js:53-91 | the request list has at most four entries with pairwise distinct names, in the fixed provider order |
| `Providers.RequestsSelection` | index.js:53-91 | a provider's request is in the list iff the query selects that provider |
| `Providers.RequestsNames` | index.js:53-91 | the names in the request list are exactly the names of the selected providers |
| `Providers.MissingQueryAsUndefinedText` | index.js:52 | a missing `q` builds exactly the requests of a query whose `q` is the text "undefined" |
| `Providers.BuildRequests` | index.js:52-91 | the list grown by the four conditional pushes equals the request of each selected registry provider, in registry order |
| `Providers.LimitAboveBothCaps` | index.js:55-73 | with limit 500 and only soundcloud and youtube on, the two paths carry 100 and 50 |
| `Providers.DaftPunkScenario` | index.js:52-63 | `q=daft punk&sc=true&yt=false&limit=5` builds only the soundcloud request, with limit 5 |
| `Aggregate.KeyedKeys` | index.js:101-115 | the key set of the reduced object is the set of request names |
| `Aggregate.KeyedLastWriteWins` | index.js:111-115 | a name maps to the outcome of the last request that carries it |
| `Aggregate.KeyedDistinct` | index.js:101-115 | with distinct names no entry is overwritten, so each name maps to its own request's outcome |
| `Aggregate.CollectByName` | index.js:101-115 | the accumulator loop builds the fold, with key set equal to the request names and, for distinct names, each request's own outcome |
| `Aggregate.KeyedAllFulfilled` | index.js:117 | when every request succeeds, every promise of the keyed object fulfils |
| `Aggregate.KeyedFulfilledIff` | index.js:117 | with distinct names, `hash` fulfils iff every request succeeds |
| `Aggregate.ErrorStatus` | index.js:119 | the status is always truthy; it is `statusCode` when truthy, else `status` when truthy, else 500 |
| `Handler.MissingQuery` | index.js:45 | the 400 branch is taken iff `q` is missing or empty |
| `Handler.Settle` | index.js:117-123 | when all promises fulfil, the body is the object of values and the status is untouched; otherwise the status and message come from one rejected promise |
| `Handler.ResultsByName` | index.js:101-117 | a result object answered for distinct request names has one key per request, holding that request's payload |
| `Handler.Resolve` | index.js:35-124 | the handler dispatches exactly the built request list, even when `q` is missing; the body is then the result object, with key set equal to the request names, or one rejection's message; status 400 remains only on success |
| `Handler.ResolveChecked` | index.js:45-50 | corrected handler: a missing `q` answers 400 with the message and dispatches nothing; otherwise it behaves as `Resolve` |
| `Handler.BareQueryStillDispatches` | index.js:45-63 | as written, `GET /resolve` builds the soundcloud and youtube requests for the encoded text "undefined" |
| `Handler.BareRequestResponse` | index.js:35-124 | `GET /resolve` run through the handler on a fresh context, with every provider request succeeding, answers status 400 with a body holding the soundcloud and youtube results |
| `Handler.BareQueryAnswersResultsWith400` | index.js:45-117 | as written, when both of those requests succeed the response has status 400, its body is the two providers' results, and the missing-parameter message is gone |
| `Handler.NothingSelectedAnswersEmptyObject` | index.js:53-117 | with every provider off, nothing is dispatched, the body is the empty object and the status is left as it was |

## Left out

- Handler.Resolve: it reports the error of some rejected provider request, not the first one to reject in time. RSVP's `hash` rejects with the earliest rejection, and that depends on network timing, which is not modelled.
- Handler.Settle: the same weakening as `Resolve`, for the same reason.
- The Koa application, router, body parser, request-logging middleware, `hello` and `listen` (index.js:1-23, 126-141) are HTTP server plumbing and are not modelled.
- Koa's own status rules are not modelled. Koa sets 200 when a body is assigned to a context whose status was never set, and it throws when a status that is not a valid HTTP code is assigned (for example an error whose `statusCode` is a string). The model records only what the handler assigns: `None` means the handler did not assign a status.
- `dotenv` and `process.env` are not modelled. The credentials are a `Config` value, and the listening port is not modelled.
- The outgoing HTTPS request and `JSON.parse` are the parameter `fetch`. They are network I/O and a library parser. The concurrency of the dispatches is not modelled; only each request's outcome is.
- encodeURIComponent is the parameter `encode`. It is not verified against section 2.1 of RFC 3986. Its URIError on a lone surrogate is not modelled, because such a string cannot be written as a Dafny `string`.
- The conversion of the limit text to a number is the parameter `toNumber` (ECMAScript StringToNumber). Numbers are reals plus NaN and the two infinities, so floating-point rounding is not modelled.
- Repeated query parameters are not modelled. Koa's `ctx.query`, which parses the query string with Node's `querystring`, turns them into arrays; the model takes each parameter as missing or one text.
- A rejection reason that is not an object (for example `null`) is not modelled. Reading `statusCode` from it would throw inside the catch block. Every reason is modelled as having `statusCode`, `status` and `message`.
- The JSON serialization of the response body is not modelled. For example, a `message` that is `undefined` disappears when serialized.

## Findings

| source | as written | input that shows it | evidently intended | confidence | as-written member | corrected member |
|---|---|---|---|---|---|---|
| index.js:45-50 | the missing-`q` branch sets status 400 and a message but does not return, so requests are built for the text "undefined" and the body is overwritten | `GET /resolve` with no parameters, with soundcloud and youtube both answering: the response is status 400 carrying both providers' results | return after setting the 400 response, dispatching nothing | high; not executed | `Handler.BareRequestResponse` | `Handler.ResolveChecked` |
