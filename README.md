# SYSTRAN Geographic API client, modelled in Dafny

This is a model of the Node.js client for the SYSTRAN Geographic API, `systran-geographic-api.js`. It covers everything the client decides by itself.

- **Client object.** `SystranGeographicApi` holds a domain and an auth token. Its constructor validates the domain and defaults the token to `{}`. `setToken` overwrites the three token fields.
- **Request assembly.** Each of the fourteen `getGeographic*` methods runs the same body on a `parameters` bag:
  - it places the auth token in the query or the headers;
  - it copies the endpoint's defined fields into the query;
  - it turns `acceptLanguage` into the `Accept-Language` header;
  - the three `*Get` methods refuse a call whose `id` is undefined;
  - it merges `$queryParameters` last, so those keys win;
  - it issues a plain `GET` of `domain + path`.
- **Response classification.** The HTTP library's reply is settled as follows:
  - a transport error is rejected;
  - the body is parsed when the content type matches `/^application\/(.*\\+)?json/`;
  - status 204 resolves with the response alone;
  - any other 2xx status resolves with the response and the body;
  - every other status is rejected with the response and the body.

Modules:

- `Values` — JavaScript values as the client sees them. It defines `String()` conversion and truthiness, plus `Option` and `Result`.
- `ContentType` — the content-type regular expression, taken as written. It is given both as an existential statement of a match (`RegexAccepts`) and as the one-pass scan the client's test amounts to (`IsJsonContentType`). The two are proved equal.
- `Responses` — the reply, outcome and rejection datatypes, and the classification rule.
- `Endpoints` — one descriptor per `getGeographic*` method. A descriptor holds the endpoint's path and its parameter statements in source order (`Copy`, `Require`, `AcceptLanguage`).
- `Requests` — `Plan`, a declarative statement of the request a call issues or of why it is refused. It comes with the precedence, guard and token-placement lemmas.
- `Client` — the class. It has a constructor, `Create` (the constructor's throw becomes a `Failure`), `SetToken`, and `BuildRequest`. `BuildRequest` fills the query and header maps step by step, with a loop over the endpoint's statements and a loop over `$queryParameters`. It is proved equal to `Plan`. `Call` then classifies the reply.

The regular expression is modelled exactly as written. In a JavaScript regular expression literal, `\\+` is one or more literal backslashes. So `application/json` and `application/json; charset=utf-8` are parsed as JSON. `application/vnd+json` and `application/problem+json` are not, and neither is anything outside `application/`. `application/x\json` is parsed, because it has a backslash directly before `json`. There is no `$` anchor, so anything may follow `json`.

## Model

| member | source | states |
|---|---|---|
| Client.Configure | systran-geographic-api.js:78-85 | An absent or empty domain, taken from a string argument or from `options.domain`, is refused with "Domain parameter must be specified as a string.". Otherwise that domain is kept. The token is `options.token` when an options object carries one, and `{}` in every other case. |
| Client.SystranGeographicApi.Create | systran-geographic-api.js:78-85 | Construction fails with Configure's message exactly when Configure refuses. Otherwise it yields a fresh client holding Configure's domain and token. |
| Client.SystranGeographicApi.constructor | systran-geographic-api.js:78-85 | Stores the validated domain, which is non-empty, and the token. |
| Client.SystranGeographicApi.SetToken | systran-geographic-api.js:96-100 | The token becomes exactly (value, headerOrQueryName, isQuery). The domain and the client's validity are unchanged. |
| Client.SystranGeographicApi.PlaceToken | systran-geographic-api.js:163-169 | The query and headers written from empty tables are exactly TokenQuery and TokenHeaders of the stored token. |
| Requests.TokenPlacedOnce | systran-geographic-api.js:163-169 | The token lands in exactly one entry across query and headers. A truthy isQuery puts it in the query under String(name). Otherwise a truthy name puts it in the header of that name. Otherwise it goes in `Authorization: Bearer <value>`. |
| Requests.EmptyTokenSendsBearerUndefined | systran-geographic-api.js:163-169 | With the default `{}` token, the query gets nothing and the headers are exactly `Authorization: Bearer undefined`. |
| Requests.Bag | systran-geographic-api.js:150-152 | An absent bag behaves as `{}`: it defines no field and carries no `$queryParameters`. A given bag is used as it is. |
| Requests.AbsentBag | systran-geographic-api.js:150-152 | Without a bag, the three `*Get` endpoints refuse with "Missing required  parameter: id" and every other endpoint sends a GET carrying the token alone. |
| Requests.EmptyBagSendsToken | systran-geographic-api.js:150-169 | When a bagless call is issued, its query and headers are the token's placement alone. |
| Client.RunSteps | systran-geographic-api.js:171-281 | Running the statements in order stops at the first missing required parameter, namely FirstMissing. If none is missing, the query gains exactly the endpoint's defined fields and the headers gain exactly the Accept-Language header. |
| Client.MergeQueryParameters | systran-geographic-api.js:283-289 | After the key-by-key merge, the query is the old query overridden by every `$queryParameters` entry. |
| Client.ApplyOverrides | systran-geographic-api.js:283-289 | The query is overridden by `$queryParameters` when the bag carries them, and left as it is otherwise. |
| Client.SystranGeographicApi.BuildRequest | systran-geographic-api.js:153-304 | On a valid client, the step-by-step assembly yields exactly Plan for the stored domain and token, and an issued request's uri is the non-empty stored domain followed by the endpoint's path. |
| Client.SystranGeographicApi.Call | systran-geographic-api.js:149-334 | A refused plan sends nothing and rejects with the plan's error. Otherwise the planned request is sent and the outcome is Classify of the reply. |
| Requests.PlanRefusedIffMissing | systran-geographic-api.js:372-379 | A call is refused exactly when some required parameter is undefined, and the rejection message names such a parameter. |
| Requests.GetEndpointsGuardId | systran-geographic-api.js:372-379 | For the three `*Get` endpoints (the same guard at lines 907-914 and 1961-1968), the call is refused exactly when `id` is undefined, with "Missing required  parameter: id". A defined `id` reaches the query unchanged unless `$queryParameters` overrides it. |
| Requests.ListingEndpointsNeverRefuse | systran-geographic-api.js:149-304 | The eleven other endpoints always issue their request. |
| Requests.FirstMissingIff | systran-geographic-api.js:376-379 | The guard finds a missing parameter exactly when one of the required names is undefined, and the one it reports is required and undefined. |
| Requests.IssuedRequestIsPlainGet | systran-geographic-api.js:291-304 | An issued request is a GET of `domain + path` with an undefined body, no formData and no json flag. |
| Requests.QueryPrecedence | systran-geographic-api.js:163-289 | A key is in the query iff it comes from `$queryParameters`, from a defined listed field or from a query-placed token. Its value comes from the first of these, in that order, that has the key. |
| Requests.FieldCopiedIffDefined | systran-geographic-api.js:171-281 | A listed field that neither `$queryParameters` nor a query-placed token names is in the query iff the bag defines it. |
| Requests.FieldValueUnchanged | systran-geographic-api.js:171-281 | A defined listed field that `$queryParameters` does not name is in the query with its value unchanged, even over a query-placed token of the same name. |
| Requests.AcceptLanguageIsAHeader | systran-geographic-api.js:275-277 | `acceptLanguage` never enters the query unless `$queryParameters` or a query-placed token uses that key. When the endpoint reads it and it is defined, it is the Accept-Language header, even over a token header of that name. Otherwise the headers are the token's alone. |
| Requests.OverridesLeaveHeadersAlone | systran-geographic-api.js:283-289 | `$queryParameters` does not change whether a call is refused, nor its headers. |
| Endpoints.GetEndpointsRequireId | systran-geographic-api.js:372-387 | The three `*Get` endpoints require exactly `id`, copy it to the query and read `acceptLanguage`. |
| Endpoints.ListingEndpointsRequireNothing | systran-geographic-api.js:171-281 | The eleven other endpoints require no parameter. |
| Endpoints.AllEndpointsWellFormed | systran-geographic-api.js:149-281 | Every path lies under `/geographic/` (line 156 and the `path` line of each other method). No endpoint copies `acceptLanguage` into the query. Every required parameter is copied before it is checked. |
| Endpoints.StepsWellFormedConcat | systran-geographic-api.js:171-281 | Joining two well-formed runs of statements gives a well-formed run. |
| Responses.DecodedBody | systran-geographic-api.js:309-315 | The body is the parse result exactly when the content type matches the regular expression and the parse succeeds. Otherwise it is the raw buffer. |
| Responses.Classify | systran-geographic-api.js:305-331 | A transport error is rejected with that error. An answered call resolves exactly for status 200–299, keeping the response. The body is omitted exactly for 204 and is otherwise the decoded body. Any other status is rejected with the response and the decoded body. |
| Responses.ClassifyNeverMissingParameter | systran-geographic-api.js:305-331 | A classified reply is never a missing-parameter rejection. |
| Responses.ParseIgnoredUnlessJson | systran-geographic-api.js:309-315 | For a non-JSON content type, the parser's result does not affect the outcome. |
| Responses.ParseFailureKeepsRawBody | systran-geographic-api.js:310-314 | A failed parse is swallowed. The outcome is settled by status alone and carries the raw body. |
| ContentType.EscapedJsonAheadCorrect | systran-geographic-api.js:309 | The scan accepts exactly when the group `(.*\\+)` can match before `json`. That means a run without line terminators ending in a backslash, directly followed by `json`. |
| ContentType.JsonContentTypeIsRegex | systran-geographic-api.js:309 | The client's test on a header is exactly acceptance by the regular expression. |
| ContentType.NoBackslashNoEscapedJson | systran-geographic-api.js:309 | Without a backslash, the group alternative never matches. |
| ContentType.PlainJsonIsJson | systran-geographic-api.js:309 | `application/json` is JSON, with or without parameters after it. |
| ContentType.SuffixJsonIsNotJson | systran-geographic-api.js:309 | `application/vnd+json` and `application/problem+json` are not JSON. |
| ContentType.BackslashJsonIsJson | systran-geographic-api.js:309 | `application/x\json` is JSON. |
| ContentType.OtherMediaTypesAreNotJson | systran-geographic-api.js:309 | An absent header, `text/json` and `application/xml` are not JSON. |

## Left out

- The `request` library call and all networking: the reply (transport error, or status, content type and raw bytes) is an input to `Call`.
- The Q deferred and its promise: a call's settlement is the `Outcome` datatype, and there is no asynchrony to model.
- `JSON.parse`: it is an input to `Call` and `Classify`, with `None` standing for a parse that throws.
- The `Buffer` instanceof test on the request body: the body is always undefined, so the modelled `json` flag reads only `typeof body === 'object'`.
- Numbers are kept in their JavaScript string form. Latitudes, radii and the like are passed through untouched, so their numeric meaning is not modelled.
- test/poi.js, test/inspirations.js and test/destinations.js are live tests against the remote service, so what they check is server behaviour.
- Client.Configure: the domain is a string or absent. The client also accepts and stores a truthy non-string domain whose `.length` is not 0 (a number, `true`, a plain object, `['x']`); later requests go to `String(domain) + path`. A truthy non-string domain whose `.length` is 0 (an empty array, a function of no arguments) throws the domain message. The model represents neither. `options === null`, which throws a TypeError when `options.domain` is read, is not representable either. Nor is a truthy non-object `options.token` such as the string `'abc'`: the client stores it, every endpoint then reads `undefined` for `isQuery`, `headerOrQueryName` and `value` and sends `Authorization: Bearer undefined`, and `setToken` throws a TypeError under strict mode when it assigns to a property of the primitive. `Settings` takes only a token record.
- A `parameters` bag of `null`: every `getGeographic*` method then throws a TypeError synchronously at its first `parameters[...]` read, instead of returning a rejected promise. `Bag` takes only an absent bag (treated as `{}`) or a property map, so this input is not modelled.
- Client.SystranGeographicApi.SetToken: the token is a value, so the aliasing between the stored token object and the `options.token` object passed to the constructor (which `setToken` also mutates) is not modelled.
- Client.MergeQueryParameters: the query and header tables are maps, so the property order of the JavaScript objects is not modelled: the token key first, then fields in statement order, then new `$queryParameters` keys in `Object.keys` order. With it, the parameter order of the query string the HTTP library serializes is not modelled either. A falsy `$queryParameters` is represented as absent.
- The `encoding: null` field of the request object is not modelled beyond the raw body being bytes.
- The fourteen `getGeographic*` methods are not written out one by one: each is a descriptor in `Endpoints` run by the one shared `BuildRequest`/`Call`.
- Parameter bags are maps from property names to values; inherited properties and getters are not modelled.
