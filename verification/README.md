# http-call: the request lifecycle, modelled in Dafny

`http-call` wraps one logical HTTP call in an `HTTP` instance. The convenience
functions `get`, `post`, `put`, `patch` and `hdelete` each make one such instance.
The model covers:

- **Building the request.** `new HTTP(url, options)` merges headers: the user-agent
  `http-call/<package version> node-<runtime version>`, then the instance defaults, then the
  caller's. Names are matched ignoring letter case and the last write wins. A structured body
  is serialised as JSON under a defaulted `content-type: application/json`. A text
  body under a caller-chosen content type goes out verbatim. `Content-Length`
  holds the body's UTF-8 byte count. The response body starts out unset.
- **Retrying.** Transport failures whose code is transient (`ETIMEDOUT`,
  `ECONNRESET`, `ENOTFOUND`, `ECONNREFUSED`, `EPIPE`, `EHOSTUNREACH`, `EAI_AGAIN`)
  are retried up to five times. Each retry is preceded by one call to the wait
  hook `_wait`. Any other code, or a sixth transient failure, ends the call with
  that failure's message.
- **Following redirects.** A 3xx reply with `Location` sends the same request to
  the new URL. At most ten hops are followed per call. The eleventh redirect fails
  with `Redirect loop at <url>`.
- **Pagination.** A reply carrying `next-range` asks for the next page: the request
  is repeated with `range` set to the token. Array pages are concatenated in
  arrival order. The caller gets the first page's status and headers.
- **HTTP errors.** A reply of 400 or more fails the call. The message has two
  lines:
  - `HTTP Error <status> for <METHOD> <protocol>//<host>:<port><path>`;
  - under it, the body's `message` field when it is a string, or the raw text, or
    a one-line structural rendering of the body in the style of `util.inspect`.

How it is organised:

- `Transport.ScriptedTransport` stands in for the network. It holds a script of
  outcomes (a reply, or a failure with a code) and logs every request it is sent.
- The class `Client.HTTP` keeps the request and response state in fields, and its
  methods update them step by step. Each method is proved equal to a
  specification function:
  - `Retrying.Retry` for one round of attempts;
  - `Redirects.Follow` for redirect handling;
  - `Pagination.Collect` and `Pagination.Gather` for pages;
  - `Pagination.Run` for a whole call.
- The properties are lemmas about those functions.
- `Scenarios` restates the cases of the test suite in `src/http.test.js`:
  - the retry, redirect and pagination tests as whole calls;
  - the three error tests as the message of the error a 404 reply becomes (`Scenarios.DisplaysNotFound`, `Scenarios.DisplaysErrorMessage`, `Scenarios.DisplaysObjectError`), together with `Scenarios.NotFoundFailsCall`: a whole call answered by a 404 with any body fails with that error;
  - the port, `http` and `HTTP.defaults` tests as URL reads;
  - the POST/PUT/PATCH/DELETE tests as the requests they build.
  
  The test at lines 205-210 is `Requests.NoBodyNoPayload`. `stream()` is left out.

Some definitions have no row of their own. These rows state their properties:

- `Urls.Parse`: `Urls.ParseDefaultPort`, `Urls.ParseAuthorityParts`,
  `Urls.ParsePrefix`, `Urls.ParseBareHost`, `Urls.ParseValid`, `Urls.ParseRender`.
- `Requests.BaseHeaders`: `Requests.BaseHeadersPrecedence`.
- `Responses.Headline` and `Responses.Detail`: `Responses.HttpFailureLines`,
  `Responses.HeadlineSingleLine`, `Responses.DetailChoice`.
- `Json.Stringify`: `Json.EscapePlain`, `Json.StringifySingleField`,
  `Scenarios.PostsJsonBody`.
- `Json.Inspect`: `Scenarios.DisplaysObjectError`.
- `Json.Utf8Length`: `Json.Utf8LengthAppend`, `Json.Utf8LengthBounds`.
- `Redirects.Decide`: `Redirects.FollowHop`, `Redirects.FollowEnd`, `Redirects.FollowLoop`.
- `Pagination.NextRange`: `Pagination.CollectStep`, `Pagination.CollectPagesRequests`.
- `Pagination.Merge`: `Pagination.FlattenAt`, `Pagination.MergeOne`, `Scenarios.NineItems`.
- `Pagination.Collect` and `Pagination.Gather` (the page aggregator):
  - `Pagination.Collect` has its own row;
  - `Pagination.CollectFailure`, `Pagination.CollectErrorStatus`,
    `Pagination.CollectLastPage`, `Pagination.CollectStep`, `Pagination.CollectPages`
    and `Pagination.CollectPagesRequests`;
  - `Client.HTTP.TakePage`, which is proved equal to `Gather`.

## Model

| member | source | states |
|---|---|---|
| Client.HTTP.constructor | src/http.test.js:240-273 | The new instance holds exactly the built request: its method, URL, merged headers and the body as sent. The response body and status are unset, and no hop or wait has happened yet. |
| Client.HTTP.Wait | src/http.test.js:75-84 | The wait hook records the retry number it is called with, after those recorded before. |
| Client.HTTP.Attempt | src/http.test.js:86-127 | The retry loop returns what `Retry` says. The transport's script is consumed as `Retry` consumes it. Every attempt is logged as a request sent, and every retry as a wait. |
| Client.HTTP.FollowRedirects | src/http.test.js:170-195 | The recursion over redirects ends with the result, URL and hop count `Follow` gives. The requests sent and waits made are `Follow`'s. |
| Client.HTTP.Paginate | src/http.test.js:275-294 | Fetching pages from the current request on agrees with `Collect`. On success the instance holds the merged body, status and headers. On failure they are left as they were. |
| Client.HTTP.TakePage | src/http.test.js:275-294 | Taking one page agrees with `Gather`: a failure or a status of 400 or more ends the call; `next-range` sets `range` and continues; otherwise the merged pages are stored. |
| Client.HTTP.Request | src/http.test.js:20-34 | A whole call agrees with `Collect` from no pages. On success `body`, `statusCode` and `headers` hold the response. |
| Client.Perform | src/http.test.js:198-210 | `get`/`post`/… agree with `Run`: the URL is read, the request built and the call made, with the transport left as `Run` says. |
| Transport.ScriptedTransport.constructor | src/http.test.js:12-14 | A fresh transport holds the given script and has logged nothing. |
| Transport.ScriptedTransport.Send | src/http.test.js:22-23 | One attempt takes the next scripted outcome, or a non-transient "network unreachable" failure once the script is used up. The request is appended to the log. |
| Urls.ParseDefaultPort | src/http.test.js:20-50 | `https://host[/path]` reads as port 443 and `http://…` as port 80. The path defaults to `/`. |
| Urls.ParseAuthorityParts | src/http.test.js:36-42 | An authority `host[:port][/path]` reads back as exactly that host, port (the scheme's default if absent) and path. |
| Urls.ParsePrefix | src/http.test.js:44-50 | A text starting `http://` or `https://` is read under that scheme, from what follows the prefix. |
| Urls.ParseBareHost | src/http.test.js:250 | A host without a scheme, as in `new HTTP('www.duckduckgo.com', …)`, reads as `https://host:443/`. |
| Urls.ParseValid | src/http.test.js:52-58 | Every URL read successfully has a non-empty host and a path starting with `/`, including a path resolved against the instance's configured host. |
| Urls.ParseRender | src/http.test.js:137-138 | Writing a URL with its explicit port, as error messages do, and reading it back gives the same URL. |
| HeaderMap.Set | src/http.test.js:211-216 | Setting a header makes it readable under any letter case, and leaves every other name as it was. |
| HeaderMap.GetOverlay | src/http.test.js:67-73 | After merging entries, a name reads as the last entry written under it, or else as it read before. |
| Requests.BaseHeadersPrecedence | src/http.test.js:60-73 | The caller's header wins over an instance default of the same name. The user-agent `http-call/<version> node-<runtime>` is present unless one of them replaces it. |
| Requests.Build | src/http.test.js:240-251 | The built request keeps the method and URL, and its header names are all in lower case. |
| Requests.JsonBodyDefaults | src/http.test.js:252-257 | Without a content type, the body goes out as its JSON serialisation under `application/json`. `Content-Length` is a canonical numeral whose value is the serialisation's byte count. No other header changes. |
| Requests.CustomContentTypeVerbatim | src/http.test.js:258-267 | Under a caller-chosen content type, the text body goes out verbatim and the content type is kept. `Content-Length` reads back as the text's byte count. |
| Requests.NoBodyNoPayload | src/http.test.js:205-210 | Without a body, nothing is sent as a body and the headers are only the merged ones. |
| Json.EscapePlain | src/http.test.js:199-204 | A string with no quote, backslash or control character is serialised unescaped. |
| Json.StringifySingleField | src/http.test.js:199-204 | A one-member object serialises as `{"key":value}`. |
| Json.Utf8LengthAppend | src/http.test.js:252-254 | The byte count of a concatenation is the sum of the byte counts. |
| Json.Utf8LengthBounds | src/http.test.js:252-254 | The byte count lies between the character count and four times it. It equals the character count exactly when the text is ASCII. |
| Decimal.ValueOfRender | src/http.test.js:252-254 | The numeral written for `Content-Length` (or a port) reads back as the number. |
| Decimal.RenderOfValue | src/http.test.js:36-42 | A canonical numeral, such as the port `3000`, is rendered back from its value: `Render` and `Value` are inverse. |
| Decimal.RenderInjective | src/http.test.js:252-254 | Distinct numbers have distinct numerals. |
| Responses.HttpFailure | src/http.test.js:129-168 | A reply of 400 or more becomes an HTTP error carrying that status and the decoded body unchanged. |
| Responses.HttpFailureLines | src/http.test.js:129-168 | The error message's first line is the headline naming status, method and URL with port. Everything after the first line break is the body-derived detail. |
| Responses.HeadlineSingleLine | src/http.test.js:137-138 | The headline has no line break when the URL's host and path have none. |
| Json.Lookup | src/http.test.js:142-154 | A member is found exactly when the object has that key, and the value is that of the last member with the key. |
| Responses.DetailChoice | src/http.test.js:142-168 | An object's string `message` field is the detail exactly when it exists. Otherwise the body's structural rendering, `Json.Inspect`, is the detail. |
| Retrying.Retry | src/http.test.js:86-127 | For every script, a round ends in a reply or a transport failure, and never consumes more outcomes than scripted. It sends one more request than it waits. From `retries` retries already made, it sends at most `6 - retries` requests: one attempt and five retries at most. |
| Retrying.UnscriptedIsFinal | src/http.test.js:8 | Running out of scripted outcomes, like the connection `nock.disableNetConnect()` disallows (`ENETUNREACH`), is not retried. |
| Retrying.RetryAbsorbs | src/http.test.js:86-94 | Up to five transient failures before a reply are absorbed. The round returns the reply after one request per outcome. The waits are numbered `retries + 1`, `retries + 2`, …, one per failure. |
| Retrying.RetryExhausts | src/http.test.js:96-109 | Transient failures that reach the sixth attempt fail with the last failure's code and message. There is one request per failure and one wait fewer. Nothing after the last failure is consumed. |
| Retrying.FailsAtOnce | src/http.test.js:119-127 | A failure with any other code fails at once with its own code and message, after one request and no wait. |
| Redirects.Follow | src/http.test.js:170-195 | For every script, starting within the budget, a successful result is never a redirect and has counted at most ten hops. The count never decreases and never passes eleven. At least one request is sent. |
| Redirects.FollowHop | src/http.test.js:171-172 | A redirect within the budget leads to the same request at the new URL, one hop further on. |
| Redirects.FollowEnd | src/http.test.js:173 | A reply that is not a redirect ends redirect handling with that reply, at the same URL and hop count. |
| Redirects.FollowChain | src/http.test.js:170-175 | A chain of redirects within the budget is followed to the reply at its end. The call ends at the chain's last URL, having sent one request to each URL in order and counted one hop per redirect. |
| Redirects.FollowLoop | src/http.test.js:177-195 | The eleventh redirect of a call fails with `Redirect loop at <url>`, naming the URL that sent it. One request went to each URL, and nothing after it is consumed. |
| Pagination.WithRange | src/http.test.js:281-288 | The request for the next page keeps the method, URL and body. `range` holds the token, and every other header reads as before. |
| Pagination.Collect | src/http.test.js:275-294 | A call from one page's request on keeps the method and body. It sends at least one request and never consumes more outcomes than scripted. |
| Pagination.FlattenAt | src/http.test.js:290-293 | In the merged array, item `k` of page `p` sits at the total length of the earlier pages plus `k`. |
| Pagination.MergeOne | src/http.test.js:20-26 | A single page is delivered as it came. |
| Pagination.CollectFailure | src/http.test.js:119-127 | A failure while fetching a page fails the whole call unchanged. No page is taken and nothing more is sent. |
| Pagination.CollectErrorStatus | src/http.test.js:129-168 | A page of 400 or more fails the call with the HTTP error for that reply, naming the URL it came from. Pages already collected are dropped. |
| Pagination.CollectLastPage | src/http.test.js:286-293 | A page without `next-range` ends the call with the merged pages, under the first page's status and headers. |
| Pagination.CollectStep | src/http.test.js:275-289 | One page reply is collected. Either it ends the call, or it leads to a request carrying its token in `range`. |
| Pagination.CollectPages | src/http.test.js:275-293 | A run of pages linked by `next-range` is fetched to its end. The call returns the first page's status and headers with all bodies merged in arrival order, after one request per page and no wait. |
| Pagination.CollectPagesRequests | src/http.test.js:281-288 | Page `i + 1` is requested with `range` set to page `i`'s token, at the same URL with the same method and body. Its headers are the first request's with only `range` set. |
| Pagination.RunPages | src/http.test.js:275-293 | A whole call answered by a run of pages succeeds with the first page's status and headers and the merged bodies. It sends one request per page, the first being the built request. |
| Pagination.Run | src/http.test.js:20-26 | Nothing is sent exactly when the URL does not read, or a non-text body comes under a caller's content type. Such a call fails with a malformed-request error and leaves the script untouched. |
| Scenarios.ParsesApiRoot | src/http.test.js:20-26 | `https://api.jdxcode.com` is port 443 at `/`. |
| Scenarios.ParsesExplicitPort | src/http.test.js:36-42 | `https://api.jdxcode.com:3000` is port 3000. |
| Scenarios.ParsesHttp | src/http.test.js:44-50 | `http://api.jdxcode.com` is port 80. |
| Scenarios.ParsesAgainstDefaultHost | src/http.test.js:52-58 | With `HTTP.defaults({host: 'api.jdxcode.com'})`, `/` is that host's root. |
| Scenarios.ParsesBareHost | src/http.test.js:250 | `www.duckduckgo.com` is `https://www.duckduckgo.com:443/`. |
| Scenarios.SendsUserAgentAndCustomHeaders | src/http.test.js:60-73 | The user-agent `http-call/<version> node-<runtime>`, built from the package and runtime versions, and the caller's `foo: bar` are both sent. |
| Scenarios.PostsJsonBody | src/http.test.js:198-204 | `{foo: 'bar'}` is sent as `{"foo":"bar"}` under `application/json` with `Content-Length: 13`, for any method. |
| Scenarios.PassesCustomEncodedContentType | src/http.test.js:211-238 | A form-encoded body under `application/x-www-form-urlencoded` is sent verbatim under that type. |
| Scenarios.DisplaysNotFound | src/http.test.js:129-140 | A 404 with text body has status 404 and the two-line message naming `GET https://api.jdxcode.com:443/`. |
| Scenarios.DisplaysErrorMessage | src/http.test.js:142-154 | A 404 whose body has `message: 'uh oh'` shows `uh oh` under the headline and keeps the body. |
| Scenarios.DisplaysObjectError | src/http.test.js:156-168 | A 404 with `{otherinfo: [1, 2, 3]}` shows `{ otherinfo: [ 1, 2, 3 ] }` under the headline. |
| Scenarios.GetRootCall | src/http.test.js:24 | `get('https://api.jdxcode.com')` is the paginated call of the built GET request. |
| Scenarios.MakesGetRequest | src/http.test.js:20-34 | One 200 reply: its body and headers are returned after one request and no wait. |
| Scenarios.RetriesThenSucceeds | src/http.test.js:86-94 | Four timeouts then a reply: the reply's body, five requests, waits 1 to 4. |
| Scenarios.RetriesFiveTimes | src/http.test.js:96-109 | Six timeouts: the call fails with `timed out 6`, after six requests and waits 1 to 5. |
| Scenarios.RetriesOnNotFound | src/http.test.js:112-117 | One `ENOTFOUND` then a reply: the reply's body after two requests and one wait. |
| Scenarios.ErrorsOnUnknownCode | src/http.test.js:119-127 | `OUT_OF_MEM` fails the call at once with `oom`, after one request. |
| Scenarios.NotFoundFailsCall | src/http.test.js:129-168 | A 404 reply with any body fails the whole call with its HTTP error, after one request. |
| Scenarios.FollowsRedirect | src/http.test.js:170-175 | `/foo1` → `/foo2` → `/foo3` ends at `/foo3` with its reply, after two hops and one request per URL. |
| Scenarios.FollowsRedirectOnlyTenTimes | src/http.test.js:177-195 | Eleven redirects starting at `/foo<k>` fail with `Redirect loop at` the rendered `/foo<k+10>`, after one request to each of the eleven URLs. |
| Scenarios.Foo11Text | src/http.test.js:193 | `/foo11` renders as `https://api.jdxcode.com:443/foo11`. |
| Scenarios.FooChain | src/http.test.js:178-188 | The `/foo<n>` redirects form a chain through consecutive URLs. |
| Scenarios.NineItems | src/http.test.js:290-293 | `[1,2,3]`, `[4,5,6]` and `[7,8,9]` merge to `[1,…,9]`. |
| Scenarios.GetsNextBody | src/http.test.js:275-294 | The three linked pages give `[1,…,9]` under status 206. The second and third requests carry `range: 4` and `range: 7`. |
| Scenarios.ConstructsJsonRequest | src/http.test.js:252-273 | The constructor's JSON-body case, shown for `{foo: 'bar'}` rather than the test's own four-member object: it leaves the serialised body, `application/json`, `Content-Length: 13` and no response body. |
| Scenarios.GetsAfterRetries | src/http.test.js:86-94 | Running the class against four timeouts and a reply returns the reply's body, with five requests logged. |

## Left out

- `stream()` (the unbuffered variant) is not modelled. It bypasses retry, redirect and decoding altogether.
- The network, sockets and `nock` are replaced by the scripted transport. An exhausted script fails with `ENETUNREACH` (network unreachable). That code is not transient, so it is never retried.
- The wait hook's timing is not modelled. Waits are recorded as the retry numbers they were called with.
- Response parsing (`JSON.parse`, content-type sniffing) is left out. Replies arrive with their bodies already decoded as JSON or as raw text.
- `JSON.stringify` is modelled for integers, strings, booleans, null, arrays and objects. Floating-point numbers are left out.
- `Json.Inspect` is a simplified `util.inspect`:
  - everything is on one line, with no line breaking of long renderings;
  - nesting is never cut off to `[Object]` or `[Array]`;
  - strings are always quoted with `'`, escaping only `'`, `\` and line feeds;
  - no switch to `"` for strings that contain `'`.
- The package version and the Node.js version in the user-agent are the `version` and `runtime` fields of `Requests.Config`. `../package.json` and `process.version` are not part of this model.
- Request headers are held in one map whose names are all in lower case. Every read ignores letter case. The exact spelling a name was stored under is not modelled: the `Content-Length` key (src/http.test.js:253) and the lower-case caller names (src/http.test.js:256, 266) all read the same.
- Response headers are read by their lower-case names, as Node.js delivers them.
- Concurrency between calls on one instance is not modelled: each call runs to completion.
- Redirects.Decide: only absolute `http(s)://` URLs and texts starting with `/` are resolved as intended:
  - a `Location` relative to the current directory (`foo2`) or a query alone (`?page=2`) is read as a bare host;
  - a protocol-relative `//host/x` is read as a path on the current host;
  - dot segments are not resolved.
- Responses.DetailChoice: a `message` member stands under the headline only when it is a string. A `message` of any other type falls back to rendering the whole body. The tests (src/http.test.js:142-168) fix only a string `message` and a missing one.
- Scenarios.FollowsRedirectOnlyTenTimes: stated for a start at any `/foo<k>` rather than only `/foo1`. The rendered text for `k = 1` is `Scenarios.Foo11Text`.
- Scenarios cases other than `GetsAfterRetries` are stated about `Pagination.Collect` of the built request. `Scenarios.GetRootCall` links that to the whole call `Pagination.Run`.
- The redirect-loop message names the URL that sent the eleventh redirect (src/http.test.js:193), not the URL that redirect points to.
- When the pages of a paginated call are not all JSON arrays, the model keeps the last page's body.
- A paginated call reports the status and headers of its first page.
- A non-text body under a caller-chosen content type is rejected as a malformed request before anything is sent.
