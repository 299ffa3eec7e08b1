# Bitbucket API client: a Dafny model

This project models the decision logic of `api/bitbucket.py`, a small client
for the Bitbucket Server REST API written over `requests` and `furl`:

- `BitbucketAuth`, the bearer-token authenticator: its constructor, its
  token-based equality and the `Authorization` header it writes;
- the client state (`token`, authenticator, base address) with `login`,
  `logged_in` and the `token` setter;
- `_do_request` and its GET/POST/PUT/PATCH/DELETE forms: defaults for
  `timeout`, `auth` and `headers`, merging of the query embedded in the
  address with explicit `params`, and the mapping of transport outcomes to
  `TimeoutError`, `ConnectionError`, the HTTP status error or the response;
- `_iter_requests_get_generator`, the pagination loop over `results`/`next`
  pages, as a recursive function, as a loop method, and against an abstract
  page store;
- `create_pullrequest`: the endpoint address and the JSON payload.

The URL parser (`parse_url`, built on `furl`) is a function-typed parameter
`UrlParser`, and the HTTP session is a parameter `Session` from a prepared
request to a transport outcome. Everything is immutable datatypes and pure
functions. There is one loop method, `Pagination.Paginate`.

Files: `wrappers.dfy` (Option, Result), `json.dfy` (JSON values, Python
truthiness, key lookup), `errors.dfy` (the raised exceptions), `auth.dfy`,
`client.dfy`, `request.dfy`, `pagination.dfy`, `pullrequest.dfy`.

## Where the code differs from what its documentation or a reader would expect

- Status errors. `raise_for_status` raises only for statuses 400 to 599.
  Other non-2xx statuses (1xx, and 3xx that are not followed) are returned
  like successes, so the model does not treat every non-2xx status as an
  error (`Request.IsHttpError`).
- Equality. `__eq__` reads `getattr(other, "_token", None)`. So an
  authenticator equals any object whose `_token` attribute holds the same
  token. A logged-in `Bitbucket` client is such an object. The model lets
  the right-hand operand be any object with or without `_token`
  (`Auth.Operand`). "Never equal to a non-authenticator" therefore does not
  hold. What does hold is that an object without `_token` never compares
  equal.
- Login state. `login(None)` clears the token but keeps the authenticator
  already attached. So "logged in exactly when an authenticator is attached"
  does not survive a logout. After one, requests still carry the old bearer
  token (`Client.LogoutKeepsAuth`, `Request.LogoutStillSendsBearer`).
- Status error masked. An error response whose body is not JSON raises a
  decoding error, not the status error (see "## Findings"). The code as
  written is `Request.ClassifyAsWritten`. The rest of the model uses the
  intended `Request.Classify`.
- Endpoint. `_api_url` appends a slash. So the pull request is posted to
  `.../pull-requests/`, with the trailing slash.

## Model

| member | source | states |
|---|---|---|
| `Auth.NewAuth` | api/bitbucket.py:27-42 | a missing token raises `ValueError("Need token for authentication")`; any present token, the empty string included, is accepted and kept unchanged |
| `Auth.Equals` | api/bitbucket.py:44-45 | two authenticators are equal exactly when their tokens are; an object with a `_token` attribute is equal exactly when that attribute holds the same token; an object without one never is |
| `Auth.NotEquals` | api/bitbucket.py:47-48 | `!=` is exactly the negation of `==`, i.e. the tokens differ |
| `Auth.TokenAttr` | api/bitbucket.py:45 | `getattr(other, "_token", None)` is the token of another authenticator, the `_token` of any other object that has one (possibly `None`), and `None` for an object without one |
| `Auth.EqualsIsEquivalence` | api/bitbucket.py:44-48 | among authenticators, equality is reflexive, symmetric and transitive, and coincides with equality of the values |
| `Auth.Apply` | api/bitbucket.py:50-52 | applying the authenticator sets `Authorization` to `"Bearer " + token`, adds no other header and leaves every other header's value unchanged |
| `Auth.ApplyOverwrites` | api/bitbucket.py:50-52 | applying twice is applying once; a second authenticator's header replaces the first's; equal authenticators write identical headers |
| `Client.BaseUrl` | api/bitbucket.py:85-87 | the client address is the given base (or the configured one when the given base is missing or empty), a slash, and the version |
| `Client.LoggedIn` | api/bitbucket.py:102-104 | `logged_in` is true exactly when a token is stored |
| `Client.LoggedInIgnoresAuth` | api/bitbucket.py:102-104 | `logged_in` does not depend on whether an authenticator is attached |
| `Client.Login` | api/bitbucket.py:197-217 | the token is stored as given; a present token attaches an authenticator for it and makes the client logged in; `None` leaves the client logged out and keeps the old authenticator; address and version do not change |
| `Client.NewClient` | api/bitbucket.py:82-91 | a new client has the given version, the address from `BaseUrl`, the given token, and an authenticator exactly when a token was given |
| `Client.NewDefaultClient` | api/bitbucket.py:82-91 | a client built without a version has version `"1.0"` and the address `BaseUrl(url, configured, "1.0")`, with the given token and an authenticator exactly when a token was given |
| `Client.SetToken` | api/bitbucket.py:114-120 | the `token` setter replaces the token only, so `logged_in` follows it while the authenticator stays as it was |
| `Client.ApiUrl` | api/bitbucket.py:194-195 | an API address is the client address, a slash, the path and a trailing slash |
| `Client.LoginLastTokenWins` | api/bitbucket.py:209-217 | logging in twice with the same token is logging in once; a later login with a token erases every trace of the earlier one |
| `Client.LogoutKeepsAuth` | api/bitbucket.py:102-104 | after `login(t)` then `login(None)`, `logged_in` is false while the authenticator for `t` is still attached |
| `Client.FreshClientConsistent` | api/bitbucket.py:88-91 | a freshly built client is logged in exactly when it has an authenticator, and a login with a token leaves it logged in with one |
| `Request.Update` | api/bitbucket.py:139 | `dict.update` yields every key of both mappings, the explicit value where there is one and the original value elsewhere |
| `Request.UpdateIsUnion` | api/bitbucket.py:139 | `dict.update` is Dafny's right-biased map union |
| `Request.WithContentType` | api/bitbucket.py:130-133 | missing headers become exactly `{Content-Type: application/json}`; given headers keep every entry, and gain `Content-Type: application/json` only when they lack `Content-Type` |
| `Request.ContentTypeDefaultIdempotent` | api/bitbucket.py:130-133 | the header defaulting applied to its own output changes nothing |
| `Request.MergeQuery` | api/bitbucket.py:135-140 | an empty embedded query leaves address and params as they were; otherwise the address is the stripped one and params hold exactly the keys of both, explicit values winning on a clash |
| `Request.Prepare` | api/bitbucket.py:122-141 | the session receives the default `(5, 15)` timeout unless one was given, the client's current authenticator unless `auth` was given (even as `None`), the defaulted headers, the merged address and params, and the body unchanged |
| `Request.WireHeaders` | api/bitbucket.py:50-52 | the prepared headers after the authenticator has run: with its `Authorization` header applied when there is an authenticator, unchanged otherwise |
| `Request.Classify` | api/bitbucket.py:143-154 | the classification as intended (the corrected member of the finding below): a timeout becomes `TimeoutError` with the prefixed message, any other transport failure `ConnectionError`; a 4xx/5xx response becomes the status error carrying status and body, never a `ConnectionError`; any other response is returned unchanged; each in both directions |
| `Request.ClassifyAsWritten` | api/bitbucket.py:148-153 | as written: a 4xx/5xx response whose body is not JSON raises the decoding error of `print(resp.json())` instead of the status error; every other outcome is classified as intended |
| `Request.DiagnosticsMaskStatusError` | api/bitbucket.py:148-153 | the two classifications differ exactly on a 4xx/5xx response whose body is not JSON; an empty 404 gives a decoding error as written and the status error as intended |
| `Request.DoRequest` | api/bitbucket.py:122-154 | one session call on the prepared request: a timeout gives exactly `TimeoutError` with the prefixed cause, another transport failure exactly `ConnectionError` with the prefixed cause, a 4xx/5xx response exactly the status error with status and body, and any other response succeeds with that response; each in both directions (with the intended `Request.Classify`: for an error response whose body is not JSON the code as written raises a decoding error instead, see "## Findings") |
| `Request.GetOptions` | api/bitbucket.py:156-158 | GET fills in `params = {}` when none were given and changes nothing else |
| `Request.Get` | api/bitbucket.py:156-159 | a GET always sends a parameter mapping (with the intended `Request.Classify`: for an error response whose body is not JSON the code as written raises a decoding error instead, see "## Findings") |
| `Request.GetAlwaysSendsParams` | api/bitbucket.py:135-159 | with no embedded query a GET sends the explicit params or `{}`; with an embedded query and no explicit params it sends exactly the embedded query |
| `Request.FollowUpRequestDefaults` | api/bitbucket.py:176-182 | a follow-up page request, made with the `next` address alone, uses the default timeout, the client's authenticator, exactly the JSON content-type header and no body |
| `Request.LoggedInRequestCarriesBearer` | api/bitbucket.py:124-133 | after `login(t)`, every request without an `auth` override carries `Authorization: Bearer t` and a `Content-Type` |
| `Request.LogoutStillSendsBearer` | api/bitbucket.py:209-215 | after `login(t)` and `login(None)`, the client is logged out but requests still carry `Authorization: Bearer t` |
| `Request.WithBody` | api/bitbucket.py:161-168 | `json_data` is sent as the `json` body; a `json` keyword given as well is a `TypeError` and no request is made |
| `Request.Post` | api/bitbucket.py:161-162 | a POST sends `json_data` as its body |
| `Request.Put` | api/bitbucket.py:164-165 | a PUT sends `json_data` as its body |
| `Request.Patch` | api/bitbucket.py:167-168 | a PATCH sends `json_data` as its body |
| `Request.Delete` | api/bitbucket.py:170-171 | a DELETE sends the merged params and no defaulting of its own |
| `Request.DecodeBody` | api/bitbucket.py:184 | `resp.json()` yields the decoded body, and raises a decoding error exactly when the body is not JSON |
| `Pagination.NextLink` | api/bitbucket.py:189-192 | a false `next` stops, a non-empty address is followed, a missing key is an error, and each case holds in both directions |
| `Pagination.PageResults` | api/bitbucket.py:186 | a page's items are its `results` list, present exactly when the body is an object whose `results` is a list |
| `Pagination.Iterate` | api/bitbucket.py:180-192 | a failed request yields nothing and raises its error; a page without a `results` list raises; otherwise the first page's items are yielded first |
| `Pagination.EndsWithinMonotone` | api/bitbucket.py:180-192 | a chain that ends within `n` follow-up requests ends within any larger number |
| `Pagination.IterateBoundIndependent` | api/bitbucket.py:180-192 | what the generator yields does not depend on the bound used to show that the chain ends |
| `Pagination.Paginate` | api/bitbucket.py:176-192 | the loop, written as the code writes it, yields exactly the items and error the recursive definition gives |
| `Pagination.ChainYieldsConcatenation` | api/bitbucket.py:176-192 | over a finite chain of stored pages, with the first page fetched and every later address served as stored, the generator yields the concatenation of the pages' `results` in order, stops after the page whose `next` is false, and raises nothing |
| `Pagination.StoreServesChain` | api/bitbucket.py:182 | an abstract page store serves every address of a chain it holds |
| `Pagination.TwoPageExample` | api/bitbucket.py:176-192 | pages `[1, 2]` then `[3]` with no further page yield exactly `[1, 2, 3]` |
| `Pagination.FetchBody` | api/bitbucket.py:178-184 | a page body is `resp.json()` of a successful GET; a failed GET's error is passed on unchanged, and a body that is not JSON raises a decoding error (with the intended `Request.Classify`: for an error response whose body is not JSON the code as written raises a decoding error instead, see "## Findings") |
| `Pagination.FollowUps` | api/bitbucket.py:181-182 | every later page is fetched by a GET with the `next` address alone and no other options |
| `Pagination.IterGet` | api/bitbucket.py:173-192 | the first page is requested with the caller's options; a failure there ends the run with that error before anything is yielded, and otherwise the first page's items are yielded first |
| `Pagination.IterGetOverChain` | api/bitbucket.py:176-192 | through the session: when the first GET with the caller's options and every GET by a later `next` address alone return the pages of a finite chain, the generator yields the concatenation of their `results` and raises nothing |
| `PullRequest.Ref` | api/bitbucket.py:244-251 | a ref has exactly the keys `id` and `repository`: id `refs/heads/<branch>`, and a repository with exactly `name` (`"null"`), `project` (exactly `key`) and `slug` |
| `PullRequest.Envelope` | api/bitbucket.py:241-265 | the body has exactly the nine keys sent: the two refs, `state = "OPEN"`, the title and description, no reviewers, and the flags `closed`/`locked` = `"False"`, `open` = `"True"` |
| `PullRequest.Payload` | api/bitbucket.py:241-265 | `fromRef` is the source branch's ref and `toRef` the target branch's, both in the given project and repository; the state is open with no reviewers |
| `PullRequest.BranchOf` | api/bitbucket.py:245 | a ref id yields a branch exactly when it starts with `refs/heads/`, and the branch is what follows |
| `PullRequest.RefRoundTrip` | api/bitbucket.py:244-251 | a ref can be read back to its branch, project and repository |
| `PullRequest.PayloadRoundTrip` | api/bitbucket.py:241-265 | reading the payload back yields exactly the project, repository, branches, title and description it was built from |
| `PullRequest.CreatePullRequest` | api/bitbucket.py:219-266 | one POST of the payload to the pull-request address; a success returns the decoded response body, a body that is not JSON raises a decoding error, and a failure passes the POST's error through unchanged (with the intended `Request.Classify`: for an error response whose body is not JSON the code as written raises a decoding error instead, see "## Findings") |
| `PullRequest.PullRequestsUrl` | api/bitbucket.py:236-238 | the pull-request address is the client address followed by `/projects/P/repos/R/pull-requests/` |
| `PullRequest.PullRequestAddress` | api/bitbucket.py:236-238 | for a client built on base `B` with version `V`, the pull-request address is `B/V/projects/P/repos/R/pull-requests/` |
| `PullRequest.DefaultClientPullRequestAddress` | api/bitbucket.py:82-87 | for the usual `Bitbucket(token, url=B)`, the pull-request address is `B/1.0/projects/P/repos/R/pull-requests/` |
| `PullRequest.PullRequestRequest` | api/bitbucket.py:239-266 | the session receives a POST to that address (when it has no query of its own) with the payload as JSON body, exactly the JSON content-type header and the client's authenticator |

## Left out

- `parse_url` (api/bitbucket.py:55-70): `furl`'s query parsing and path normalisation are a foreign library. The model takes the parser as a parameter and assumes nothing about repeated keys or normalisation.
- The `requests` session, the HTTP calls and JSON encoding/decoding are network I/O. The session is a parameter. A response body arrives either decoded or marked as not JSON, in which case `resp.json()` raises `DecodeError`.
- An `auth` override is modelled as an authenticator or `None`. `requests` also accepts a `(user, password)` tuple or any other `AuthBase`, which `_do_request` forwards unchanged. With no authenticator, `requests` may add Basic credentials from `~/.netrc`. So `Request.WireHeaders` leaves the headers unchanged only when no such credentials apply.
- The session's default headers (`User-Agent`, `Accept`, `Accept-Encoding`, `Connection`), which `requests` merges into every request, are not modelled.
- The `timeout` option is a pair of whole seconds. `timeout=None` (wait forever), a single number and fractional seconds, which a caller may pass through, are not modelled.
- The `TypeError` for a `json` keyword given twice carries the message `_do_request() got multiple values for keyword argument 'json'`. Recent Python versions qualify the function name (`Bitbucket._do_request()`); the model keeps the short form.
- Reading `BITBUCKET_URL` from the environment, and the `EnvironmentError` raised at import time, are process configuration. The configured address is a parameter of `Client.NewClient`.
- `close`, `__enter__` and `__exit__` are session lifecycle only.
- The diagnostic `print` of the response body and headers before the status error is re-raised is a side effect only.
- Generator laziness is not modelled. The model gives the whole run: the items yielded, then the error raised, if any. A consumer that stops early, and a `login` between two page requests, are not modelled.
- Cyclic or endless `next` chains are excluded by the `EndsWithin` precondition: the chain must end within a given number of follow-up requests.
- Passing `headers=None` or `params=None` explicitly makes Python raise `TypeError` where the dictionary is used. The model's option values are mappings, never `None`.
- The header dictionary a caller passes is changed in place when `Content-Type` is added. The model returns new headers, so the caller never sees that aliasing.
- `json=None` passed as a keyword together with `json_data` is treated as absent, so the model does not raise `TypeError` for it.
- Keyword arguments `_do_request` only forwards (`data`, `files`, `verify`, ...) are not modelled.
- A page whose `results` is not a list, or whose `next` is true but not a string, is modelled as a `MalformedPage` error. Python would instead iterate a string or dict `results`, and would hand a non-string `next` to `furl`.
- Tokens, branch names and other arguments are modelled as strings. Non-string values that Python would format through `str()` are not.
- The header comparison is exact. The `Content-Type` check is case-sensitive, as on a plain dict. The case-insensitive header dictionary that `requests` builds afterwards is not modelled.
- `AuthenticationError` (api/bitbucket.py:23-24) is declared but never raised, so it has no counterpart.
- The text of a transport exception (`str(e)`) is kept as an opaque `cause` string. The status error keeps status and body rather than the whole response object.
- The decoding error carries no message: its text comes from the JSON library.

## Findings

| source | as written | input that shows it | evidently intended | confidence | as-written member | corrected member |
|---|---|---|---|---|---|---|
| api/bitbucket.py:148-153 | the bare `except:` calls `print(resp.json())` before `raise`; on a body that is not JSON that call raises, and its decoding error propagates in place of the status error | a 404 response with an empty body (or a 502 with an HTML body) | the diagnostics are printed and the original HTTP status error is re-raised | not executed | `Request.ClassifyAsWritten` (with `Request.DiagnosticsMaskStatusError`) | `Request.Classify` |
