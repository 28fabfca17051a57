# corganize client, modelled in Dafny

`CorganizeClient` (`corganizeclient/client.py`) is a small HTTP client for the corganize
file-tracking service. Its core is made of three pieces:

- URL composition (`_compose_url`): the base URL and the resource path each lose every `/`
  at either end, and are then joined by one `/`.
- The default headers (`_default_headers`): the API key under `apikey`.
- The paging loop (`_get_paginated_files`), which backs the four listing calls:
  - it issues GET requests;
  - it gathers each page's `files` in server order;
  - it sends each page's `nexttoken` back in a copy of the request headers;
  - it stops at a page with no token, or once `limit` files are gathered;
  - it then cuts the result to `limit`.

Around these sit eight endpoint calls. Each one picks a resource path and sends one request,
or runs the paging loop.

Modules:

- `Wrappers`: `Option` and `Result`.
- `Http`: header maps, requests, replies and the two errors the client raises. A reply
  counts as failed when `400 <= status < 600`; this is the rule behind `requests`' `ok` and
  `raise_for_status`.
- `Url`: Python's `str.strip("/")` and `"/".join` over `seq<char>`, with a reference
  characterisation of `strip`.
- `Pagination`: the specification of the paging loop (`Paginated`) and the properties
  proved about it.
- `CorganizeClient`: the client record, `_compose_url`, `_default_headers`, the paging loop
  and the endpoint calls.

The paging loop is modelled as a method with a `while true` loop, like the source.
- The network is replaced by the server's replies: reply `k` answers request `k`. The method
  also returns the requests it sent, in order.
- The loop's invariants tie its accumulator, its header copy and the request log to
  functions of the replies consumed so far.
- Headers are Dafny map values. The private copy the loop updates is therefore a separate
  value, and the caller's map cannot change. The first request carries the caller's map
  exactly, or the default headers when the caller passes none or an empty one.
- A missing `nexttoken` is read as the empty string. Python treats both as falsy, and only
  a truthy token is ever sent back.

A reply fails when `400 <= status < 600`. That is the rule behind `r.ok` and
`raise_for_status()`, so a 3xx reply counts as a success.

## Model

| member | source | states |
|---|---|---|
| Url.StripLeading | corganizeclient/client.py:21 | the input is some leading `/`s followed by the result, and the result does not start with `/` |
| Url.StripTrailing | corganizeclient/client.py:21 | the input is the result followed by some trailing `/`s, and the result does not end with `/` |
| Url.Strip | corganizeclient/client.py:21 | `strip("/")` is never longer than its input and leaves no `/` at either end |
| Url.JoinPair | corganizeclient/client.py:21 | `Join` is `sep.join(parts)`; for the two parts `_compose_url` passes it is the first part, the separator once, then the second part |
| Url.StripOfPadded | corganizeclient/client.py:21 | a core with no `/` at its ends, padded with any number of `/`s on each side, strips back to exactly that core |
| Url.StripDecomposes | corganizeclient/client.py:21 | every string is its leading `/`s, then its stripped form, then its trailing `/`s, so `strip` removes only boundary `/`s and keeps the interior intact |
| Url.StripIgnoresPadding | corganizeclient/client.py:21 | adding `/`s at either end of a string never changes what `strip` returns |
| Url.StripIdempotent | corganizeclient/client.py:21 | stripping twice is stripping once |
| CorganizeClient.DefaultHeaders | corganizeclient/client.py:16-18 | the default headers have exactly one key, `apikey`, mapped to the client's API key |
| CorganizeClient.ComposeUrl | corganizeclient/client.py:20-21 | the URL is the stripped host, one `/`, then the stripped resource path |
| CorganizeClient.ComposeUrlSingleSeparator | corganizeclient/client.py:21 | where host and path meet there is a `/`, with no `/` just before or after it |
| CorganizeClient.ComposeUrlOfPadded | corganizeclient/client.py:20-21 | a host and a path that are slash-free cores padded with any number of `/`s compose to the two cores joined by one `/` |
| CorganizeClient.ComposeUrlIgnoresBoundarySlashes | corganizeclient/client.py:20-21 | adding `/`s at either end of the host or of the path leaves the URL unchanged |
| CorganizeClient.EndpointUrl | corganizeclient/client.py:20-21 | for a path of the endpoints' form (one leading `/`, none trailing) the URL is the stripped host followed by that path |
| CorganizeClient.ComposeUrlExample | corganizeclient/client.py:20-24 | host `http://h/` with path `/files` gives `http://h/files` |
| CorganizeClient.GetPaginatedFiles | corganizeclient/client.py:76-114 | the loop meets `Paginated`: it issues at least one GET of the URL and stops right after the first reply that fails, carries no token, or brings the gathered count to `limit`; the first request carries the caller's headers, or the defaults when none or empty ones are given; each later request carries the previous headers with `nexttoken` set to the previous page's token; a failed reply raises `HTTPError` with its status; otherwise the result is a prefix of the files of all pages fetched, all of them when at most `limit` were gathered and as many as Python's `[:limit]` keeps otherwise |
| Pagination.Token | corganizeclient/client.py:98-99 | the token read from a page's metadata is non-empty (truthy) exactly when `nexttoken` is present with a non-empty value, and is then that value; a missing token reads as empty |
| Http.ErrorStatusIsClientOrServerClass | corganizeclient/client.py:87 | `IsErrorStatus`, the test behind `r.ok` and `raise_for_status()` (also at lines 49, 60, 68 and 73), holds exactly for statuses of class 4xx (client error) or 5xx (server error) |
| Pagination.SliceTo | corganizeclient/client.py:112 | Python's `xs[:n]` is a prefix of `xs`, of length `min(n, len)` for `n >= 0` and `max(0, len + n)` for a negative `n` |
| Pagination.FetchedGrows | corganizeclient/client.py:94 | the files gathered after fewer pages are a prefix of the files gathered after more |
| Pagination.HeadersThreaded | corganizeclient/client.py:102-104 | request `k > 0` carries the first request's headers with only `nexttoken` set, to the non-empty token of page `k - 1`; every other entry, `apikey` included, is unchanged |
| Pagination.PaginatedIsDeterministic | corganizeclient/client.py:85-114 | given the same replies, any two behaviours meeting the loop's specification send the same requests and end the same way |
| Pagination.ResultIsLimitedPrefix | corganizeclient/client.py:110-114 | with `limit >= 0` a successful result is a prefix of the fetched files, has at most `limit` items, is all of them when they fit and exactly the first `limit` otherwise |
| Pagination.StopsOnceLimitReached | corganizeclient/client.py:99-100 | once the gathered count reaches `limit`, no further request is issued |
| Pagination.WholeListingFetched | corganizeclient/client.py:85-114 | when every reply succeeds, every page but the last has a token, the last has none, and the earlier pages hold fewer than `limit` files, then one request is issued per page and the result is all pages' files cut to `limit` |
| CorganizeClient.ListingRequestsCarryApiKey | corganizeclient/client.py:79-83 | every request of a call made with the default headers carries the client's API key under `apikey` |
| CorganizeClient.GetRecentFiles | corganizeclient/client.py:23-25 | the paging loop against `<stripped host>/files` with the default headers |
| CorganizeClient.GetActiveFiles | corganizeclient/client.py:27-29 | the paging loop against `<stripped host>/files/active` with the default headers |
| CorganizeClient.GetStaleFiles | corganizeclient/client.py:35-37 | the paging loop against `<stripped host>/files/stale` with the default headers |
| CorganizeClient.GetIncompleteFiles | corganizeclient/client.py:39-41 | the paging loop against `<stripped host>/files/incomplete` with the default headers |
| CorganizeClient.CreateFiles | corganizeclient/client.py:43-52 | one POST of the file list to `<stripped host>/files/bulk` with the default headers; it succeeds exactly when the status is not 4xx/5xx, and then returns the decoded body; otherwise it raises `RuntimeError` with the reply text |
| CorganizeClient.UpdateFile | corganizeclient/client.py:54-61 | one PATCH of the file to `<stripped host>/files` with the default headers; it succeeds exactly when the status is not 4xx/5xx, and otherwise raises `RuntimeError` with the reply text |
| CorganizeClient.DeleteFiles | corganizeclient/client.py:63-68 | one DELETE of `<stripped host>/files` with body `{"fileids": ...}` and the default headers; it succeeds exactly when the status is not 4xx/5xx, and otherwise raises `HTTPError` with the status |
| CorganizeClient.GetUserConfig | corganizeclient/client.py:70-74 | one GET of `<stripped host>/config` with the default headers; it succeeds exactly when the status is not 4xx/5xx, and then returns the decoded body; otherwise it raises `HTTPError` with the status |

## Left out

- Network I/O through `requests` (client.py:47, 58, 67, 72, 86) is not modelled. The server's replies are given as arguments instead.
- Transport failures (DNS, connection, TLS) are not modelled; every request gets a reply.
- The `nexttoken` continuation protocol relies on the server to end the listing. The paging methods require that the given replies contain a reply that stops the loop. Against a server that never stops handing out tokens, the source loops forever; this model does not cover that case.
- JSON decoding (`r.json()`) is not modelled. File records and the decoded bodies of other replies are type parameters the model does not inspect.
- A page whose `files` or `metadata` is missing is not modelled. The source crashes with a Python `TypeError` or `AttributeError` there; every modelled page has both.
- A `nexttoken` that is not a string is not modelled: metadata values are strings.
- The duplicated `get_stale_files` (client.py:31-33) is not modelled. Python keeps only the later definition (client.py:35-37), and that is the one modelled.
- Logging (client.py:8, 80, 96, 106, 108, 111) is an observability side effect only and is left out.
- The `isinstance` assertions (client.py:44, 55, 64) are left out, because Dafny's types already enforce them.
- The frozen-dataclass machinery is left out. `host` and `apikey` are the fields of an immutable datatype.
- Default argument values are left out, because Dafny has none. A caller passes `limit`, and `None` for the headers, explicitly; the source's default `limit` is 1000.
- CorganizeClient.GetPaginatedFiles, CorganizeClient.DeleteFiles, CorganizeClient.GetUserConfig: the `HTTPError` they raise carries the status code only, not the whole response object.
