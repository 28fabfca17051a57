/** `CorganizeClient`: a frozen record of the service's base URL (`host`) and API key, the
    URL composition and default headers every call uses, the paging loop behind the four
    listing calls, and the four single-request calls.

    Network I/O is replaced by the server's replies, given as arguments: a single-request
    call takes the one reply it receives, and the paging loop takes the sequence of replies,
    reply `k` answering request `k`. Each call also gives back the requests it sends. */
module CorganizeClient {
  import opened Wrappers
  import opened Http
  import opened Url
  import opened Pagination

  datatype Client = Client(host: string, apikey: string)

  /** The header that carries the API key. */
  const ApiKeyHeader := "apikey"

  /** Resource paths of the endpoints, as the client passes them to `_compose_url`. */
  const FilesPath := "/files"
  const ActiveFilesPath := "/files/active"
  const StaleFilesPath := "/files/stale"
  const IncompleteFilesPath := "/files/incomplete"
  const BulkFilesPath := "/files/bulk"
  const ConfigPath := "/config"

  /** `_default_headers`: the API key under `apikey`, and nothing else. */
  function DefaultHeaders(c: Client): (h: Headers)
    ensures h.Keys == {ApiKeyHeader} && h[ApiKeyHeader] == c.apikey
  {
    map[ApiKeyHeader := c.apikey]
  }

  /** `_compose_url`: the host and the resource path, each stripped of every separator at
      either end, joined by exactly one separator. */
  function ComposeUrl(c: Client, resource: string): (url: string)
    ensures url == Strip(c.host) + [Slash] + Strip(resource)
  {
    JoinPair([Slash], Strip(c.host), Strip(resource));
    Join([Slash], [Strip(c.host), Strip(resource)])
  }

  /** There is exactly one separator where host and path meet: the stripped host never ends
      in one and the stripped path never starts with one. */
  lemma ComposeUrlSingleSeparator(c: Client, resource: string)
    ensures var url, n := ComposeUrl(c, resource), |Strip(c.host)|;
      && url[n] == Slash
      && (n > 0 ==> url[n - 1] != Slash)
      && (n + 1 < |url| ==> url[n + 1] != Slash)
  {
  }

  /** Reference characterisation of `_compose_url`: for a host and a path that are each a
      core with no separator at its ends, padded with any number of separators on either
      side, the URL is the two cores joined by one separator. */
  lemma ComposeUrlOfPadded(apikey: string, a: nat, h: string, b: nat, d: nat, r: string, e: nat)
    requires NoBoundarySlash(h) && NoBoundarySlash(r)
    ensures ComposeUrl(Client(Slashes(a) + h + Slashes(b), apikey), Slashes(d) + r + Slashes(e))
         == h + [Slash] + r
  {
    StripOfPadded(a, h, b);
    StripOfPadded(d, r, e);
  }

  /** Adding separators at either end of the host or of the path never changes the URL. */
  lemma ComposeUrlIgnoresBoundarySlashes(c: Client, resource: string, a: nat, b: nat, d: nat, e: nat)
    ensures ComposeUrl(Client(Slashes(a) + c.host + Slashes(b), c.apikey), Slashes(d) + resource + Slashes(e))
         == ComposeUrl(c, resource)
  {
    StripIgnoresPadding(a, c.host, b);
    StripIgnoresPadding(d, resource, e);
  }

  /** A path with one leading separator and none trailing, stripped and appended to a host
      after one separator, is the path appended to the host. */
  lemma JoinEndpointPath(host: string, path: string)
    requires |path| > 1 && path[0] == Slash && NoBoundarySlash(path[1..])
    ensures host + [Slash] + Strip(path) == host + path
  {
    var rest := path[1..];
    assert Strip(path) == rest by {
      assert path == Slashes(1) + rest + Slashes(0);
      StripOfPadded(1, rest, 0);
    }
    assert [Slash] + rest == path;
  }

  /** The URL of a resource path that starts with one separator and does not end with one:
      the stripped host, then that path. Every endpoint path is of this form. */
  lemma EndpointUrl(c: Client, path: string)
    requires |path| > 1 && path[0] == Slash && NoBoundarySlash(path[1..])
    ensures ComposeUrl(c, path) == Strip(c.host) + path
  {
    JoinEndpointPath(Strip(c.host), path);
  }

  /** A host with a trailing separator and a path with a leading one meet in one separator. */
  lemma ComposeUrlExample(c: Client, host: string, core: string)
    requires host == core + [Slash] && core == "http://h" && c.host == host
    ensures ComposeUrl(c, FilesPath) == core + FilesPath
  {
    assert host == Slashes(0) + core + Slashes(1);
    StripOfPadded(0, core, 1);
    EndpointUrl(c, FilesPath);
  }

  /** `_get_paginated_files`: request the listing at `url` page by page, threading each
      page's continuation token into the next request's headers, until a page carries no
      token or `limit` files are gathered; then cut the result to `limit`. With no headers,
      or empty ones, the default headers are used. A failed reply raises at once. */
  method GetPaginatedFiles<F>(c: Client, url: string, headers: Option<Headers>, limit: int,
                              replies: seq<Reply<Page<F>>>)
    returns (outcome: Result<seq<F>, Error>, sent: seq<Request<F>>)
    requires Ends(replies, limit)
    ensures Paginated(url, if headers == None || headers == Some(map[]) then DefaultHeaders(c) else headers.value,
                      limit, replies, outcome, sent)
  {
    var returnFiles: seq<F> := [];
    var h := if headers.None? || headers.value == map[] then DefaultHeaders(c) else headers.value;
    // Maps are values: this is the deep copy, and updating it leaves the caller's alone.
    var headersCopy := h;
    sent := [];
    var i := 0;
    IssuedWithinReplies(url, h, limit, replies, sent);
    ghost var before := sent;
    while true
      invariant i == |sent| < |replies|
      invariant Issued(url, h, limit, replies, sent)
      invariant returnFiles == Fetched(replies, i)
      invariant headersCopy == HeadersFor(h, replies, i)
      decreases |replies| - i
    {
      before := sent;
      sent := sent + [Request(Get, url, headersCopy, NoBody)];
      var r := replies[i];
      i := i + 1;
      if IsErrorStatus(r.status) {
        outcome := Failure(HttpError(r.status));
        IssuedFinish(url, h, limit, replies, before, outcome);
        return;
      }
      returnFiles := returnFiles + r.body.files;
      var nextToken := Token(r.body);
      if nextToken == "" || |returnFiles| >= limit {
        break;
      }
      assert headersCopy[NextTokenKey := nextToken] == HeadersFor(h, replies, i) by {
        HeadersForNext(h, replies, i - 1);
      }
      headersCopy := headersCopy[NextTokenKey := nextToken];
      IssuedNext(url, h, limit, replies, before);
      IssuedWithinReplies(url, h, limit, replies, sent);
    }
    if |returnFiles| > limit {
      outcome := Success(SliceTo(returnFiles, limit));
    } else {
      outcome := Success(returnFiles);
    }
    IssuedFinish(url, h, limit, replies, before, outcome);
  }
  /** Every request of a listing call carries the client's API key under `apikey`, the
      continuation token included or not. */
  lemma ListingRequestsCarryApiKey<F>(c: Client, url: string, limit: int,
                                      replies: seq<Reply<Page<F>>>,
                                      outcome: Result<seq<F>, Error>, sent: seq<Request<F>>)
    requires Paginated(url, DefaultHeaders(c), limit, replies, outcome, sent)
    ensures forall k | 0 <= k < |sent| ::
      ApiKeyHeader in sent[k].headers && sent[k].headers[ApiKeyHeader] == c.apikey
  {
    forall k | 0 <= k < |sent|
      ensures ApiKeyHeader in sent[k].headers && sent[k].headers[ApiKeyHeader] == c.apikey
    {
      HeadersThreaded(url, DefaultHeaders(c), limit, replies, outcome, sent, k);
    }
  }

  /** `get_recent_files`: the paged listing of `/files`, with the default headers. */
  method GetRecentFiles<F>(c: Client, limit: int, replies: seq<Reply<Page<F>>>)
    returns (outcome: Result<seq<F>, Error>, sent: seq<Request<F>>)
    requires Ends(replies, limit)
    ensures Paginated(Strip(c.host) + FilesPath, DefaultHeaders(c), limit, replies, outcome, sent)
  {
    EndpointUrl(c, FilesPath);
    outcome, sent := GetPaginatedFiles(c, ComposeUrl(c, FilesPath), None, limit, replies);
  }

  /** `get_active_files`: the paged listing of `/files/active`, with the default headers. */
  method GetActiveFiles<F>(c: Client, limit: int, replies: seq<Reply<Page<F>>>)
    returns (outcome: Result<seq<F>, Error>, sent: seq<Request<F>>)
    requires Ends(replies, limit)
    ensures Paginated(Strip(c.host) + ActiveFilesPath, DefaultHeaders(c), limit, replies, outcome, sent)
  {
    EndpointUrl(c, ActiveFilesPath);
    outcome, sent := GetPaginatedFiles(c, ComposeUrl(c, ActiveFilesPath), None, limit, replies);
  }

  /** `get_stale_files`: the paged listing of `/files/stale`, with the default headers. */
  method GetStaleFiles<F>(c: Client, limit: int, replies: seq<Reply<Page<F>>>)
    returns (outcome: Result<seq<F>, Error>, sent: seq<Request<F>>)
    requires Ends(replies, limit)
    ensures Paginated(Strip(c.host) + StaleFilesPath, DefaultHeaders(c), limit, replies, outcome, sent)
  {
    EndpointUrl(c, StaleFilesPath);
    outcome, sent := GetPaginatedFiles(c, ComposeUrl(c, StaleFilesPath), None, limit, replies);
  }

  /** `get_incomplete_files`: the paged listing of `/files/incomplete`, with the default
      headers. */
  method GetIncompleteFiles<F>(c: Client, limit: int, replies: seq<Reply<Page<F>>>)
    returns (outcome: Result<seq<F>, Error>, sent: seq<Request<F>>)
    requires Ends(replies, limit)
    ensures Paginated(Strip(c.host) + IncompleteFilesPath, DefaultHeaders(c), limit, replies, outcome, sent)
  {
    EndpointUrl(c, IncompleteFilesPath);
    outcome, sent := GetPaginatedFiles(c, ComposeUrl(c, IncompleteFilesPath), None, limit, replies);
  }

  /** One request and what the call makes of the server's reply to it. */
  datatype Exchange<F, J> = Exchange(request: Request<F>, outcome: Result<J, Error>)

  /** `create_files`: POST the list of files to `/files/bulk`; a failed reply raises
      `RuntimeError` with the reply's text, a successful one returns its decoded body. */
  function CreateFiles<F, J>(c: Client, files: seq<F>, reply: Reply<J>): (x: Exchange<F, J>)
    ensures x.request == Request(Post, Strip(c.host) + BulkFilesPath, DefaultHeaders(c), FileList(files))
    ensures x.outcome.Success? <==> !IsErrorStatus(reply.status)
    ensures x.outcome.Success? ==> x.outcome.value == reply.body
    ensures x.outcome.Failure? ==> x.outcome.error == RuntimeError(reply.text)
  {
    EndpointUrl(c, BulkFilesPath);
    var request := Request(Post, ComposeUrl(c, BulkFilesPath), DefaultHeaders(c), FileList(files));
    Exchange(request, if IsErrorStatus(reply.status) then Failure(RuntimeError(reply.text)) else Success(reply.body))
  }

  /** `update_file`: PATCH one file to `/files`; a failed reply raises `RuntimeError` with
      the reply's text, and nothing is returned otherwise. */
  function UpdateFile<F, J>(c: Client, file: F, reply: Reply<J>): (x: Exchange<F, ()>)
    ensures x.request == Request(Patch, Strip(c.host) + FilesPath, DefaultHeaders(c), OneFile(file))
    ensures x.outcome.Success? <==> !IsErrorStatus(reply.status)
    ensures x.outcome.Failure? ==> x.outcome.error == RuntimeError(reply.text)
  {
    EndpointUrl(c, FilesPath);
    var request := Request(Patch, ComposeUrl(c, FilesPath), DefaultHeaders(c), OneFile(file));
    Exchange(request, if IsErrorStatus(reply.status) then Failure(RuntimeError(reply.text)) else Success(()))
  }

  /** `delete_files`: DELETE `/files` with the body `{"fileids": fileids}`; a failed reply
      raises `HTTPError` with its status, and nothing is returned otherwise. */
  function DeleteFiles<F, J>(c: Client, fileids: seq<string>, reply: Reply<J>): (x: Exchange<F, ()>)
    ensures x.request == Request(Delete, Strip(c.host) + FilesPath, DefaultHeaders(c), FileIds(fileids))
    ensures x.outcome.Success? <==> !IsErrorStatus(reply.status)
    ensures x.outcome.Failure? ==> x.outcome.error == HttpError(reply.status)
  {
    EndpointUrl(c, FilesPath);
    var request := Request(Delete, ComposeUrl(c, FilesPath), DefaultHeaders(c), FileIds(fileids));
    Exchange(request, if IsErrorStatus(reply.status) then Failure(HttpError(reply.status)) else Success(()))
  }

  /** `get_user_config`: GET `/config`; a failed reply raises `HTTPError` with its status,
      a successful one returns its decoded body. */
  function GetUserConfig<F, J>(c: Client, reply: Reply<J>): (x: Exchange<F, J>)
    ensures x.request == Request(Get, Strip(c.host) + ConfigPath, DefaultHeaders(c), NoBody)
    ensures x.outcome.Success? <==> !IsErrorStatus(reply.status)
    ensures x.outcome.Success? ==> x.outcome.value == reply.body
    ensures x.outcome.Failure? ==> x.outcome.error == HttpError(reply.status)
  {
    EndpointUrl(c, ConfigPath);
    var request := Request(Get, ComposeUrl(c, ConfigPath), DefaultHeaders(c), NoBody);
    Exchange(request, if IsErrorStatus(reply.status) then Failure(HttpError(reply.status)) else Success(reply.body))
  }
}
