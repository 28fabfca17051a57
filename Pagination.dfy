/** What the paging loop of `_get_paginated_files` must do, stated over the replies the
    server gives: reply `k` answers request `k`. The loop itself is
    `CorganizeClient.GetPaginatedFiles`; this module holds its specification and the
    properties proved about that specification. */
module Pagination {
  import opened Wrappers
  import opened Http

  /** The page metadata key the continuation token is read from, and the request header it
      is sent back in. */
  const NextTokenKey := "nexttoken"

  /** One decoded page of a listing: its files in server order and its metadata. */
  datatype Page<F> = Page(files: seq<F>, metadata: map<string, string>)

  /** `metadata.get("nexttoken")`, with a missing token read as the empty string: both are
      falsy for the loop, and only a truthy token is ever used. */
  function Token<F>(p: Page<F>): (t: string)
    ensures t != "" <==> NextTokenKey in p.metadata && p.metadata[NextTokenKey] != ""
    ensures t != "" ==> t == p.metadata[NextTokenKey]
  {
    if NextTokenKey in p.metadata then p.metadata[NextTokenKey] else ""
  }

  /** The files of the first `n` replies, concatenated in request order. */
  function Fetched<F>(replies: seq<Reply<Page<F>>>, n: nat): seq<F>
    requires n <= |replies|
  {
    if n == 0 then [] else Fetched(replies, n - 1) + replies[n - 1].body.files
  }

  /** Whether the loop ends right after request `k` (counting from 0): that request failed,
      its page carries no truthy token, or the files gathered so far reach `limit`. */
  predicate StopsAt<F>(replies: seq<Reply<Page<F>>>, k: nat, limit: int)
    requires k < |replies|
  {
    || IsErrorStatus(replies[k].status)
    || Token(replies[k].body) == ""
    || |Fetched(replies, k + 1)| >= limit
  }

  /** The server's replies end the listing somewhere: the loop then stops within them. */
  predicate Ends<F>(replies: seq<Reply<Page<F>>>, limit: int)
  {
    exists k | 0 <= k < |replies| :: StopsAt(replies, k, limit)
  }

  function Min(a: int, b: int): int { if a <= b then a else b }
  function Max(a: int, b: int): int { if a <= b then b else a }

  /** Python's `xs[:n]`; a negative `n` drops `-n` items from the end. */
  function SliceTo<F>(xs: seq<F>, n: int): (r: seq<F>)
    ensures r <= xs
    ensures |r| == if n >= 0 then Min(n, |xs|) else Max(0, |xs| + n)
  {
    if n >= |xs| then xs
    else if n >= 0 then xs[..n]
    else if |xs| + n <= 0 then []
    else xs[..|xs| + n]
  }

  /** How many of `fetched` items the call returns: all of them when they fit within
      `limit`, else the slice `[:limit]` is taken. */
  function ReturnedCount(fetched: nat, limit: int): nat
  {
    if fetched <= limit then fetched
    else if limit >= 0 then limit
    else Max(0, fetched + limit)
  }

  /** How a call whose last request was request `n - 1` ends: a failed reply raises
      `HTTPError` with its status; otherwise the call returns a prefix of the files of all
      `n` pages fetched, of `ReturnedCount` items. */
  ghost predicate EndsWith<F>(replies: seq<Reply<Page<F>>>, n: nat, limit: int, outcome: Result<seq<F>, Error>)
    requires 1 <= n <= |replies|
  {
    var last := replies[n - 1];
    if IsErrorStatus(last.status) then outcome == Failure(HttpError(last.status))
    else
      && outcome.Success?
      && outcome.value <= Fetched(replies, n)
      && |outcome.value| == ReturnedCount(|Fetched(replies, n)|, limit)
  }

  /** The behaviour of one call of the paging loop against the listing URL `url`, with `h0`
      the headers of the first request, given the server's `replies`; `sent` is the requests
      the call issues, in order, and `outcome` what it returns or raises.
      - at least one request is issued, and the call stops after the first request whose
        reply stops the loop: no request follows it;
      - every request is a GET of `url` without a body;
      - the first request carries `h0`; each further one carries the headers of the
        request before it with `nexttoken` set to the token of that request's page;
      - the call ends as `EndsWith` says. */
  ghost predicate Paginated<F>(url: string, h0: Headers, limit: int, replies: seq<Reply<Page<F>>>,
                               outcome: Result<seq<F>, Error>, sent: seq<Request<F>>)
  {
    && 1 <= |sent| <= |replies|
    && StopsAt(replies, |sent| - 1, limit)
    && (forall k | 0 <= k < |sent| - 1 ::
          && !StopsAt(replies, k, limit)
          && sent[k + 1].headers == sent[k].headers[NextTokenKey := Token(replies[k].body)])
    && (forall k | 0 <= k < |sent| :: sent[k].verb == Get && sent[k].url == url && sent[k].body == NoBody)
    && sent[0].headers == h0
    && EndsWith(replies, |sent|, limit, outcome)
  }

  /** The headers request `k` carries, in closed form: the first request's headers, with
      `nexttoken` set to the token of page `k - 1` from the second request on. */
  function HeadersFor<F>(h0: Headers, replies: seq<Reply<Page<F>>>, k: nat): Headers
    requires k <= |replies|
  {
    if k == 0 then h0 else h0[NextTokenKey := Token(replies[k - 1].body)]
  }

  /** Setting the token of page `k` on the headers of request `k` gives those of request
      `k + 1`: an earlier token is overwritten, never accumulated. */
  lemma HeadersForNext<F>(h0: Headers, replies: seq<Reply<Page<F>>>, k: nat)
    requires k < |replies|
    ensures HeadersFor(h0, replies, k)[NextTokenKey := Token(replies[k].body)]
         == HeadersFor(h0, replies, k + 1)
  {
  }

  /** The requests a call has issued while still looping: none of their replies stopped the
      loop, and request `k` is the GET of `url` with the headers `HeadersFor` gives. */
  ghost predicate Issued<F>(url: string, h0: Headers, limit: int, replies: seq<Reply<Page<F>>>,
                            sent: seq<Request<F>>)
  {
    && |sent| <= |replies|
    && forall k | 0 <= k < |sent| ::
         && !StopsAt(replies, k, limit)
         && sent[k] == Request(Get, url, HeadersFor(h0, replies, k), NoBody)
  }

  /** While the loop goes on there is a reply for the next request. */
  lemma IssuedWithinReplies<F>(url: string, h0: Headers, limit: int, replies: seq<Reply<Page<F>>>,
                               sent: seq<Request<F>>)
    requires Ends(replies, limit) && Issued(url, h0, limit, replies, sent)
    ensures |sent| < |replies|
  {
    var k :| 0 <= k < |replies| && StopsAt(replies, k, limit);
  }

  /** A request whose reply does not stop the loop extends the requests issued. */
  lemma IssuedNext<F>(url: string, h0: Headers, limit: int, replies: seq<Reply<Page<F>>>,
                      sent: seq<Request<F>>)
    requires Issued(url, h0, limit, replies, sent)
    requires |sent| < |replies| && !StopsAt(replies, |sent|, limit)
    ensures Issued(url, h0, limit, replies, sent + [Request(Get, url, HeadersFor(h0, replies, |sent|), NoBody)])
  {
  }

  /** A request whose reply stops the loop completes a behaviour that meets `Paginated`. */
  lemma IssuedFinish<F>(url: string, h0: Headers, limit: int, replies: seq<Reply<Page<F>>>,
                        sent: seq<Request<F>>, outcome: Result<seq<F>, Error>)
    requires Issued(url, h0, limit, replies, sent)
    requires |sent| < |replies| && StopsAt(replies, |sent|, limit)
    requires EndsWith(replies, |sent| + 1, limit, outcome)
    ensures Paginated(url, h0, limit, replies, outcome,
                      sent + [Request(Get, url, HeadersFor(h0, replies, |sent|), NoBody)])
  {
    var all := sent + [Request(Get, url, HeadersFor(h0, replies, |sent|), NoBody)];
    forall k | 0 <= k < |all| - 1
      ensures all[k + 1].headers == all[k].headers[NextTokenKey := Token(replies[k].body)]
    {
      HeadersForNext(h0, replies, k);
    }
  }

  /** The files gathered only grow: the first `m` pages' files are a prefix of the first
      `n` pages' files. */
  lemma {:induction false} FetchedGrows<F>(replies: seq<Reply<Page<F>>>, m: nat, n: nat)
    requires m <= n <= |replies|
    ensures Fetched(replies, m) <= Fetched(replies, n)
  {
    if m < n {
      FetchedGrows(replies, m, n - 1);
    }
  }

  /** The headers of request `k` are the first request's headers, with `nexttoken` set to
      the token of page `k - 1` from the second request on: `apikey` and every other entry
      of the first request are sent unchanged with every request. */
  lemma {:induction false} HeadersThreaded<F>(url: string, h0: Headers, limit: int,
                                              replies: seq<Reply<Page<F>>>,
                                              outcome: Result<seq<F>, Error>,
                                              sent: seq<Request<F>>, k: nat)
    requires Paginated(url, h0, limit, replies, outcome, sent)
    requires k < |sent|
    ensures k == 0 ==> sent[k].headers == h0
    ensures k > 0 ==> sent[k].headers == h0[NextTokenKey := Token(replies[k - 1].body)]
    ensures k > 0 ==> Token(replies[k - 1].body) != ""
  {
    if k > 0 {
      assert !StopsAt(replies, k - 1, limit);
      assert sent[k].headers == sent[k - 1].headers[NextTokenKey := Token(replies[k - 1].body)];
      if k > 1 {
        HeadersThreaded(url, h0, limit, replies, outcome, sent, k - 1);
        var m := h0[NextTokenKey := Token(replies[k - 2].body)];
        assert m[NextTokenKey := Token(replies[k - 1].body)]
            == h0[NextTokenKey := Token(replies[k - 1].body)];
      }
    }
  }

  /** The specification leaves no freedom: given the same replies, any two behaviours that
      meet it issue the same requests and end in the same outcome. */
  lemma PaginatedIsDeterministic<F>(url: string, h0: Headers, limit: int,
                                    replies: seq<Reply<Page<F>>>,
                                    outcome1: Result<seq<F>, Error>, sent1: seq<Request<F>>,
                                    outcome2: Result<seq<F>, Error>, sent2: seq<Request<F>>)
    requires Paginated(url, h0, limit, replies, outcome1, sent1)
    requires Paginated(url, h0, limit, replies, outcome2, sent2)
    ensures sent1 == sent2 && outcome1 == outcome2
  {
    assert |sent1| == |sent2|;
    forall k | 0 <= k < |sent1| ensures sent1[k] == sent2[k] {
      HeadersThreaded(url, h0, limit, replies, outcome1, sent1, k);
      HeadersThreaded(url, h0, limit, replies, outcome2, sent2, k);
      assert sent1[k] == Request(Get, url, sent1[k].headers, NoBody);
      assert sent2[k] == Request(Get, url, sent2[k].headers, NoBody);
    }
    var fetched := Fetched(replies, |sent1|);
    if outcome1.Success? {
      assert outcome1.value == fetched[..|outcome1.value|];
      assert outcome2.value == fetched[..|outcome2.value|];
    }
  }

  /** With a non-negative `limit`, a successful call returns a prefix of the files of the
      pages it fetched, in server order, and never more than `limit` of them: all of them
      when they fit, else exactly the first `limit`. */
  lemma ResultIsLimitedPrefix<F>(url: string, h0: Headers, limit: int,
                                 replies: seq<Reply<Page<F>>>,
                                 outcome: Result<seq<F>, Error>, sent: seq<Request<F>>)
    requires Paginated(url, h0, limit, replies, outcome, sent)
    requires outcome.Success? && limit >= 0
    ensures outcome.value <= Fetched(replies, |sent|)
    ensures |outcome.value| <= limit
    ensures |Fetched(replies, |sent|)| <= limit ==> outcome.value == Fetched(replies, |sent|)
    ensures |Fetched(replies, |sent|)| > limit ==> outcome.value == Fetched(replies, |sent|)[..limit]
  {
  }

  /** Once the files gathered reach `limit` after a successful request, no further request
      is made. */
  lemma StopsOnceLimitReached<F>(url: string, h0: Headers, limit: int,
                                 replies: seq<Reply<Page<F>>>,
                                 outcome: Result<seq<F>, Error>, sent: seq<Request<F>>, k: nat)
    requires Paginated(url, h0, limit, replies, outcome, sent)
    requires k < |sent| && |Fetched(replies, k + 1)| >= limit
    ensures |sent| == k + 1
  {
    assert StopsAt(replies, k, limit);
  }

  /** A listing that the server serves in full: every reply succeeds, every page but the
      last carries a token, the last carries none, and the pages before the last hold fewer
      than `limit` files. Then one request is issued per page and the call returns the
      concatenation of all pages, cut to `limit`. */
  lemma WholeListingFetched<F>(url: string, h0: Headers, limit: int,
                               replies: seq<Reply<Page<F>>>,
                               outcome: Result<seq<F>, Error>, sent: seq<Request<F>>)
    requires Paginated(url, h0, limit, replies, outcome, sent)
    requires forall k | 0 <= k < |replies| :: !IsErrorStatus(replies[k].status)
    requires forall k | 0 <= k < |replies| - 1 :: Token(replies[k].body) != ""
    requires |Fetched(replies, |replies| - 1)| < limit
    ensures |sent| == |replies|
    ensures outcome.Success?
    ensures |Fetched(replies, |replies|)| <= limit ==> outcome.value == Fetched(replies, |replies|)
    ensures |Fetched(replies, |replies|)| > limit ==> outcome.value == Fetched(replies, |replies|)[..limit]
  {
    if |sent| < |replies| {
      FetchedGrows(replies, |sent|, |replies| - 1);
    }
  }
}
