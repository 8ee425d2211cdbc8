/**
 * The paginated fetcher (`fetch_all`). The HTTP layer is a page source: a total
 * function from a request (URL, page number, page size) to either a network
 * failure or a decoded JSON payload. The fetcher returns what it collected and
 * the log of requests it issued, in order.
 */
module Fetch {
  import opened Wrappers
  import opened Json
  import opened Errors

  /** Page size sent with every request. */
  const PerPage: int := 100

  datatype Request = Request(url: string, page: int, perPage: int)

  /** The `pagination` object; `totalPages` is None when the key is missing. */
  datatype Pagination = Pagination(totalPages: Option<int>)

  /** A decoded body; a component is None when its key is missing. */
  datatype Payload = Payload(data: Option<seq<Record>>, pagination: Option<Pagination>)

  /** A network failure covers connection errors, timeouts and 4xx/5xx statuses. */
  datatype Response = NetworkFailure(cause: string) | Received(payload: Payload)

  type PageSource = Request -> Response

  /** `payload.get("data", [])` */
  function DataOf(p: Payload): seq<Record>
  {
    if p.data.Some? then p.data.value else []
  }

  /** `payload.get("pagination", {}).get("total_pages", 1)` */
  function TotalPagesOf(p: Payload): int
  {
    if p.pagination.Some? && p.pagination.value.totalPages.Some?
    then p.pagination.value.totalPages.value
    else 1
  }

  /**
   * The loop of `fetch_all` terminates only against a server whose reported
   * page counts stay bounded; the model is stated under that assumption.
   */
  ghost predicate Bounded(src: PageSource, bound: int)
  {
    forall q: Request :: src(q).Received? ==> TotalPagesOf(src(q).payload) <= bound
  }

  /** `s.rstrip(c)`: `s` without all of its trailing `c` characters. */
  function RStrip(s: string, c: char): (r: string)
    ensures |r| <= |s| && r == s[..|r|]
    ensures r == [] || r[|r| - 1] != c
    ensures forall i :: |r| <= i < |s| ==> s[i] == c
  {
    if s != [] && s[|s| - 1] == c then RStrip(s[..|s| - 1], c) else s
  }

  /** The URL every page of an endpoint is requested from. */
  function FullUrl(baseUrl: string, endpoint: string): string
  {
    RStrip(baseUrl, '/') + endpoint
  }

  /** The requests issued by one fetch and how it ended. */
  datatype FetchRun = FetchRun(requests: seq<Request>, outcome: Result<seq<Record>, PipelineError>)

  function Max(a: int, b: int): int
  {
    if a < b then b else a
  }

  /**
   * What the loop does from `page` on, `total` being the page count last read
   * (1 before the first response).
   */
  function Pages(src: PageSource, url: string, page: int, total: int, bound: int): (run: FetchRun)
    requires Bounded(src, bound)
    decreases Max(bound, total) - page
  {
    if page > total then FetchRun([], Ok([]))
    else
      var q := Request(url, page, PerPage);
      match src(q)
      case NetworkFailure(cause) => FetchRun([q], Err(NetworkError(url, cause)))
      case Received(p) =>
        var rest := Pages(src, url, page + 1, TotalPagesOf(p), bound);
        FetchRun([q] + rest.requests,
                 if rest.outcome.Ok? then Ok(DataOf(p) + rest.outcome.value) else rest.outcome)
  }

  /** `run` preceded by requests `qs` that already delivered `records`. */
  function Join(qs: seq<Request>, records: seq<Record>, run: FetchRun): FetchRun
  {
    FetchRun(qs + run.requests,
             if run.outcome.Ok? then Ok(records + run.outcome.value) else run.outcome)
  }

  lemma JoinNothing(run: FetchRun)
    ensures Join([], [], run) == run
  {
    assert [] + run.requests == run.requests;
    if run.outcome.Ok? {
      assert [] + run.outcome.value == run.outcome.value;
    }
  }

  lemma JoinStep(qs: seq<Request>, records: seq<Record>, q: Request, data: seq<Record>, rest: FetchRun)
    ensures Join(qs, records, FetchRun([q] + rest.requests,
                                       if rest.outcome.Ok? then Ok(data + rest.outcome.value) else rest.outcome))
         == Join(qs + [q], records + data, rest)
  {
    assert qs + ([q] + rest.requests) == (qs + [q]) + rest.requests;
    if rest.outcome.Ok? {
      assert records + (data + rest.outcome.value) == (records + data) + rest.outcome.value;
    }
  }

  /** The records the received answers to `qs` carry, in request order. */
  function Collected(src: PageSource, qs: seq<Request>): seq<Record>
  {
    if qs == [] then []
    else
      (if src(qs[0]).Received? then DataOf(src(qs[0]).payload) else []) + Collected(src, qs[1..])
  }

  /** `fetch_all(endpoint)`, with the HTTP layer given as `src`. */
  method FetchAll(baseUrl: string, endpoint: string, src: PageSource, ghost bound: int)
    returns (outcome: Result<seq<Record>, PipelineError>, requests: seq<Request>)
    requires Bounded(src, bound)
    ensures FetchRun(requests, outcome) == Pages(src, FullUrl(baseUrl, endpoint), 1, 1, bound)
  {
    var fullUrl := FullUrl(baseUrl, endpoint);
    var records: seq<Record> := [];
    var page := 1;
    var totalPages := 1;
    requests := [];
    JoinNothing(Pages(src, fullUrl, 1, 1, bound));
    while page <= totalPages
      invariant Pages(src, fullUrl, 1, 1, bound) == Join(requests, records, Pages(src, fullUrl, page, totalPages, bound))
      decreases Max(bound, totalPages) - page
    {
      var q := Request(fullUrl, page, PerPage);
      var resp := src(q);
      requests := requests + [q];
      if resp.NetworkFailure? {
        outcome := Err(NetworkError(fullUrl, resp.cause));
        return;
      }
      var payload := resp.payload;
      JoinStep(requests[..|requests| - 1], records, q, DataOf(payload),
               Pages(src, fullUrl, page + 1, TotalPagesOf(payload), bound));
      assert requests[..|requests| - 1] + [q] == requests;
      records := records + DataOf(payload);
      totalPages := TotalPagesOf(payload);
      page := page + 1;
    }
    assert requests + [] == requests && records + [] == records;
    outcome := Ok(records);
  }

  // ---------------------------------------------------------------------
  // Properties of the loop
  // ---------------------------------------------------------------------

  /** Page `page + i` is the i-th request: pages are asked for one by one, in increasing order. */
  lemma {:induction false} RequestsAreConsecutive(src: PageSource, url: string, page: int, total: int, bound: int)
    requires Bounded(src, bound)
    ensures forall i :: 0 <= i < |Pages(src, url, page, total, bound).requests| ==>
      Pages(src, url, page, total, bound).requests[i] == Request(url, page + i, PerPage)
    decreases Max(bound, total) - page
  {
    if page <= total {
      var q := Request(url, page, PerPage);
      if src(q).Received? {
        var t := TotalPagesOf(src(q).payload);
        RequestsAreConsecutive(src, url, page + 1, t, bound);
        var rest := Pages(src, url, page + 1, t, bound);
        var run := Pages(src, url, page, total, bound);
        assert run.requests == [q] + rest.requests;
        forall i | 0 <= i < |run.requests| ensures run.requests[i] == Request(url, page + i, PerPage) {
          if i > 0 {
            assert run.requests[i] == rest.requests[i - 1];
            assert rest.requests[i - 1] == Request(url, page + 1 + (i - 1), PerPage);
          }
        }
      } else {
        assert Pages(src, url, page, total, bound).requests == [q];
      }
    }
  }

  /**
   * The page count that governs the loop is the one read from the latest
   * response: a request is made iff the page number does not exceed it, and
   * the loop stops at the first failure or at the first page whose reported
   * count it has reached.
   */
  lemma {:induction false} LastSeenTotalGoverns(src: PageSource, url: string, page: int, total: int, bound: int)
    requires Bounded(src, bound)
    ensures var run := Pages(src, url, page, total, bound);
      var n := |run.requests|;
      && (n == 0 <==> page > total)
      && (forall i :: 0 <= i < n - 1 ==>
            src(run.requests[i]).Received? && TotalPagesOf(src(run.requests[i]).payload) >= page + i + 1)
      && (n > 0 ==>
            src(run.requests[n - 1]).NetworkFailure? || TotalPagesOf(src(run.requests[n - 1]).payload) < page + n)
    decreases Max(bound, total) - page
  {
    if page <= total {
      var q := Request(url, page, PerPage);
      if src(q).Received? {
        var t := TotalPagesOf(src(q).payload);
        LastSeenTotalGoverns(src, url, page + 1, t, bound);
        var rest := Pages(src, url, page + 1, t, bound);
        var run := Pages(src, url, page, total, bound);
        assert run.requests == [q] + rest.requests;
        forall i | 0 <= i < |run.requests| - 1
          ensures src(run.requests[i]).Received? && TotalPagesOf(src(run.requests[i]).payload) >= page + i + 1
        {
          if i > 0 {
            assert run.requests[i] == rest.requests[i - 1];
          } else if rest.requests == [] {
            assert false;
          }
        }
      }
    }
  }

  /**
   * A fetch succeeds iff every request it made was answered; it then returns
   * exactly the in-order concatenation of the pages' `data`. A failure is the
   * network error of the last request made, carrying the URL, with no records.
   */
  lemma {:induction false} OutcomeOfPages(src: PageSource, url: string, page: int, total: int, bound: int)
    requires Bounded(src, bound)
    ensures var run := Pages(src, url, page, total, bound);
      && (run.outcome.Ok? <==> forall i :: 0 <= i < |run.requests| ==> src(run.requests[i]).Received?)
      && (run.outcome.Ok? ==> run.outcome.value == Collected(src, run.requests))
      && (run.outcome.Err? ==>
            && |run.requests| > 0
            && src(run.requests[|run.requests| - 1]).NetworkFailure?
            && run.outcome.error == NetworkError(url, src(run.requests[|run.requests| - 1]).cause))
    decreases Max(bound, total) - page
  {
    if page <= total {
      var q := Request(url, page, PerPage);
      if src(q).Received? {
        var t := TotalPagesOf(src(q).payload);
        OutcomeOfPages(src, url, page + 1, t, bound);
        var rest := Pages(src, url, page + 1, t, bound);
        var run := Pages(src, url, page, total, bound);
        assert run.requests == [q] + rest.requests;
        assert run.requests[1..] == rest.requests;
        forall i | 0 < i < |run.requests| ensures run.requests[i] == rest.requests[i - 1] { }
        if rest.outcome.Err? {
          assert !src(rest.requests[|rest.requests| - 1]).Received?;
        }
      } else {
        assert Pages(src, url, page, total, bound).requests[0] == q;
      }
    }
  }

  /** A first request, for page 1, is always made. */
  lemma AlwaysRequestsFirstPage(src: PageSource, url: string, bound: int)
    requires Bounded(src, bound)
    ensures var run := Pages(src, url, 1, 1, bound);
      |run.requests| >= 1 && run.requests[0] == Request(url, 1, PerPage)
  {
    RequestsAreConsecutive(src, url, 1, 1, bound);
    LastSeenTotalGoverns(src, url, 1, 1, bound);
  }

  /** Pages 1..n-1 done; from `page` to `n` every page reports `n`. */
  lemma {:induction false} UniformTotalFrom(src: PageSource, url: string, n: int, page: int, bound: int)
    requires Bounded(src, bound)
    requires 1 <= page <= n + 1
    requires forall p :: page <= p <= n ==>
      src(Request(url, p, PerPage)).Received? && TotalPagesOf(src(Request(url, p, PerPage)).payload) == n
    ensures var run := Pages(src, url, page, n, bound);
      && |run.requests| == n - page + 1
      && run.outcome.Ok?
    decreases n - page
  {
    if page <= n {
      UniformTotalFrom(src, url, n, page + 1, bound);
    }
  }

  /**
   * If every page reports the same `total_pages = n >= 1`, pages 1..n are each
   * requested once, in increasing order, and the result is the concatenation of
   * their `data`, nothing dropped or merged.
   */
  lemma UniformTotalPages(src: PageSource, url: string, n: int, bound: int)
    requires Bounded(src, bound)
    requires n >= 1
    requires forall p :: 1 <= p <= n ==>
      src(Request(url, p, PerPage)).Received? && TotalPagesOf(src(Request(url, p, PerPage)).payload) == n
    ensures var run := Pages(src, url, 1, 1, bound);
      && |run.requests| == n
      && (forall i :: 0 <= i < n ==> run.requests[i] == Request(url, i + 1, PerPage))
      && run.outcome == Ok(Collected(src, run.requests))
  {
    var q := Request(url, 1, PerPage);
    assert src(q).Received? && TotalPagesOf(src(q).payload) == n;
    assert Pages(src, url, 1, 1, bound) == Pages(src, url, 1, n, bound);
    UniformTotalFrom(src, url, n, 1, bound);
    RequestsAreConsecutive(src, url, 1, n, bound);
    OutcomeOfPages(src, url, 1, n, bound);
  }

  /** An empty single page: `[]` after exactly one request. */
  lemma EmptySinglePage(src: PageSource, url: string, bound: int)
    requires Bounded(src, bound)
    requires src(Request(url, 1, PerPage)) == Received(Payload(Some([]), Some(Pagination(Some(1)))))
    ensures Pages(src, url, 1, 1, bound) == FetchRun([Request(url, 1, PerPage)], Ok([]))
  {
    assert Pages(src, url, 2, 1, bound) == FetchRun([], Ok([]));
    assert [Request(url, 1, PerPage)] + [] == [Request(url, 1, PerPage)];
    assert DataOf(Payload(Some([]), Some(Pagination(Some(1))))) + [] == [];
  }

  /** A failing first request: one request, and a network error carrying the URL. */
  lemma FirstRequestFails(src: PageSource, url: string, bound: int)
    requires Bounded(src, bound)
    requires src(Request(url, 1, PerPage)).NetworkFailure?
    ensures var run := Pages(src, url, 1, 1, bound);
      run.requests == [Request(url, 1, PerPage)]
      && run.outcome == Err(NetworkError(url, src(Request(url, 1, PerPage)).cause))
  {
  }

  // ---------------------------------------------------------------------
  // The URL join
  // ---------------------------------------------------------------------

  /** Stripping again changes nothing. */
  lemma {:induction false} RStripIdempotent(s: string, c: char)
    ensures RStrip(RStrip(s, c), c) == RStrip(s, c)
  {
    var r := RStrip(s, c);
    assert r == [] || r[|r| - 1] != c;
  }

  /**
   * The full URL is a prefix of the base that does not end in `/`, followed by
   * the endpoint; everything of the base after that prefix is `/`.
   */
  lemma FullUrlShape(baseUrl: string, endpoint: string)
    ensures |endpoint| <= |FullUrl(baseUrl, endpoint)| <= |baseUrl| + |endpoint|
    ensures FullUrl(baseUrl, endpoint)[|FullUrl(baseUrl, endpoint)| - |endpoint|..] == endpoint
    ensures FullUrl(baseUrl, endpoint)[..|FullUrl(baseUrl, endpoint)| - |endpoint|]
         == baseUrl[..|FullUrl(baseUrl, endpoint)| - |endpoint|]
    ensures |FullUrl(baseUrl, endpoint)| == |endpoint|
         || FullUrl(baseUrl, endpoint)[|FullUrl(baseUrl, endpoint)| - |endpoint| - 1] != '/'
    ensures forall i :: |FullUrl(baseUrl, endpoint)| - |endpoint| <= i < |baseUrl| ==> baseUrl[i] == '/'
  {
    var b := RStrip(baseUrl, '/');
    assert (b + endpoint)[|b|..] == endpoint;
    assert (b + endpoint)[..|b|] == b;
  }

  /** A base URL without a trailing slash is used as it is. */
  lemma FullUrlNoSlash(baseUrl: string, endpoint: string)
    requires baseUrl == [] || baseUrl[|baseUrl| - 1] != '/'
    ensures FullUrl(baseUrl, endpoint) == baseUrl + endpoint
  {
  }

  /** Any number of trailing slashes on the base collapse to none. */
  lemma {:induction false} FullUrlTrailingSlashes(baseUrl: string, k: nat, endpoint: string)
    ensures FullUrl(baseUrl + seq(k, _ => '/'), endpoint) == FullUrl(baseUrl, endpoint)
  {
    if k > 0 {
      var s := baseUrl + seq(k, _ => '/');
      assert s[..|s| - 1] == baseUrl + seq(k - 1, _ => '/');
      FullUrlTrailingSlashes(baseUrl, k - 1, endpoint);
    } else {
      assert baseUrl + seq(k, _ => '/') == baseUrl;
    }
  }
}
