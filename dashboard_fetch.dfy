/** The dashboard's request layer: the retrying single request, the page
    walker that feeds the analysis, and the query parameters of the commit
    listing. The remote is a script of replies answered in request order
    (reply i answers the i-th request), because the dashboard re-sends a
    request after a rate-limit reply; a script that has run out answers
    every further request with an empty 200 list. */
module DashboardFetch {
  import opened Wrappers

  /** One HTTP reply: its status, the Retry-After header when one was sent,
      and the JSON list in its body. */
  datatype Reply<T> = Reply(status: int, retryAfter: Option<nat>, body: seq<T>)

  /** The reply to request number `i` (counting from 0). */
  function ReplyAt<T>(script: seq<Reply<T>>, i: nat): (r: Reply<T>)
    ensures i < |script| ==> r == script[i]
    ensures i >= |script| ==> r == Reply(200, None, [])
  {
    if i < |script| then script[i] else Reply(200, None, [])
  }

  /** A 403 that carries Retry-After: both request helpers sleep and ask again. */
  predicate IsRateLimited<T>(r: Reply<T>) {
    r.status == 403 && r.retryAfter.Some?
  }

  // ---------------------------------------------------------------------
  // safe_github_request
  // ---------------------------------------------------------------------

  /** What `safe_github_request` hands back (the reply, or None) and how many
      requests of the script have been used once it returns. */
  datatype Outcome<T> = Outcome(response: Option<Reply<T>>, next: nat)

  /** `safe_github_request` starting at request `i`: a rate-limited reply is
      retried, a 200 or a 404 is returned to the caller, a 401 or any other
      status gives None. */
  function SafeRequest<T>(script: seq<Reply<T>>, i: nat): (o: Outcome<T>)
    ensures o.next > i
    ensures forall k :: i <= k < o.next - 1 ==> IsRateLimited(ReplyAt(script, k))
    ensures !IsRateLimited(ReplyAt(script, o.next - 1))
    ensures o.response.Some? <==>
              ReplyAt(script, o.next - 1).status == 200 || ReplyAt(script, o.next - 1).status == 404
    ensures o.response.Some? ==> o.response.value == ReplyAt(script, o.next - 1)
    decreases |script| - i
  {
    var reply := ReplyAt(script, i);
    if IsRateLimited(reply) then SafeRequest(script, i + 1)
    else if reply.status == 200 then Outcome(Some(reply), i + 1)
    else if reply.status == 401 then Outcome(None, i + 1)
    else if reply.status == 404 then Outcome(Some(reply), i + 1)
    else Outcome(None, i + 1)
  }

  /** Concrete run: two rate-limit replies are retried, then a 401 gives None
      after three requests. */
  lemma RetriesThenUnauthorized<T>(wait: nat)
    ensures SafeRequest([Reply<T>.Reply(403, Some(wait), []), Reply(403, Some(wait), []), Reply(401, None, [])], 0)
            == Outcome(None, 3)
  {
    var script := [Reply<T>.Reply(403, Some(wait), []), Reply(403, Some(wait), []), Reply(401, None, [])];
    assert SafeRequest(script, 2) == Outcome(None, 3);
    assert SafeRequest(script, 1) == SafeRequest(script, 2);
  }

  /** A 403 without Retry-After is not retried: it is an error like any other. */
  lemma ForbiddenWithoutRetryAfter<T>(body: seq<T>, rest: seq<Reply<T>>)
    ensures SafeRequest([Reply(403, None, body)] + rest, 0) == Outcome(None, 1)
  {
  }

  /** How `fetch_user_repositories` and `fetch_repository_data` treat what
      `safe_github_request` returned: use the body, report "not found", or
      give up with the empty result. */
  datatype Branch = UseBody | ReportNotFound | GiveUp

  /** The truth value of a returned response object: a response is falsy
      unless its status is below 400. */
  predicate Truthy<T>(response: Option<Reply<T>>) {
    response.Some? && response.value.status < 400
  }

  /** The branch as the two helpers write it: each test first asks whether
      the response object is truthy, so the "not found" branch is never
      taken. */
  function BranchAsWritten<T>(response: Option<Reply<T>>): (b: Branch)
    ensures b == UseBody <==> response.Some? && response.value.status == 200
    ensures b != ReportNotFound
  {
    if Truthy(response) && response.value.status == 200 then UseBody
    else if Truthy(response) && response.value.status == 404 then ReportNotFound
    else GiveUp
  }

  /** The 404 that `safe_github_request` passes on reaches the as-written
      helpers as a falsy object: the "not found" message is not shown. */
  lemma NotFoundNeverReported<T>(rest: seq<Reply<T>>)
    ensures BranchAsWritten(SafeRequest([Reply(404, None, [])] + rest, 0).response) == GiveUp
  {
    assert ReplyAt([Reply<T>.Reply(404, None, [])] + rest, 0) == Reply(404, None, []);
  }

  /** The branch the helpers evidently intend: a 404 is reported. */
  function HelperBranch<T>(response: Option<Reply<T>>): (b: Branch)
    ensures b == UseBody <==> response.Some? && response.value.status == 200
    ensures b == ReportNotFound <==> response.Some? && response.value.status == 404
  {
    if response.Some? && response.value.status == 200 then UseBody
    else if response.Some? && response.value.status == 404 then ReportNotFound
    else GiveUp
  }

  /** `fetch_user_repositories` on request `i`: the listed repositories after
      a 200, the empty list otherwise. */
  function UserRepositories<T>(script: seq<Reply<T>>, i: nat): (repos: seq<T>)
    ensures var o := SafeRequest(script, i);
      repos == if ReplyAt(script, o.next - 1).status == 200 then ReplyAt(script, o.next - 1).body else []
  {
    var response := SafeRequest(script, i).response;
    match HelperBranch(response)
    case UseBody => response.value.body
    case ReportNotFound => []
    case GiveUp => []
  }

  // ---------------------------------------------------------------------
  // fetch_all_pages
  // ---------------------------------------------------------------------

  const PerPage: nat := 100

  /** A 200 whose list is not empty: its items are kept and the page advances. */
  predicate IsDataPage<T>(r: Reply<T>) {
    r.status == 200 && |r.body| > 0
  }

  /** The replies that end the walk: an empty 200 list, or any status other
      than 200 that is not a rate-limit reply. A short page does not. */
  predicate EndsWalk<T>(r: Reply<T>) {
    !IsRateLimited(r) && !IsDataPage(r)
  }

  /** The index of the first reply at or after `i` that ends the walk. */
  function StopIndex<T>(script: seq<Reply<T>>, i: nat): (s: nat)
    ensures s >= i
    ensures i <= |script| ==> s <= |script|
    ensures EndsWalk(ReplyAt(script, s))
    ensures forall k :: i <= k < s ==> !EndsWalk(ReplyAt(script, k))
    decreases |script| - i
  {
    if EndsWalk(ReplyAt(script, i)) then i else StopIndex(script, i + 1)
  }

  /** The number of data pages among the first `k` replies. */
  function DataPagesBefore<T>(script: seq<Reply<T>>, k: nat): nat {
    if k == 0 then 0
    else DataPagesBefore(script, k - 1) + (if IsDataPage(ReplyAt(script, k - 1)) then 1 else 0)
  }

  /** The page number sent with request `k`: one more than the data pages
      received before it. */
  function RequestedPage<T>(script: seq<Reply<T>>, k: nat): nat {
    1 + DataPagesBefore(script, k)
  }

  /** The items of the data pages among the first `k` replies, in order. */
  function CollectedBefore<T>(script: seq<Reply<T>>, k: nat): seq<T> {
    if k == 0 then []
    else CollectedBefore(script, k - 1) + (if IsDataPage(ReplyAt(script, k - 1)) then ReplyAt(script, k - 1).body else [])
  }

  /** The progress value shown after a data page with this page number. */
  function Progress(page: nat): (p: nat)
    ensures p <= 99
    ensures page <= 9 ==> p == 10 * page
  {
    if page * 10 < 99 then page * 10 else 99
  }

  /** The walk asks for page 1 first; after a rate-limit reply it asks for
      the same page again, after a data page for the next one. */
  lemma RequestedPages<T>(script: seq<Reply<T>>, k: nat)
    requires k < StopIndex(script, 0)
    ensures RequestedPage(script, 0) == 1
    ensures IsRateLimited(ReplyAt(script, k)) ==> RequestedPage(script, k + 1) == RequestedPage(script, k)
    ensures !IsRateLimited(ReplyAt(script, k)) ==> RequestedPage(script, k + 1) == RequestedPage(script, k) + 1
  {
    assert !EndsWalk(ReplyAt(script, k));
  }

  /** Every data page contributes at least one item. */
  lemma {:induction false} AtLeastOneItemPerPage<T>(script: seq<Reply<T>>, k: nat)
    ensures |CollectedBefore(script, k)| >= DataPagesBefore(script, k)
  {
    if k > 0 {
      AtLeastOneItemPerPage(script, k - 1);
    }
  }

  /** Before any reply that ends the walk, the items gathered so far only grow. */
  lemma {:induction false} CollectedGrows<T>(script: seq<Reply<T>>, j: nat, k: nat)
    requires j <= k
    ensures |CollectedBefore(script, j)| <= |CollectedBefore(script, k)|
    ensures CollectedBefore(script, k)[..|CollectedBefore(script, j)|] == CollectedBefore(script, j)
    decreases k - j
  {
    if j < k {
      CollectedGrows(script, j, k - 1);
      var a := CollectedBefore(script, k - 1);
      assert CollectedBefore(script, k)[..|a|] == a;
      assert CollectedBefore(script, k)[..|CollectedBefore(script, j)|] == a[..|CollectedBefore(script, j)|];
    }
  }

  /** Concrete run: a one-item page, a rate-limit reply, a short two-item
      page and an empty page give four requests for pages 1, 2, 2, 3 and
      the three items in order. */
  lemma ShortPageDoesNotStop<T>(a: T, b: T, c: T, wait: nat)
    ensures var script := [Reply(200, None, [a]), Reply(403, Some(wait), []), Reply(200, None, [b, c]), Reply(200, None, [])];
      StopIndex(script, 0) == 3 &&
      CollectedBefore(script, 3) == [a, b, c] &&
      [RequestedPage(script, 0), RequestedPage(script, 1), RequestedPage(script, 2), RequestedPage(script, 3)] == [1, 2, 2, 3]
  {
    var script := [Reply(200, None, [a]), Reply(403, Some(wait), []), Reply(200, None, [b, c]), Reply(200, None, [])];
    assert ReplyAt(script, 0) == Reply(200, None, [a]);
    assert ReplyAt(script, 1) == Reply(403, Some(wait), []);
    assert ReplyAt(script, 2) == Reply(200, None, [b, c]);
    assert ReplyAt(script, 3) == Reply(200, None, []);
    assert StopIndex(script, 3) == 3;
    assert CollectedBefore(script, 1) == [a];
    assert CollectedBefore(script, 2) == [a];
    assert CollectedBefore(script, 3) == [a] + [b, c];
  }

  /** `fetch_all_pages`: the items of every data page up to the reply that
      ends the walk, the page number of each request, and the progress
      values shown. Sleeping on a rate-limit reply is left to the caller's
      clock and not modelled. */
  method FetchAllPages<T>(script: seq<Reply<T>>) returns (results: seq<T>, requested: seq<nat>, progress: seq<nat>)
    ensures var n := StopIndex(script, 0);
      && |requested| == n + 1
      && (forall k :: 0 <= k <= n ==> requested[k] == RequestedPage(script, k))
      && results == CollectedBefore(script, n)
      && |progress| == DataPagesBefore(script, n)
      && (forall m :: 0 <= m < |progress| ==> progress[m] == Progress(m + 1))
  {
    results := [];
    requested := [];
    progress := [];
    var page := 1;
    var i := 0;
    while true
      invariant i <= StopIndex(script, 0)
      invariant |requested| == i
      invariant forall k :: 0 <= k < i ==> requested[k] == RequestedPage(script, k)
      invariant page == RequestedPage(script, i)
      invariant results == CollectedBefore(script, i)
      invariant |progress| == DataPagesBefore(script, i)
      invariant forall m :: 0 <= m < |progress| ==> progress[m] == Progress(m + 1)
      decreases |script| - i
    {
      var reply := ReplyAt(script, i);
      requested := requested + [page];
      if IsRateLimited(reply) {
        i := i + 1;
      } else if reply.status == 200 {
        if |reply.body| == 0 {
          break;
        }
        results := results + reply.body;
        progress := progress + [Progress(page)];
        page := page + 1;
        i := i + 1;
      } else {
        break;
      }
    }
  }

  // ---------------------------------------------------------------------
  // get_commits query parameters
  // ---------------------------------------------------------------------

  const UtcOffset: string := "+00:00"

  /** Python's `s.replace('+00:00', 'Z')`: every non-overlapping occurrence,
      scanning from the left. */
  function ToZulu(s: string): (r: string)
    ensures |r| <= |s|
    decreases |s|
  {
    if |s| < |UtcOffset| then s
    else if s[..|UtcOffset|] == UtcOffset then "Z" + ToZulu(s[|UtcOffset|..])
    else [s[0]] + ToZulu(s[1..])
  }

  /** A string with no '+' in it is left alone. */
  lemma {:induction false} ToZuluKeepsPlain(s: string)
    requires forall i :: 0 <= i < |s| ==> s[i] != '+'
    ensures ToZulu(s) == s
    decreases |s|
  {
    if |s| >= |UtcOffset| {
      assert s[..|UtcOffset|][0] == s[0];
      ToZuluKeepsPlain(s[1..]);
    }
  }

  /** The ISO text of a UTC instant, `<date>T<time>+00:00`, becomes
      `<date>T<time>Z`. */
  lemma {:induction false} UtcBecomesZulu(body: string)
    requires forall i :: 0 <= i < |body| ==> body[i] != '+'
    ensures ToZulu(body + UtcOffset) == body + "Z"
    decreases |body|
  {
    var s := body + UtcOffset;
    if |body| == 0 {
      assert s == UtcOffset;
      assert s[|UtcOffset|..] == "";
    } else {
      assert s[..|UtcOffset|][0] == body[0];
      assert s[1..] == body[1..] + UtcOffset;
      UtcBecomesZulu(body[1..]);
      assert [body[0]] + (body[1..] + "Z") == body + "Z";
    }
  }

  /** A query parameter value. */
  datatype Param = Number(n: int) | Text(s: string)

  /** The extra parameters of `get_commits`: `since` and `until` only when
      the bound is given, each the ISO text of the bound in 'Z' form. */
  function CommitParams(since: Option<string>, until: Option<string>): (p: map<string, Param>)
    ensures "since" in p <==> since.Some?
    ensures "until" in p <==> until.Some?
    ensures since.Some? ==> p["since"] == Text(ToZulu(since.value))
    ensures until.Some? ==> p["until"] == Text(ToZulu(until.value))
    ensures forall k :: k in p ==> k == "since" || k == "until"
  {
    var s: map<string, Param> := if since.Some? then map["since" := Text(ToZulu(since.value))] else map[];
    if until.Some? then s["until" := Text(ToZulu(until.value))] else s
  }

  /** The parameters of one page request: the page and page size, then the
      caller's extra parameters laid over them. */
  function RequestParams(page: nat, extra: map<string, Param>): (p: map<string, Param>)
    ensures p.Keys == {"page", "per_page"} + extra.Keys
    ensures forall k :: k in extra ==> p[k] == extra[k]
  {
    map["page" := Number(page), "per_page" := Number(PerPage)] + extra
  }

  /** The commit bounds never displace the page number or the page size, so
      a retried request sends exactly the same parameters. */
  lemma CommitRequestKeepsPage(page: nat, since: Option<string>, until: Option<string>)
    ensures RequestParams(page, CommitParams(since, until))["page"] == Number(page)
    ensures RequestParams(page, CommitParams(since, until))["per_page"] == Number(PerPage)
  {
    var extra := CommitParams(since, until);
    assert "page" !in extra && "per_page" !in extra;
  }
}
