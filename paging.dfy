/** The collector's pagination loops (GitHubAPIClient.get_commits,
    get_pull_requests, get_issues, get_issue_comments, get_pr_comments and
    get_pr_reviews). The remote listing is a page source: the answer to the
    request for page p (numbered from 1) is `pages[p - 1]`, and every page
    past the end of `pages` is empty. */
module Paging {
  import Seqs
  import opened Records

  /** A response body, or the HTTP error status `raise_for_status` raised. */
  datatype Fetched<T> = Ok(value: T) | HttpError(status: int)

  /** The page size the client asks for (`per_page=100`). */
  const PerPage: nat := 100

  function PageAt<T>(pages: seq<Fetched<seq<T>>>, page: nat): Fetched<seq<T>>
    requires page >= 1
  {
    if page <= |pages| then pages[page - 1] else Ok([])
  }

  /** After this response the loop asks for the next page: a non-empty page
      at least `perPage` long. */
  predicate Continues<T>(r: Fetched<seq<T>>, perPage: nat) {
    r.Ok? && |r.value| > 0 && |r.value| >= perPage
  }

  function Prepend<T>(acc: seq<T>, r: Fetched<seq<T>>): Fetched<seq<T>> {
    match r
    case Ok(v) => Ok(acc + v)
    case HttpError(s) => HttpError(s)
  }

  /** What the loop returns when it starts at `page`. With `emptyOn409`
      (get_commits), HTTP 409 means an empty repository and ends the walk
      with what was gathered; any other error propagates. */
  function Walk<T>(pages: seq<Fetched<seq<T>>>, perPage: nat, page: nat, emptyOn409: bool): Fetched<seq<T>>
    requires page >= 1
    decreases |pages| + 1 - page
  {
    var r := PageAt(pages, page);
    if Continues(r, perPage) then Prepend(r.value, Walk(pages, perPage, page + 1, emptyOn409))
    else match r
      case Ok(data) => Ok(data)
      case HttpError(s) => if emptyOn409 && s == 409 then Ok([]) else HttpError(s)
  }

  /** The last page the loop requests when it starts at `page`: the first page
      from there on that is empty, short or an error. */
  function LastPage<T>(pages: seq<Fetched<seq<T>>>, perPage: nat, page: nat): (last: nat)
    requires page >= 1
    ensures last >= page
    ensures forall j :: page <= j < last ==> Continues(PageAt(pages, j), perPage)
    ensures !Continues(PageAt(pages, last), perPage)
    decreases |pages| + 1 - page
  {
    if Continues(PageAt(pages, page), perPage) then LastPage(pages, perPage, page + 1) else page
  }

  /** The items of a page, none for an error. */
  function Items<T>(r: Fetched<seq<T>>): seq<T> {
    if r.Ok? then r.value else []
  }

  /** The items of pages lo .. hi-1, in page order. */
  function Gathered<T>(pages: seq<Fetched<seq<T>>>, lo: nat, hi: nat): seq<T>
    requires 1 <= lo
    decreases hi - lo
  {
    if hi <= lo then [] else Items(PageAt(pages, lo)) + Gathered(pages, lo + 1, hi)
  }

  /** The number of items on pages lo .. hi-1. */
  function ItemCount<T>(pages: seq<Fetched<seq<T>>>, lo: nat, hi: nat): nat
    requires 1 <= lo
    decreases hi - lo
  {
    if hi <= lo then 0 else |Items(PageAt(pages, lo))| + ItemCount(pages, lo + 1, hi)
  }

  lemma {:induction false} GatheredLength<T>(pages: seq<Fetched<seq<T>>>, lo: nat, hi: nat)
    requires 1 <= lo
    ensures |Gathered(pages, lo, hi)| == ItemCount(pages, lo, hi)
    decreases hi - lo
  {
    if lo < hi { GatheredLength(pages, lo + 1, hi); }
  }

  /** How the walk ends at its last page `k`, given the items gathered before it. */
  function Finish<T>(before: seq<T>, r: Fetched<seq<T>>, emptyOn409: bool): Fetched<seq<T>> {
    match r
    case Ok(data) => Ok(before + data)
    case HttpError(s) => if emptyOn409 && s == 409 then Ok(before) else HttpError(s)
  }

  lemma {:induction false} WalkFrom<T>(pages: seq<Fetched<seq<T>>>, perPage: nat, page: nat, emptyOn409: bool)
    requires page >= 1
    ensures Walk(pages, perPage, page, emptyOn409)
         == Finish(Gathered(pages, page, LastPage(pages, perPage, page)),
                   PageAt(pages, LastPage(pages, perPage, page)), emptyOn409)
    decreases |pages| + 1 - page
  {
    var r := PageAt(pages, page);
    if Continues(r, perPage) {
      WalkFrom(pages, perPage, page + 1, emptyOn409);
      var last := LastPage(pages, perPage, page + 1);
      assert last == LastPage(pages, perPage, page);
      var rest := Gathered(pages, page + 1, last);
      assert Gathered(pages, page, last) == r.value + rest;
      FinishAfter(r.value, rest, PageAt(pages, last), emptyOn409);
    } else if r.Ok? {
      assert [] + r.value == r.value;
    }
  }

  /** Reference characterisation of every collector paginator: with k the first
      page that is empty, short or an error, the result is pages 1 .. k-1
      concatenated in order, followed by page k's items when it is a page;
      when page k is an error the walk fails with that status, except that a
      409 under `emptyOn409` returns the items gathered before it. */
  lemma WalkIsConcatenation<T>(pages: seq<Fetched<seq<T>>>, perPage: nat, emptyOn409: bool, k: nat)
    requires 1 <= k
    requires forall j :: 1 <= j < k ==> Continues(PageAt(pages, j), perPage)
    requires !Continues(PageAt(pages, k), perPage)
    ensures k == LastPage(pages, perPage, 1)
    ensures Walk(pages, perPage, 1, emptyOn409) == Finish(Gathered(pages, 1, k), PageAt(pages, k), emptyOn409)
  {
    var last := LastPage(pages, perPage, 1);
    if last < k { assert false; }
    if k < last { assert false; }
    WalkFrom(pages, perPage, 1, emptyOn409);
  }

  /** Successful walks return as many items as the requested pages hold together. */
  lemma WalkLength<T>(pages: seq<Fetched<seq<T>>>, perPage: nat, emptyOn409: bool)
    ensures Walk(pages, perPage, 1, emptyOn409).Ok? ==>
      |Walk(pages, perPage, 1, emptyOn409).value| == ItemCount(pages, 1, LastPage(pages, perPage, 1) + 1)
  {
    var last := LastPage(pages, perPage, 1);
    WalkFrom(pages, perPage, 1, emptyOn409);
    GatheredLength(pages, 1, last);
    GatheredLength(pages, 1, last + 1);
    GatheredSplit(pages, 1, last);
  }

  lemma {:induction false} GatheredSplit<T>(pages: seq<Fetched<seq<T>>>, lo: nat, hi: nat)
    requires 1 <= lo <= hi
    ensures Gathered(pages, lo, hi + 1) == Gathered(pages, lo, hi) + Items(PageAt(pages, hi))
    decreases hi - lo
  {
    if lo < hi {
      GatheredSplit(pages, lo + 1, hi);
    }
  }

  /** Pages of 100, 100 and 37 items: three requests and 237 items. */
  lemma ThreePages<T>(pages: seq<Fetched<seq<T>>>, emptyOn409: bool)
    requires |pages| == 3 && forall i :: 0 <= i < 3 ==> pages[i].Ok?
    requires |pages[0].value| == 100 && |pages[1].value| == 100 && |pages[2].value| == 37
    ensures LastPage(pages, PerPage, 1) == 3
    ensures Walk(pages, PerPage, 1, emptyOn409) == Ok(pages[0].value + pages[1].value + pages[2].value)
    ensures |Walk(pages, PerPage, 1, emptyOn409).value| == 237
  {
    assert PageAt(pages, 1) == pages[0] && PageAt(pages, 2) == pages[1] && PageAt(pages, 3) == pages[2];
    assert Walk(pages, PerPage, 3, emptyOn409) == Ok(pages[2].value);
    assert Walk(pages, PerPage, 2, emptyOn409) == Ok(pages[1].value + pages[2].value);
    assert pages[0].value + (pages[1].value + pages[2].value) == pages[0].value + pages[1].value + pages[2].value;
  }

  /** The loop shared by get_issue_comments, get_pr_comments and get_pr_reviews
      (per_page 100, every error propagates) and by get_commits (its own
      per_page, 409 read as an empty repository). `requested` lists the page
      numbers asked for, in order. */
  method FetchPaged<T>(pages: seq<Fetched<seq<T>>>, perPage: nat, emptyOn409: bool)
    returns (result: Fetched<seq<T>>, requested: seq<nat>)
    ensures result == Walk(pages, perPage, 1, emptyOn409)
    ensures |requested| == LastPage(pages, perPage, 1)
    ensures forall i :: 0 <= i < |requested| ==> requested[i] == i + 1
  {
    var acc: seq<T> := [];
    var page: nat := 1;
    requested := [];
    PrependNothing(Walk(pages, perPage, 1, emptyOn409));
    while true
      invariant page >= 1
      invariant |requested| == page - 1 && forall i :: 0 <= i < |requested| ==> requested[i] == i + 1
      invariant Walk(pages, perPage, 1, emptyOn409) == Prepend(acc, Walk(pages, perPage, page, emptyOn409))
      invariant LastPage(pages, perPage, 1) == LastPage(pages, perPage, page)
      decreases |pages| + 1 - page
    {
      var response := PageAt(pages, page);
      requested := requested + [page];
      match response
      case HttpError(s) =>
        if emptyOn409 && s == 409 {
          assert acc + [] == acc;
          return Ok(acc), requested;
        }
        return HttpError(s), requested;
      case Ok(data) =>
        if |data| == 0 {
          assert acc + [] == acc;
          return Ok(acc), requested;
        }
        assert acc + data + [] == acc + data;
        if |data| < perPage {
          return Ok(acc + data), requested;
        }
        PrependTwice(acc, data, Walk(pages, perPage, page + 1, emptyOn409));
        acc := acc + data;
        page := page + 1;
    }
  }

  lemma FinishAfter<T>(a: seq<T>, b: seq<T>, r: Fetched<seq<T>>, emptyOn409: bool)
    ensures Prepend(a, Finish(b, r, emptyOn409)) == Finish(a + b, r, emptyOn409)
  {
    if r.Ok? { assert a + (b + r.value) == (a + b) + r.value; }
  }

  lemma PrependNothing<T>(r: Fetched<seq<T>>)
    ensures Prepend([], r) == r
  {
    if r.Ok? { assert [] + r.value == r.value; }
  }

  lemma PrependTwice<T>(a: seq<T>, b: seq<T>, r: Fetched<seq<T>>)
    ensures Prepend(a, Prepend(b, r)) == Prepend(a + b, r)
  {
    if r.Ok? { assert a + (b + r.value) == (a + b) + r.value; }
  }

  /** get_commits: the shared loop with the caller's page size, treating HTTP
      409 as an empty repository. */
  method GetCommits<T>(pages: seq<Fetched<seq<T>>>, perPage: nat)
    returns (result: Fetched<seq<T>>, requested: seq<nat>)
    ensures result == Walk(pages, perPage, 1, true)
    ensures result.HttpError? ==> result.status != 409
    ensures |requested| == LastPage(pages, perPage, 1)
    ensures forall i :: 0 <= i < |requested| ==> requested[i] == i + 1
  {
    result, requested := FetchPaged(pages, perPage, true);
    WalkFrom(pages, perPage, 1, true);
  }

  // ---------------------------------------------------------------------
  // get_issues

  function PlainIssues(r: Fetched<seq<RawIssue>>): Fetched<seq<RawIssue>> {
    match r
    case Ok(v) => Ok(Seqs.Filter(v, IsPlainIssue))
    case HttpError(s) => HttpError(s)
  }

  /** The comprehension that drops the pull requests from one page of the issue listing. */
  method KeepPlainIssues(data: seq<RawIssue>) returns (kept: seq<RawIssue>)
    ensures kept == Seqs.Filter(data, IsPlainIssue)
  {
    kept := [];
    for j := 0 to |data|
      invariant kept == Seqs.Filter(data[..j], IsPlainIssue)
    {
      Seqs.FilterAppend(data[..j], [data[j]], IsPlainIssue);
      assert data[..j + 1] == data[..j] + [data[j]];
      if IsPlainIssue(data[j]) {
        kept := kept + [data[j]];
      }
    }
    assert data[..|data|] == data;
  }

  /** get_issues: walks the issue listing and keeps the entries without a
      `pull_request` key, page by page. */
  method GetIssues(pages: seq<Fetched<seq<RawIssue>>>)
    returns (result: Fetched<seq<RawIssue>>, requested: seq<nat>)
    ensures result == PlainIssues(Walk(pages, PerPage, 1, false))
    ensures |requested| == LastPage(pages, PerPage, 1)
    ensures forall i :: 0 <= i < |requested| ==> requested[i] == i + 1
  {
    var issues: seq<RawIssue> := [];
    var page: nat := 1;
    requested := [];
    PrependNothing(PlainIssues(Walk(pages, PerPage, 1, false)));
    while true
      invariant page >= 1
      invariant |requested| == page - 1 && forall i :: 0 <= i < |requested| ==> requested[i] == i + 1
      invariant PlainIssues(Walk(pages, PerPage, 1, false)) == Prepend(issues, PlainIssues(Walk(pages, PerPage, page, false)))
      invariant LastPage(pages, PerPage, 1) == LastPage(pages, PerPage, page)
      decreases |pages| + 1 - page
    {
      var response := PageAt(pages, page);
      requested := requested + [page];
      if response.HttpError? {
        return HttpError(response.status), requested;
      }
      var data := response.value;
      if |data| == 0 {
        assert issues + [] == issues;
        return Ok(issues), requested;
      }
      var kept := KeepPlainIssues(data);
      var rest := Walk(pages, PerPage, page + 1, false);
      if rest.Ok? { Seqs.FilterAppend(data, rest.value, IsPlainIssue); }
      if |data| < PerPage {
        assert Seqs.Filter(data, IsPlainIssue) == kept;
        return Ok(issues + kept), requested;
      }
      PrependTwice(issues, kept, PlainIssues(rest));
      issues := issues + kept;
      page := page + 1;
    }
  }

  // ---------------------------------------------------------------------
  // get_pull_requests

  /** The detail fetch for each listed PR, in listing order; the first failing
      fetch fails the whole call. */
  function Details(listed: seq<PrSummary>, detail: int -> Fetched<RawPr>): Fetched<seq<RawPr>>
    decreases |listed|
  {
    if |listed| == 0 then Ok([])
    else match detail(listed[0].number)
      case HttpError(s) => HttpError(s)
      case Ok(full) => Prepend([full], Details(listed[1..], detail))
  }

  /** What get_pull_requests returns when it starts at `page`: every listing
      page is followed by the detail fetches of its entries, and the walk stops
      at an empty or short listing page. */
  function PrWalk(listing: seq<Fetched<seq<PrSummary>>>, detail: int -> Fetched<RawPr>, page: nat): Fetched<seq<RawPr>>
    requires page >= 1
    decreases |listing| + 1 - page
  {
    match PageAt(listing, page)
    case HttpError(s) => HttpError(s)
    case Ok(data) =>
      if |data| == 0 then Ok([])
      else match Details(data, detail)
        case HttpError(s) => HttpError(s)
        case Ok(full) => if |data| < PerPage then Ok(full) else Prepend(full, PrWalk(listing, detail, page + 1))
  }

  lemma {:induction false} DetailsOnePerEntry(listed: seq<PrSummary>, detail: int -> Fetched<RawPr>)
    ensures Details(listed, detail).Ok? ==>
      |Details(listed, detail).value| == |listed| &&
      forall i :: 0 <= i < |listed| ==> detail(listed[i].number) == Ok(Details(listed, detail).value[i])
    decreases |listed|
  {
    if |listed| > 0 {
      DetailsOnePerEntry(listed[1..], detail);
      if Details(listed, detail).Ok? {
        var v := Details(listed, detail).value;
        forall i | 0 <= i < |listed| ensures detail(listed[i].number) == Ok(v[i]) {
          if i > 0 { assert listed[1..][i - 1] == listed[i]; }
        }
      }
    }
  }

  /** One detail fetch per listed PR: a successful get_pull_requests returns,
      in order, the detail of every PR the listing walk returns. */
  lemma {:induction false} PrWalkOnePerListed(listing: seq<Fetched<seq<PrSummary>>>, detail: int -> Fetched<RawPr>, page: nat)
    requires page >= 1
    ensures PrWalk(listing, detail, page).Ok? ==>
      var listed := Walk(listing, PerPage, page, false);
      var prs := PrWalk(listing, detail, page).value;
      listed.Ok? && |prs| == |listed.value| &&
      forall i :: 0 <= i < |prs| ==> detail(listed.value[i].number) == Ok(prs[i])
    decreases |listing| + 1 - page
  {
    var r := PageAt(listing, page);
    if r.Ok? && |r.value| > 0 {
      DetailsOnePerEntry(r.value, detail);
      if |r.value| >= PerPage {
        PrWalkOnePerListed(listing, detail, page + 1);
        if PrWalk(listing, detail, page).Ok? {
          var full := Details(r.value, detail).value;
          var more := PrWalk(listing, detail, page + 1).value;
          var listedMore := Walk(listing, PerPage, page + 1, false).value;
          var prs := full + more;
          var listed := r.value + listedMore;
          forall i | 0 <= i < |prs| ensures detail(listed[i].number) == Ok(prs[i]) {
            if i >= |full| {
              assert prs[i] == more[i - |full|] && listed[i] == listedMore[i - |full|];
            }
          }
        }
      }
    }
  }

  /** The detail re-fetch of each entry of one listing page, in order; the
      first failure ends it. */
  method FetchDetails(listed: seq<PrSummary>, detail: int -> Fetched<RawPr>) returns (result: Fetched<seq<RawPr>>)
    ensures result == Details(listed, detail)
  {
    var got: seq<RawPr> := [];
    var j := 0;
    assert listed[0..] == listed;
    PrependNothing(Details(listed, detail));
    while j < |listed|
      invariant 0 <= j <= |listed|
      invariant Details(listed, detail) == Prepend(got, Details(listed[j..], detail))
    {
      var full := detail(listed[j].number);
      assert listed[j..][1..] == listed[j + 1..];
      if full.HttpError? {
        return HttpError(full.status);
      }
      PrependTwice(got, [full.value], Details(listed[j + 1..], detail));
      got := got + [full.value];
      j := j + 1;
    }
    assert listed[j..] == [];
    assert got + [] == got;
    result := Ok(got);
  }

  /** get_pull_requests: walks the listing and re-fetches every listed PR by
      number for its full detail. */
  method GetPullRequests(listing: seq<Fetched<seq<PrSummary>>>, detail: int -> Fetched<RawPr>)
    returns (result: Fetched<seq<RawPr>>, requested: seq<nat>)
    ensures result == PrWalk(listing, detail, 1)
    ensures |requested| >= 1 && forall i :: 0 <= i < |requested| ==> requested[i] == i + 1
    ensures |requested| <= LastPage(listing, PerPage, 1)
    ensures result.Ok? ==> |requested| == LastPage(listing, PerPage, 1)
  {
    var prs: seq<RawPr> := [];
    var page: nat := 1;
    requested := [];
    PrependNothing(PrWalk(listing, detail, 1));
    while true
      invariant page >= 1
      invariant |requested| == page - 1 && forall i :: 0 <= i < |requested| ==> requested[i] == i + 1
      invariant page <= LastPage(listing, PerPage, 1)
      invariant LastPage(listing, PerPage, 1) == LastPage(listing, PerPage, page)
      invariant PrWalk(listing, detail, 1) == Prepend(prs, PrWalk(listing, detail, page))
      decreases |listing| + 1 - page
    {
      var response := PageAt(listing, page);
      requested := requested + [page];
      if response.HttpError? {
        return HttpError(response.status), requested;
      }
      var data := response.value;
      if |data| == 0 {
        assert prs + [] == prs;
        return Ok(prs), requested;
      }
      var details := FetchDetails(data, detail);
      if details.HttpError? {
        return HttpError(details.status), requested;
      }
      if |data| < PerPage {
        return Ok(prs + details.value), requested;
      }
      PrependTwice(prs, details.value, PrWalk(listing, detail, page + 1));
      prs := prs + details.value;
      page := page + 1;
    }
  }
}
