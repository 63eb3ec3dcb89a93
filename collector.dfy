/** GitHubDataCollector.collect_data_for_repository: the strictly sequential
    run over one repository. The remote API is given as one page source (or one
    response) per endpoint; `trace` records, in order, each fetch-and-store step
    the run completes. */
module Collector {
  import opened Wrappers
  import opened Records
  import opened Upsert
  import opened Paging
  import opened Client
  import opened Storage

  datatype RepoDetails = RepoDetails(id: int)

  /** What each endpoint answers. The comment endpoints are page sources per
      issue or PR number; the stats and events endpoints answer the same for
      every contributor. */
  datatype Remote = Remote(
    repository: Fetched<RepoDetails>,
    pullListing: seq<Fetched<seq<PrSummary>>>,
    pullDetail: int -> Fetched<RawPr>,
    issuePages: seq<Fetched<seq<RawIssue>>>,
    issueComments: int -> seq<Fetched<seq<RawComment>>>,
    prComments: int -> seq<Fetched<seq<RawComment>>>,
    prReviews: int -> seq<Fetched<seq<RawComment>>>,
    contributors: Fetched<seq<Contributor>>,
    contributorStats: Fetched<seq<ContributorStats>>,
    events: Fetched<seq<RepoEvent>>)

  datatype Step =
    | ResolveRepository
    | StoredPullRequests
    | StoredIssues
    | StoredIssueComments(issue: int)
    | StoredPrComments(pr: int)
    | StoredPrReviews(pr: int)
    | StoredActivity(username: string)

  /** RepositoryNotFound: the 404 at resolution, logged and returned;
      Aborted: an HTTP error escaped and ended the run. */
  datatype RunOutcome = RepositoryNotFound | Aborted(status: int) | Completed

  /** The PR numbers and issue numbers a run stores, when those fetches succeed. */
  function PrNumbersOf(remote: Remote): seq<int> {
    var prs := PrWalk(remote.pullListing, remote.pullDetail, 1);
    if prs.Ok? then PrNumbers(prs.value) else []
  }

  function IssueNumbersOf(remote: Remote): seq<int> {
    var issues := PlainIssues(Walk(remote.issuePages, PerPage, 1, false));
    if issues.Ok? then IssueNumbers(issues.value) else []
  }

  function IssueSteps(numbers: seq<int>): seq<Step> {
    seq(|numbers|, i requires 0 <= i < |numbers| => StoredIssueComments(numbers[i]))
  }

  function PrSteps(numbers: seq<int>): seq<Step>
    decreases |numbers|
  {
    if |numbers| == 0 then []
    else PrSteps(numbers[..|numbers| - 1]) + [StoredPrComments(numbers[|numbers| - 1]), StoredPrReviews(numbers[|numbers| - 1])]
  }

  function ActivitySteps(users: seq<Contributor>): seq<Step> {
    seq(|users|, i requires 0 <= i < |users| => StoredActivity(users[i].login))
  }

  /** The step order of a complete run: repository, pull requests, issues, then
      (when comments are collected) every issue's comments in issue order and
      every PR's review comments followed by its reviews in PR order, and last
      one activity step per contributor. */
  function Plan(prNumbers: seq<int>, issueNumbers: seq<int>, users: seq<Contributor>, includeComments: bool): seq<Step> {
    [ResolveRepository, StoredPullRequests, StoredIssues]
    + (if includeComments then IssueSteps(issueNumbers) + PrSteps(prNumbers) else [])
    + ActivitySteps(users)
  }

  /** A comment document written by this run: tagged with the repository and
      with (Issue, n) for a stored issue n or (PR, n) for a stored PR n. */
  ghost predicate FromRun(d: FormattedComment, repositoryId: int, issueNumbers: seq<int>, prNumbers: seq<int>) {
    d.repositoryId == repositoryId && d.parentNumber.Some? &&
    ((d.parentType == Some(Issue) && d.parentNumber.value in issueNumbers) ||
     (d.parentType == Some(PR) && d.parentNumber.value in prNumbers))
  }

  /** Nothing is deleted, and every document that changed was written by this run. */
  ghost predicate OnlyRunComments(before: map<int, FormattedComment>, after: map<int, FormattedComment>,
                                  repositoryId: int, issueNumbers: seq<int>, prNumbers: seq<int>) {
    before.Keys <= after.Keys &&
    forall k :: k in after ==> (k in before && after[k] == before[k]) || FromRun(after[k], repositoryId, issueNumbers, prNumbers)
  }

  lemma OnlyRunCommentsTrans(a: map<int, FormattedComment>, b: map<int, FormattedComment>, c: map<int, FormattedComment>,
                             repositoryId: int, issueNumbers: seq<int>, prNumbers: seq<int>)
    requires OnlyRunComments(a, b, repositoryId, issueNumbers, prNumbers)
    requires OnlyRunComments(b, c, repositoryId, issueNumbers, prNumbers)
    ensures OnlyRunComments(a, c, repositoryId, issueNumbers, prNumbers)
  {
  }

  /** One store_comments call on behalf of a stored issue or PR keeps the property. */
  lemma StoreKeepsRunComments(m: map<int, FormattedComment>, repositoryId: int, comments: seq<RawComment>,
                              parentType: Option<ParentType>, parentNumber: Option<int>,
                              issueNumbers: seq<int>, prNumbers: seq<int>)
    requires parentNumber.Some?
    requires (parentType == Some(Issue) && parentNumber.value in issueNumbers) ||
             (parentType == Some(PR) && parentNumber.value in prNumbers)
    ensures OnlyRunComments(m, UpsertAll(m, FormatComments(repositoryId, comments, parentType, parentNumber), CommentKey),
                            repositoryId, issueNumbers, prNumbers)
    ensures var after := UpsertAll(m, FormatComments(repositoryId, comments, parentType, parentNumber), CommentKey);
      forall k :: k in after ==>
        || (k in m && after[k] == m[k])
        || (after[k].repositoryId == repositoryId && after[k].parentType == parentType && after[k].parentNumber == parentNumber)
  {
    var after := UpsertAll(m, FormatComments(repositoryId, comments, parentType, parentNumber), CommentKey);
    UpsertKeys(m, FormatComments(repositoryId, comments, parentType, parentNumber), CommentKey);
    forall k | k in after
      ensures (k in m && after[k] == m[k]) ||
        (after[k].repositoryId == repositoryId && after[k].parentType == parentType && after[k].parentNumber == parentNumber)
    {
      StoredCommentsTagged(m, repositoryId, comments, parentType, parentNumber, k);
    }
  }

  /** The comment walks of step 4, one per thread. */
  function IssueThread(remote: Remote, n: int): Fetched<seq<RawComment>> {
    Walk(remote.issueComments(n), PerPage, 1, false)
  }

  function PrCommentThread(remote: Remote, n: int): Fetched<seq<RawComment>> {
    Walk(remote.prComments(n), PerPage, 1, false)
  }

  function PrReviewThread(remote: Remote, n: int): Fetched<seq<RawComment>> {
    Walk(remote.prReviews(n), PerPage, 1, false)
  }

  /** Both walks of one PR's threads succeed. */
  predicate PrThreadOk(remote: Remote, n: int) {
    PrCommentThread(remote, n).Ok? && PrReviewThread(remote, n).Ok?
  }

  /** The status a thread ends with when its walk fails; for a PR, the review
      comments are walked first and a failure there ends it before the reviews. */
  function IssueThreadFailure(remote: Remote, n: int): Option<int> {
    match IssueThread(remote, n)
    case HttpError(s) => Some(s)
    case Ok(_) => None
  }

  function PrThreadFailure(remote: Remote, n: int): Option<int> {
    match PrCommentThread(remote, n)
    case HttpError(s) => Some(s)
    case Ok(_) =>
      match PrReviewThread(remote, n)
      case HttpError(s) => Some(s)
      case Ok(_) => None
  }

  function IssueFailureOf(remote: Remote): int -> Option<int> {
    (n: int) => IssueThreadFailure(remote, n)
  }

  function PrFailureOf(remote: Remote): int -> Option<int> {
    (n: int) => PrThreadFailure(remote, n)
  }

  /** The failure status of the first thread, in order, whose walks fail. */
  function FirstFailure(numbers: seq<int>, failed: int -> Option<int>): Option<int>
    decreases |numbers|
  {
    if |numbers| == 0 then None
    else if failed(numbers[0]).Some? then failed(numbers[0])
    else FirstFailure(numbers[1..], failed)
  }

  /** No thread fails exactly when there is no first failure. */
  lemma {:induction false} FirstFailureNone(numbers: seq<int>, failed: int -> Option<int>)
    ensures FirstFailure(numbers, failed).None? <==> forall j :: 0 <= j < |numbers| ==> failed(numbers[j]).None?
    decreases |numbers|
  {
    if |numbers| > 0 {
      FirstFailureNone(numbers[1..], failed);
      assert forall j :: 1 <= j < |numbers| ==> numbers[1..][j - 1] == numbers[j];
    }
  }

  /** When the threads before `k` succeed and thread `k` fails, its failure is the first. */
  lemma {:induction false} FirstFailureAt(numbers: seq<int>, failed: int -> Option<int>, k: nat)
    requires k < |numbers|
    requires forall j :: 0 <= j < k ==> failed(numbers[j]).None?
    requires failed(numbers[k]).Some?
    ensures FirstFailure(numbers, failed) == failed(numbers[k])
    decreases k
  {
    if k > 0 {
      assert failed(numbers[0]).None?;
      assert forall j :: 0 <= j < k - 1 ==> numbers[1..][j] == numbers[j + 1];
      FirstFailureAt(numbers[1..], failed, k - 1);
    }
  }

  /** Every thread walk of step 4a, or of step 4b, succeeds. */
  predicate IssueThreadsOk(remote: Remote, numbers: seq<int>) {
    forall j :: 0 <= j < |numbers| ==> IssueThread(remote, numbers[j]).Ok?
  }

  predicate PrThreadsOk(remote: Remote, numbers: seq<int>) {
    forall j :: 0 <= j < |numbers| ==> PrThreadOk(remote, numbers[j])
  }

  /** Step 4a has no failure exactly when every issue walk succeeds, and step 4b
      exactly when every PR's two walks succeed. */
  lemma IssueFailureNone(remote: Remote, numbers: seq<int>)
    ensures FirstFailure(numbers, IssueFailureOf(remote)).None? <==> IssueThreadsOk(remote, numbers)
  {
    FirstFailureNone(numbers, IssueFailureOf(remote));
  }

  lemma PrFailureNone(remote: Remote, numbers: seq<int>)
    ensures FirstFailure(numbers, PrFailureOf(remote)).None? <==> PrThreadsOk(remote, numbers)
  {
    FirstFailureNone(numbers, PrFailureOf(remote));
  }

  /** A failing thread after succeeding ones gives the first failure of its step. */
  lemma IssueFailureFirst(remote: Remote, numbers: seq<int>, k: nat)
    requires k < |numbers| && IssueThreadsOk(remote, numbers[..k])
    requires IssueThread(remote, numbers[k]).HttpError?
    ensures FirstFailure(numbers, IssueFailureOf(remote)) == Some(IssueThread(remote, numbers[k]).status)
    ensures !IssueThreadsOk(remote, numbers)
  {
    forall j | 0 <= j < k ensures IssueFailureOf(remote)(numbers[j]).None? {
      assert numbers[..k][j] == numbers[j];
    }
    FirstFailureAt(numbers, IssueFailureOf(remote), k);
  }

  lemma PrFailureFirst(remote: Remote, numbers: seq<int>, k: nat)
    requires k < |numbers| && PrThreadsOk(remote, numbers[..k])
    requires PrThreadFailure(remote, numbers[k]).Some?
    ensures FirstFailure(numbers, PrFailureOf(remote)) == PrThreadFailure(remote, numbers[k])
  {
    forall j | 0 <= j < k ensures PrFailureOf(remote)(numbers[j]).None? {
      assert numbers[..k][j] == numbers[j];
    }
    FirstFailureAt(numbers, PrFailureOf(remote), k);
  }

  /** The comment documents step 4a writes, in write order: the comments of
      each stored issue in issue order, tagged ('Issue', number). */
  function IssueThreadDocs(repositoryId: int, remote: Remote, numbers: seq<int>): seq<FormattedComment>
    decreases |numbers|
  {
    if |numbers| == 0 then []
    else
      var n := numbers[|numbers| - 1];
      IssueThreadDocs(repositoryId, remote, numbers[..|numbers| - 1])
      + FormatComments(repositoryId, Items(IssueThread(remote, n)), Some(Issue), Some(n))
  }

  /** The comment documents step 4b writes, in write order: for each stored PR
      in PR order, its review comments and then its reviews, tagged ('PR', number). */
  function PrThreadDocs(repositoryId: int, remote: Remote, numbers: seq<int>): seq<FormattedComment>
    decreases |numbers|
  {
    if |numbers| == 0 then []
    else
      var n := numbers[|numbers| - 1];
      PrThreadDocs(repositoryId, remote, numbers[..|numbers| - 1]) + PrThreadBatch(repositoryId, remote, n)
  }

  /** One PR's share of step 4b: its review comments, then its reviews. */
  function PrThreadBatch(repositoryId: int, remote: Remote, n: int): seq<FormattedComment> {
    FormatComments(repositoryId, Items(PrCommentThread(remote, n)), Some(PR), Some(n))
    + FormatComments(repositoryId, Items(PrReviewThread(remote, n)), Some(PR), Some(n))
  }

  /** Everything step 4 writes: the issue threads, then the PR threads. */
  function ThreadDocs(repositoryId: int, remote: Remote, includeComments: bool,
                      issueNumbers: seq<int>, prNumbers: seq<int>): seq<FormattedComment> {
    if includeComments then IssueThreadDocs(repositoryId, remote, issueNumbers) + PrThreadDocs(repositoryId, remote, prNumbers)
    else []
  }

  /** What one PR's share of step 4b writes on every path: nothing when its
      review comments fail, only those when its reviews fail, else both. */
  function PrPartialBatch(repositoryId: int, remote: Remote, n: int): seq<FormattedComment> {
    if PrCommentThread(remote, n).HttpError? then []
    else if PrReviewThread(remote, n).HttpError? then
      FormatComments(repositoryId, Items(PrCommentThread(remote, n)), Some(PR), Some(n))
    else PrThreadBatch(repositoryId, remote, n)
  }

  /** What step 4a writes on every path, in write order: the threads of the
      issues before the first failing one. Nothing is ever rolled back. */
  function IssueWrittenDocs(repositoryId: int, remote: Remote, numbers: seq<int>): seq<FormattedComment>
    decreases |numbers|
  {
    if |numbers| == 0 then []
    else
      var init := numbers[..|numbers| - 1];
      var n := numbers[|numbers| - 1];
      if !IssueThreadsOk(remote, init) then IssueWrittenDocs(repositoryId, remote, init)
      else if IssueThread(remote, n).HttpError? then IssueThreadDocs(repositoryId, remote, init)
      else IssueThreadDocs(repositoryId, remote, numbers)
  }

  /** What step 4b writes on every path, in write order: the threads of the
      PRs before the first failing one, then what that PR wrote. */
  function PrWrittenDocs(repositoryId: int, remote: Remote, numbers: seq<int>): seq<FormattedComment>
    decreases |numbers|
  {
    if |numbers| == 0 then []
    else
      var init := numbers[..|numbers| - 1];
      if !PrThreadsOk(remote, init) then PrWrittenDocs(repositoryId, remote, init)
      else PrThreadDocs(repositoryId, remote, init) + PrPartialBatch(repositoryId, remote, numbers[|numbers| - 1])
  }

  /** What step 4 writes on every path: all issue threads and then the PR
      step, or the issue step up to its failure. */
  function ThreadWrittenDocs(repositoryId: int, remote: Remote, includeComments: bool,
                             issueNumbers: seq<int>, prNumbers: seq<int>): seq<FormattedComment> {
    if !includeComments then []
    else if IssueThreadsOk(remote, issueNumbers) then
      IssueThreadDocs(repositoryId, remote, issueNumbers) + PrWrittenDocs(repositoryId, remote, prNumbers)
    else IssueWrittenDocs(repositoryId, remote, issueNumbers)
  }

  /** With no failing thread, each step writes every thread. */
  lemma IssueWrittenAll(repositoryId: int, remote: Remote, numbers: seq<int>)
    requires IssueThreadsOk(remote, numbers)
    ensures IssueWrittenDocs(repositoryId, remote, numbers) == IssueThreadDocs(repositoryId, remote, numbers)
  {
    if |numbers| > 0 {
      var init := numbers[..|numbers| - 1];
      assert forall j :: 0 <= j < |init| ==> init[j] == numbers[j];
      assert IssueThread(remote, numbers[|numbers| - 1]).Ok?;
    }
  }

  lemma PrWrittenAll(repositoryId: int, remote: Remote, numbers: seq<int>)
    requires PrThreadsOk(remote, numbers)
    ensures PrWrittenDocs(repositoryId, remote, numbers) == PrThreadDocs(repositoryId, remote, numbers)
  {
    if |numbers| > 0 {
      var init := numbers[..|numbers| - 1];
      assert forall j :: 0 <= j < |init| ==> init[j] == numbers[j];
      assert PrThreadOk(remote, numbers[|numbers| - 1]);
    }
  }

  /** When thread k is the first to fail, a step writes the threads before it
      (and, for a PR, what thread k wrote), and nothing after it. */
  lemma {:induction false} IssueWrittenStops(repositoryId: int, remote: Remote, numbers: seq<int>, k: nat)
    requires k < |numbers| && IssueThreadsOk(remote, numbers[..k]) && IssueThread(remote, numbers[k]).HttpError?
    ensures IssueWrittenDocs(repositoryId, remote, numbers) == IssueThreadDocs(repositoryId, remote, numbers[..k])
    decreases |numbers|
  {
    var init := numbers[..|numbers| - 1];
    if |numbers| == k + 1 {
      assert init == numbers[..k];
    } else {
      assert init[..k] == numbers[..k] && init[k] == numbers[k];
      assert !IssueThreadsOk(remote, init) by {
        assert !IssueThread(remote, init[k]).Ok?;
      }
      IssueWrittenStops(repositoryId, remote, init, k);
    }
  }

  lemma {:induction false} PrWrittenStops(repositoryId: int, remote: Remote, numbers: seq<int>, k: nat)
    requires k < |numbers| && PrThreadsOk(remote, numbers[..k]) && !PrThreadOk(remote, numbers[k])
    ensures PrWrittenDocs(repositoryId, remote, numbers) ==
      PrThreadDocs(repositoryId, remote, numbers[..k]) + PrPartialBatch(repositoryId, remote, numbers[k])
    decreases |numbers|
  {
    var init := numbers[..|numbers| - 1];
    if |numbers| == k + 1 {
      assert init == numbers[..k];
    } else {
      assert init[..k] == numbers[..k] && init[k] == numbers[k];
      assert !PrThreadsOk(remote, init) by {
        assert !PrThreadOk(remote, init[k]);
      }
      PrWrittenStops(repositoryId, remote, init, k);
    }
  }

  lemma {:induction false} IssueThreadDocsTagged(repositoryId: int, remote: Remote, numbers: seq<int>)
    ensures forall d :: d in IssueThreadDocs(repositoryId, remote, numbers) ==>
      d.repositoryId == repositoryId && d.parentType == Some(Issue) && d.parentNumber.Some? && d.parentNumber.value in numbers
    decreases |numbers|
  {
    if |numbers| > 0 {
      var init := numbers[..|numbers| - 1];
      IssueThreadDocsTagged(repositoryId, remote, init);
      assert forall n :: n in init ==> n in numbers;
    }
  }

  lemma {:induction false} PrThreadDocsTagged(repositoryId: int, remote: Remote, numbers: seq<int>)
    ensures forall d :: d in PrThreadDocs(repositoryId, remote, numbers) ==>
      d.repositoryId == repositoryId && d.parentType == Some(PR) && d.parentNumber.Some? && d.parentNumber.value in numbers
    decreases |numbers|
  {
    if |numbers| > 0 {
      var init := numbers[..|numbers| - 1];
      PrThreadDocsTagged(repositoryId, remote, init);
      assert forall n :: n in init ==> n in numbers;
    }
  }

  /** Every document step 4 writes is tagged with one of the run's stored issues
      or PRs, and all issue comments are written before any PR comment. */
  lemma ThreadDocsOrder(repositoryId: int, remote: Remote, issueNumbers: seq<int>, prNumbers: seq<int>)
    ensures var t := ThreadDocs(repositoryId, remote, true, issueNumbers, prNumbers);
      forall i :: 0 <= i < |t| ==>
        FromRun(t[i], repositoryId, issueNumbers, prNumbers) &&
        (t[i].parentType == Some(Issue) <==> i < |IssueThreadDocs(repositoryId, remote, issueNumbers)|)
  {
    var t := ThreadDocs(repositoryId, remote, true, issueNumbers, prNumbers);
    forall i | 0 <= i < |t|
      ensures FromRun(t[i], repositoryId, issueNumbers, prNumbers) &&
              (t[i].parentType == Some(Issue) <==> i < |IssueThreadDocs(repositoryId, remote, issueNumbers)|)
    {
      ThreadDocAt(repositoryId, remote, issueNumbers, prNumbers, i);
    }
  }

  lemma ThreadDocAt(repositoryId: int, remote: Remote, issueNumbers: seq<int>, prNumbers: seq<int>, i: nat)
    requires i < |ThreadDocs(repositoryId, remote, true, issueNumbers, prNumbers)|
    ensures var d := ThreadDocs(repositoryId, remote, true, issueNumbers, prNumbers)[i];
      FromRun(d, repositoryId, issueNumbers, prNumbers) &&
      (d.parentType == Some(Issue) <==> i < |IssueThreadDocs(repositoryId, remote, issueNumbers)|)
  {
    var a := IssueThreadDocs(repositoryId, remote, issueNumbers);
    var p := PrThreadDocs(repositoryId, remote, prNumbers);
    if i < |a| {
      IssueThreadDocsTagged(repositoryId, remote, issueNumbers);
      assert a[i] in a;
    } else {
      PrThreadDocsTagged(repositoryId, remote, prNumbers);
      assert p[i - |a|] in p;
    }
  }

  /** One issue of step 4a: its comments, tagged ('Issue', n). */
  method StoreIssueThread(db: MongoStore, repositoryId: int, remote: Remote, n: int, issueNumbers: seq<int>, prNumbers: seq<int>)
    returns (failure: Option<int>)
    requires n in issueNumbers
    modifies db`comments
    ensures OnlyRunComments(old(db.comments), db.comments, repositoryId, issueNumbers, prNumbers)
    ensures failure.None? <==> IssueThread(remote, n).Ok?
    ensures failure == IssueThreadFailure(remote, n)
    ensures failure.Some? ==> IssueThread(remote, n) == HttpError(failure.value) && db.comments == old(db.comments)
    ensures failure.None? ==> db.comments == UpsertAll(old(db.comments),
      FormatComments(repositoryId, Items(IssueThread(remote, n)), Some(Issue), Some(n)), CommentKey)
  {
    var comments, requested := FetchPaged(remote.issueComments(n), PerPage, false);
    if comments.HttpError? {
      return Some(comments.status);
    }
    var ids := db.StoreComments(repositoryId, comments.value, Some(Issue), Some(n));
    StoreKeepsRunComments(old(db.comments), repositoryId, comments.value, Some(Issue), Some(n), issueNumbers, prNumbers);
    failure := None;
  }

  /** Upserting documents that all come from this run keeps the property. */
  lemma {:induction false} UpsertRunComments(m: map<int, FormattedComment>, docs: seq<FormattedComment>,
                                             repositoryId: int, issueNumbers: seq<int>, prNumbers: seq<int>)
    requires forall i :: 0 <= i < |docs| ==> FromRun(docs[i], repositoryId, issueNumbers, prNumbers)
    ensures OnlyRunComments(m, UpsertAll(m, docs, CommentKey), repositoryId, issueNumbers, prNumbers)
    decreases |docs|
  {
    if |docs| > 0 {
      UpsertRunComments(m, docs[..|docs| - 1], repositoryId, issueNumbers, prNumbers);
    }
  }

  /** The issue threads stored so far come from this run. */
  lemma IssueThreadsFromRun(m: map<int, FormattedComment>, repositoryId: int, remote: Remote,
                            issueNumbers: seq<int>, prNumbers: seq<int>, k: nat)
    requires k <= |issueNumbers|
    ensures OnlyRunComments(m, UpsertAll(m, IssueThreadDocs(repositoryId, remote, issueNumbers[..k]), CommentKey),
                            repositoryId, issueNumbers, prNumbers)
  {
    var docs := IssueThreadDocs(repositoryId, remote, issueNumbers[..k]);
    IssueThreadDocsTagged(repositoryId, remote, issueNumbers[..k]);
    assert forall n :: n in issueNumbers[..k] ==> n in issueNumbers;
    assert forall i :: 0 <= i < |docs| ==> docs[i] in docs;
    UpsertRunComments(m, docs, repositoryId, issueNumbers, prNumbers);
  }

  /** One more successful issue extends step 4a's steps, state and success. */
  lemma IssueThreadsStep(m: map<int, FormattedComment>, repositoryId: int, remote: Remote, numbers: seq<int>, i: nat)
    requires i < |numbers| && IssueThreadsOk(remote, numbers[..i]) && IssueThread(remote, numbers[i]).Ok?
    ensures IssueThreadsOk(remote, numbers[..i + 1])
    ensures IssueSteps(numbers[..i + 1]) == IssueSteps(numbers[..i]) + [StoredIssueComments(numbers[i])]
    ensures UpsertAll(UpsertAll(m, IssueThreadDocs(repositoryId, remote, numbers[..i]), CommentKey),
                      FormatComments(repositoryId, Items(IssueThread(remote, numbers[i])), Some(Issue), Some(numbers[i])), CommentKey)
         == UpsertAll(m, IssueThreadDocs(repositoryId, remote, numbers[..i + 1]), CommentKey)
  {
    assert numbers[..i + 1][..i] == numbers[..i];
    UpsertAppend(m, IssueThreadDocs(repositoryId, remote, numbers[..i]),
                 FormatComments(repositoryId, Items(IssueThread(remote, numbers[i])), Some(Issue), Some(numbers[i])), CommentKey);
  }

  /** Step 4a: every stored issue's comments, tagged ('Issue', number). It
      stops at the first thread whose walk fails, having stored the threads
      before it. */
  method StoreIssueThreads(db: MongoStore, repositoryId: int, remote: Remote, issueNumbers: seq<int>, prNumbers: seq<int>)
    returns (failure: Option<int>, steps: seq<Step>)
    modifies db`comments
    ensures OnlyRunComments(old(db.comments), db.comments, repositoryId, issueNumbers, prNumbers)
    ensures |steps| <= |issueNumbers| && steps == IssueSteps(issueNumbers[..|steps|])
    ensures db.comments == UpsertAll(old(db.comments), IssueThreadDocs(repositoryId, remote, issueNumbers[..|steps|]), CommentKey)
    ensures failure.None? <==> IssueThreadsOk(remote, issueNumbers)
    ensures failure.None? ==> |steps| == |issueNumbers|
    ensures failure.Some? ==> |steps| < |issueNumbers| && IssueThread(remote, issueNumbers[|steps|]) == HttpError(failure.value)
    ensures failure.Some? ==> IssueThreadsOk(remote, issueNumbers[..|steps|])
    ensures failure == FirstFailure(issueNumbers, IssueFailureOf(remote))
  {
    steps := [];
    for i := 0 to |issueNumbers|
      invariant steps == IssueSteps(issueNumbers[..i])
      invariant db.comments == UpsertAll(old(db.comments), IssueThreadDocs(repositoryId, remote, issueNumbers[..i]), CommentKey)
      invariant IssueThreadsOk(remote, issueNumbers[..i])
    {
      var n := issueNumbers[i];
      var threadFailure := StoreIssueThread(db, repositoryId, remote, n, issueNumbers, prNumbers);
      if threadFailure.Some? {
        assert |steps| == i && issueNumbers[..|steps|] == issueNumbers[..i];
        IssueThreadsFromRun(old(db.comments), repositoryId, remote, issueNumbers, prNumbers, i);
        IssueFailureFirst(remote, issueNumbers, i);
        return threadFailure, steps;
      }
      IssueThreadsStep(old(db.comments), repositoryId, remote, issueNumbers, i);
      steps := steps + [StoredIssueComments(n)];
    }
    failure := None;
    assert issueNumbers[..|issueNumbers|] == issueNumbers;
    IssueThreadsFromRun(old(db.comments), repositoryId, remote, issueNumbers, prNumbers, |issueNumbers|);
    IssueFailureNone(remote, issueNumbers);
  }

  /** One PR of step 4b: its review comments, then its reviews, both tagged
      ('PR', n). A failed walk ends the step. */
  method StorePrThread(db: MongoStore, repositoryId: int, remote: Remote, n: int, issueNumbers: seq<int>, prNumbers: seq<int>)
    returns (failure: Option<int>, steps: seq<Step>)
    requires n in prNumbers
    modifies db`comments
    ensures OnlyRunComments(old(db.comments), db.comments, repositoryId, issueNumbers, prNumbers)
    ensures failure.None? <==> PrThreadOk(remote, n)
    ensures failure == PrThreadFailure(remote, n)
    ensures failure.None? ==> steps == [StoredPrComments(n), StoredPrReviews(n)]
    ensures failure.None? ==> db.comments == UpsertAll(old(db.comments), PrThreadBatch(repositoryId, remote, n), CommentKey)
    ensures PrCommentThread(remote, n).HttpError? ==> steps == [] && db.comments == old(db.comments)
    ensures PrCommentThread(remote, n).Ok? && PrReviewThread(remote, n).HttpError? ==>
      steps == [StoredPrComments(n)] &&
      db.comments == UpsertAll(old(db.comments), FormatComments(repositoryId, Items(PrCommentThread(remote, n)), Some(PR), Some(n)), CommentKey)
    ensures db.comments == UpsertAll(old(db.comments), PrPartialBatch(repositoryId, remote, n), CommentKey)
  {
    var comments, requested := FetchPaged(remote.prComments(n), PerPage, false);
    if comments.HttpError? {
      return Some(comments.status), [];
    }
    var ids := db.StoreComments(repositoryId, comments.value, Some(PR), Some(n));
    StoreKeepsRunComments(old(db.comments), repositoryId, comments.value, Some(PR), Some(n), issueNumbers, prNumbers);
    var reviews, requestedReviews := FetchPaged(remote.prReviews(n), PerPage, false);
    if reviews.HttpError? {
      return Some(reviews.status), [StoredPrComments(n)];
    }
    ghost var before := db.comments;
    ids := db.StoreComments(repositoryId, reviews.value, Some(PR), Some(n));
    StoreKeepsRunComments(before, repositoryId, reviews.value, Some(PR), Some(n), issueNumbers, prNumbers);
    OnlyRunCommentsTrans(old(db.comments), before, db.comments, repositoryId, issueNumbers, prNumbers);
    UpsertAppend(old(db.comments), FormatComments(repositoryId, comments.value, Some(PR), Some(n)),
                 FormatComments(repositoryId, reviews.value, Some(PR), Some(n)), CommentKey);
    failure, steps := None, [StoredPrComments(n), StoredPrReviews(n)];
  }

  lemma {:induction false} PrWrittenDocsTagged(repositoryId: int, remote: Remote, numbers: seq<int>)
    ensures forall d :: d in PrWrittenDocs(repositoryId, remote, numbers) ==>
      d.repositoryId == repositoryId && d.parentType == Some(PR) && d.parentNumber.Some? && d.parentNumber.value in numbers
    decreases |numbers|
  {
    if |numbers| > 0 {
      var init := numbers[..|numbers| - 1];
      assert forall n :: n in init ==> n in numbers;
      if !PrThreadsOk(remote, init) {
        PrWrittenDocsTagged(repositoryId, remote, init);
      } else {
        PrThreadDocsTagged(repositoryId, remote, init);
      }
    }
  }

  /** What step 4b writes comes from this run. */
  lemma PrWrittenFromRun(m: map<int, FormattedComment>, repositoryId: int, remote: Remote,
                         issueNumbers: seq<int>, prNumbers: seq<int>)
    ensures OnlyRunComments(m, UpsertAll(m, PrWrittenDocs(repositoryId, remote, prNumbers), CommentKey),
                            repositoryId, issueNumbers, prNumbers)
  {
    var docs := PrWrittenDocs(repositoryId, remote, prNumbers);
    PrWrittenDocsTagged(repositoryId, remote, prNumbers);
    assert forall i :: 0 <= i < |docs| ==> docs[i] in docs;
    UpsertRunComments(m, docs, repositoryId, issueNumbers, prNumbers);
  }

  /** One more successful PR extends step 4b's steps, state and success. */
  lemma PrThreadsStep(m: map<int, FormattedComment>, repositoryId: int, remote: Remote, numbers: seq<int>, i: nat)
    requires i < |numbers| && PrThreadsOk(remote, numbers[..i]) && PrThreadOk(remote, numbers[i])
    ensures PrThreadsOk(remote, numbers[..i + 1])
    ensures PrSteps(numbers[..i + 1]) == PrSteps(numbers[..i]) + [StoredPrComments(numbers[i]), StoredPrReviews(numbers[i])]
    ensures UpsertAll(UpsertAll(m, PrThreadDocs(repositoryId, remote, numbers[..i]), CommentKey),
                      PrThreadBatch(repositoryId, remote, numbers[i]), CommentKey)
         == UpsertAll(m, PrThreadDocs(repositoryId, remote, numbers[..i + 1]), CommentKey)
  {
    assert numbers[..i + 1][..i] == numbers[..i];
    UpsertAppend(m, PrThreadDocs(repositoryId, remote, numbers[..i]), PrThreadBatch(repositoryId, remote, numbers[i]), CommentKey);
  }

  /** Stopping at PR k, step 4b's state and status are those of its reference. */
  lemma PrThreadsStopAt(m: map<int, FormattedComment>, repositoryId: int, remote: Remote, numbers: seq<int>, k: nat)
    requires k < |numbers| && PrThreadsOk(remote, numbers[..k]) && PrThreadFailure(remote, numbers[k]).Some?
    ensures FirstFailure(numbers, PrFailureOf(remote)) == PrThreadFailure(remote, numbers[k])
    ensures UpsertAll(UpsertAll(m, PrThreadDocs(repositoryId, remote, numbers[..k]), CommentKey),
                      PrPartialBatch(repositoryId, remote, numbers[k]), CommentKey)
         == UpsertAll(m, PrWrittenDocs(repositoryId, remote, numbers), CommentKey)
  {
    PrFailureFirst(remote, numbers, k);
    UpsertAppend(m, PrThreadDocs(repositoryId, remote, numbers[..k]), PrPartialBatch(repositoryId, remote, numbers[k]), CommentKey);
    PrWrittenStops(repositoryId, remote, numbers, k);
  }

  /** Step 4b: every stored PR's review comments and then its reviews, both
      tagged ('PR', number). It stops at the first walk that fails. */
  method StorePrThreads(db: MongoStore, repositoryId: int, remote: Remote, issueNumbers: seq<int>, prNumbers: seq<int>)
    returns (failure: Option<int>, steps: seq<Step>)
    modifies db`comments
    ensures OnlyRunComments(old(db.comments), db.comments, repositoryId, issueNumbers, prNumbers)
    ensures failure.None? <==> PrThreadsOk(remote, prNumbers)
    ensures failure == FirstFailure(prNumbers, PrFailureOf(remote))
    ensures db.comments == UpsertAll(old(db.comments), PrWrittenDocs(repositoryId, remote, prNumbers), CommentKey)
    ensures failure.None? ==> steps == PrSteps(prNumbers)
    ensures failure.None? ==> db.comments == UpsertAll(old(db.comments), PrThreadDocs(repositoryId, remote, prNumbers), CommentKey)
  {
    steps := [];
    for i := 0 to |prNumbers|
      invariant steps == PrSteps(prNumbers[..i])
      invariant db.comments == UpsertAll(old(db.comments), PrThreadDocs(repositoryId, remote, prNumbers[..i]), CommentKey)
      invariant PrThreadsOk(remote, prNumbers[..i])
    {
      var n := prNumbers[i];
      var threadFailure, threadSteps := StorePrThread(db, repositoryId, remote, n, issueNumbers, prNumbers);
      if threadFailure.Some? {
        PrThreadsStopAt(old(db.comments), repositoryId, remote, prNumbers, i);
        PrWrittenFromRun(old(db.comments), repositoryId, remote, issueNumbers, prNumbers);
        return threadFailure, steps + threadSteps;
      }
      PrThreadsStep(old(db.comments), repositoryId, remote, prNumbers, i);
      steps := steps + threadSteps;
    }
    failure := None;
    assert prNumbers[..|prNumbers|] == prNumbers;
    PrFailureNone(remote, prNumbers);
    PrWrittenAll(repositoryId, remote, prNumbers);
    PrWrittenFromRun(old(db.comments), repositoryId, remote, issueNumbers, prNumbers);
  }

  /** The activity documents step 5 writes, in write order: one per
      contributor for whom get_contributor_activity returns something. */
  function ActivityDocs(repositoryId: int, remote: Remote, users: seq<Contributor>): seq<ActivityDoc>
    decreases |users|
  {
    if |users| == 0 then []
    else
      var u := users[|users| - 1].login;
      ActivityDocs(repositoryId, remote, users[..|users| - 1])
      + match ContributorActivity(remote.contributorStats, remote.events, u)
        case None => []
        case Some(a) => [ActivityDocument(repositoryId, u, a)]
  }

  /** When the stats and events requests succeed, step 5 writes exactly one
      document per contributor, in contributor order; when either fails, none. */
  lemma {:induction false} ActivityDocsCases(repositoryId: int, remote: Remote, users: seq<Contributor>)
    ensures var docs := ActivityDocs(repositoryId, remote, users);
      !(remote.contributorStats.Ok? && remote.events.Ok?) ==> docs == []
    ensures var docs := ActivityDocs(repositoryId, remote, users);
      remote.contributorStats.Ok? && remote.events.Ok? ==>
        |docs| == |users| &&
        forall i :: 0 <= i < |users| ==>
          docs[i] == ActivityDocument(repositoryId, users[i].login,
                                      ContributorActivity(remote.contributorStats, remote.events, users[i].login).value)
    decreases |users|
  {
    if |users| > 0 {
      var init := users[..|users| - 1];
      ActivityDocsCases(repositoryId, remote, init);
      assert forall i :: 0 <= i < |init| ==> init[i] == users[i];
    }
  }

  /** Every contributor's (username, repository_id) key is present after step 5
      exactly when the stats and events requests succeed (or it was there before). */
  lemma ActivityForEveryContributor(m: map<ActivityKey, ActivityDoc>, repositoryId: int, remote: Remote,
                                    users: seq<Contributor>, i: nat)
    requires i < |users|
    ensures remote.contributorStats.Ok? && remote.events.Ok? ==>
      ActivityKey(users[i].login, repositoryId) in UpsertAll(m, ActivityDocs(repositoryId, remote, users), ActivityKeyOf)
    ensures !(remote.contributorStats.Ok? && remote.events.Ok?) ==>
      UpsertAll(m, ActivityDocs(repositoryId, remote, users), ActivityKeyOf) == m
  {
    var docs := ActivityDocs(repositoryId, remote, users);
    ActivityDocsCases(repositoryId, remote, users);
    UpsertKeys(m, docs, ActivityKeyOf);
    if remote.contributorStats.Ok? && remote.events.Ok? {
      assert ActivityKeyOf(docs[i]) == ActivityKey(users[i].login, repositoryId);
      assert docs[i] in docs;
    }
  }

  /** Step 5: every contributor's activity, keyed (username, repository_id).
      get_contributor_activity swallows every failure, so this step cannot fail. */
  method StoreActivities(db: MongoStore, repositoryId: int, remote: Remote, users: seq<Contributor>)
    returns (steps: seq<Step>)
    modifies db`contributorActivity
    ensures steps == ActivitySteps(users)
    ensures db.contributorActivity == UpsertAll(old(db.contributorActivity), ActivityDocs(repositoryId, remote, users), ActivityKeyOf)
  {
    steps := [];
    for i := 0 to |users|
      invariant steps == ActivitySteps(users[..i])
      invariant db.contributorActivity == UpsertAll(old(db.contributorActivity), ActivityDocs(repositoryId, remote, users[..i]), ActivityKeyOf)
    {
      var username := users[i].login;
      assert users[..i + 1][..i] == users[..i];
      var activity := ContributorActivity(remote.contributorStats, remote.events, username);
      var stored := db.StoreContributorActivity(repositoryId, username, activity);
      if activity.Some? {
        var d := ActivityDocument(repositoryId, username, activity.value);
        assert ActivityDocs(repositoryId, remote, users[..i + 1]) == ActivityDocs(repositoryId, remote, users[..i]) + [d];
      } else {
        assert ActivityDocs(repositoryId, remote, users[..i + 1]) == ActivityDocs(repositoryId, remote, users[..i]) + [];
        assert ActivityDocs(repositoryId, remote, users[..i]) + [] == ActivityDocs(repositoryId, remote, users[..i]);
      }
      steps := steps + [StoredActivity(username)];
    }
    assert users[..|users|] == users;
  }

  /** Steps 2 and 3: fetch and store the pull requests, then the issues. */
  method StoreRecords(db: MongoStore, repositoryId: int, remote: Remote)
    returns (failure: Option<int>, prNumbers: seq<int>, issueNumbers: seq<int>, steps: seq<Step>)
    modifies db`pullRequests, db`issues
    ensures failure.None? ==> steps == [StoredPullRequests, StoredIssues]
    ensures failure.None? <==>
      PrWalk(remote.pullListing, remote.pullDetail, 1).Ok? && PlainIssues(Walk(remote.issuePages, PerPage, 1, false)).Ok?
    ensures failure.None? ==>
      var prs := PrWalk(remote.pullListing, remote.pullDetail, 1);
      var issues := PlainIssues(Walk(remote.issuePages, PerPage, 1, false));
      prs.Ok? && issues.Ok? &&
      prNumbers == PrNumbersOf(remote) && issueNumbers == IssueNumbersOf(remote) &&
      db.pullRequests == UpsertAll(old(db.pullRequests), FormatPrs(repositoryId, prs.value), PrKey) &&
      db.issues == UpsertAll(old(db.issues), FormatIssues(repositoryId, issues.value), IssueKey)
    ensures var prs := PrWalk(remote.pullListing, remote.pullDetail, 1);
      prs.HttpError? ==>
        failure == Some(prs.status) && steps == [] &&
        db.pullRequests == old(db.pullRequests) && db.issues == old(db.issues)
    ensures var prs := PrWalk(remote.pullListing, remote.pullDetail, 1);
      var issues := PlainIssues(Walk(remote.issuePages, PerPage, 1, false));
      prs.Ok? && issues.HttpError? ==>
        failure == Some(issues.status) && steps == [StoredPullRequests] &&
        db.pullRequests == UpsertAll(old(db.pullRequests), FormatPrs(repositoryId, prs.value), PrKey) &&
        db.issues == old(db.issues)
  {
    issueNumbers := [];
    var prs, prPages := GetPullRequests(remote.pullListing, remote.pullDetail);
    if prs.HttpError? {
      return Some(prs.status), [], [], [];
    }
    prNumbers := db.StorePullRequests(repositoryId, prs.value);
    var issues, issuePages := GetIssues(remote.issuePages);
    if issues.HttpError? {
      return Some(issues.status), prNumbers, [], [StoredPullRequests];
    }
    issueNumbers := db.StoreIssues(repositoryId, issues.value);
    failure, steps := None, [StoredPullRequests, StoredIssues];
  }

  /** The status step 4 fails with: the first failing issue thread, else the
      first failing PR thread; none when comments are not collected. */
  function ThreadsFailure(remote: Remote, includeComments: bool, issueNumbers: seq<int>, prNumbers: seq<int>): Option<int> {
    if !includeComments then None
    else
      var issueFailure := FirstFailure(issueNumbers, IssueFailureOf(remote));
      if issueFailure.Some? then issueFailure else FirstFailure(prNumbers, PrFailureOf(remote))
  }

  /** Step 4, when comments are collected. */
  method StoreThreads(db: MongoStore, repositoryId: int, remote: Remote, includeComments: bool,
                      issueNumbers: seq<int>, prNumbers: seq<int>)
    returns (failure: Option<int>, steps: seq<Step>)
    modifies db`comments
    ensures OnlyRunComments(old(db.comments), db.comments, repositoryId, issueNumbers, prNumbers)
    ensures !includeComments ==> failure.None? && steps == [] && db.comments == old(db.comments)
    ensures includeComments && failure.None? ==> steps == IssueSteps(issueNumbers) + PrSteps(prNumbers)
    ensures includeComments ==> (failure.None? <==> IssueThreadsOk(remote, issueNumbers) && PrThreadsOk(remote, prNumbers))
    ensures failure == ThreadsFailure(remote, includeComments, issueNumbers, prNumbers)
    ensures db.comments == UpsertAll(old(db.comments), ThreadWrittenDocs(repositoryId, remote, includeComments, issueNumbers, prNumbers), CommentKey)
    ensures failure.None? ==>
      db.comments == UpsertAll(old(db.comments), ThreadDocs(repositoryId, remote, includeComments, issueNumbers, prNumbers), CommentKey)
  {
    if !includeComments {
      return None, [];
    }
    var issueSteps, prSteps;
    failure, issueSteps := StoreIssueThreads(db, repositoryId, remote, issueNumbers, prNumbers);
    if failure.Some? {
      IssueWrittenStops(repositoryId, remote, issueNumbers, |issueSteps|);
      return failure, issueSteps;
    }
    ghost var afterIssues := db.comments;
    failure, prSteps := StorePrThreads(db, repositoryId, remote, issueNumbers, prNumbers);
    OnlyRunCommentsTrans(old(db.comments), afterIssues, db.comments, repositoryId, issueNumbers, prNumbers);
    assert issueNumbers[..|issueSteps|] == issueNumbers;
    UpsertAppend(old(db.comments), IssueThreadDocs(repositoryId, remote, issueNumbers),
                 PrThreadDocs(repositoryId, remote, prNumbers), CommentKey);
    UpsertAppend(old(db.comments), IssueThreadDocs(repositoryId, remote, issueNumbers),
                 PrWrittenDocs(repositoryId, remote, prNumbers), CommentKey);
    steps := issueSteps + prSteps;
  }

  /** What a run that completes did, in order. */
  ghost predicate CompletedRun(remote: Remote, includeComments: bool, trace: seq<Step>) {
    var prs := PrWalk(remote.pullListing, remote.pullDetail, 1);
    var issues := PlainIssues(Walk(remote.issuePages, PerPage, 1, false));
    var users := GetContributors(remote.contributors);
    remote.repository.Ok? && prs.Ok? && issues.Ok? && users.Ok? &&
    trace == Plan(PrNumbers(prs.value), IssueNumbers(issues.value), users.value, includeComments)
  }

  /** The outcome the run reaches. A 404 at resolution is reported; any other
      HTTP error propagates and ends the run with its status. The first fetch
      to fail, in run order, decides: resolution, pull requests, issues, the
      comment threads, contributors. Contributor activity cannot fail. */
  function RunOutcomeOf(remote: Remote, includeComments: bool): RunOutcome {
    var prs := PrWalk(remote.pullListing, remote.pullDetail, 1);
    var issues := PlainIssues(Walk(remote.issuePages, PerPage, 1, false));
    var users := GetContributors(remote.contributors);
    if remote.repository.HttpError? then
      if remote.repository.status == 404 then RepositoryNotFound else Aborted(remote.repository.status)
    else if prs.HttpError? then Aborted(prs.status)
    else if issues.HttpError? then Aborted(issues.status)
    else
      var threads := ThreadsFailure(remote, includeComments, IssueNumbersOf(remote), PrNumbersOf(remote));
      if threads.Some? then Aborted(threads.value)
      else if users.HttpError? then Aborted(users.status)
      else Completed
  }

  /** A run completes exactly when every fetch it makes succeeds. */
  lemma CompletesExactlyWhenAllSucceed(remote: Remote, includeComments: bool)
    ensures RunOutcomeOf(remote, includeComments) == Completed <==>
      remote.repository.Ok? && PrWalk(remote.pullListing, remote.pullDetail, 1).Ok? &&
      PlainIssues(Walk(remote.issuePages, PerPage, 1, false)).Ok? &&
      (includeComments ==> IssueThreadsOk(remote, IssueNumbersOf(remote)) && PrThreadsOk(remote, PrNumbersOf(remote))) &&
      GetContributors(remote.contributors).Ok?
  {
    IssueFailureNone(remote, IssueNumbersOf(remote));
    PrFailureNone(remote, PrNumbersOf(remote));
  }

  /** The comment documents a run writes, in write order. */
  function RunThreadDocs(remote: Remote, includeComments: bool): seq<FormattedComment> {
    if remote.repository.Ok?
    then ThreadDocs(remote.repository.value.id, remote, includeComments, IssueNumbersOf(remote), PrNumbersOf(remote))
    else []
  }

  /** The activity documents a run writes, in write order. */
  function RunActivityDocs(remote: Remote): seq<ActivityDoc> {
    var users := GetContributors(remote.contributors);
    if remote.repository.Ok? && users.Ok?
    then ActivityDocs(remote.repository.value.id, remote, users.value)
    else []
  }

  /** collect_data_for_repository. */
  method CollectDataForRepository(db: MongoStore, remote: Remote, includeComments: bool)
    returns (outcome: RunOutcome, trace: seq<Step>)
    modifies db
    ensures outcome == RunOutcomeOf(remote, includeComments)
    ensures outcome == Completed <==>
      remote.repository.Ok? && PrWalk(remote.pullListing, remote.pullDetail, 1).Ok? &&
      PlainIssues(Walk(remote.issuePages, PerPage, 1, false)).Ok? &&
      (includeComments ==> IssueThreadsOk(remote, IssueNumbersOf(remote)) && PrThreadsOk(remote, PrNumbersOf(remote))) &&
      GetContributors(remote.contributors).Ok?
    ensures outcome == RepositoryNotFound <==> remote.repository == HttpError(404)
    ensures remote.repository.HttpError? ==>
      trace == [] && outcome != Completed &&
      db.pullRequests == old(db.pullRequests) && db.issues == old(db.issues) &&
      db.comments == old(db.comments) && db.contributorActivity == old(db.contributorActivity)
    ensures remote.repository.Ok? && PrWalk(remote.pullListing, remote.pullDetail, 1).HttpError? ==>
      outcome == Aborted(PrWalk(remote.pullListing, remote.pullDetail, 1).status) && trace == [ResolveRepository] &&
      db.pullRequests == old(db.pullRequests) && db.issues == old(db.issues) &&
      db.comments == old(db.comments) && db.contributorActivity == old(db.contributorActivity)
    ensures remote.repository.Ok? ==>
      OnlyRunComments(old(db.comments), db.comments, remote.repository.value.id, IssueNumbersOf(remote), PrNumbersOf(remote))
    ensures !includeComments ==> db.comments == old(db.comments)
    ensures outcome == Completed ==>
      remote.repository.Ok? && PrWalk(remote.pullListing, remote.pullDetail, 1).Ok? &&
      PlainIssues(Walk(remote.issuePages, PerPage, 1, false)).Ok? &&
      db.pullRequests == UpsertAll(old(db.pullRequests),
        FormatPrs(remote.repository.value.id, PrWalk(remote.pullListing, remote.pullDetail, 1).value), PrKey) &&
      db.issues == UpsertAll(old(db.issues),
        FormatIssues(remote.repository.value.id, PlainIssues(Walk(remote.issuePages, PerPage, 1, false)).value), IssueKey)
    ensures outcome == Completed ==> CompletedRun(remote, includeComments, trace)
    ensures remote.repository.Ok? && PrWalk(remote.pullListing, remote.pullDetail, 1).Ok? ==>
      db.pullRequests == UpsertAll(old(db.pullRequests),
        FormatPrs(remote.repository.value.id, PrWalk(remote.pullListing, remote.pullDetail, 1).value), PrKey)
    ensures remote.repository.Ok? && PrWalk(remote.pullListing, remote.pullDetail, 1).Ok? &&
            PlainIssues(Walk(remote.issuePages, PerPage, 1, false)).HttpError? ==>
      trace == [ResolveRepository, StoredPullRequests] &&
      db.issues == old(db.issues) && db.comments == old(db.comments)
    ensures remote.repository.Ok? && PrWalk(remote.pullListing, remote.pullDetail, 1).Ok? &&
            PlainIssues(Walk(remote.issuePages, PerPage, 1, false)).Ok? ==>
      db.issues == UpsertAll(old(db.issues),
        FormatIssues(remote.repository.value.id, PlainIssues(Walk(remote.issuePages, PerPage, 1, false)).value), IssueKey) &&
      db.comments == UpsertAll(old(db.comments),
        ThreadWrittenDocs(remote.repository.value.id, remote, includeComments, IssueNumbersOf(remote), PrNumbersOf(remote)), CommentKey)
    ensures outcome != Completed ==> db.contributorActivity == old(db.contributorActivity)
    ensures outcome == Completed ==> db.comments == UpsertAll(old(db.comments), RunThreadDocs(remote, includeComments), CommentKey)
    ensures outcome == Completed ==>
      db.contributorActivity == UpsertAll(old(db.contributorActivity), RunActivityDocs(remote), ActivityKeyOf)
  {
    trace := [];
    if remote.repository.HttpError? {
      if remote.repository.status == 404 {
        return RepositoryNotFound, trace;
      }
      return Aborted(remote.repository.status), trace;
    }
    var repositoryId := remote.repository.value.id;
    trace := [ResolveRepository];

    var failure, prNumbers, issueNumbers, steps := StoreRecords(db, repositoryId, remote);
    if failure.Some? {
      return Aborted(failure.value), trace + steps;
    }
    trace := [ResolveRepository, StoredPullRequests, StoredIssues];

    failure, steps := StoreThreads(db, repositoryId, remote, includeComments, issueNumbers, prNumbers);
    trace := trace + steps;
    if failure.Some? {
      return Aborted(failure.value), trace;
    }

    var contributors := GetContributors(remote.contributors);
    if contributors.HttpError? {
      return Aborted(contributors.status), trace;
    }
    steps := StoreActivities(db, repositoryId, remote, contributors.value);
    trace := trace + steps;
    outcome := Completed;
    CompletesExactlyWhenAllSucceed(remote, includeComments);
  }
}
