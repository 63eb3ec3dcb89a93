/** Raw API payloads and the fixed-shape documents the collector stores
    (MongoDBManager.store_* in github_mongodb_app.py). A field the source reads
    with `d.get(k)` or that JSON may leave null is an `Option`; a field it reads
    with `d[k]` is required. Timestamps are copied verbatim, so they stay strings. */
module Records {
  import opened Wrappers

  datatype RawUser = RawUser(login: string)
  datatype RawRef = RawRef(refName: string, sha: string)
  datatype RawLinkedIssue = RawLinkedIssue(url: string)
  datatype RawLabel = RawLabel(name: string)
  datatype RawMilestone = RawMilestone(title: Option<string>)

  /** One entry of the pull-request listing: only its number is used. */
  datatype PrSummary = PrSummary(number: int)

  /** The per-number pull-request detail payload. */
  datatype RawPr = RawPr(
    id: int, number: int, title: string, body: Option<string>, user: RawUser,
    createdAt: string, mergedAt: Option<string>, closedAt: Option<string>,
    merged: Option<bool>, state: string,
    changedFiles: Option<int>, additions: Option<int>, deletions: Option<int>,
    reviewComments: Option<int>, commits: Option<int>,
    closingIssues: Option<seq<RawLinkedIssue>>, head: RawRef, base: RawRef)

  /** An issue-listing entry; `pullRequest` says whether the `pull_request` key is present. */
  datatype RawIssue = RawIssue(
    id: int, number: int, title: string, body: Option<string>, user: RawUser,
    createdAt: string, closedAt: Option<string>, state: string,
    labels: Option<seq<RawLabel>>, comments: Option<int>,
    assignees: Option<seq<RawUser>>, milestone: Option<RawMilestone>,
    pullRequest: bool)

  /** An issue comment, a review comment or a review: none of them names its parent. */
  datatype RawComment = RawComment(
    id: int, user: RawUser, createdAt: Option<string>, updatedAt: Option<string>,
    body: Option<string>, inReplyToId: Option<int>)

  datatype ParentType = Issue | PR

  datatype FormattedPr = FormattedPr(
    prId: int, prNumber: int, repositoryId: int, title: string, description: Option<string>,
    author: string, createdAt: string, mergedAt: Option<string>, closedAt: Option<string>,
    prState: string, filesChanged: int, additions: int, deletions: int,
    reviewComments: int, commits: int, linkedIssues: seq<string>,
    head: RawRef, base: RawRef)

  datatype FormattedIssue = FormattedIssue(
    issueId: int, issueNumber: int, repositoryId: int, title: string, description: Option<string>,
    author: string, createdAt: string, closedAt: Option<string>, issueState: string,
    labels: seq<string>, commentsCount: int, assignees: seq<string>, milestone: Option<string>)

  datatype FormattedComment = FormattedComment(
    commentId: int, repositoryId: int, author: string,
    createdAt: Option<string>, updatedAt: Option<string>, body: Option<string>,
    parentType: Option<ParentType>, parentNumber: Option<int>, parentId: Option<int>)

  /** Truthiness of `pr.get('merged')`. */
  predicate IsMerged(pr: RawPr) {
    pr.merged == Some(true)
  }

  /** The stored PR state: "merged" overrides the raw state when the merged flag is set. */
  function PrState(pr: RawPr): (s: string)
    ensures IsMerged(pr) ==> s == "merged"
    ensures !IsMerged(pr) ==> s == pr.state
  {
    if IsMerged(pr) then "merged" else pr.state
  }

  function LabelNames(labels: seq<RawLabel>): (names: seq<string>)
  {
    seq(|labels|, i requires 0 <= i < |labels| => labels[i].name)
  }

  function Logins(users: seq<RawUser>): (logins: seq<string>)
  {
    seq(|users|, i requires 0 <= i < |users| => users[i].login)
  }

  function IssueUrls(issues: seq<RawLinkedIssue>): (urls: seq<string>)
  {
    seq(|issues|, i requires 0 <= i < |issues| => issues[i].url)
  }

  /** The `formatted_pr` document of store_pull_requests. */
  function FormatPr(repositoryId: int, pr: RawPr): (d: FormattedPr)
    ensures d.prId == pr.id && d.prNumber == pr.number && d.repositoryId == repositoryId
    ensures d.author == pr.user.login
    ensures d.prState == (if IsMerged(pr) then "merged" else pr.state)
    ensures d.filesChanged == pr.changedFiles.GetOr(0) && d.additions == pr.additions.GetOr(0)
    ensures d.deletions == pr.deletions.GetOr(0) && d.reviewComments == pr.reviewComments.GetOr(0)
    ensures d.commits == pr.commits.GetOr(0)
    ensures pr.closingIssues.None? ==> d.linkedIssues == []
    ensures pr.closingIssues.Some? ==> d.linkedIssues == IssueUrls(pr.closingIssues.value)
  {
    FormattedPr(
      pr.id, pr.number, repositoryId, pr.title, pr.body, pr.user.login, pr.createdAt,
      pr.mergedAt, pr.closedAt, PrState(pr),
      pr.changedFiles.GetOr(0), pr.additions.GetOr(0), pr.deletions.GetOr(0),
      pr.reviewComments.GetOr(0), pr.commits.GetOr(0),
      IssueUrls(pr.closingIssues.GetOr([])),
      RawRef(pr.head.refName, pr.head.sha), RawRef(pr.base.refName, pr.base.sha))
  }

  /** `issue.get('milestone', {}).get('title') if issue.get('milestone') else None`. */
  function MilestoneTitle(m: Option<RawMilestone>): (t: Option<string>)
    ensures m.None? ==> t.None?
    ensures m.Some? ==> t == m.value.title
  {
    match m
    case None => None
    case Some(ms) => ms.title
  }

  /** The `formatted_issue` document of store_issues. */
  function FormatIssue(repositoryId: int, issue: RawIssue): (d: FormattedIssue)
    ensures d.issueId == issue.id && d.issueNumber == issue.number && d.repositoryId == repositoryId
    ensures d.issueState == issue.state && d.author == issue.user.login
    ensures d.commentsCount == issue.comments.GetOr(0)
    ensures issue.labels.None? ==> d.labels == []
    ensures issue.labels.Some? ==> d.labels == LabelNames(issue.labels.value)
    ensures issue.assignees.None? ==> d.assignees == []
    ensures issue.assignees.Some? ==> d.assignees == Logins(issue.assignees.value)
    ensures d.milestone == MilestoneTitle(issue.milestone)
  {
    FormattedIssue(
      issue.id, issue.number, repositoryId, issue.title, issue.body, issue.user.login,
      issue.createdAt, issue.closedAt, issue.state,
      LabelNames(issue.labels.GetOr([])), issue.comments.GetOr(0),
      Logins(issue.assignees.GetOr([])), MilestoneTitle(issue.milestone))
  }

  /** The `formatted_comment` document of store_comments: the parent type and
      number are the caller's, whatever the payload holds. */
  function FormatComment(repositoryId: int, c: RawComment, parentType: Option<ParentType>,
                         parentNumber: Option<int>): (d: FormattedComment)
    ensures d.commentId == c.id && d.repositoryId == repositoryId && d.author == c.user.login
    ensures d.parentType == parentType && d.parentNumber == parentNumber
    ensures d.parentId == c.inReplyToId
  {
    FormattedComment(c.id, repositoryId, c.user.login, c.createdAt, c.updatedAt, c.body,
                     parentType, parentNumber, c.inReplyToId)
  }

  /** The issues endpoint also lists pull requests; they carry a `pull_request` key. */
  predicate IsPlainIssue(issue: RawIssue) {
    !issue.pullRequest
  }

  function PrKey(d: FormattedPr): int { d.prId }
  function IssueKey(d: FormattedIssue): int { d.issueId }
  function CommentKey(d: FormattedComment): int { d.commentId }

  function FormatPrs(repositoryId: int, prs: seq<RawPr>): seq<FormattedPr> {
    seq(|prs|, i requires 0 <= i < |prs| => FormatPr(repositoryId, prs[i]))
  }

  function FormatIssues(repositoryId: int, issues: seq<RawIssue>): seq<FormattedIssue> {
    seq(|issues|, i requires 0 <= i < |issues| => FormatIssue(repositoryId, issues[i]))
  }

  function FormatComments(repositoryId: int, comments: seq<RawComment>, parentType: Option<ParentType>,
                          parentNumber: Option<int>): seq<FormattedComment> {
    seq(|comments|, i requires 0 <= i < |comments| => FormatComment(repositoryId, comments[i], parentType, parentNumber))
  }

  /** Merged-and-closed transforms to "merged", an unmerged open PR stays "open". */
  lemma PrStateExamples(pr: RawPr)
    ensures pr.merged == Some(true) && pr.state == "closed" ==> PrState(pr) == "merged"
    ensures pr.merged == Some(false) && pr.state == "open" ==> PrState(pr) == "open"
  {
  }

  /** The stored state is either "merged" or the raw state; it is "merged" for
      an unmerged PR only when the raw state itself says so. */
  lemma PrStateCases(pr: RawPr)
    ensures PrState(pr) == "merged" || PrState(pr) == pr.state
    ensures PrState(pr) == "merged" <==> IsMerged(pr) || pr.state == "merged"
  {
  }

  // ---------------------------------------------------------------------
  // Contributor activity

  /** One week of `/stats/contributors`; `weekStart` is the key the collector adds. */
  datatype Week = Week(w: int, additions: int, deletions: int, commits: int, weekStart: Option<int>)

  datatype ContributorStats = ContributorStats(author: RawUser, total: int, weeks: Option<seq<Week>>)

  /** A repository event; `actor` may be absent. */
  datatype RepoEvent = RepoEvent(actor: Option<RawUser>, eventType: string, createdAt: string)

  /** What get_contributor_activity returns when it succeeds. */
  datatype Activity = Activity(weeklyStats: Option<ContributorStats>, recentActivity: seq<RepoEvent>)

  datatype ActivityKey = ActivityKey(username: string, repositoryId: int)

  datatype ActivityDoc = ActivityDoc(
    username: string, repositoryId: int, weeklyStats: Option<ContributorStats>,
    recentActivity: seq<RepoEvent>)

  function ActivityKeyOf(d: ActivityDoc): ActivityKey { ActivityKey(d.username, d.repositoryId) }

  /** Each week annotated with its start, derived from its epoch `w`
      (the ISO rendering of that epoch is not modelled). */
  function AnnotatedWeeks(weeks: seq<Week>): (r: seq<Week>)
    ensures |r| == |weeks|
    ensures forall i :: 0 <= i < |weeks| ==>
              r[i].weekStart == Some(weeks[i].w) && r[i].w == weeks[i].w && r[i].additions == weeks[i].additions &&
              r[i].deletions == weeks[i].deletions && r[i].commits == weeks[i].commits
  {
    seq(|weeks|, i requires 0 <= i < |weeks| => weeks[i].(weekStart := Some(weeks[i].w)))
  }
}
