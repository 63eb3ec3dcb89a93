/** The dashboard's analysis of one repository: the date window, the
    window filters over pull requests and issues, the overview counts, the
    top-contributor tally and the recent-activity feed. Instants are whole
    seconds since the epoch and dates are day numbers since the epoch; day
    `d` is the seconds `d * 86400` up to `d * 86400 + 86399`. */
module DashboardView {
  import opened Wrappers
  import Seqs
  import Sorting

  const SecondsPerDay: int := 86400

  // ---------------------------------------------------------------------
  // Time window
  // ---------------------------------------------------------------------

  /** The four choices of the time-period selector; a custom range carries
      the two picked dates. */
  datatype TimePeriod = LastWeek | LastDay | LastMonth | CustomRange(start: int, end: int)

  /** The selected dates: an optional first day and a last day. */
  datatype DateFilter = DateFilter(start: Option<int>, end: int)

  /** The instants the filters compare against; an absent bound is no bound. */
  datatype Window = Window(since: Option<int>, until: Option<int>)

  /** The dates chosen for a period, given today and the same day one
      calendar month earlier (month arithmetic is the caller's). An invalid
      custom range drops the start and keeps today as the end. */
  function SelectDates(period: TimePeriod, today: int, monthAgo: int): (d: DateFilter)
    ensures period == LastWeek ==> d == DateFilter(Some(today - 7), today)
    ensures period == LastDay ==> d == DateFilter(Some(today - 1), today)
    ensures period == LastMonth ==> d == DateFilter(Some(monthAgo), today)
    ensures period.CustomRange? && period.start > period.end ==> d == DateFilter(None, today)
    ensures period.CustomRange? && period.start <= period.end ==> d == DateFilter(Some(period.start), period.end)
  {
    match period
    case LastWeek => DateFilter(Some(today - 7), today)
    case LastDay => DateFilter(Some(today - 1), today)
    case LastMonth => DateFilter(Some(monthAgo), today)
    case CustomRange(start, end) =>
      if start > end then DateFilter(None, today) else DateFilter(Some(start), end)
  }

  /** From the first instant of the first day to the last instant of the last day. */
  function ToWindow(d: DateFilter): (w: Window)
    ensures w.until.Some?
    ensures w.since.Some? <==> d.start.Some?
  {
    Window(if d.start.Some? then Some(d.start.value * SecondsPerDay) else None,
           Some(d.end * SecondsPerDay + SecondsPerDay - 1))
  }

  function DayOf(t: int): int {
    t / SecondsPerDay
  }

  /** An instant passes the filter when it is neither before `since` nor
      after `until`: both ends are inclusive. */
  predicate InWindow(w: Window, t: int) {
    (w.since.None? || t >= w.since.value) && (w.until.None? || t <= w.until.value)
  }

  lemma DayBounds(day: int, t: int)
    ensures day * SecondsPerDay <= t <==> day <= DayOf(t)
    ensures t <= day * SecondsPerDay + SecondsPerDay - 1 <==> DayOf(t) <= day
  {
    var q := t / SecondsPerDay;
    var r := t % SecondsPerDay;
    assert t == q * SecondsPerDay + r && 0 <= r < SecondsPerDay;
  }

  /** The window holds exactly the instants whose day lies between the
      selected dates, both included. */
  lemma WindowCoversDays(d: DateFilter, t: int)
    ensures InWindow(ToWindow(d), t) <==> (d.start.None? || d.start.value <= DayOf(t)) && DayOf(t) <= d.end
  {
    DayBounds(d.end, t);
    if d.start.Some? {
      DayBounds(d.start.value, t);
    }
  }

  /** A valid custom range selects exactly its days; an invalid one selects
      every instant up to the end of today. */
  lemma CustomRangeWindow(start: int, end: int, today: int, monthAgo: int, t: int)
    ensures var w := ToWindow(SelectDates(CustomRange(start, end), today, monthAgo));
      && (start <= end ==> (InWindow(w, t) <==> start <= DayOf(t) <= end))
      && (start > end ==> (InWindow(w, t) <==> DayOf(t) <= today))
  {
    WindowCoversDays(SelectDates(CustomRange(start, end), today, monthAgo), t);
  }

  /** The preset periods end today and start the given number of days back. */
  lemma PresetWindows(today: int, monthAgo: int, t: int)
    ensures InWindow(ToWindow(SelectDates(LastWeek, today, monthAgo)), t) <==> today - 7 <= DayOf(t) <= today
    ensures InWindow(ToWindow(SelectDates(LastDay, today, monthAgo)), t) <==> today - 1 <= DayOf(t) <= today
    ensures InWindow(ToWindow(SelectDates(LastMonth, today, monthAgo)), t) <==> monthAgo <= DayOf(t) <= today
  {
    WindowCoversDays(SelectDates(LastWeek, today, monthAgo), t);
    WindowCoversDays(SelectDates(LastDay, today, monthAgo), t);
    WindowCoversDays(SelectDates(LastMonth, today, monthAgo), t);
  }

  // ---------------------------------------------------------------------
  // Records as the dashboard reads them
  // ---------------------------------------------------------------------

  datatype DashPr = DashPr(title: string, user: string, htmlUrl: string, createdAt: int,
                           state: string, mergedAt: Option<int>)

  /** An issue listing entry; `pullRequest` says whether it has a
      `pull_request` key, i.e. is a pull request in the issue listing. */
  datatype DashIssue = DashIssue(title: string, user: string, htmlUrl: string, createdAt: int,
                                 state: string, pullRequest: bool)

  /** The git author of a commit: its name and its date. */
  datatype GitAuthor = GitAuthor(name: string, date: int)

  /** A listed commit: its message, its git author (null in the payload
      when absent), the login of its GitHub author (absent when the commit
      is not linked to an account) and its page. */
  datatype DashCommit = DashCommit(message: string, gitAuthor: Option<GitAuthor>,
                                   authorLogin: Option<string>, htmlUrl: string)

  // ---------------------------------------------------------------------
  // Window filters
  // ---------------------------------------------------------------------

  function KeepPr(w: Window): DashPr -> bool {
    (pr: DashPr) => InWindow(w, pr.createdAt)
  }

  function KeepIssue(w: Window): DashIssue -> bool {
    (issue: DashIssue) => InWindow(w, issue.createdAt) && !issue.pullRequest
  }

  /** The pull requests created inside the window, in listing order. */
  method FilterPrs(prs: seq<DashPr>, w: Window) returns (filtered: seq<DashPr>)
    ensures filtered == Seqs.Filter(prs, KeepPr(w))
  {
    filtered := [];
    for i := 0 to |prs|
      invariant filtered == Seqs.Filter(prs[..i], KeepPr(w))
    {
      assert prs[..i + 1] == prs[..i] + [prs[i]];
      Seqs.FilterAppend(prs[..i], [prs[i]], KeepPr(w));
      var pr := prs[i];
      if w.since.Some? && pr.createdAt < w.since.value {
        continue;
      }
      if w.until.Some? && pr.createdAt > w.until.value {
        continue;
      }
      filtered := filtered + [pr];
    }
    assert prs[..|prs|] == prs;
  }

  /** The issues created inside the window that are not pull requests, in
      listing order. */
  method FilterIssues(issues: seq<DashIssue>, w: Window) returns (filtered: seq<DashIssue>)
    ensures filtered == Seqs.Filter(issues, KeepIssue(w))
  {
    filtered := [];
    for i := 0 to |issues|
      invariant filtered == Seqs.Filter(issues[..i], KeepIssue(w))
    {
      assert issues[..i + 1] == issues[..i] + [issues[i]];
      Seqs.FilterAppend(issues[..i], [issues[i]], KeepIssue(w));
      var issue := issues[i];
      if w.since.Some? && issue.createdAt < w.since.value {
        continue;
      }
      if w.until.Some? && issue.createdAt > w.until.value {
        continue;
      }
      if !issue.pullRequest {
        filtered := filtered + [issue];
      }
    }
    assert issues[..|issues|] == issues;
  }

  /** The PR filter keeps exactly the pull requests inside the window, in
      their original order. */
  lemma PrFilterExact(prs: seq<DashPr>, w: Window)
    ensures forall pr :: pr in Seqs.Filter(prs, KeepPr(w)) <==> pr in prs && InWindow(w, pr.createdAt)
    ensures Seqs.Subsequence(Seqs.Filter(prs, KeepPr(w)), prs)
  {
    forall pr
      ensures pr in Seqs.Filter(prs, KeepPr(w)) <==> pr in prs && InWindow(w, pr.createdAt)
    {
      Seqs.FilterMembers(prs, KeepPr(w), pr);
    }
    Seqs.FilterIsSubsequence(prs, KeepPr(w));
  }

  /** The issue filter keeps exactly the plain issues inside the window, in
      their original order. */
  lemma IssueFilterExact(issues: seq<DashIssue>, w: Window)
    ensures forall issue :: issue in Seqs.Filter(issues, KeepIssue(w)) <==>
              issue in issues && InWindow(w, issue.createdAt) && !issue.pullRequest
    ensures Seqs.Subsequence(Seqs.Filter(issues, KeepIssue(w)), issues)
  {
    forall issue
      ensures issue in Seqs.Filter(issues, KeepIssue(w)) <==>
              issue in issues && InWindow(w, issue.createdAt) && !issue.pullRequest
    {
      Seqs.FilterMembers(issues, KeepIssue(w), issue);
    }
    Seqs.FilterIsSubsequence(issues, KeepIssue(w));
  }

  // ---------------------------------------------------------------------
  // Overview counts
  // ---------------------------------------------------------------------

  predicate IsActivePr(pr: DashPr) {
    pr.state == "open"
  }

  predicate IsMergedPr(pr: DashPr) {
    pr.state == "closed" && pr.mergedAt.Some?
  }

  predicate IsOpenIssue(issue: DashIssue) {
    issue.state == "open"
  }

  predicate IsClosedIssue(issue: DashIssue) {
    issue.state == "closed"
  }

  datatype Summary = Summary(activePrs: nat, mergedPrs: nat, openIssues: nat, closedIssues: nat,
                             totalCommits: nat)

  /** The overview metrics over the filtered pull requests and issues and
      the commits of the window. A pull request is never both active and
      merged, and an issue never both open and closed, so each pair of
      counts stays within its total. */
  function Summarize(prs: seq<DashPr>, issues: seq<DashIssue>, commits: seq<DashCommit>): (s: Summary)
    ensures s.activePrs + s.mergedPrs <= |prs|
    ensures s.openIssues + s.closedIssues <= |issues|
    ensures s.totalCommits == |commits|
    ensures s.activePrs == |Seqs.Filter(prs, IsActivePr)| && s.mergedPrs == |Seqs.Filter(prs, IsMergedPr)|
    ensures s.openIssues == |Seqs.Filter(issues, IsOpenIssue)| && s.closedIssues == |Seqs.Filter(issues, IsClosedIssue)|
  {
    Seqs.DisjointFiltersBound(prs, IsActivePr, IsMergedPr);
    Seqs.DisjointFiltersBound(issues, IsOpenIssue, IsClosedIssue);
    Summary(|Seqs.Filter(prs, IsActivePr)|, |Seqs.Filter(prs, IsMergedPr)|,
            |Seqs.Filter(issues, IsOpenIssue)|, |Seqs.Filter(issues, IsClosedIssue)|, |commits|)
  }

  /** A closed pull request without a merge time counts as neither active
      nor merged. */
  lemma ClosedUnmergedNotCounted(pr: DashPr)
    requires pr.state == "closed" && pr.mergedAt.None?
    ensures Summarize([pr], [], []).activePrs == 0 && Summarize([pr], [], []).mergedPrs == 0
  {
    assert Seqs.Filter([pr], IsActivePr) == [] + Seqs.Filter([pr][1..], IsActivePr);
    assert Seqs.Filter([pr], IsMergedPr) == [] + Seqs.Filter([pr][1..], IsMergedPr);
  }

  // ---------------------------------------------------------------------
  // Top contributors
  // ---------------------------------------------------------------------

  /** The name a commit is credited to: the git author's name when it is
      non-empty, else the GitHub login when it is non-empty, else nobody. */
  function CommitAuthor(c: DashCommit): (a: Option<string>)
    ensures a.Some? ==> a.value != ""
    ensures c.gitAuthor.Some? && c.gitAuthor.value.name != "" ==> a == Some(c.gitAuthor.value.name)
    ensures (c.gitAuthor.None? || c.gitAuthor.value.name == "") ==>
              a == if c.authorLogin.Some? && c.authorLogin.value != "" then c.authorLogin else None
  {
    if c.gitAuthor.Some? && c.gitAuthor.value.name != "" then Some(c.gitAuthor.value.name)
    else if c.authorLogin.Some? && c.authorLogin.value != "" then c.authorLogin
    else None
  }

  /** The credited names of the commits, one per credited commit, in order. */
  function CommitAuthors(commits: seq<DashCommit>): (authors: seq<string>)
    ensures |authors| <= |commits|
    ensures forall a :: a in authors ==> exists i :: 0 <= i < |commits| && CommitAuthor(commits[i]) == Some(a)
    ensures forall i :: 0 <= i < |commits| && CommitAuthor(commits[i]).Some? ==> CommitAuthor(commits[i]).value in authors
  {
    if |commits| == 0 then []
    else
      var init := commits[..|commits| - 1];
      var last := commits[|commits| - 1];
      var a := CommitAuthors(init);
      assert forall i :: 0 <= i < |init| ==> init[i] == commits[i];
      a + CreditOf(last)
  }

  /** The credited name of one commit, as a sequence of zero or one names. */
  function CreditOf(c: DashCommit): seq<string> {
    if CommitAuthor(c).Some? then [CommitAuthor(c).value] else []
  }

  /** The commits credited to name `a`. */
  function CreditedTo(a: string): DashCommit -> bool {
    (c: DashCommit) => CommitAuthor(c) == Some(a)
  }

  /** Each name occurs among the credited names exactly once per commit
      credited to it. */
  lemma {:induction false} CommitAuthorsCount(commits: seq<DashCommit>, a: string)
    ensures Seqs.Occurrences(CommitAuthors(commits), a) == |Seqs.Filter(commits, CreditedTo(a))|
    decreases |commits|
  {
    if |commits| > 0 {
      CommitAuthorsCount(commits[..|commits| - 1], a);
      CountStep(commits, a);
    }
  }

  /** One commit more changes both counts alike. */
  lemma CountStep(commits: seq<DashCommit>, a: string)
    requires |commits| > 0
    ensures var init := commits[..|commits| - 1];
      Seqs.Occurrences(CommitAuthors(commits), a) - |Seqs.Filter(commits, CreditedTo(a))|
      == Seqs.Occurrences(CommitAuthors(init), a) - |Seqs.Filter(init, CreditedTo(a))|
  {
    var init := commits[..|commits| - 1];
    var last := commits[|commits| - 1];
    assert CommitAuthors(commits) == CommitAuthors(init) + CreditOf(last);
    Seqs.OccurrencesAppend(CommitAuthors(init), CreditOf(last), a);
    assert commits == init + [last];
    Seqs.FilterAppend(init, [last], CreditedTo(a));
    CreditOfCount(last, a);
  }

  lemma CreditOfCount(c: DashCommit, a: string)
    ensures Seqs.Occurrences(CreditOf(c), a) == |Seqs.Filter([c], CreditedTo(a))|
  {
    assert Seqs.Filter([c], CreditedTo(a)) == (if CreditedTo(a)(c) then [c] else []) + Seqs.Filter([c][1..], CreditedTo(a));
    if CreditOf(c) != [] {
      assert Seqs.Occurrences(CreditOf(c), a) == (if CreditOf(c)[0] == a then 1 else 0) + Seqs.Occurrences(CreditOf(c)[1..], a);
    }
  }

  /** The loop that gathers the credited names. */
  method CollectCommitAuthors(commits: seq<DashCommit>) returns (authors: seq<string>)
    ensures authors == CommitAuthors(commits)
  {
    authors := [];
    for i := 0 to |commits|
      invariant authors == CommitAuthors(commits[..i])
    {
      assert commits[..i + 1][..i] == commits[..i];
      var a := CommitAuthor(commits[i]);
      if a.Some? {
        authors := authors + [a.value];
      }
    }
    assert commits[..|commits|] == commits;
  }

  datatype AuthorCount = AuthorCount(author: string, count: nat)

  function CountOf(e: AuthorCount): int {
    e.count
  }

  /** Python's `Counter(authors).items()`: each distinct name once, in order
      of first appearance, with its number of commits. */
  function Tally(authors: seq<string>): (t: seq<AuthorCount>)
    ensures |t| == |Seqs.Distinct(authors)|
    ensures forall i :: 0 <= i < |t| ==>
              t[i].author == Seqs.Distinct(authors)[i] && t[i].count == Seqs.Occurrences(authors, t[i].author)
  {
    var d := Seqs.Distinct(authors);
    seq(|d|, i requires 0 <= i < |d| => AuthorCount(d[i], Seqs.Occurrences(authors, d[i])))
  }

  /** The tally lists names in the order of their first appearance. */
  lemma TallyFirstOrder(authors: seq<string>)
    ensures forall i, j :: 0 <= i < j < |Tally(authors)| ==>
              Seqs.FirstIndex(authors, Tally(authors)[i].author) < Seqs.FirstIndex(authors, Tally(authors)[j].author)
  {
    Seqs.DistinctFirstOrder(authors);
  }

  const TopCount: nat := 5

  /** `Counter(...).most_common(5)`: the tally by descending count, equal
      counts in order of first appearance, cut to five entries. */
  function TopContributors(commits: seq<DashCommit>): seq<AuthorCount> {
    Seqs.Take(Sorting.SortDesc(Tally(CommitAuthors(commits)), CountOf), TopCount)
  }

  /** At most five entries, by non-increasing count, each a credited name
      with its exact number of commits. */
  lemma TopContributorsRanked(commits: seq<DashCommit>)
    ensures |TopContributors(commits)| <= TopCount
    ensures Sorting.SortedDesc(TopContributors(commits), CountOf)
    ensures forall e :: e in TopContributors(commits) ==>
              e.author in CommitAuthors(commits) && e.count == Seqs.Occurrences(CommitAuthors(commits), e.author)
    ensures forall e :: e in TopContributors(commits) ==> e.count > 0
  {
    var authors := CommitAuthors(commits);
    var t := Tally(authors);
    Sorting.TopOfSorted(t, CountOf, TopCount);
    forall e | e in TopContributors(commits)
      ensures e.author in authors && e.count == Seqs.Occurrences(authors, e.author)
    {
      TopIsFromTally(t, e);
    }
  }

  lemma TopIsFromTally(t: seq<AuthorCount>, e: AuthorCount)
    requires e in Seqs.Take(Sorting.SortDesc(t, CountOf), TopCount)
    ensures e in t
  {
    Sorting.TopOfSorted(t, CountOf, TopCount);
    assert e in multiset(Seqs.Take(Sorting.SortDesc(t, CountOf), TopCount));
  }

  /** Each listed count is the number of commits credited to that name. */
  lemma TopContributorsCountCommits(commits: seq<DashCommit>)
    ensures forall e :: e in TopContributors(commits) ==> e.count == |Seqs.Filter(commits, CreditedTo(e.author))|
  {
    TopContributorsRanked(commits);
    forall e | e in TopContributors(commits) ensures e.count == |Seqs.Filter(commits, CreditedTo(e.author))| {
      CommitAuthorsCount(commits, e.author);
    }
  }

  /** No name is listed twice. */
  lemma TopContributorsDistinct(commits: seq<DashCommit>)
    ensures forall i, j :: 0 <= i < j < |TopContributors(commits)| ==>
              TopContributors(commits)[i].author != TopContributors(commits)[j].author
  {
    var authors := CommitAuthors(commits);
    var t := Tally(authors);
    var r := Sorting.SortDesc(t, CountOf);
    assert Seqs.NoDuplicates(t);
    Sorting.SortNoDuplicates(t, CountOf);
    var top := TopContributors(commits);
    TopContributorsRanked(commits);
    forall i, j | 0 <= i < j < |top|
      ensures top[i].author != top[j].author
    {
      assert top[i] == r[i] && top[j] == r[j];
    }
  }

  /** A credited name missing from the list has no more commits than any
      listed one, and is missing only when five names are listed. */
  lemma TopContributorsOmitOnlyFewer(commits: seq<DashCommit>, a: string)
    requires a in CommitAuthors(commits)
    requires forall e :: e in TopContributors(commits) ==> e.author != a
    ensures |TopContributors(commits)| == TopCount
    ensures forall e :: e in TopContributors(commits) ==> e.count >= Seqs.Occurrences(CommitAuthors(commits), a)
  {
    var authors := CommitAuthors(commits);
    var t := Tally(authors);
    var d := Seqs.Distinct(authors);
    var k :| 0 <= k < |d| && d[k] == a;
    assert t[k] == AuthorCount(a, Seqs.Occurrences(authors, a));
    Sorting.TopOfSortedOmits(t, CountOf, TopCount, t[k]);
  }

  // ---------------------------------------------------------------------
  // Recent activity
  // ---------------------------------------------------------------------

  datatype EventKind = PullRequestEvent | IssueEvent | CommitEvent

  datatype Event = Event(kind: EventKind, title: string, user: string, url: string, createdAt: int)

  /** Python's `s.split('\n')[0]`: everything before the first newline. */
  function FirstLine(s: string): (r: string)
    ensures |r| <= |s| && r == s[..|r|]
    ensures forall i :: 0 <= i < |r| ==> r[i] != '\n'
    ensures |r| < |s| ==> s[|r|] == '\n'
  {
    if |s| == 0 || s[0] == '\n' then "" else [s[0]] + FirstLine(s[1..])
  }

  function PrEvent(pr: DashPr): Event {
    Event(PullRequestEvent, pr.title, pr.user, pr.htmlUrl, pr.createdAt)
  }

  function IssueEventOf(issue: DashIssue): Event {
    Event(IssueEvent, issue.title, issue.user, issue.htmlUrl, issue.createdAt)
  }

  /** A commit's event: the first line of its message, credited to the git
      author or "N/A". Its time is the git author's date, so a commit with
      no git author has no event: the feed cannot be built. */
  function CommitEventOf(c: DashCommit): (e: Option<Event>)
    ensures e.Some? <==> c.gitAuthor.Some?
    ensures e.Some? ==> e.value.kind == CommitEvent && e.value.title == FirstLine(c.message)
                        && e.value.user == c.gitAuthor.value.name && e.value.createdAt == c.gitAuthor.value.date
  {
    if c.gitAuthor.None? then None
    else Some(Event(CommitEvent, FirstLine(c.message), c.gitAuthor.value.name, c.htmlUrl, c.gitAuthor.value.date))
  }

  function PrEvents(prs: seq<DashPr>): (r: seq<Event>)
    ensures |r| == |prs|
    ensures forall i :: 0 <= i < |prs| ==> r[i] == PrEvent(prs[i])
  {
    seq(|prs|, i requires 0 <= i < |prs| => PrEvent(prs[i]))
  }

  predicate NotPullRequest(issue: DashIssue) {
    !issue.pullRequest
  }

  /** The events of the issues that are not pull requests, in order. */
  function IssueEvents(issues: seq<DashIssue>): (r: seq<Event>)
    ensures |r| <= |issues|
  {
    if |issues| == 0 then []
    else
      var init := issues[..|issues| - 1];
      var last := issues[|issues| - 1];
      IssueEvents(init) + (if !last.pullRequest then [IssueEventOf(last)] else [])
  }

  /** The events of the commits, in order, or None when one of them has no
      git author. */
  function CommitEvents(commits: seq<DashCommit>): (r: Option<seq<Event>>)
    ensures r.Some? <==> forall i :: 0 <= i < |commits| ==> commits[i].gitAuthor.Some?
    ensures r.Some? ==> |r.value| == |commits|
    ensures r.Some? ==> forall i :: 0 <= i < |commits| ==> CommitEventOf(commits[i]) == Some(r.value[i])
  {
    if |commits| == 0 then Some([])
    else
      var init := commits[..|commits| - 1];
      var last := commits[|commits| - 1];
      assert forall i :: 0 <= i < |init| ==> init[i] == commits[i];
      var before := CommitEvents(init);
      if before.None? || CommitEventOf(last).None? then None
      else Some(before.value + [CommitEventOf(last).value])
  }

  /** Issues that are pull requests give no event, and every other issue
      gives one. */
  lemma {:induction false} IssueEventsArePlain(issues: seq<DashIssue>)
    ensures |IssueEvents(issues)| == |Seqs.Filter(issues, NotPullRequest)|
    ensures forall k :: 0 <= k < |IssueEvents(issues)| ==>
              IssueEvents(issues)[k] == IssueEventOf(Seqs.Filter(issues, NotPullRequest)[k])
    decreases |issues|
  {
    if |issues| > 0 {
      var init := issues[..|issues| - 1];
      var last := issues[|issues| - 1];
      IssueEventsArePlain(init);
      assert issues == init + [last];
      Seqs.FilterAppend(init, [last], NotPullRequest);
      assert Seqs.Filter([last], NotPullRequest) == (if NotPullRequest(last) then [last] else []) + Seqs.Filter([last][1..], NotPullRequest);
    }
  }

  /** The pull requests' events, then the issues', then the commits'. */
  function EventsOf(prs: seq<DashPr>, issues: seq<DashIssue>, commits: seq<DashCommit>): (r: Option<seq<Event>>)
    ensures r.Some? <==> CommitEvents(commits).Some?
    ensures r.Some? ==> |r.value| == |prs| + |IssueEvents(issues)| + |commits|
    ensures r.Some? ==> forall i :: 0 <= i < |prs| ==> r.value[i] == PrEvent(prs[i])
    ensures r.Some? ==> forall i :: 0 <= i < |IssueEvents(issues)| ==> r.value[|prs| + i] == IssueEvents(issues)[i]
    ensures r.Some? ==> forall i :: 0 <= i < |commits| ==>
              CommitEventOf(commits[i]) == Some(r.value[|prs| + |IssueEvents(issues)| + i])
  {
    var c := CommitEvents(commits);
    if c.None? then None else Some(PrEvents(prs) + IssueEvents(issues) + c.value)
  }

  /** The loops that append the events of the filtered pull requests, the
      filtered issues (again skipping any with a `pull_request` key) and
      all commits. */
  method BuildEvents(prs: seq<DashPr>, issues: seq<DashIssue>, commits: seq<DashCommit>) returns (events: Option<seq<Event>>)
    ensures events == EventsOf(prs, issues, commits)
  {
    var all: seq<Event> := [];
    for i := 0 to |prs|
      invariant all == PrEvents(prs[..i])
    {
      all := all + [PrEvent(prs[i])];
    }
    assert prs[..|prs|] == prs;
    for i := 0 to |issues|
      invariant all == PrEvents(prs) + IssueEvents(issues[..i])
    {
      assert issues[..i + 1][..i] == issues[..i];
      if !issues[i].pullRequest {
        all := all + [IssueEventOf(issues[i])];
      }
    }
    assert issues[..|issues|] == issues;
    var fromCommits: seq<Event> := [];
    for i := 0 to |commits|
      invariant CommitEvents(commits[..i]) == Some(fromCommits)
    {
      assert commits[..i + 1][..i] == commits[..i];
      var e := CommitEventOf(commits[i]);
      if e.None? {
        assert commits[..|commits|] == commits;
        assert commits[i] == commits[..|commits|][i];
        return None;
      }
      fromCommits := fromCommits + [e.value];
    }
    assert commits[..|commits|] == commits;
    events := Some(all + fromCommits);
  }

  function CreatedAt(e: Event): int {
    e.createdAt
  }

  const FeedLength: nat := 15

  /** The events newest first (equal times keep their order) and cut to
      fifteen. */
  function Feed(events: seq<Event>): seq<Event> {
    Seqs.Take(Sorting.SortDesc(events, CreatedAt), FeedLength)
  }

  /** The feed is newest first, has fifteen events or all of them, and
      shows only events that were built. */
  lemma FeedNewestFirst(events: seq<Event>)
    ensures Sorting.SortedDesc(Feed(events), CreatedAt)
    ensures |Feed(events)| == if |events| <= FeedLength then |events| else FeedLength
    ensures multiset(Feed(events)) <= multiset(events)
  {
    Sorting.TopOfSorted(events, CreatedAt, FeedLength);
  }

  /** An event left out of the feed is no newer than any event shown. */
  lemma FeedOmitsOnlyOlder(events: seq<Event>, e: Event)
    requires e in events && e !in Feed(events)
    ensures |Feed(events)| == FeedLength
    ensures forall f :: f in Feed(events) ==> f.createdAt >= e.createdAt
  {
    Sorting.TopOfSortedOmits(events, CreatedAt, FeedLength, e);
  }
}
