/** MongoDBManager: the four collections as maps from natural key to
    document, and the store_* methods that upsert into them. */
module Storage {
  import opened Wrappers
  import opened Records
  import opened Upsert

  /** The natural keys (record numbers or comment ids) a store_* call returns, in input order. */
  function PrNumbers(prs: seq<RawPr>): seq<int> {
    seq(|prs|, i requires 0 <= i < |prs| => prs[i].number)
  }

  function IssueNumbers(issues: seq<RawIssue>): seq<int> {
    seq(|issues|, i requires 0 <= i < |issues| => issues[i].number)
  }

  function CommentIds(comments: seq<RawComment>): seq<int> {
    seq(|comments|, i requires 0 <= i < |comments| => comments[i].id)
  }

  /** The `formatted_activity` document: weeks annotated when the stats carry them. */
  function ActivityDocument(repositoryId: int, username: string, activity: Activity): (d: ActivityDoc)
    ensures ActivityKeyOf(d) == ActivityKey(username, repositoryId)
    ensures d.recentActivity == activity.recentActivity
    ensures activity.weeklyStats.None? ==> d.weeklyStats.None?
    ensures activity.weeklyStats.Some? ==> (d.weeklyStats.Some? &&
      d.weeklyStats.value.author == activity.weeklyStats.value.author &&
      d.weeklyStats.value.total == activity.weeklyStats.value.total)
    ensures activity.weeklyStats.Some? && activity.weeklyStats.value.weeks.Some? ==>
      d.weeklyStats.value.weeks == Some(AnnotatedWeeks(activity.weeklyStats.value.weeks.value))
    ensures activity.weeklyStats.Some? && activity.weeklyStats.value.weeks.None? ==>
      d.weeklyStats == activity.weeklyStats
  {
    var stats := match activity.weeklyStats
      case None => None
      case Some(st) =>
        if st.weeks.Some? then Some(st.(weeks := Some(AnnotatedWeeks(st.weeks.value)))) else Some(st);
    ActivityDoc(username, repositoryId, stats, activity.recentActivity)
  }

  /** A stored PR is the transform of the last input record with its id. */
  lemma {:induction false} StoredPrIsLastRecord(m: map<int, FormattedPr>, repositoryId: int, prs: seq<RawPr>, i: nat)
    requires i < |prs|
    requires forall j :: i < j < |prs| ==> prs[j].id != prs[i].id
    ensures prs[i].id in UpsertAll(m, FormatPrs(repositoryId, prs), PrKey)
    ensures UpsertAll(m, FormatPrs(repositoryId, prs), PrKey)[prs[i].id] == FormatPr(repositoryId, prs[i])
  {
    UpsertLastWins(m, FormatPrs(repositoryId, prs), PrKey, i);
  }

  /** After store_pull_requests the collection holds exactly the old ids and the input's ids. */
  lemma StoredPrKeys(m: map<int, FormattedPr>, repositoryId: int, prs: seq<RawPr>)
    ensures UpsertAll(m, FormatPrs(repositoryId, prs), PrKey).Keys
         == m.Keys + set i | 0 <= i < |prs| :: prs[i].id
  {
    var docs := FormatPrs(repositoryId, prs);
    UpsertKeys(m, docs, PrKey);
    assert KeysOf(docs, PrKey) == set i | 0 <= i < |prs| :: prs[i].id by {
      forall k | k in KeysOf(docs, PrKey) ensures k in set i | 0 <= i < |prs| :: prs[i].id {
        var i :| 0 <= i < |docs| && PrKey(docs[i]) == k;
        assert prs[i].id == k;
      }
      forall k | k in (set i | 0 <= i < |prs| :: prs[i].id) ensures k in KeysOf(docs, PrKey) {
        var i :| 0 <= i < |prs| && prs[i].id == k;
        assert PrKey(docs[i]) == k;
      }
    }
  }

  /** A stored issue is the transform of the last input record with its id. */
  lemma {:induction false} StoredIssueIsLastRecord(m: map<int, FormattedIssue>, repositoryId: int, issues: seq<RawIssue>, i: nat)
    requires i < |issues|
    requires forall j :: i < j < |issues| ==> issues[j].id != issues[i].id
    ensures issues[i].id in UpsertAll(m, FormatIssues(repositoryId, issues), IssueKey)
    ensures UpsertAll(m, FormatIssues(repositoryId, issues), IssueKey)[issues[i].id] == FormatIssue(repositoryId, issues[i])
  {
    UpsertLastWins(m, FormatIssues(repositoryId, issues), IssueKey, i);
  }

  /** Every comment a store_comments call writes carries the caller's parent tag. */
  lemma {:induction false} StoredCommentsTagged(m: map<int, FormattedComment>, repositoryId: int, comments: seq<RawComment>,
                                               parentType: Option<ParentType>, parentNumber: Option<int>, k: int)
    requires k in UpsertAll(m, FormatComments(repositoryId, comments, parentType, parentNumber), CommentKey)
    ensures var d := UpsertAll(m, FormatComments(repositoryId, comments, parentType, parentNumber), CommentKey)[k];
      (k in m && d == m[k]) ||
      (d.repositoryId == repositoryId && d.parentType == parentType && d.parentNumber == parentNumber)
  {
    var docs := FormatComments(repositoryId, comments, parentType, parentNumber);
    UpsertKeys(m, docs, CommentKey);
    if k in KeysOf(docs, CommentKey) {
      var i :| 0 <= i < |docs| && CommentKey(docs[i]) == k;
      LastIndexWithKey(docs, CommentKey, i);
      var l :| i <= l < |docs| && CommentKey(docs[l]) == k &&
        (forall j :: l < j < |docs| ==> CommentKey(docs[j]) != CommentKey(docs[l]));
      UpsertLastWins(m, docs, CommentKey, l);
    } else {
      UpsertKeepsOthers(m, docs, CommentKey, k);
    }
  }

  /** Among the documents sharing a key with docs[i] there is a last one, and
      it is the one the upserts leave under that key. */
  lemma {:induction false} LastIndexWithKey<K, V>(docs: seq<V>, key: V -> K, i: nat)
    requires i < |docs|
    ensures exists l :: (i <= l < |docs| && key(docs[l]) == key(docs[i]) &&
      (forall j :: l < j < |docs| ==> key(docs[j]) != key(docs[l])))
    decreases |docs| - i
  {
    if exists j :: i < j < |docs| && key(docs[j]) == key(docs[i]) {
      var j :| i < j < |docs| && key(docs[j]) == key(docs[i]);
      LastIndexWithKey(docs, key, j);
    } else {
      assert i <= i < |docs| && key(docs[i]) == key(docs[i]) &&
        (forall j :: i < j < |docs| ==> key(docs[j]) != key(docs[i]));
    }
  }

  class MongoStore {
    var pullRequests: map<int, FormattedPr>
    var issues: map<int, FormattedIssue>
    var comments: map<int, FormattedComment>
    var contributorActivity: map<ActivityKey, ActivityDoc>

    constructor ()
      ensures pullRequests == map[] && issues == map[] && comments == map[] && contributorActivity == map[]
    {
      pullRequests, issues, comments, contributorActivity := map[], map[], map[], map[];
    }

    /** store_pull_requests: upserts each transformed PR by `pr_id` and returns
      the PR numbers in input order; empty input writes nothing. */
    method StorePullRequests(repositoryId: int, prs: seq<RawPr>) returns (numbers: seq<int>)
      modifies this`pullRequests
      ensures numbers == PrNumbers(prs)
      ensures pullRequests == UpsertAll(old(pullRequests), FormatPrs(repositoryId, prs), PrKey)
      ensures |prs| == 0 ==> numbers == [] && pullRequests == old(pullRequests)
    {
      numbers := [];
      if |prs| == 0 {
        return;
      }
      var docs := FormatPrs(repositoryId, prs);
      var i := 0;
      while i < |prs|
        invariant 0 <= i <= |prs|
        invariant numbers == PrNumbers(prs[..i])
        invariant pullRequests == UpsertAll(old(pullRequests), docs[..i], PrKey)
      {
        var formatted := FormatPr(repositoryId, prs[i]);
        assert docs[..i + 1][..i] == docs[..i] && docs[..i + 1][i] == formatted;
        assert PrNumbers(prs[..i + 1]) == PrNumbers(prs[..i]) + [formatted.prNumber];
        pullRequests := pullRequests[formatted.prId := formatted];
        numbers := numbers + [formatted.prNumber];
        i := i + 1;
      }
      assert docs[..i] == docs && prs[..i] == prs;
    }

    /** store_issues: upserts each transformed issue by `issue_id` and returns
      the issue numbers in input order; empty input writes nothing. */
    method StoreIssues(repositoryId: int, raw: seq<RawIssue>) returns (numbers: seq<int>)
      modifies this`issues
      ensures numbers == IssueNumbers(raw)
      ensures issues == UpsertAll(old(issues), FormatIssues(repositoryId, raw), IssueKey)
      ensures |raw| == 0 ==> numbers == [] && issues == old(issues)
    {
      numbers := [];
      if |raw| == 0 {
        return;
      }
      var docs := FormatIssues(repositoryId, raw);
      var i := 0;
      while i < |raw|
        invariant 0 <= i <= |raw|
        invariant numbers == IssueNumbers(raw[..i])
        invariant issues == UpsertAll(old(issues), docs[..i], IssueKey)
      {
        var formatted := FormatIssue(repositoryId, raw[i]);
        assert docs[..i + 1][..i] == docs[..i];
        issues := issues[formatted.issueId := formatted];
        numbers := numbers + [formatted.issueNumber];
        i := i + 1;
      }
      assert docs[..i] == docs && raw[..i] == raw;
    }

    /** store_comments: upserts each transformed comment by `comment_id`, tagged
      with the caller's parent type and number, and returns the comment ids in
      input order; empty input writes nothing. */
    method StoreComments(repositoryId: int, raw: seq<RawComment>, parentType: Option<ParentType>,
                         parentNumber: Option<int>) returns (ids: seq<int>)
      modifies this`comments
      ensures ids == CommentIds(raw)
      ensures comments == UpsertAll(old(comments), FormatComments(repositoryId, raw, parentType, parentNumber), CommentKey)
      ensures |raw| == 0 ==> ids == [] && comments == old(comments)
    {
      ids := [];
      if |raw| == 0 {
        return;
      }
      var docs := FormatComments(repositoryId, raw, parentType, parentNumber);
      var i := 0;
      while i < |raw|
        invariant 0 <= i <= |raw|
        invariant ids == CommentIds(raw[..i])
        invariant comments == UpsertAll(old(comments), docs[..i], CommentKey)
      {
        var formatted := FormatComment(repositoryId, raw[i], parentType, parentNumber);
        assert docs[..i + 1][..i] == docs[..i];
        comments := comments[formatted.commentId := formatted];
        ids := ids + [formatted.commentId];
        i := i + 1;
      }
      assert docs[..i] == docs && raw[..i] == raw;
    }

    /** store_contributor_activity: nothing to store (the source's empty dict)
      returns false and writes nothing; otherwise the weeks are annotated and
      the document is upserted under (username, repository_id). */
    method StoreContributorActivity(repositoryId: int, username: string, activity: Option<Activity>)
      returns (stored: bool)
      modifies this`contributorActivity
      ensures stored <==> activity.Some?
      ensures activity.None? ==> contributorActivity == old(contributorActivity)
      ensures activity.Some? ==> (contributorActivity ==
        old(contributorActivity)[ActivityKey(username, repositoryId) := ActivityDocument(repositoryId, username, activity.value)])
    {
      if activity.None? {
        return false;
      }
      var stats := activity.value.weeklyStats;
      if stats.Some? && stats.value.weeks.Some? {
        var weeks := stats.value.weeks.value;
        var annotated: seq<Week> := [];
        for i := 0 to |weeks|
          invariant annotated == AnnotatedWeeks(weeks[..i])
        {
          annotated := annotated + [weeks[i].(weekStart := Some(weeks[i].w))];
        }
        assert weeks[..|weeks|] == weeks;
        stats := Some(stats.value.(weeks := Some(annotated)));
      }
      var formatted := ActivityDoc(username, repositoryId, stats, activity.value.recentActivity);
      contributorActivity := contributorActivity[ActivityKey(username, repositoryId) := formatted];
      return true;
    }
  }
}
