/** GitHubAPIClient's own state and the requests that are not paginated. */
module Client {
  import opened Wrappers
  import Seqs
  import opened Records
  import opened Paging

  /** GitHubConfig.requests_per_hour. */
  const RequestsPerHour: int := 5000

  /** How long `_check_rate_limit` sleeps, in seconds, before a request: only
      when at most one request is left, and then until the reset time. */
  function RateLimitSleep(remaining: int, reset: int, now: int): (sleep: nat)
    ensures sleep > 0 <==> remaining <= 1 && reset > now
    ensures sleep > 0 ==> now + sleep == reset
  {
    if remaining <= 1 && reset - now > 0 then reset - now else 0
  }

  /** Sleeping as long as asked reaches the reset time, so a second check at
      that moment does not sleep again. */
  lemma SleepReachesReset(remaining: int, reset: int, now: int)
    ensures RateLimitSleep(remaining, reset, now + RateLimitSleep(remaining, reset, now)) == 0
  {
  }

  /** The rate-limit counters the client updates on every response. Time is a
      parameter: `now` is the wall clock in whole seconds. */
  class GitHubApiClient {
    var rateLimitRemaining: int
    var rateLimitReset: int

    constructor (now: int)
      ensures rateLimitRemaining == RequestsPerHour
      ensures rateLimitReset == now + 3600
    {
      rateLimitRemaining := RequestsPerHour;
      rateLimitReset := now + 3600;
    }

    /** `_check_rate_limit`: the number of seconds to sleep before the next request. */
    method CheckRateLimit(now: int) returns (sleep: nat)
      ensures sleep > 0 <==> rateLimitRemaining <= 1 && rateLimitReset > now
      ensures sleep > 0 ==> now + sleep == rateLimitReset
    {
      sleep := RateLimitSleep(rateLimitRemaining, rateLimitReset, now);
    }

    /** The header update in `_make_request`, done for every response before
      its status is checked: a missing remaining-count reads as 0 (so the next
      request waits for the reset), a missing reset time as an hour from now. */
    method RecordResponse(remainingHeader: Option<int>, resetHeader: Option<int>, now: int)
      modifies this
      ensures rateLimitRemaining == remainingHeader.GetOr(0)
      ensures rateLimitReset == resetHeader.GetOr(now + 3600)
    {
      rateLimitRemaining := remainingHeader.GetOr(0);
      rateLimitReset := resetHeader.GetOr(now + 3600);
    }
  }

  datatype Contributor = Contributor(login: string)

  /** get_contributors: 404 yields no contributors; any other error propagates. */
  function GetContributors(response: Fetched<seq<Contributor>>): (r: Fetched<seq<Contributor>>)
    ensures response.Ok? ==> r == response
    ensures response.HttpError? && response.status == 404 ==> r == Ok([])
    ensures response.HttpError? && response.status != 404 ==> r == response
  {
    match response
    case Ok(cs) => Ok(cs)
    case HttpError(s) => if s == 404 then Ok([]) else HttpError(s)
  }

  /** `next((s for s in stats if s['author']['login'] == username), None)`. */
  function FirstStatsOf(stats: seq<ContributorStats>, username: string): (r: Option<ContributorStats>)
    ensures r.Some? ==> r.value in stats && r.value.author.login == username
    ensures r.None? ==> forall i :: 0 <= i < |stats| ==> stats[i].author.login != username
    ensures r.Some? ==> exists i :: (0 <= i < |stats| && stats[i] == r.value &&
              forall j :: 0 <= j < i ==> stats[j].author.login != username)
    decreases |stats|
  {
    if |stats| == 0 then None
    else if stats[0].author.login == username then Some(stats[0])
    else
      var r := FirstStatsOf(stats[1..], username);
      assert r.Some? ==> exists i :: (0 <= i < |stats| && stats[i] == r.value &&
              forall j :: 0 <= j < i ==> stats[j].author.login != username) by {
        if r.Some? {
          var i :| 0 <= i < |stats[1..]| && stats[1..][i] == r.value &&
              forall j :: 0 <= j < i ==> stats[1..][j].author.login != username;
          assert stats[i + 1] == r.value;
          forall j | 0 <= j < i + 1 ensures stats[j].author.login != username {
            if j > 0 { assert stats[1..][j - 1] == stats[j]; }
          }
        }
      }
      r
  }

  /** `e.get('actor', {}).get('login') == username`. */
  function ByUser(username: string): RepoEvent -> bool {
    (e: RepoEvent) => e.actor.Some? && e.actor.value.login == username
  }

  /** How many recent events the collector keeps per contributor. */
  const RecentEventLimit: nat := 50

  /** get_contributor_activity: the contributor's stats entry and their last 50
      repository events. Any failure of either request yields no activity (the
      source's `{}`). */
  function ContributorActivity(stats: Fetched<seq<ContributorStats>>, events: Fetched<seq<RepoEvent>>,
                               username: string): (r: Option<Activity>)
    ensures r.Some? <==> stats.Ok? && events.Ok?
    ensures r.Some? ==> r.value.weeklyStats == FirstStatsOf(stats.value, username)
    ensures r.Some? ==> |r.value.recentActivity| <= RecentEventLimit
    ensures r.Some? ==> forall i :: 0 <= i < |r.value.recentActivity| ==>
              r.value.recentActivity[i].actor == Some(RawUser(username)) && r.value.recentActivity[i] in events.value
  {
    match stats
    case HttpError(_) => None
    case Ok(all) =>
      match events
      case HttpError(_) => None
      case Ok(evs) =>
        var mine := Seqs.Filter(evs, ByUser(username));
        var recent := Seqs.Last(mine, RecentEventLimit);
        assert forall i :: 0 <= i < |recent| ==> recent[i] in mine by {
          forall i | 0 <= i < |recent| ensures recent[i] in mine {
            assert recent[i] == mine[|mine| - |recent| + i];
          }
        }
        forall e | e in mine ensures ByUser(username)(e) && e in evs {
          Seqs.FilterMembers(evs, ByUser(username), e);
        }
        Some(Activity(FirstStatsOf(all, username), recent))
  }

  /** The kept events are the user's latest: all of them when there are at
      most 50, otherwise the last 50 in their original order. */
  lemma RecentActivityIsLatest(stats: Fetched<seq<ContributorStats>>, events: seq<RepoEvent>, username: string)
    requires stats.Ok?
    ensures ContributorActivity(stats, Ok(events), username).Some?
    ensures var mine := Seqs.Filter(events, ByUser(username));
      var recent := ContributorActivity(stats, Ok(events), username).value.recentActivity;
      (|mine| <= RecentEventLimit ==> recent == mine) &&
      (|mine| > RecentEventLimit ==> |recent| == RecentEventLimit && recent == mine[|mine| - RecentEventLimit..])
  {
  }
}
