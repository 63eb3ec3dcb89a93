# GitHub analysis: collector and dashboard core in Dafny

The repository has two programs built on the GitHub REST API.

- `github_mongodb_app.py` is a collector. It resolves one repository and stores:
  - its pull requests, each re-fetched for its full detail;
  - its issues, without the pull requests the issue listing also returns;
  - optionally, every issue's comments and every pull request's review comments and reviews;
  - the recent activity of every contributor.

  Each goes into a MongoDB collection as a fixed-shape document, upserted under its natural key.
- `app2.py` is a Streamlit dashboard. It walks the commit, pull-request and issue listings of one repository. It then filters them to a selected date window and shows:
  - overview counts;
  - the five most frequent commit authors;
  - a feed of the fifteen newest events.

This project models the deterministic core of both programs and proves what it promises. The remote API is an input.

- The collector's remote is a page source per endpoint. The answer for page `p` is `pages[p - 1]`: a list of items or an HTTP error status. Every page past the end is empty.
- The dashboard retries rate-limited requests. Its remote is therefore a script of replies in request order. Reply `i` answers the `i`-th request; past the end, every request gets an empty 200 list.

Collections are maps from natural key to document, held as fields of a `MongoStore` class. Timestamps are whole seconds since the epoch; dates are day numbers.

Modules:

- `Wrappers`: `Option`.
- `Seqs`: order-preserving filter, Python slices, occurrence counts, first-occurrence de-duplication.
- `Sorting`: a stable descending insertion sort. It stands for Python's `sort(key=…, reverse=True)` and for `Counter.most_common`.
- `Records`: raw payloads and the pull-request, issue and comment transforms.
- `Upsert`: a batch of keyed upserts and their laws.
- `Paging`: the collector's pagination loops.
- `Client`: the rate-limit rule, the contributor list and contributor activity.
- `Storage`: the `store_*` methods.
- `Collector`: `collect_data_for_repository`.
- `DashboardFetch`: `safe_github_request`, `fetch_all_pages` and the commit query parameters.
- `DashboardView`: the time window, filters, counts, contributor tally and activity feed.

## Model

| member | source | states |
|---|---|---|
| Client.RateLimitSleep | github_mongodb_app.py:55-61 | A sleep happens exactly when at most one request is left and the reset time is still ahead. The sleep then lasts until the reset time. |
| Client.SleepReachesReset | github_mongodb_app.py:55-61 | A check made at the moment the sleep ends does not sleep again. |
| Client.GitHubApiClient.constructor | github_mongodb_app.py:52-53 | The client starts with 5000 requests left and a reset one hour ahead. |
| Client.GitHubApiClient.CheckRateLimit | github_mongodb_app.py:55-61 | It decides the sleep from the client's own two counters. |
| Client.GitHubApiClient.RecordResponse | github_mongodb_app.py:72-74 | After every response the counters take the header values. A missing remaining-count reads as 0; a missing reset reads as one hour from now. |
| Paging.Walk | github_mongodb_app.py:92-114 | The reference walk of the collector's pagination loops. Its properties are stated by `Paging.LastPage`, `Paging.WalkIsConcatenation` and `Paging.WalkLength`, and `Paging.FetchPaged` is proved equal to it. |
| Paging.LastPage | github_mongodb_app.py:92-114 | The last page requested is the first page that is empty, short or an error. Every earlier page was full. |
| Paging.FetchPaged | github_mongodb_app.py:178-227 | The shared loop requests pages 1, 2, … consecutively up to `LastPage` and nothing after. Its result is the reference walk `Walk`. |
| Paging.WalkIsConcatenation | github_mongodb_app.py:92-114 | Let k be the first stopping page. The result is pages 1..k-1 concatenated in order, plus page k's items. An error at page k propagates, except a 409 when commits are walked. |
| Paging.WalkLength | github_mongodb_app.py:102 | A successful walk returns as many items as the requested pages hold together. |
| Paging.ThreePages | github_mongodb_app.py:92-114 | Pages of 100, 100 and 37 items give exactly 3 requests and the 237 items in order. |
| Paging.GetCommits | github_mongodb_app.py:87-114 | `get_commits` is the shared loop with 409 read as an empty repository. Any error it does return is not a 409. |
| Paging.GetIssues | github_mongodb_app.py:152-176 | The result is the walked listing with every record carrying a `pull_request` key removed, order kept. |
| Paging.KeepPlainIssues | github_mongodb_app.py:166-169 | The kept records are exactly the page's records without a `pull_request` key, in order. |
| Paging.GetPullRequests | github_mongodb_app.py:126-150 | The result is the reference walk `PrWalk`. Pages are requested consecutively from 1; on success up to the last listing page. |
| Paging.DetailsOnePerEntry | github_mongodb_app.py:141-143 | A successful detail pass returns one full record per listed entry, fetched by that entry's number, in order. |
| Paging.FetchDetails | github_mongodb_app.py:141-143 | The loop computes the reference detail pass `Details`: each listed number re-fetched in order, the first failure ending it. |
| Paging.PrWalkOnePerListed | github_mongodb_app.py:126-150 | A successful `get_pull_requests` returns exactly as many records as the listing walk lists, each the detail of the corresponding listed number. |
| Records.PrState | github_mongodb_app.py:324 | The state is "merged" when the merged flag is set, otherwise the raw state. |
| Records.PrStateCases | github_mongodb_app.py:324 | The stored state is "merged" or the raw state. It is "merged" only for a merged PR or a raw state that says so. |
| Records.PrStateExamples | github_mongodb_app.py:324 | A merged closed PR becomes "merged"; an unmerged open PR stays "open". |
| Records.FormatPr | github_mongodb_app.py:315-340 | The document copies id, number and author and takes the caller's repository id. It applies the state rule. Files changed, additions, deletions, review comments and commits default to 0 when absent. Linked issues are the closing issues' URLs, none when the key is absent. |
| Records.MilestoneTitle | github_mongodb_app.py:377 | No milestone gives None; otherwise the milestone's title. |
| Records.FormatIssue | github_mongodb_app.py:364-378 | The document copies id, number, state and author. Labels become their names and assignees their logins, each empty when absent. The comment count defaults to 0. The milestone is the milestone's title, and None exactly when there is no milestone. |
| Records.FormatComment | github_mongodb_app.py:405-415 | Parent type and parent number are the caller's, never the payload's. The parent id is the comment's `in_reply_to_id`. |
| Records.AnnotatedWeeks | github_mongodb_app.py:440-442 | Every week keeps its epoch and counts, in order, and gains a start derived from its epoch. |
| Upsert.UpsertAll | github_mongodb_app.py:344-348 | A batch of keyed upserts applied in order. Its laws are `Upsert.UpsertKeys`, `Upsert.UpsertLastWins`, `Upsert.UpsertKeepsOthers`, `Upsert.UpsertOverrides`, `Upsert.UpsertIdempotent` and `Upsert.UpsertAppend`. |
| Upsert.UpsertKeys | github_mongodb_app.py:344-348 | After a batch of keyed upserts the collection's keys are the old keys plus the batch's keys. |
| Upsert.UpsertLastWins | github_mongodb_app.py:344-348 | When several documents of a batch share a key, the last one is stored. |
| Upsert.UpsertKeepsOthers | github_mongodb_app.py:344-348 | Documents under keys the batch does not touch are unchanged. |
| Upsert.UpsertOverrides | github_mongodb_app.py:344-348 | Under the batch's own keys, the result does not depend on what was stored before. |
| Upsert.UpsertIdempotent | github_mongodb_app.py:344-348 | Storing the same batch twice leaves the collection as storing it once. |
| Upsert.UpsertAppend | github_mongodb_app.py:344-348 | Upserting two batches one after the other equals upserting their concatenation. |
| Storage.StoredPrIsLastRecord | github_mongodb_app.py:313-350 | A stored PR document is the transform of the last input record with that id. |
| Storage.StoredPrKeys | github_mongodb_app.py:305-354 | After `store_pull_requests` the collection holds the old ids and the input's ids, and no others. |
| Storage.StoredIssueIsLastRecord | github_mongodb_app.py:363-389 | A stored issue document is the transform of the last input record with that id. |
| Storage.StoredCommentsTagged | github_mongodb_app.py:396-432 | Every comment document after `store_comments` is either an untouched old document or carries the caller's repository id, parent type and parent number. |
| Storage.ActivityDocument | github_mongodb_app.py:439-451 | The activity document is keyed (username, repository id) and keeps the recent events. When the stats carry weeks, each week is annotated with its start; otherwise the stats are copied unchanged. |
| Storage.MongoStore.StorePullRequests | github_mongodb_app.py:305-354 | Empty input returns [] and writes nothing. Otherwise the result is one PR number per input record, in order, and the collection is the batch upsert by `pr_id`. |
| Storage.MongoStore.StoreIssues | github_mongodb_app.py:356-394 | Empty input returns [] and writes nothing. Otherwise the result is one issue number per record, in order, and the collection is the batch upsert by `issue_id`. |
| Storage.MongoStore.StoreComments | github_mongodb_app.py:396-432 | Empty input returns [] and writes nothing. Otherwise the result is one comment id per record, in order, and the collection is the batch upsert by `comment_id` of comments tagged with the caller's parent. |
| Storage.MongoStore.StoreContributorActivity | github_mongodb_app.py:434-461 | A missing activity returns false and writes nothing. Otherwise the result is true and only the (username, repository id) entry is replaced. |
| Client.GetContributors | github_mongodb_app.py:116-124 | A 404 gives no contributors. Any other error propagates. |
| Client.FirstStatsOf | github_mongodb_app.py:233 | The result is the first stats entry whose author login is the user, or None when no entry has it. |
| Client.ContributorActivity | github_mongodb_app.py:229-246 | There is an activity exactly when both the stats and the events requests succeed. Its stats are the user's first stats entry. At most 50 events are kept, all from the input and all with the user as actor. |
| Client.RecentActivityIsLatest | github_mongodb_app.py:237-242 | Whatever the stats, when both requests succeed the kept events are all of the user's events when there are at most 50, else exactly the last 50 in their original order. |
| Collector.OnlyRunCommentsTrans | github_mongodb_app.py:492-508 | "Only this run's comments changed" composes across consecutive store calls. |
| Collector.StoreKeepsRunComments | github_mongodb_app.py:497-508 | One comment store for a stored issue or PR changes only documents that carry this repository id and exactly that parent type and parent number. |
| Collector.StoreIssueThread | github_mongodb_app.py:497-499 | One issue's thread succeeds exactly when its comment walk does. It then upserts the comments tagged ('Issue', n). On failure it returns the walk's status and changes nothing. |
| Collector.StoreIssueThreads | github_mongodb_app.py:495-499 | Threads are stored in issue order, one step each, up to the first failing walk. Every walk before it succeeded, and its status is the one returned: the first failure in issue order. The collection is exactly the upsert of the stored threads' comments tagged ('Issue', n). With no failing walk, every thread is stored. |
| Collector.StorePrThread | github_mongodb_app.py:502-508 | One PR succeeds exactly when both its review-comment and its review walks succeed; otherwise it returns the status of the review-comment walk if that failed, else of the review walk. On success it takes two steps and upserts the review comments and then the reviews, tagged ('PR', n). When the review-comment walk fails it takes no step and writes nothing; when only the review walk fails it takes one step and the review comments stay stored, as the source does not roll back. |
| Collector.StorePrThreads | github_mongodb_app.py:501-508 | It fails exactly when some stored PR's walk fails, with the status of the first failing PR in order. On success the steps are comments then reviews for each PR in order, and the collection is exactly the upsert of those documents in that order. On failure the collection is exactly the upsert of every earlier PR's documents plus whatever the failing PR had already written (`PrWrittenDocs`). |
| Collector.StoreActivities | github_mongodb_app.py:510-515 | There is one activity step per contributor, in order. The collection is exactly the upsert of the contributors' activity documents, in contributor order. |
| Collector.ActivityDocsCases | github_mongodb_app.py:510-515 | When stats and events succeed, there is one document per contributor, in order, built from that contributor's activity. When either fails, there is none. |
| Collector.ActivityForEveryContributor | github_mongodb_app.py:510-515 | When stats and events succeed, every contributor's (username, repository id) key is stored. When either fails, the collection is unchanged. |
| Collector.StoreRecords | github_mongodb_app.py:486-492 | Pull requests are fetched and stored before issues. It succeeds exactly when both walks succeed, and then both collections are the batch upserts of the fetched records. A failed PR walk returns its status with nothing written. A failed issue walk after that returns its status with only the PRs stored. |
| Collector.StoreThreads | github_mongodb_app.py:494-508 | Comments are collected only when asked for. Then it succeeds exactly when every issue and PR walk does, fails with the first failing issue thread's status, else the first failing PR thread's, and on success leaves the collection exactly the upsert of all issue threads followed by all PR threads. On every path, failed or not, the collection is exactly the upsert of the documents written before the stop (`ThreadWrittenDocs`). |
| Collector.IssueWrittenStops | github_mongodb_app.py:495-499 | When the k-th issue is the first whose walk fails, the comments written are exactly those of the issues before it. |
| Collector.PrWrittenStops | github_mongodb_app.py:501-508 | When the k-th PR is the first that fails, the comments written are those of the PRs before it plus that PR's review comments when only its review walk failed. |
| Collector.IssueWrittenAll | github_mongodb_app.py:495-499 | When every issue walk succeeds, the comments written are all the issue threads. |
| Collector.PrWrittenAll | github_mongodb_app.py:501-508 | When every PR succeeds, the comments written are all the PR threads. |
| Collector.ThreadDocsOrder | github_mongodb_app.py:494-508 | Every document of step 4 is tagged with one of the run's stored issues or PRs, and every issue comment comes before every PR comment. |
| Collector.CollectDataForRepository | github_mongodb_app.py:470-517 | The outcome is `RunOutcomeOf`: a 404 at resolution is reported, and otherwise the first failing fetch in run order aborts the run with its status. The run completes exactly when every fetch succeeds. Nothing is written when resolution or the PR walk fails. Once the PR walk succeeds the pull requests are stored whatever follows; a failing issue walk then stops with issues and comments unchanged, and a succeeding one stores the issues and leaves the comments exactly as written up to the stop. Activity changes only on a completed run. Comments change only for this run's stored issues and PRs. A completed run follows the step order `Plan` and leaves the pull requests, issues, comments and activity collections exactly as the upserts of the run's documents. |
| Collector.RunOutcomeOf | github_mongodb_app.py:475-515 | The outcome the run reaches: a 404 at resolution is reported, and otherwise the first failing fetch in run order aborts the run with its status. `Collector.CompletesExactlyWhenAllSucceed` states when it is `Completed`; `Collector.CollectDataForRepository` is proved to reach it. |
| Collector.CompletesExactlyWhenAllSucceed | github_mongodb_app.py:475-515 | The reference outcome is `Completed` exactly when resolution, both record walks, every comment walk (when comments are collected) and the contributor listing succeed. |
| Collector.FirstFailureNone | github_mongodb_app.py:497-508 | There is no first failure exactly when no thread fails. |
| Collector.FirstFailureAt | github_mongodb_app.py:497-508 | When the threads before k succeed and thread k fails, the first failure is thread k's status. |
| DashboardFetch.SafeRequest | app2.py:26-46 | A 403 with Retry-After is retried; all replies before the final one were such. A 200 or 404 is handed back. A 401 or any other status gives None. |
| DashboardFetch.RetriesThenUnauthorized | app2.py:26-46 | Two rate-limit replies followed by a 401 take three requests and give None. |
| DashboardFetch.ForbiddenWithoutRetryAfter | app2.py:29-43 | A 403 without Retry-After is not retried: one request, and None. |
| DashboardFetch.BranchAsWritten | app2.py:48-75 | As written, the helpers use the body exactly on a 200 and never take the "not found" branch. |
| DashboardFetch.NotFoundNeverReported | app2.py:54-56 | A 404 handed back by `safe_github_request` reaches the as-written branch and is given up on silently. |
| DashboardFetch.HelperBranch | app2.py:48-75 | The intended branch: use the body on a 200, report "not found" exactly on a 404. |
| DashboardFetch.UserRepositories | app2.py:48-57 | The repositories are the body of a final 200 reply, else empty. |
| DashboardFetch.StopIndex | app2.py:89-113 | The walk ends at the first reply that is neither a rate-limit reply nor a non-empty 200 page. A short page does not end it. |
| DashboardFetch.FetchAllPages | app2.py:77-116 | The walk makes one request per reply up to the stopping one. Request k asks for one more than the number of data pages before it. The result is the items of all the data pages, in order, and nothing from the stopping reply. One progress value is recorded per data page. |
| DashboardFetch.RequestedPages | app2.py:98-110 | It starts at page 1. After a rate-limit reply the same page is asked again; after a data page, the next one. |
| DashboardFetch.Progress | app2.py:109 | The progress value never exceeds 99, and is ten times the page for pages up to 9. |
| DashboardFetch.AtLeastOneItemPerPage | app2.py:103-110 | Each data page adds at least one item. |
| DashboardFetch.CollectedGrows | app2.py:107 | The accumulated items only grow: earlier results are a prefix of later ones. |
| DashboardFetch.ShortPageDoesNotStop | app2.py:89-113 | A 1-item page, a rate-limit reply, a 2-item page and an empty page give requests for pages 1, 2, 2, 3 and the three items in order. |
| DashboardFetch.ToZuluKeepsPlain | app2.py:121-124 | Text without a '+' is unchanged by the '+00:00' replacement. |
| DashboardFetch.UtcBecomesZulu | app2.py:121-124 | The ISO text of a UTC instant ending in '+00:00' ends in 'Z' instead. |
| DashboardFetch.CommitParams | app2.py:118-125 | `since` and `until` are present exactly when their bound is given, each holding its bound's text in 'Z' form. No other key is added. |
| DashboardFetch.RequestParams | app2.py:91-94 | The page and page size are laid down first; the caller's parameters override them. |
| DashboardFetch.CommitRequestKeepsPage | app2.py:91-124 | The commit bounds never displace page or per_page, so a retried request sends the same parameters. |
| DashboardView.SelectDates | app2.py:260-282 | The presets start 7 days, 1 day or one month before today and end today. A custom range with start after end drops the start and ends today; otherwise it is the picked dates. |
| DashboardView.ToWindow | app2.py:288-291 | An until bound is always present. A since bound is present exactly when a start date is. |
| DashboardView.WindowCoversDays | app2.py:284-291 | An instant is in the window exactly when its day lies between the start date (if any) and the end date, both included. |
| DashboardView.CustomRangeWindow | app2.py:277-291 | A valid custom range selects exactly its days. An invalid one selects every instant up to the end of today. |
| DashboardView.PresetWindows | app2.py:264-269 | The three presets select the days from 7, 1 or one month back up to today, inclusive. |
| DashboardView.FilterPrs | app2.py:311-318 | The loop keeps exactly the PRs that the window filter keeps. |
| DashboardView.FilterIssues | app2.py:320-329 | The loop keeps exactly the issues inside the window without a `pull_request` key. |
| DashboardView.PrFilterExact | app2.py:311-318 | A PR is kept exactly when it is listed and created inside the window, and the kept PRs keep their order. |
| DashboardView.IssueFilterExact | app2.py:320-329 | An issue is kept exactly when it is listed, created inside the window and is not a pull request, and the kept issues keep their order. |
| DashboardView.Summarize | app2.py:336-351 | Each count is the number of filtered PRs or issues in its class: active, merged, open, closed. Active plus merged never exceed the PRs, and open plus closed never exceed the issues. The commit total is the number of commits. |
| DashboardView.ClosedUnmergedNotCounted | app2.py:336-340 | A closed PR without a merge time is neither active nor merged. |
| DashboardView.CommitAuthor | app2.py:363-366 | A commit is credited to the non-empty git author name, else the non-empty GitHub login, else nobody. |
| DashboardView.CommitAuthors | app2.py:361-366 | At most one name per commit. Every name is some commit's credit, and every credited commit's name appears. |
| DashboardView.CommitAuthorsCount | app2.py:361-366 | Each name occurs exactly as many times as there are commits credited to it. |
| DashboardView.CollectCommitAuthors | app2.py:361-366 | The loop gathers exactly the credited names, in commit order. |
| DashboardView.Tally | app2.py:369 | One entry per distinct name, in first-appearance order, with that name's number of occurrences. |
| DashboardView.TallyFirstOrder | app2.py:369 | Earlier entries are names that first appear earlier. |
| DashboardView.TopContributors | app2.py:368-370 | The five most frequent commit authors. Its properties are stated by `DashboardView.TopContributorsRanked`, `DashboardView.TopContributorsCountCommits`, `DashboardView.TopContributorsDistinct` and `DashboardView.TopContributorsOmitOnlyFewer`. |
| DashboardView.TopContributorsRanked | app2.py:368-370 | At most 5 entries, by non-increasing count. Each is a credited name with its exact positive commit count. |
| DashboardView.TopContributorsCountCommits | app2.py:361-370 | Each listed count is the number of commits credited to that name. |
| DashboardView.TopContributorsDistinct | app2.py:368-370 | No name is listed twice. |
| DashboardView.TopContributorsOmitOnlyFewer | app2.py:368-370 | A credited name is left out only when 5 names are listed, and then it has no more commits than any listed name. |
| DashboardView.FirstLine | app2.py:408 | The title is the message up to, not including, its first newline. |
| DashboardView.CommitEventOf | app2.py:405-412 | A commit event needs the git author, whose date is its time. Its title is the first message line and its user the git author name. |
| DashboardView.CommitEvents | app2.py:405-412 | Commit events exist exactly when every commit has a git author, one per commit, in order. |
| DashboardView.IssueEventsArePlain | app2.py:394-403 | The issue events are, in order, one per issue without a `pull_request` key. |
| DashboardView.EventsOf | app2.py:383-412 | The events exist exactly when the commit events do. They are each PR's event in order, then the issue events in order, then each commit's event in order. |
| DashboardView.BuildEvents | app2.py:383-412 | The three append loops build exactly `EventsOf`. |
| DashboardView.Feed | app2.py:414-418 | The fifteen newest events. Its properties are stated by `DashboardView.FeedNewestFirst` and `DashboardView.FeedOmitsOnlyOlder`. |
| DashboardView.FeedNewestFirst | app2.py:414-418 | The feed is sorted newest first, has min(15, all) events, and shows only events that were built. |
| DashboardView.FeedOmitsOnlyOlder | app2.py:414-418 | An event is left out only when 15 are shown, and then it is no newer than any shown event. |
| Sorting.SortDesc | app2.py:415 | The sort is a permutation of its input, in non-increasing key order. |
| Sorting.TopOfSortedOmits | app2.py:370 | Cutting a descending sort leaves out only elements whose key is at most that of every kept element. |

## Left out

- HTTP transport, session headers, and the parsing of JSON bodies and response headers are not modelled. Responses are the abstract page sources and reply scripts described above.
- Network exceptions are not modelled: `RequestException` in `safe_github_request`, and the exceptions `fetch_all_pages` does not catch. In the collector, `_make_request` re-raises every `RequestException` (github_mongodb_app.py:79-81), which ends the whole run; the model only has HTTP error statuses, and `RunOutcome` has no case for a run ended by a network exception.
- Both remotes are finite: every page or reply past the end is empty. This is what makes each loop terminate. An endless stream of full pages or of rate-limit replies is not modelled.
- A non-integer or negative Retry-After value, which makes the source fail, is not modelled.
- MongoDB is not modelled: the connection, ping and index creation (`_setup_collections`), and the `acknowledged` flag, which the model takes as true.
- `$set` with upsert is modelled as replacing the document. The source only ever writes documents of one fixed shape per collection, so merging and replacing agree.
- `collected_at` and `last_updated` are left out: they are wall-clock timestamps.
- Wall-clock time and sleeping are left out. `now` is a parameter. The Retry-After sleeps of the dashboard are not accumulated.
- The paginators do not thread the client's rate-limit counters through their requests. Sleeping changes no response in the model.
- Date parsing and formatting are left out: `fromisoformat`, `isoformat`, `strftime` and `pytz`. Instants are integer seconds.
- Records.AnnotatedWeeks: `week_start` is the week's epoch `w` itself, not its ISO rendering.
- DashboardView.SelectDates: the day one calendar month back (`relativedelta`) is a parameter.
- DashboardView.ToWindow: `time.max` rounds to the last whole second of the day. With whole-second instants the comparison is the same.
- The source mutates the contributor's week dictionaries in place (github_mongodb_app.py:440-442). The model builds new week values, so aliasing with the caller's data is not captured.
- Sorting.SortDesc: the sort is stable, as Python's is, but tie order is not stated in any contract. Neither the order of equal-count authors in the top five nor the order of equal-time events in the feed is proved.
- DashboardView.Feed: the in-place `list.sort` is modelled as a sort on sequence values, not on an array.
- Absent JSON keys and explicit `null` values are both `None`. Truthiness of strings is "non-empty", and of objects "present". One consequence: for an explicit `null` in `additions`, `deletions`, `changed_files`, `review_comments` or `commits`, the source's `get(key, 0)` stores `None`, while `Records.FormatPr` stores 0. An explicit `null` in `closing_issues` makes the source's comprehension raise, while the model stores no linked issues.
- Labels and assignees are stored as lists in input order, because the code builds lists.
- `fetch_repository_data` is modelled only through `DashboardFetch.BranchAsWritten` and `DashboardFetch.HelperBranch`. Its five-field projection of the repository is left out.
- The Streamlit UI is left out: layout, CSS, metrics rendering, the progress bar widget, and the Gemini configuration.
- The Pulse heading (app2.py:300) formats the start date, which is None after an invalid custom range. It is display code and lies outside this model.
- `main()`, dotenv configuration and logging are left out.
- Client.ContributorActivity: an HTTP failure of either request is the only way to get no activity. In the source, a stats entry with a null `author` ahead of the user's entry (github_mongodb_app.py:234), or an event whose `actor` is null (:238), also raises inside the `try` and gives `{}`. The model cannot express a null author, and it reads a null actor as an absent one, so such an event is only skipped.
- Collector.StoreActivities: the stats and events endpoints are requested again for every contributor (github_mongodb_app.py:233, :237). The model gives each endpoint one answer for the whole run, so every contributor sees the same stats and events.
- DashboardView.CommitEventOf: a commit without a git author makes the source fail when reading the author's date (app2.py:411). The model gives no feed in that case (None) and does not try to guess a recovery.

## Findings

| source | as written | input that shows it | evidently intended | confidence | as-written member | corrected member |
|---|---|---|---|---|---|---|
| app2.py:54-56, app2.py:72-74 | The "not found" branch first tests `response`, whose truth value is false for any status of 400 or more, so a 404 never reaches it. | A 404 reply to the user-repositories or repository request | Report "not found" on a 404 | high (not executed) | DashboardFetch.BranchAsWritten, DashboardFetch.NotFoundNeverReported | DashboardFetch.HelperBranch |
