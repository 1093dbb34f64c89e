# links-overseer core in Dafny

links-overseer is a local link checker. A Go server crawls one site: it
follows internal links up to a depth limit and reports every page and link
it checks. A small browser client starts jobs, polls their status and shows
the results as a table. This project models four parts and proves
properties about them:

- the frontier bookkeeping of the crawler's `Crawl` loop;
- the URL normaliser it deduplicates with;
- the server's request parsers (scope and status filters) and the job
  bookkeeping its HTTP handlers do;
- the client's job monitor: classification, filtering, progress, the
  table, HTML escaping, input normalisation and the poll loop.

Modules, one per source file (two for `app.js`), plus helpers:

| file | module | models |
|---|---|---|
| `types.dfy` | `CoreTypes` | records and enum order of `internal/core/types.go` |
| `normalize.dfy` | `Normalization` | `internal/core/normalize.go` |
| `gopath.dfy` | `GoPath` | Go's `path.Clean`, written out per its lexical rules |
| `crawler.dfy` | `Crawler` | `shouldVisit` and the sequential part of `Crawl` in `internal/core/crawler.go` |
| `server.dfy` | `Server` | parsers, start/stop/status/results handlers, `runJob` and the progress merge of `cmd/server/main.go` |
| `app_view.dfy` | `AppView` | pure functions of `cmd/server/web/static/app.js` |
| `app_monitor.dfy` | `AppMonitor` | the module-level state and handlers of `app.js` as a class |
| `text.dfy`, `wrappers.dfy` | `Text`, `Wrappers` | ASCII case mapping, Go and JavaScript trimming, `strings.Split`; `Option` |

How the model is built:

- **Outside routines are parameters.** These library routines are never
  defined here:
  - `URL.Hostname`, `publicsuffix.EffectiveTLDPlusOne`, `URL.Query`,
    `url.Values.Encode` and `URL.String`: function values in a `Lib` record;
  - `url.Parse` and robots.txt `Allowed`: plain parameters.

  So every property holds whatever those routines return.
- **Network results are oracles.** Fetching a page and extracting its links
  is one function `fetch` that returns either the error text or the links.
- **Cancellation is a parameter.** `cancelAfter` says after how many pages
  the crawl's context is seen as cancelled.
- **Callbacks become a list.** The progress and sink calls that `Crawl`
  makes, and the link checks it starts, come back as a list of events.
  `RunJob` replays that list on the job.
- **The crawler keys pages by a function value.** A crawler holds its
  normaliser as a constant `key`, and its invariant `Keyed` says that
  `key(u)` is `NormalForm(Some(u), lib)` for every URL. The seen sets are
  stated in terms of `key`. The link to the full normal form is used only
  where the crawl calls `Normalize`.
- **Client responses are inputs.** Each network response the client awaits
  is a `Fetch` value passed to the handler's method.

Where the informal description and the code disagree, the model follows
the code:

- While counters are complete but the state is not `"done"`, the client's
  bar shows 100 (`CompleteCountersFillBar`).
- The client has no lower clamp on the percentage
  (`NegativeCountShowsNegativeBar`).
- A non-OK status response ends the poll chain instead of retrying
  (`AppMonitor.Poll`).

## Model

| member | source | states |
|---|---|---|
| CoreTypes.StatusClass.Rank | internal/core/types.go:10-18 | every status class has the Go constant 0..5 |
| CoreTypes.RankInjective | internal/core/types.go:10-18 | two classes have the same constant only if they are the same class, so sorting by the constant orders the classes totally |
| Text.JoinSplit | cmd/server/main.go:195 | joining the pieces of `strings.Split` with the separator gives back the original string |
| GoPath.CleanShape | internal/core/normalize.go:46 | `path.Clean` never returns "", returns a rooted path exactly for rooted input, and returns "." only for empty input or a relative path that cancels out |
| GoPath.CleanIdempotent | internal/core/normalize.go:46 | cleaning a cleaned path changes nothing |
| Normalization.StripDefaultPort | internal/core/normalize.go:18 | a trailing `:80` or `:443` is cut off whatever the scheme; any other host is unchanged |
| Normalization.OtherPortKept | internal/core/normalize.go:44 | a host with a port other than 80 or 443 keeps its port |
| Normalization.CleanPath | internal/core/normalize.go:46-47 | the normalised path is exactly what `path.Clean` returns, except that "." becomes "/"; so it is never empty or ".", and it is rooted exactly when the input is empty, rooted, or cleans to "." |
| Normalization.CleanPathIdempotent | internal/core/normalize.go:46-47 | normalising a normalised path changes nothing |
| Normalization.StripTracking | internal/core/normalize.go:13-16 | exactly the keys whose lower-case form is a tracking key are removed; every other key keeps all its values |
| Normalization.NormalUrl | internal/core/normalize.go:39-58 | the copy has an empty fragment, a lower-cased scheme, a lower-cased host without a default port and the path `CleanPath` gives; opaque part and user are kept; the query is re-encoded without tracking keys unless it was empty, in which case it stays empty |
| Normalization.SameNormalForm | internal/core/normalize.go:37-58 | two URLs that agree after lower-casing scheme and host, cutting a default port and cleaning the path get the same normal form, whatever their fragments |
| Normalization.NormalUrlStable | internal/core/normalize.go:40-47 | normalising twice gives the scheme, path and fragment that normalising once gave |
| Normalization.Normalize | internal/core/normalize.go:37-60 | the field-by-field copy and the key-deletion loop render exactly the normal form; a nil URL gives "" |
| Normalization.NewDomainNormalizer | internal/core/normalize.go:24-28 | the root is the lower-cased eTLD+1 of the start host, or the lower-cased host name when the lookup fails |
| Normalization.InternalIffSameSite | internal/core/normalize.go:24-35 | a link is internal to the normaliser of a start URL exactly when its eTLD+1 lookup succeeds and equals, ignoring ASCII case, the start's eTLD+1, or the start's host name when the start's lookup failed |
| Normalization.StartIsInternal | internal/core/normalize.go:24-35 | the start URL is internal to its own normaliser exactly when its eTLD+1 lookup succeeds |
| Crawler.Crawler.constructor | internal/core/crawler.go:34-55 | a new crawler has empty seen sets, zero counters and a cap of 2000; robots are consulted only when they are respected; its key is the normal form, and shouldVisit(start, 0) holds exactly when the depth limit is not negative, the scheme is http or https, the start is internal to its own normaliser and robots, if respected and fetched, allow it |
| Crawler.Crawler.ShouldVisit | internal/core/crawler.go:66-74 | a URL passes only within the depth limit, with an http or https scheme, when internal, when its normal form is unseen, and when robots, if respected and fetched, allow it |
| Crawler.AddPage | internal/core/crawler.go:178-183 | recording one new page at a depth within the limit keeps the page-set invariant with one more page added |
| Crawler.AddLink | internal/core/crawler.go:171-177 | recording one new link adds one to the total and one link check |
| Crawler.StartPages | internal/core/crawler.go:147-151 | recording the start page at depth 0 establishes the page-set invariant |
| Crawler.Crawler.CountLink | internal/core/crawler.go:171-177 | a link with a new normal form is added to seenLinks and counts once towards totalLinks; it is followed by one progress report carrying the new total and one link check of that link with its internal flag. A seen link changes nothing |
| Crawler.Crawler.EnqueueLink | internal/core/crawler.go:178-183 | a link is queued at depth+1 and recorded in seenPages exactly when shouldVisit holds and fewer than MaxURLs pages are discovered |
| Crawler.Crawler.Begin | internal/core/crawler.go:148-151 | after the start check the start's normal form is recorded at depth 0 and the frontier holds just the start, with one page discovered |
| Crawler.Crawler.TakePage | internal/core/crawler.go:156-159 | the head of the frontier is taken, visited grows by one, and one progress report with the new counts and the remaining queue length is made |
| Crawler.Crawler.FailPage | internal/core/crawler.go:162-165 | a failed fetch sinks one result for the page and counts one error; nothing else changes |
| Crawler.Crawler.VisitLink | internal/core/crawler.go:171-183 | a link's normal form joins seenLinks, counted once if new; the link is queued at depth+1 and recorded exactly when shouldVisit holds and fewer than MaxURLs pages are discovered; otherwise the frontier and seenPages are unchanged |
| Crawler.Crawler.FollowOne | internal/core/crawler.go:170-184 | one turn of the links loop extends what the earlier turns did by the i-th link |
| Crawler.Crawler.FollowLinks | internal/core/crawler.go:170-184 | seenLinks grows by exactly the normal forms of the page's links; each new seenPages entry is one of them at depth+1; every link shouldVisit and the cap allow is recorded; the items appended to the frontier are links of the page and recorded |
| Crawler.Crawler.VisitPage | internal/core/crawler.go:156-185 | one page taken from the frontier counts as visited. A failed fetch sinks one internal result with status 0 and the item's depth, counts one error and touches no seen set. A fetched page adds the normal forms of all its links to seenLinks; every page it records is one of them at depth+1, and every link shouldVisit and the cap allow is recorded; what it queues is recorded and comes from its links |
| Crawler.Crawler.Explore | internal/core/crawler.go:145-186 | the start check, then the frontier loop. Discovered pages never exceed max(1, MaxURLs); every recorded page has a depth in [0, MaxDepth]; every distinct link is counted once; the start is recorded at depth 0; a rejected start changes nothing. Every page taken is recorded at its depth and, when fetched, had all its links followed; when the frontier drains, the start was taken first and the pages taken are exactly as many as the pages this crawl recorded |
| Crawler.Crawler.ExploreOne | internal/core/crawler.go:156-184 | one turn of the frontier loop keeps the invariant and adds the page it took to the pages taken |
| Crawler.Crawler.Crawl | internal/core/crawler.go:142-187 | as written, the crawl never returns nil: it is rejected at the start, returns the context error, or waits forever on an empty frontier |
| Crawler.Crawler.CrawlUntilDrained | internal/core/crawler.go:142-187 | with an empty frontier ending the crawl, a crawl that is never cancelled and passes its start check returns nil |
| Server.ParseScope | cmd/server/main.go:184-191 | the lower-cased input "internal" gives internal-only, "external" gives external-only, anything else gives all |
| Server.ParseScopeIgnoresCase | cmd/server/main.go:185 | inputs that are equal ignoring ASCII case give the same scope |
| Server.TokenClass | cmd/server/main.go:198-205 | a token names a class other than "any", or none |
| Server.PresentMembers | cmd/server/main.go:195-206 | the classes the loop collects are exactly those some token names; tokens that name no class contribute nothing |
| Server.InsertPerm | cmd/server/main.go:207 | inserting adds exactly that element: the result is a permutation of the list plus it |
| Server.InsertSorted | cmd/server/main.go:207 | inserting into a sorted list keeps it sorted |
| Server.SortByRank | cmd/server/main.go:207 | the sort returns a permutation of its input in ascending constant order |
| Server.Compact | cmd/server/main.go:208 | `slices.Compact` keeps every element that occurs and never lengthens the list |
| Server.CompactSorted | cmd/server/main.go:208 | compacting a sorted list gives a strictly ascending list with the same elements |
| Server.SortCompact | cmd/server/main.go:207-208 | sorting then compacting gives a strictly ascending list with exactly the elements of the input |
| Server.ParseStatuses | cmd/server/main.go:193-210 | "" gives nil; otherwise the result is strictly ascending and contains exactly the classes the trimmed, lower-cased comma-separated tokens name |
| Server.Merge | cmd/server/main.go:146-155 | a progress report leaves the state alone and always overwrites the error count; visited, queued and discovered take the reported value only when it is non-zero; checked and total links take the reported value when it is non-zero or the current one is 0, and keep the current one otherwise |
| Server.MergeKeepsNonZero | cmd/server/main.go:148-153 | a counter that is non-zero stays non-zero after any report |
| Server.LinkCheckReport | cmd/server/main.go:146-155 | the report a finished link check sends keeps visited, queued and discovered, resets errors to 0 and updates the link counters |
| Server.MergeAllLinks | cmd/server/main.go:146-155 | over any run of reports the state stays, errors is the last one reported, and checked and total links are non-zero once they were non-zero or were reported so |
| Server.Job.constructor | cmd/server/main.go:115-120 | a new job is "queued" with zero counters, no results and no cancel function |
| Server.Job.Progress | cmd/server/main.go:146-155 | the in-place field updates give exactly the merged status |
| Server.Job.Sink | cmd/server/main.go:140-144 | a sunk result is appended to the job's results |
| Server.Job.Replay | cmd/server/main.go:140-155 | replaying the crawl's calls merges every progress report in order and appends every sunk result in order |
| Server.Job.ArmCancel | cmd/server/main.go:136-137 | after runJob stores the cancel function, stopping is possible |
| Server.Job.SetState | cmd/server/main.go:130 | only the state changes |
| Server.Record | cmd/server/main.go:156-161 | after Crawl returns, nil gives "done", an error gives "failed", and a crawl that never returns leaves "running" |
| Server.RunJob | cmd/server/main.go:129-162 | the job is "running" with a cancel function. As written it never ends "done": it ends "failed" exactly when the start is refused (depth, scheme, internal, robots) or the crawl is cancelled, and stays "running" exactly when the start is allowed and nothing cancels it. Its results and counters are the crawl's sunk results and merged reports |
| Server.RunJobUntilDrained | cmd/server/main.go:129-162 | over the corrected crawl, StartRejected comes exactly from a refused start (negative depth, a scheme other than http or https, a start not internal to its own normaliser, or robots refusing it); when the start is allowed and nothing cancels it, the job ends "done"; it ends "failed" only for a refused start or a cancellation |
| Server.Registry.constructor | cmd/server/main.go:36 | the job registry starts empty |
| Server.Registry.HandleStart | cmd/server/main.go:95-123 | covers each reply and the new job: <br>• non-POST gives 405 and an undecodable body or empty start_url gives 400, both leaving the registry unchanged <br>• a URL that does not parse or whose scheme is not http/https gives 400 "invalid url" <br>• otherwise one fresh "queued" job with no results is stored under the new id, its depth clamped to [0, 5] and its start URL re-rendered, and no other job changes |
| Server.Registry.HandleStop | cmd/server/main.go:213-224 | non-POST gives 405 and an unknown id gives 404; otherwise 204; the state becomes "canceled" only when a cancel function exists, and nothing else changes |
| Server.Registry.HandleStatus | cmd/server/main.go:164-172 | an unknown id gives 404; otherwise the job's current status |
| Server.Registry.HandleResults | cmd/server/main.go:174-182 | an unknown id gives 404; otherwise all results recorded so far |
| AppView.ClassOf | cmd/server/web/static/app.js:93-101 | the class is one of 2, 3, 4, 5, e. A non-empty error gives e whatever the code. Otherwise codes bucket by hundreds from 200 to 599, and a missing or other code gives e |
| AppView.FailedFetchIsError | cmd/server/web/static/app.js:93-101 | a result the crawler sinks for a failed fetch (status 0) shows as class e |
| AppView.MatchesFilters | cmd/server/web/static/app.js:102-110 | "internal" and "external" keep exactly by the internal flag; a class mode keeps exactly its class; every other mode, "all" included, keeps everything |
| AppView.OneClassMode | cmd/server/web/static/app.js:102-110 | every record shows under exactly one class mode |
| AppView.ScopeModesSplit | cmd/server/web/static/app.js:103-104 | every record shows under exactly one of "internal" and "external" |
| AppView.Round | cmd/server/web/static/app.js:78-80 | the rounding is Math.round of the exact ratio: the nearest integer, halves rounded up |
| AppView.UpdateProgress | cmd/server/web/static/app.js:76-91 | the done mark is isDone; the bar is 100 when isDone, otherwise the combined share, which is then at most 99 |
| AppView.ProgressBounds | cmd/server/web/static/app.js:77-81 | with non-negative counters both shares, the combined share and the bar lie in [0, 100], and a share is 0 when its denominator is 0 |
| AppView.CombinedFull | cmd/server/web/static/app.js:80-81 | the combined share is 100 exactly when the state is "done", and at most 99 otherwise |
| AppView.CompleteCountersFillBar | cmd/server/web/static/app.js:86-90 | once all pages are visited and all links checked, the bar is full even while the state is not "done" |
| AppView.NegativeCountShowsNegativeBar | cmd/server/web/static/app.js:78-90 | there is no lower clamp: visited = -1 of 1 discovered gives a bar of -50 |
| AppView.HalfVisitedProgress | cmd/server/web/static/app.js:77-90 | 5 of 10 pages visited and no links counted while running: pages 50, links 0, combined 25, bar 25, not done |
| AppView.EmptyProgress | cmd/server/web/static/app.js:19-20 | the panel reset by the start handler shows zero counters, not done, width 0 |
| AppView.CountInternal | cmd/server/web/static/app.js:119 | the internal count never exceeds the number of results and equals it exactly when all are internal |
| AppView.CountBroken | cmd/server/web/static/app.js:120-121 | the broken count never exceeds the number of results and is zero exactly when no result has class 4, 5 or e |
| AppView.SummaryOf | cmd/server/web/static/app.js:115-122 | total is the number of results and equals internal plus external |
| AppView.Summarize | cmd/server/web/static/app.js:115-123 | the forEach loop counts every result, splits the count into internal and external, and counts the broken ones, all independent of the view mode |
| AppView.Visible | cmd/server/web/static/app.js:116 | the filter never shows more records than there are; membership and order are in the two rows below |
| AppView.VisibleMembers | cmd/server/web/static/app.js:116 | the visible rows are exactly the results the mode keeps |
| AppView.VisibleConcat | cmd/server/web/static/app.js:116 | filtering preserves order: it distributes over concatenation |
| AppView.VisibleAll | cmd/server/web/static/app.js:116 | mode "all" shows every result |
| AppView.InternalModeExample | cmd/server/web/static/app.js:112-122 | an internal 404 record and an external timed-out record: mode "internal" shows only the first, and the summary is 2 total, 1 internal, 1 external, 2 broken |
| AppView.RenderRow | cmd/server/web/static/app.js:126-142 | a row is "bad" exactly for classes 4/5/e, "warn" exactly for 3 and "good" exactly for 2. The URL cell is the escaped link to the URL; the page cell is the escaped link to the page, or blank when page_url is falsy. An error shows "ERR"; otherwise the status cell is the code, or blank for 0 or a missing code. The elapsed cell is the number, or blank for 0 or missing. The last cell is yes/no by the internal flag |
| AppView.Entity | cmd/server/web/static/app.js:150-151 | each of the five characters becomes its entity; any other character is unchanged |
| AppView.Escape | cmd/server/web/static/app.js:149-151 | the replaced text has no raw `<`, `>`, `"` or `'` and is never shorter than the input |
| AppView.EscapeHtml | cmd/server/web/static/app.js:147-152 | null and undefined give ""; the output has no raw `<`, `>`, `"` or `'` |
| AppView.EscapePlain | cmd/server/web/static/app.js:151 | text without any of the five characters passes unchanged |
| AppView.EscapeConcat | cmd/server/web/static/app.js:151 | escaping works character by character: it distributes over concatenation |
| AppView.UnescapeEscape | cmd/server/web/static/app.js:147-152 | decoding the five entities recovers the original text, so escaping loses nothing |
| AppView.LeadingDigits | cmd/server/web/static/app.js:13 | parseInt reads the longest run of decimal digits at the front |
| AppView.ParseInt | cmd/server/web/static/app.js:13 | the result is NaN exactly when no digit follows the blanks and the sign |
| AppView.NumeralParses | cmd/server/web/static/app.js:13 | a numeral parses to its value |
| AppView.InputDepth | cmd/server/web/static/app.js:13-15 | the sent depth lies in [0, 5]; it is 2 for NaN (an empty field reads as "2"), and otherwise the parsed number clamped |
| AppView.InputDepthDefault | cmd/server/web/static/app.js:13 | an empty depth field sends 2 |
| AppView.InputDepthNaN | cmd/server/web/static/app.js:14 | a depth field with no number sends 2 |
| AppView.InputDepthHigh | cmd/server/web/static/app.js:15 | 9 is sent as 5 |
| AppView.InputDepthNegative | cmd/server/web/static/app.js:15 | -1 is sent as 0 |
| AppView.InputDepthSkipsBlanks | cmd/server/web/static/app.js:13 | leading blanks and trailing junk are ignored: " 4x" sends 4 |
| AppView.LooksLikeHttpIgnoresCase | cmd/server/web/static/app.js:17 | the `/i` test gives the same answer for inputs equal up to ASCII case |
| AppView.LooksLikeHttpPrefix | cmd/server/web/static/app.js:17 | the `^` test looks only at the start: an accepted string stays accepted whatever is appended |
| AppView.LooksLikeHttpExamples | cmd/server/web/static/app.js:17 | "ftp://x", "abc" and "" are refused; "HTTPS://a.example" and even "http:/a" pass |
| AppMonitor.StartRequest | cmd/server/web/static/app.js:11-17 | a request is sent exactly when the trimmed URL begins like http(s):/ in any case; it carries the trimmed URL, the normalised depth and the checkbox |
| AppMonitor.Monitor.constructor | cmd/server/web/static/app.js:5-8 | no job, no results, not stopped, mode "all" |
| AppMonitor.Monitor.Start | cmd/server/web/static/app.js:10-36 | STOPPED is cleared before validation; an invalid URL sends nothing and changes no screen; an OK answer takes the job id and empties the results; a failed or throwing start leaves job and results alone |
| AppMonitor.Monitor.Answer | cmd/server/web/static/app.js:28-31 | an OK answer takes the job id and empties the results; a non-OK or throwing answer leaves job and results alone |
| AppMonitor.Monitor.Stop | cmd/server/web/static/app.js:38-42 | without a job nothing happens; otherwise STOPPED is set whatever the request gives |
| AppMonitor.Monitor.SelectMode | cmd/server/web/static/app.js:44-51 | a chip click sets the mode and re-renders the table for it; a click beside the chips changes nothing |
| AppMonitor.BuildRows | cmd/server/web/static/app.js:126-144 | the `rows.forEach` loop appends one row per record, so the table has exactly as many rows as records and row k is the rendering of record k |
| AppMonitor.Monitor.RenderTable | cmd/server/web/static/app.js:112-145 | the screen shows the summary of all results, and the `rows.forEach` loop builds exactly one rendered row per record the mode keeps, in order |
| AppMonitor.Poll | cmd/server/web/static/app.js:53-74 | covers when a cycle acts and when it schedules another: <br>• a cycle does nothing without a job, when stopped, or on a failed status fetch <br>• an OK status updates the progress <br>• an OK results fetch replaces the results wholesale and re-renders; a failed one leaves them <br>• the next cycle is scheduled exactly when the status is OK and its state is not terminal <br>• an up-to-date table stays up to date |
| AppMonitor.Monitor.PollStatus | cmd/server/web/static/app.js:53-74 | the handler's updates give exactly the pollStatus step |
| AppMonitor.Run | cmd/server/web/static/app.js:69-70 | a chain of cycles runs at most one cycle per response pair and leaves the job, the stop flag and the mode alone |
| AppMonitor.RunStopsAtTerminal | cmd/server/web/static/app.js:57-70 | a chain ends at the first failed status fetch or terminal state |
| AppMonitor.RunAllLive | cmd/server/web/static/app.js:69-70 | while every status is OK and non-terminal, the chain runs a cycle for every response |
| AppMonitor.PollInert | cmd/server/web/static/app.js:54 | once stopped, or without a job, a cycle is a no-op that schedules nothing |

## Findings

| source | as written | input that shows it | evidently intended | confidence | as-written member | corrected member |
|---|---|---|---|---|---|---|
| internal/core/crawler.go:153-157 | the loop returns nil only on receiving an item whose URL is nil, but no such item is ever sent and the channel is never closed; once the frontier is empty the loop blocks until the context is cancelled | a start URL that passes shouldVisit and a context that is never cancelled: after the last page the loop waits forever, so runJob never marks the job "done" (cmd/server/main.go:161 is unreachable) | an empty frontier ends the crawl with nil and the job becomes "done" | high; not executed | Crawler.Crawler.Crawl | Crawler.Crawler.CrawlUntilDrained |

`Server.RunJob` composes the crawl as written and proves the job never
becomes "done". `Server.RunJobUntilDrained` composes the corrected crawl. It
proves that the job ends "done" whenever nothing cancels it and the start
passes the start check (a depth limit that is not negative, an http or https
scheme, a start internal to its own normaliser, robots allowing it).

## Left out

- Concurrency of the crawl:
  - `checkLinkAndSink` runs in its own goroutine and is not modelled. The
    model records only that it is started, as a `CheckLink` event. Its
    result, its unsynchronised `checkedLinks++` and its progress report are
    left out. Its report is covered on its own by `Server.LinkCheckReport`.
  - The race between `runJob` and `handleStop` is left out: a "canceled"
    state can be overwritten by "failed" when Crawl returns the context
    error.
  - The unlocked read of `job.Results` in `handleResults` is left out.
- The frontier channel's capacity of 1024: the queue is unbounded in the
  model. The Go crawler is also the only reader of its channel, and up to
  MaxURLs = 2000 items can be queued. Queueing more than 1024 pages would
  block the send forever, and cancellation does not interrupt that send.
- `select` on `ctx.Done()`: modelled as a page count (`cancelAfter`) checked
  before each item. The random choice when both channel cases are ready is
  not modelled.
- Network and parsing code is reduced to the `fetch` oracle. These parts
  are not modelled: `fetch` with its random delay, `isPrivateHost`,
  `extractLinks`, checker.go, and robots.go apart from its yes/no answer.
- The crawl-delay adjustment in `NewCrawler` is not modelled.
- The libraries `publicsuffix`, `URL.Hostname`, `URL.Query`,
  `url.Values.Encode`, `URL.String` and `url.Parse` are function parameters,
  not definitions. `path.Clean` is written out.
- Unicode case mapping:
  - `strings.ToLower` and `strings.EqualFold` fold ASCII letters only.
  - The JavaScript `/i` regex test folds ASCII letters only. This is exact
    for the pattern `^https?:\/\/?`, whose letters are all ASCII.
- `Normalization.Normalize` deletes tracking keys in an arbitrary order; the
  source sorts the keys first. The order cannot change which keys are
  deleted.
- Floating point: `Math.round(a * 100 / b)` is modelled as rounding the
  exact ratio. `parseInt` results are unbounded integers; the clamp to
  [0, 5] hides any precision loss.
- main.go plumbing is not modelled:
  - JSON decoding (`body` is an input) and the JSON replies;
  - `newID` randomness (the id is an input);
  - the static file handlers, `main` and `openBrowser`;
  - `core.NewChecker`.
- `go runJob(job)` is not modelled as concurrency. `RunJob` is a separate
  method, and `start` stands for its re-parse of the start URL. That
  re-parse always succeeds on a URL the start handler rendered, so its
  ignored error is left out.
- The `Filter` record of types.go is not modelled. No handler in main.go
  uses it, and none calls `parseScope` or `parseStatuses`, which are
  modelled on their own.
- Browser plumbing: the DOM, `alert`, `console`, `fetch` and `setTimeout`.
  - Each handler runs to completion with its awaited responses as inputs.
    The interleavings at its `await` points are not modelled.
  - Consequently, a second Start while a poll chain is pending can leave
    two chains polling, and a response for an earlier job can arrive after
    a new Start. Neither case is modelled.
  - Row cells are a `Row` record: number cells stay numbers, and the
    browser's number-to-text conversion is not modelled.
- AppView.Visible: its own contract only bounds the length. Membership and
  order are stated by `VisibleMembers` and `VisibleConcat`.
