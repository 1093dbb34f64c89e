/**
 * Request parsing and job bookkeeping of cmd/server/main.go: the scope and
 * status-filter parsers, the checks and the depth clamp of the start
 * handler, the stop, status and results handlers, the progress merge and
 * the life cycle runJob drives a job through.
 *
 * JSON decoding, url.Parse, the random job id and the crawl's network
 * traffic are inputs; HTTP replies are values of `Response`.
 */
module Server {
  import opened Wrappers
  import opened CoreTypes
  import Text
  import Normalization
  import Crawler

  // ---------------------------------------------------------------------------
  // parseScope

  function ParseScope(s: string): (r: Scope)
    ensures r == ScopeInternalOnly <==> Text.Lower(s) == "internal"
    ensures r == ScopeExternalOnly <==> Text.Lower(s) == "external"
  {
    var l := Text.Lower(s);
    if l == "internal" then ScopeInternalOnly
    else if l == "external" then ScopeExternalOnly
    else ScopeAll
  }

  /** The scope does not depend on the case of its ASCII letters. */
  lemma ParseScopeIgnoresCase(s: string, t: string)
    requires Text.EqualFold(s, t)
    ensures ParseScope(s) == ParseScope(t)
  {
  }

  // ---------------------------------------------------------------------------
  // parseStatuses

  /** The class a comma-separated token names once trimmed and lower-cased; None if it names none. */
  function TokenClass(part: string): (r: Option<StatusClass>)
    ensures r.Some? ==> r.value != StatusAny
  {
    var s := Text.TrimSpace(Text.Lower(part));
    if s == "2" then Some(Status2xx)
    else if s == "3" then Some(Status3xx)
    else if s == "4" then Some(Status4xx)
    else if s == "5" then Some(Status5xx)
    else if s == "e" then Some(StatusError)
    else None
  }

  /** The token of each comma-separated part, in order. */
  function Tokens(parts: seq<string>): (r: seq<Option<StatusClass>>)
    ensures |r| == |parts|
  {
    seq(|parts|, i requires 0 <= i < |parts| => TokenClass(parts[i]))
  }

  /** The classes present among `opts`, in order (the list before sorting). */
  function Present(opts: seq<Option<StatusClass>>): seq<StatusClass> {
    if opts == [] then []
    else
      var init := Present(opts[..|opts| - 1]);
      match opts[|opts| - 1]
      case Some(c) => init + [c]
      case None => init
  }

  /** The collected classes are exactly those some token names; unknown tokens add nothing. */
  lemma {:induction false} PresentMembers(opts: seq<Option<StatusClass>>)
    ensures forall c :: c in Present(opts) <==> Some(c) in opts
  {
    if opts != [] {
      var init := opts[..|opts| - 1];
      PresentMembers(init);
      assert opts == init + [opts[|opts| - 1]];
    }
  }

  ghost predicate Sorted(s: seq<StatusClass>) {
    forall i, j :: 0 <= i < j < |s| ==> s[i].Rank() <= s[j].Rank()
  }

  ghost predicate StrictlyAscending(s: seq<StatusClass>) {
    forall i, j :: 0 <= i < j < |s| ==> s[i].Rank() < s[j].Rank()
  }

  /** One step of the sort: `x` placed in front of the first element not ranked below it. */
  function Insert(x: StatusClass, s: seq<StatusClass>): seq<StatusClass> {
    if s == [] then [x]
    else if x.Rank() <= s[0].Rank() then [x] + s
    else [s[0]] + Insert(x, s[1..])
  }

  lemma {:induction false} InsertPerm(x: StatusClass, s: seq<StatusClass>)
    ensures multiset(Insert(x, s)) == multiset(s) + multiset{x}
  {
    if s != [] {
      assert s == [s[0]] + s[1..];
      if x.Rank() > s[0].Rank() {
        InsertPerm(x, s[1..]);
      }
    }
  }

  lemma SortedCons(a: StatusClass, t: seq<StatusClass>)
    requires Sorted(t) && forall k :: 0 <= k < |t| ==> a.Rank() <= t[k].Rank()
    ensures Sorted([a] + t)
  {
    var r := [a] + t;
    forall i, j | 0 <= i < j < |r| ensures r[i].Rank() <= r[j].Rank() {
      assert r[j] == t[j - 1];
      if i > 0 {
        assert r[i] == t[i - 1];
      }
    }
  }

  lemma {:induction false} InsertSorted(x: StatusClass, s: seq<StatusClass>)
    requires Sorted(s)
    ensures Sorted(Insert(x, s)) && multiset(Insert(x, s)) == multiset(s) + multiset{x}
  {
    InsertPerm(x, s);
    if s != [] {
      if x.Rank() <= s[0].Rank() {
        SortedCons(x, s);
      } else {
        var tail := s[1..];
        assert Sorted(tail) by {
          forall i, j | 0 <= i < j < |tail| ensures tail[i].Rank() <= tail[j].Rank() {
            assert tail[i] == s[i + 1] && tail[j] == s[j + 1];
          }
        }
        InsertSorted(x, tail);
        var t := Insert(x, tail);
        forall k | 0 <= k < |t| ensures s[0].Rank() <= t[k].Rank() {
          assert t[k] in multiset(tail) + multiset{x};
          if t[k] != x {
            var m :| 0 <= m < |tail| && tail[m] == t[k];
            assert s[m + 1] == t[k];
          }
        }
        SortedCons(s[0], t);
      }
    }
  }

  /** slices.SortFunc by the Go constant: a sorted permutation of its input. */
  function SortByRank(s: seq<StatusClass>): (r: seq<StatusClass>)
    ensures Sorted(r) && multiset(r) == multiset(s)
  {
    if s == [] then []
    else
      var t := SortByRank(s[1..]);
      InsertSorted(s[0], t);
      assert s == [s[0]] + s[1..];
      Insert(s[0], t)
  }

  /** slices.Compact: each run of equal neighbours becomes one element. */
  function Compact(s: seq<StatusClass>): (r: seq<StatusClass>)
    ensures |r| <= |s|
    ensures forall c :: c in r <==> c in s
  {
    if |s| <= 1 then s
    else if s[0] == s[1] then Compact(s[1..])
    else [s[0]] + Compact(s[1..])
  }

  lemma {:induction false} CompactSorted(s: seq<StatusClass>)
    requires Sorted(s)
    ensures StrictlyAscending(Compact(s))
    ensures forall c :: c in Compact(s) <==> c in s
    ensures s != [] ==> Compact(s) != [] && Compact(s)[0] == s[0]
  {
    if |s| > 1 {
      CompactSorted(s[1..]);
      assert s[1..][0] == s[1];
      forall c | c in s ensures c in Compact(s) {
        if c != s[0] {
          var i :| 0 <= i < |s| && s[i] == c;
          assert s[1..][i - 1] == c;
        }
      }
      if s[0] != s[1] {
        RankInjective(s[0], s[1]);
        var r := Compact(s[1..]);
        forall j | 0 < j < |[s[0]] + r| ensures s[0].Rank() < ([s[0]] + r)[j].Rank() {
          var c := r[j - 1];
          assert c in s[1..];
          var k :| 0 <= k < |s[1..]| && s[1..][k] == c;
          assert s[0].Rank() <= s[1].Rank() <= c.Rank();
        }
      }
    }
  }

  /** parseStatuses: nil for "", else the classes the tokens name, ascending and without repeats. */
  method ParseStatuses(q: string) returns (r: Option<seq<StatusClass>>)
    ensures r.None? <==> q == ""
    ensures r.Some? ==> StrictlyAscending(r.value)
    ensures r.Some? ==> forall c :: c in r.value <==> Some(c) in Tokens(Text.Split(q, ','))
  {
    if q == "" {
      return None;
    }
    var parts := Text.Split(q, ',');
    var sts: seq<StatusClass> := [];
    ghost var opts := Tokens(parts);
    for i := 0 to |parts|
      invariant sts == Present(opts[..i])
    {
      assert opts[..i + 1][..i] == opts[..i];
      match TokenClass(parts[i])
      case Some(c) => sts := sts + [c];
      case None =>
    }
    assert opts[..|parts|] == opts;
    PresentMembers(opts);
    return Some(SortCompact(sts));
  }

  /** The sort followed by slices.Compact: strictly ascending, with the same members. */
  function SortCompact(sts: seq<StatusClass>): (r: seq<StatusClass>)
    ensures StrictlyAscending(r)
    ensures forall c :: c in r <==> c in sts
  {
    var sorted := SortByRank(sts);
    assert forall c :: c in sorted <==> c in sts by {
      forall c ensures c in sorted <==> c in sts {
        assert c in sorted <==> c in multiset(sorted);
        assert c in sts <==> c in multiset(sts);
      }
    }
    CompactSorted(sorted);
    Compact(sorted)
  }

  // ---------------------------------------------------------------------------
  // Jobs

  /** What a handler writes back. */
  datatype Response =
    | HttpError(code: int, message: string)
    | JobCreated(jobId: string)
    | StatusBody(status: JobStatus)
    | ResultsBody(results: seq<CoreTypes.Result>)
    | NoContent

  /** The decoded body of POST /api/start. */
  datatype StartRequest = StartRequest(startUrl: string, depth: int, respectRobots: bool)

  /** The progress closure of runJob: which counters one report overwrites. */
  function Merge(st: JobStatus, p: Crawler.CrawlProgress): (r: JobStatus)
    ensures r.state == st.state && r.errors == p.errors
    // the page counters take only a non-zero report
    ensures p.visited == 0 ==> r.visited == st.visited
    ensures p.visited != 0 ==> r.visited == p.visited
    ensures p.queued == 0 ==> r.queued == st.queued
    ensures p.queued != 0 ==> r.queued == p.queued
    ensures p.discovered == 0 ==> r.discovered == st.discovered
    ensures p.discovered != 0 ==> r.discovered == p.discovered
    // the link counters take a non-zero report, or any report while still zero
    ensures p.checkedLinks != 0 || st.checkedLinks == 0 ==> r.checkedLinks == p.checkedLinks
    ensures p.checkedLinks == 0 && st.checkedLinks != 0 ==> r.checkedLinks == st.checkedLinks
    ensures p.totalLinks != 0 || st.totalLinks == 0 ==> r.totalLinks == p.totalLinks
    ensures p.totalLinks == 0 && st.totalLinks != 0 ==> r.totalLinks == st.totalLinks
  {
    st.(visited := if p.visited != 0 then p.visited else st.visited,
        queued := if p.queued != 0 then p.queued else st.queued,
        discovered := if p.discovered != 0 then p.discovered else st.discovered,
        errors := p.errors,
        checkedLinks := if p.checkedLinks != 0 || st.checkedLinks == 0 then p.checkedLinks else st.checkedLinks,
        totalLinks := if p.totalLinks != 0 || st.totalLinks == 0 then p.totalLinks else st.totalLinks)
  }

  /** A counter that is non-zero stays non-zero; zero reports never reset it. */
  lemma MergeKeepsNonZero(st: JobStatus, p: Crawler.CrawlProgress)
    ensures st.visited != 0 ==> Merge(st, p).visited != 0
    ensures st.queued != 0 ==> Merge(st, p).queued != 0
    ensures st.discovered != 0 ==> Merge(st, p).discovered != 0
    ensures st.checkedLinks != 0 ==> Merge(st, p).checkedLinks != 0
    ensures st.totalLinks != 0 ==> Merge(st, p).totalLinks != 0
  {
  }

  /** The report a finished link check sends keeps the page counters but zeroes the error count. */
  lemma LinkCheckReport(st: JobStatus, checked: int, total: int)
    ensures Merge(st, Crawler.CrawlProgress(0, 0, 0, 0, checked, total)) ==
      st.(errors := 0,
          checkedLinks := if checked != 0 || st.checkedLinks == 0 then checked else st.checkedLinks,
          totalLinks := if total != 0 || st.totalLinks == 0 then total else st.totalLinks)
  {
  }

  /** A run of reports merged one after another. */
  function MergeAll(st: JobStatus, ps: seq<Crawler.CrawlProgress>): JobStatus {
    if ps == [] then st else Merge(MergeAll(st, ps[..|ps| - 1]), ps[|ps| - 1])
  }

  /**
   * After any run of reports the state is untouched, the error count is the
   * last one reported, and checked and total links are non-zero once they
   * were non-zero or were ever reported so.
   */
  lemma {:induction false} MergeAllLinks(st: JobStatus, ps: seq<Crawler.CrawlProgress>)
    ensures (st.checkedLinks != 0 || exists i :: 0 <= i < |ps| && ps[i].checkedLinks != 0)
      ==> MergeAll(st, ps).checkedLinks != 0
    ensures (st.totalLinks != 0 || exists i :: 0 <= i < |ps| && ps[i].totalLinks != 0)
      ==> MergeAll(st, ps).totalLinks != 0
    ensures MergeAll(st, ps).state == st.state
    ensures ps != [] ==> MergeAll(st, ps).errors == ps[|ps| - 1].errors
  {
    if ps != [] {
      var init := ps[..|ps| - 1];
      MergeAllLinks(st, init);
      if exists i :: 0 <= i < |ps| - 1 && ps[i].checkedLinks != 0 {
        var i :| 0 <= i < |ps| - 1 && ps[i].checkedLinks != 0;
        assert init[i] == ps[i];
      }
      if exists i :: 0 <= i < |ps| - 1 && ps[i].totalLinks != 0 {
        var i :| 0 <= i < |ps| - 1 && ps[i].totalLinks != 0;
        assert init[i] == ps[i];
      }
    }
  }

  const Queued := "queued"
  const Running := "running"
  const JobDone := "done"
  const Failed := "failed"
  const Canceled := "canceled"

  class Job {
    const id: string
    const params: JobParams
    var status: JobStatus
    var results: seq<CoreTypes.Result>
    /** Whether runJob has stored the crawl's cancel function yet. */
    var hasCancel: bool

    constructor (id: string, params: JobParams)
      ensures this.id == id && this.params == params
      ensures status == JobStatus(Queued, 0, 0, 0, 0, 0, 0) && results == [] && !hasCancel
    {
      this.id := id;
      this.params := params;
      status := JobStatus(Queued, 0, 0, 0, 0, 0, 0);
      results := [];
      hasCancel := false;
    }

    /** The progress closure, overwriting the fields of job.Status one by one. */
    method Progress(p: Crawler.CrawlProgress)
      modifies this`status
      ensures status == Merge(old(status), p)
    {
      if p.visited != 0 { status := status.(visited := p.visited); }
      if p.queued != 0 { status := status.(queued := p.queued); }
      if p.discovered != 0 { status := status.(discovered := p.discovered); }
      status := status.(errors := p.errors);
      if p.checkedLinks != 0 || status.checkedLinks == 0 { status := status.(checkedLinks := p.checkedLinks); }
      if p.totalLinks != 0 || status.totalLinks == 0 { status := status.(totalLinks := p.totalLinks); }
    }

    /** The sink closure. */
    method Sink(r: CoreTypes.Result)
      modifies this`results
      ensures results == old(results) + [r]
    {
      results := results + [r];
    }

    method SetState(s: string)
      modifies this`status
      ensures status == old(status).(state := s)
    {
      status := status.(state := s);
    }

    /**
     * The progress and sink closures, called in the order the crawl called
     * them; the link-check requests are not the job's business.
     */
    method Replay(events: seq<Crawler.Event>)
      modifies this`status, this`results
      ensures status == MergeAll(old(status), Reports(events))
      ensures results == old(results) + Sunk(events)
    {
      for i := 0 to |events|
        invariant status == MergeAll(old(status), Reports(events[..i]))
        invariant results == old(results) + Sunk(events[..i])
      {
        assert events[..i + 1][..i] == events[..i];
        ghost var rs := Reports(events[..i]);
        assert Reports(events[..i + 1]) == rs + (if events[i].Progress? then [events[i].p] else []);
        match events[i]
        case Progress(p) =>
          Progress(p);
          assert (rs + [p])[..|rs|] == rs;
          assert status == MergeAll(old(status), rs + [p]);
        case Sink(r) =>
          Sink(r);
          assert rs + [] == rs;
          assert status == MergeAll(old(status), rs);
        case CheckLink(_, _) =>
          assert rs + [] == rs;
      }
      assert events[..|events|] == events;
    }

    method ArmCancel()
      modifies this`hasCancel
      ensures hasCancel
    {
      hasCancel := true;
    }
  }

  /** The progress reports among the calls a crawl made, in order. */
  function Reports(evs: seq<Crawler.Event>): seq<Crawler.CrawlProgress> {
    if evs == [] then []
    else
      var last := evs[|evs| - 1];
      Reports(evs[..|evs| - 1]) + (if last.Progress? then [last.p] else [])
  }

  /** The results a crawl sank, in order. */
  function Sunk(evs: seq<Crawler.Event>): seq<CoreTypes.Result> {
    if evs == [] then []
    else
      var last := evs[|evs| - 1];
      Sunk(evs[..|evs| - 1]) + (if last.Sink? then [last.r] else [])
  }

  /**
   * runJob: mark the job running, build the crawler, store the cancel
   * function and crawl, then record the outcome. The crawl's calls to the
   * progress and sink closures are replayed on the job in the order Crawl
   * made them. `start` is url.Parse of the job's start URL, which the start
   * handler produced from a parsed URL; `fetch`, `robots` and `cancelAfter`
   * are the crawl's inputs. As written, Crawl never returns nil, so the job
   * never becomes "done".
   */
  method RunJob(job: Job, start: Normalization.Url, lib: Normalization.Lib,
                robots: Option<Normalization.Url -> bool>, fetch: Normalization.Url -> Crawler.Fetched,
                cancelAfter: Option<nat>)
    returns (outcome: Crawler.CrawlOutcome, events: seq<Crawler.Event>)
    modifies job
    ensures outcome != Crawler.Done
    ensures outcome == Crawler.StartRejected <==>
      !Crawler.StartAllowed(start, job.params.maxDepth, job.params.respectRobots, robots, lib)
    ensures outcome == Crawler.Blocked <==>
      Crawler.StartAllowed(start, job.params.maxDepth, job.params.respectRobots, robots, lib) && cancelAfter.None?
    ensures job.status.state == (if outcome == Crawler.Blocked then Running else Failed)
    ensures job.hasCancel
    ensures job.results == old(job.results) + Sunk(events)
    ensures job.status.(state := Running) == MergeAll(old(job.status).(state := Running), Reports(events))
  {
    job.SetState(Running);
    var crawler := new Crawler.Crawler(start, job.params.maxDepth, job.params.respectRobots, robots, lib);
    job.ArmCancel();
    outcome, events := crawler.Crawl(start, fetch, cancelAfter);
    Record(job, outcome, events);
  }

  /** runJob over the corrected crawl: a crawl that is never cancelled and gets past its start check ends "done". */
  method RunJobUntilDrained(job: Job, start: Normalization.Url, lib: Normalization.Lib,
                            robots: Option<Normalization.Url -> bool>, fetch: Normalization.Url -> Crawler.Fetched,
                            cancelAfter: Option<nat>)
    returns (outcome: Crawler.CrawlOutcome, events: seq<Crawler.Event>)
    modifies job
    ensures job.status.state == JobDone || job.status.state == Failed
    ensures outcome == Crawler.StartRejected <==>
      !Crawler.StartAllowed(start, job.params.maxDepth, job.params.respectRobots, robots, lib)
    ensures cancelAfter.None? && Crawler.StartAllowed(start, job.params.maxDepth, job.params.respectRobots, robots, lib) ==>
      outcome == Crawler.Done && job.status.state == JobDone
    ensures job.status.state == Failed ==> outcome == Crawler.StartRejected || cancelAfter.Some?
    ensures job.hasCancel
    ensures job.results == old(job.results) + Sunk(events)
    ensures job.status.(state := Running) == MergeAll(old(job.status).(state := Running), Reports(events))
  {
    job.SetState(Running);
    var crawler := new Crawler.Crawler(start, job.params.maxDepth, job.params.respectRobots, robots, lib);
    job.ArmCancel();
    outcome, events := crawler.CrawlUntilDrained(start, fetch, cancelAfter);
    Record(job, outcome, events);
  }

  /** The end of runJob once Crawl has returned: the closures' calls, then "done" on nil and "failed" on an error. */
  method Record(job: Job, outcome: Crawler.CrawlOutcome, events: seq<Crawler.Event>)
    requires job.status.state == Running
    modifies job`status, job`results
    ensures job.status.state ==
      (if outcome == Crawler.Blocked then Running else if outcome == Crawler.Done then JobDone else Failed)
    ensures job.results == old(job.results) + Sunk(events)
    ensures job.status.(state := Running) == MergeAll(old(job.status), Reports(events))
  {
    job.Replay(events);
    MergeAllLinks(old(job.status), Reports(events));
    if outcome != Crawler.Blocked {
      job.SetState(if outcome == Crawler.Done then JobDone else Failed);
    }
  }

  class Registry {
    var jobs: map<string, Job>

    constructor ()
      ensures jobs == map[]
    {
      jobs := map[];
    }

    /**
     * handleStart. `body` is the decoded request (None: the body did not
     * decode), `parse` is url.Parse, `render` is URL.String and `newId` the
     * random id.
     */
    method HandleStart(httpMethod: string, body: Option<StartRequest>,
                       parse: string -> Option<Normalization.Url>, render: Normalization.Url -> string,
                       newId: string)
      returns (resp: Response)
      modifies this
      ensures httpMethod != "POST" ==> resp == HttpError(405, "method") && jobs == old(jobs)
      ensures httpMethod == "POST" && (body.None? || body.value.startUrl == "") ==>
        resp == HttpError(400, "bad request") && jobs == old(jobs)
      ensures httpMethod == "POST" && body.Some? && body.value.startUrl != "" ==>
        var u := parse(body.value.startUrl);
        if u.None? || (u.value.scheme != "http" && u.value.scheme != "https") then
          resp == HttpError(400, "invalid url") && jobs == old(jobs)
        else
          && resp == JobCreated(newId)
          && jobs.Keys == old(jobs).Keys + {newId}
          && (forall k :: k in old(jobs) && k != newId ==> jobs[k] == old(jobs)[k])
          && fresh(jobs[newId])
          && jobs[newId].params.startUrl == render(u.value)
          && jobs[newId].params.respectRobots == body.value.respectRobots
          && 0 <= jobs[newId].params.maxDepth <= 5
          && (0 <= body.value.depth <= 5 ==> jobs[newId].params.maxDepth == body.value.depth)
          && (body.value.depth < 0 ==> jobs[newId].params.maxDepth == 0)
          && (body.value.depth > 5 ==> jobs[newId].params.maxDepth == 5)
          && jobs[newId].status == JobStatus(Queued, 0, 0, 0, 0, 0, 0)
          && jobs[newId].results == []
    {
      if httpMethod != "POST" {
        return HttpError(405, "method");
      }
      if body.None? || body.value.startUrl == "" {
        return HttpError(400, "bad request");
      }
      var req := body.value;
      var depth := req.depth;
      if depth < 0 { depth := 0; }
      if depth > 5 { depth := 5; }
      var u := parse(req.startUrl);
      if u.None? || (u.value.scheme != "http" && u.value.scheme != "https") {
        return HttpError(400, "invalid url");
      }
      var job := new Job(newId, JobParams(render(u.value), depth, req.respectRobots));
      jobs := jobs[newId := job];
      resp := JobCreated(newId);
    }

    /** handleStop: cancels and marks the job only once runJob has stored its cancel function. */
    method HandleStop(httpMethod: string, id: string) returns (resp: Response)
      modifies jobs.Values
      ensures httpMethod != "POST" ==> resp == HttpError(405, "method")
      ensures httpMethod == "POST" && id !in jobs ==> resp == HttpError(404, "not found")
      ensures httpMethod == "POST" && id in jobs ==> resp == NoContent
      ensures httpMethod == "POST" && id in jobs && old(jobs[id].hasCancel) ==>
        jobs[id].status == old(jobs[id].status).(state := Canceled)
      ensures forall j :: j in jobs.Values && !(httpMethod == "POST" && id in jobs && j == jobs[id] && old(j.hasCancel)) ==>
        j.status == old(j.status)
      ensures forall j :: j in jobs.Values ==> j.results == old(j.results) && j.hasCancel == old(j.hasCancel)
    {
      if httpMethod != "POST" {
        return HttpError(405, "method");
      }
      if id !in jobs {
        return HttpError(404, "not found");
      }
      var job := jobs[id];
      if job.hasCancel {
        job.SetState(Canceled);
      }
      resp := NoContent;
    }

    /** handleStatus: a snapshot of the job's status. */
    method HandleStatus(id: string) returns (resp: Response)
      ensures id !in jobs ==> resp == HttpError(404, "not found")
      ensures id in jobs ==> resp == StatusBody(jobs[id].status)
    {
      if id !in jobs {
        return HttpError(404, "not found");
      }
      resp := StatusBody(jobs[id].status);
    }

    /** handleResults: every result recorded so far. */
    method HandleResults(id: string) returns (resp: Response)
      ensures id !in jobs ==> resp == HttpError(404, "not found")
      ensures id in jobs ==> resp == ResultsBody(jobs[id].results)
    {
      if id !in jobs {
        return HttpError(404, "not found");
      }
      resp := ResultsBody(jobs[id].results);
    }
  }
}
