/**
 * The frontier bookkeeping of internal/core/crawler.go: the shouldVisit gate
 * and the sequential part of Crawl.
 *
 * Fetching a page and extracting its links are one oracle `fetch`, which
 * gives either the fetch error or the links found on the page. The select on
 * the cancelled context is the parameter `cancelAfter`: the context is seen
 * cancelled once that many pages have been taken from the frontier (None: it
 * is never cancelled). The callbacks Crawl hands progress reports and failed
 * pages to, and the link checks it starts, are returned as a list of events
 * in the order they happen.
 */
module Crawler {
  import opened Wrappers
  import CoreTypes
  import opened Normalization

  /** The counters the crawler reports through its progress callback. */
  datatype CrawlProgress = CrawlProgress(
    visited: int,
    queued: int,
    discovered: int,
    errors: int,
    checkedLinks: int,
    totalLinks: int)

  /** What fetching one page gave: the error text, or the links extracted from it. */
  datatype Fetched = FetchFailed(message: string) | Page(links: seq<Url>)

  /** A frontier entry. */
  datatype Item = Item(u: Url, depth: int)

  /** A call Crawl makes: progress(p), sink(r), or `go checkLinkAndSink` for a new link. */
  datatype Event =
    | Progress(p: CrawlProgress)
    | Sink(r: CoreTypes.Result)
    | CheckLink(link: Url, internal: bool)

  /** How a crawl ends: nil, the start-URL error, ctx.Err(), or never. */
  datatype CrawlOutcome = Done | StartRejected | Canceled | Blocked

  /** How the frontier loop stopped. */
  datatype LoopEnd = Rejected | Drained | CanceledMidway

  const DefaultMaxURLs := 2000

  /** Crawl's locals: the frontier queue and its counters, with the calls made so far. */
  datatype Frontier = Frontier(queue: seq<Item>, visited: int, discovered: int, errs: int, events: seq<Event>)

  /** The crawler's mutable fields as a value. */
  datatype Snapshot = Snapshot(pages: map<string, int>, links: set<string>, total: int, checked: int)

  ghost predicate QueueOk(q: seq<Item>, maxDepth: int) {
    forall k :: 0 <= k < |q| ==> 0 <= q[k].depth <= maxDepth
  }

  /** The pages seen so far: those seen before, plus `added` new ones, each at a depth within bounds. */
  ghost predicate PagesOk(pages: map<string, int>, pages0: map<string, int>, added: int, normStart: string, maxDepth: int) {
    && normStart in pages && pages[normStart] == 0
    && pages0.Keys <= pages.Keys
    && (forall k :: k in pages0 ==> pages[k] == pages0[k])
    && |pages.Keys| == |pages0.Keys| + added
    && (forall k :: k in pages && k !in pages0 ==> 0 <= pages[k] <= maxDepth)
  }

  lemma AddPage(pages: map<string, int>, pages0: map<string, int>, added: int, normStart: string, maxDepth: int,
                k: string, depth: int)
    requires PagesOk(pages, pages0, added, normStart, maxDepth)
    requires k !in pages && 0 <= depth <= maxDepth
    ensures PagesOk(pages[k := depth], pages0, added + 1, normStart, maxDepth)
  {
    assert pages[k := depth].Keys == pages.Keys + {k};
  }

  /** Every distinct link seen is counted once and has one link check. */
  ghost predicate LinksOk(links: set<string>, total: int, events: seq<Event>, s0: Snapshot) {
    && s0.links <= links
    && total == s0.total + |links - s0.links|
    && CheckCount(events) == |links - s0.links|
  }

  lemma AddLink(links: set<string>, total: int, events: seq<Event>, s0: Snapshot, norm: string, p: Event, c: Event)
    requires LinksOk(links, total, events, s0) && norm !in links && !p.CheckLink? && c.CheckLink?
    ensures LinksOk(links + {norm}, total + 1, events + [p] + [c], s0)
  {
    assert (links + {norm}) - s0.links == (links - s0.links) + {norm};
    CountAppend(events, p);
    CountAppend(events + [p], c);
  }

  lemma AddOther(links: set<string>, total: int, events: seq<Event>, s0: Snapshot, e: Event)
    requires LinksOk(links, total, events, s0) && !e.CheckLink?
    ensures LinksOk(links, total, events + [e], s0)
  {
    CountAppend(events, e);
  }

  /** Failed pages have the documented result shape, and nothing about the page follows them. */
  ghost predicate EventsOk(events: seq<Event>, maxDepth: int) {
    && (forall k :: 0 <= k < |events| && events[k].Sink? ==> FailedPage(events[k].r, maxDepth))
    && (forall k :: 0 <= k < |events| - 1 && events[k].Sink? ==> events[k + 1].Progress?)
  }

  lemma AppendEvents(events: seq<Event>, more: seq<Event>, maxDepth: int)
    requires EventsOk(events, maxDepth) && events != [] && !events[|events| - 1].Sink?
    requires forall k :: 0 <= k < |more| ==> !more[k].Sink?
    ensures EventsOk(events + more, maxDepth)
  {
  }

  lemma AppendAfterProgress(events: seq<Event>, e: Event, maxDepth: int)
    requires EventsOk(events, maxDepth)
    requires e.Progress? || (e.Sink? && FailedPage(e.r, maxDepth) && events != [] && events[|events| - 1].Progress?)
    ensures EventsOk(events + [e], maxDepth)
  {
  }

  lemma StartPages(pages0: map<string, int>, normStart: string, maxDepth: int)
    requires normStart !in pages0 && 0 <= maxDepth
    ensures PagesOk(pages0[normStart := 0], pages0, 1, normStart, maxDepth)
  {
    assert pages0[normStart := 0].Keys == pages0.Keys + {normStart};
  }

  /** The shape of the result sunk for a page whose fetch failed. */
  predicate FailedPage(r: CoreTypes.Result, maxDepth: int) {
    r.internal && r.statusCode == 0 && r.elapsedMs == 0 && r.pageUrl == r.url && 0 <= r.depth <= maxDepth
  }

  function SinkCount(evs: seq<Event>): nat {
    if evs == [] then 0 else SinkCount(evs[..|evs| - 1]) + (if evs[|evs| - 1].Sink? then 1 else 0)
  }

  function CheckCount(evs: seq<Event>): nat {
    if evs == [] then 0 else CheckCount(evs[..|evs| - 1]) + (if evs[|evs| - 1].CheckLink? then 1 else 0)
  }

  lemma CountAppend(evs: seq<Event>, e: Event)
    ensures SinkCount(evs + [e]) == SinkCount(evs) + (if e.Sink? then 1 else 0)
    ensures CheckCount(evs + [e]) == CheckCount(evs) + (if e.CheckLink? then 1 else 0)
  {
    assert (evs + [e])[..|evs|] == evs;
  }

  /**
   * What holds of the frontier `f` and the crawler state `s` between two
   * steps of Crawl, measured against the state `s0` the crawl started from.
   */
  ghost predicate FrontierOk(f: Frontier, s0: Snapshot, normStart: string, s: Snapshot, maxDepth: int, cap: int) {
    && 0 <= f.errs <= f.visited && f.visited + |f.queue| == f.discovered <= cap
    && QueueOk(f.queue, maxDepth)
    && PagesOk(s.pages, s0.pages, f.discovered, normStart, maxDepth)
    && LinksOk(s.links, s.total, f.events, s0)
    && s.checked == s0.checked
    && EventsOk(f.events, maxDepth)
  }

  /** The calls Crawl makes for a link seen for the first time: a progress report, then the link check. */
  function NewLinkEvents(f: Frontier, checked: int, total: int, u2: Url, internal: bool): (more: seq<Event>)
    ensures |more| == 2 && more[0].Progress? && more[1].CheckLink?
  {
    [Progress(CrawlProgress(f.visited, |f.queue|, f.discovered, f.errs, checked, total)), CheckLink(u2, internal)]
  }

  /** A new link: counted once, reported, and handed to a link check. */
  lemma LinkStep(f: Frontier, s0: Snapshot, normStart: string, s: Snapshot, maxDepth: int, cap: int,
                 norm: string, p: Event, c: Event)
    requires FrontierOk(f, s0, normStart, s, maxDepth, cap) && norm !in s.links
    requires f.events != [] && !f.events[|f.events| - 1].Sink?
    requires p.Progress? && c.CheckLink?
    ensures FrontierOk(f.(events := f.events + [p, c]), s0, normStart,
                       s.(links := s.links + {norm}, total := s.total + 1), maxDepth, cap)
  {
    AddLink(s.links, s.total, f.events, s0, norm, p, c);
    AppendEvents(f.events, [p, c], maxDepth);
    assert f.events + [p] + [c] == f.events + [p, c];
  }

  /** A new page: recorded at its depth and queued. */
  lemma PageStep(f: Frontier, s0: Snapshot, normStart: string, s: Snapshot, maxDepth: int, cap: int,
                 norm: string, it: Item)
    requires FrontierOk(f, s0, normStart, s, maxDepth, cap) && norm !in s.pages
    requires 0 <= it.depth <= maxDepth && f.discovered < cap
    ensures FrontierOk(f.(discovered := f.discovered + 1, queue := f.queue + [it]), s0, normStart,
                       s.(pages := s.pages[norm := it.depth]), maxDepth, cap)
  {
    AddPage(s.pages, s0.pages, f.discovered, normStart, maxDepth, norm, it.depth);
  }

  /** The normal forms of the first `n` links of a page. */
  function LinkForms(links: seq<Url>, n: nat, key: Url -> string): set<string>
    requires n <= |links|
  {
    set k | 0 <= k < n :: key(links[k])
  }

  lemma LinkFormsNext(links: seq<Url>, n: nat, key: Url -> string)
    requires n < |links|
    ensures LinkForms(links, n + 1, key) == LinkForms(links, n, key) + {key(links[n])}
  {
  }

  lemma AppendAssoc<T>(a: seq<T>, b: seq<T>, c: seq<T>)
    ensures a + (b + c) == (a + b) + c
  {
  }

  /** `pages` keeps every entry of `pages0` as it was. */
  ghost predicate Grows(pages0: map<string, int>, pages: map<string, int>) {
    && pages0.Keys <= pages.Keys
    && (forall k :: k in pages0 ==> pages[k] == pages0[k])
  }

  /** `pages` keeps every entry of `pages0`, and each entry it adds is one of `forms`, at `depth`. */
  ghost predicate Extends(pages0: map<string, int>, pages: map<string, int>, forms: set<string>, depth: int) {
    && Grows(pages0, pages)
    && (forall k :: k in pages && k !in pages0 ==> k in forms && pages[k] == depth)
  }

  lemma ExtendsTrans(p0: map<string, int>, p1: map<string, int>, p2: map<string, int>,
                     f1: set<string>, f2: set<string>, depth: int)
    requires Extends(p0, p1, f1, depth) && Extends(p1, p2, f2, depth)
    ensures Extends(p0, p2, f1 + f2, depth)
  {
  }

  /** A frontier item whose page is recorded in `pages` at the item's depth. */
  ghost predicate Recorded(it: Item, pages: map<string, int>, key: Url -> string) {
    key(it.u) in pages && pages[key(it.u)] == it.depth
  }

  lemma RecordedGrows(it: Item, p0: map<string, int>, p1: map<string, int>, key: Url -> string)
    requires Recorded(it, p0, key) && Grows(p0, p1)
    ensures Recorded(it, p1, key)
  {
  }

  /**
   * shouldVisit(start, 0) on a crawler that has seen nothing yet: a depth
   * limit that is not negative, an http or https scheme, a start internal
   * to its own normaliser, and robots.txt allowing it when respected.
   */
  predicate StartAllowed(start: Url, maxDepth: int, respectRobots: bool, fetchedRobots: Option<Url -> bool>, lib: Lib) {
    && 0 <= maxDepth
    && (start.scheme == "http" || start.scheme == "https")
    && IsInternal(NewDomainNormalizer(start, lib), Some(start), lib)
    && !(respectRobots && fetchedRobots.Some? && !fetchedRobots.value(start))
  }

  class Crawler {
    const lib: Lib
    const normalizer: DomainNormalizer
    const respectRobots: bool
    /** RobotsGuard.Allowed of the fetched robots.txt; None when none was fetched. */
    const robots: Option<Url -> bool>
    const maxDepth: int
    const maxURLs: int
    /** Normalizer.Normalize as a function value: the key of seenPages and seenLinks (see Keyed). */
    const key: Url -> string

    var seenPages: map<string, int>
    var seenLinks: set<string>
    var checkedLinks: int
    var totalLinks: int

    /** NewCrawler; `fetchedRobots` stands for FetchRobots, consulted only when robots are respected. */
    constructor (start: Url, maxDepth: int, respectRobots: bool, fetchedRobots: Option<Url -> bool>, lib: Lib)
      ensures this.lib == lib && this.maxDepth == maxDepth && this.respectRobots == respectRobots
      ensures normalizer == NewDomainNormalizer(start, lib)
      ensures robots == (if respectRobots then fetchedRobots else None)
      ensures maxURLs == DefaultMaxURLs
      ensures seenPages == map[] && seenLinks == {} && checkedLinks == 0 && totalLinks == 0
      ensures Keyed()
      ensures ShouldVisit(start, 0) == StartAllowed(start, maxDepth, respectRobots, fetchedRobots, lib)
    {
      this.lib := lib;
      this.key := u => NormalForm(Some(u), lib);
      this.normalizer := NewDomainNormalizer(start, lib);
      this.respectRobots := respectRobots;
      this.robots := if respectRobots then fetchedRobots else None;
      this.maxDepth := maxDepth;
      this.maxURLs := DefaultMaxURLs;
      seenPages := map[];
      seenLinks := {};
      checkedLinks := 0;
      totalLinks := 0;
    }

    /** The key of every URL is its normal form. */
    ghost predicate Keyed() {
      forall u {:trigger NormalForm(Some(u), lib)} :: key(u) == NormalForm(Some(u), lib)
    }

    /** The most pages one crawl can record: the start page always, then up to MaxURLs. */
    function Cap(): nat {
      if maxURLs > 1 then maxURLs else 1
    }

    /** shouldVisit: depth, scheme, same site, not yet seen, and robots allow it. */
    predicate ShouldVisit(u: Url, depth: int)
      reads this
      ensures ShouldVisit(u, depth) ==> depth <= maxDepth && (u.scheme == "http" || u.scheme == "https")
      ensures ShouldVisit(u, depth) ==> IsInternal(normalizer, Some(u), lib)
      ensures ShouldVisit(u, depth) ==> key(u) !in seenPages
      ensures ShouldVisit(u, depth) && respectRobots && robots.Some? ==> robots.value(u)
    {
      Allowed(u, depth) && key(u) !in seenPages
    }

    /** shouldVisit without its seen-page test: depth, scheme, same site and robots. */
    predicate Allowed(u: Url, depth: int) {
      && depth <= maxDepth
      && (u.scheme == "http" || u.scheme == "https")
      && IsInternal(normalizer, Some(u), lib)
      && !(respectRobots && robots.Some? && !robots.value(u))
    }

    /**
     * Every link of a fetched page was counted among the seen links, and was
     * recorded as a page unless shouldVisit's other tests or the MaxURLs cap
     * refused it.
     */
    ghost predicate Followed(links: seq<Url>, n: nat, depth: int, seen: set<string>, pages: map<string, int>, discovered: int)
      requires n <= |links|
    {
      forall k :: 0 <= k < n ==> LinkFollowed(links[k], depth, seen, pages, discovered)
    }

    /** One link: counted among the seen links, and recorded as a page unless refused. */
    ghost predicate LinkFollowed(u: Url, depth: int, seen: set<string>, pages: map<string, int>, discovered: int) {
      && key(u) in seen
      && (Allowed(u, depth) && discovered < maxURLs ==> key(u) in pages)
    }

    /** A page taken at `depth` whose fetch gave `r`: if it gave links, they were followed one level deeper. */
    ghost predicate Handled(r: Fetched, depth: int, seen: set<string>, pages: map<string, int>, discovered: int) {
      r.Page? ==> Followed(r.links, |r.links|, depth + 1, seen, pages, discovered)
    }

    /** The crawler's own state, as a value. */
    function State(): Snapshot
      reads this
    {
      Snapshot(seenPages, seenLinks, totalLinks, checkedLinks)
    }

    /**
     * What holds of the frontier and the crawler between two steps of Crawl,
     * measured against the state `s0` the crawl started from.
     */
    ghost predicate Inv(f: Frontier, s0: Snapshot, normStart: string)
      reads this
    {
      Keyed() && FrontierOk(f, s0, normStart, State(), maxDepth, Cap())
    }

    /** One link of a fetched page: count it if new, then enqueue it if the gate and the cap allow. */
    method VisitLink(u2: Url, depth: int, f: Frontier, ghost s0: Snapshot, ghost normStart: string)
      returns (g: Frontier)
      requires Inv(f, s0, normStart) && 0 <= depth <= maxDepth
      requires f.events != [] && !f.events[|f.events| - 1].Sink?
      modifies this
      ensures Inv(g, s0, normStart)
      ensures g.visited == f.visited && g.errs == f.errs
      ensures g.events != [] && !g.events[|g.events| - 1].Sink?
      ensures seenLinks == old(seenLinks) + {key(u2)}
      ensures totalLinks == old(totalLinks) + (if key(u2) in old(seenLinks) then 0 else 1)
      ensures if old(ShouldVisit(u2, depth + 1)) && f.discovered < maxURLs then
          g.queue == f.queue + [Item(u2, depth + 1)] && g.discovered == f.discovered + 1
          && seenPages == old(seenPages)[key(u2) := depth + 1]
        else g.queue == f.queue && g.discovered == f.discovered && seenPages == old(seenPages)
      // the same, in the terms FollowLinks accumulates
      ensures LinkFollowed(u2, depth + 1, seenLinks, seenPages, g.discovered)
      ensures Extends(old(seenPages), seenPages, {key(u2)}, depth + 1)
      ensures g.queue == f.queue || (g.queue == f.queue + [Item(u2, depth + 1)] && Recorded(Item(u2, depth + 1), seenPages, key))
      ensures f.discovered <= g.discovered
    {
      ghost var pages0 := seenPages;
      g := CountLink(u2, f, s0, normStart);
      ghost var f1 := g;
      g := EnqueueLink(u2, depth, g, s0, normStart);
      LinkOutcome(u2, depth, seenLinks, pages0, seenPages, f1, g);
    }

    lemma LinkOutcome(u2: Url, depth: int, seen: set<string>, pages0: map<string, int>, pages: map<string, int>,
                      f: Frontier, g: Frontier)
      requires key(u2) in seen
      requires if Allowed(u2, depth + 1) && key(u2) !in pages0 && f.discovered < maxURLs then
          g.queue == f.queue + [Item(u2, depth + 1)] && g.discovered == f.discovered + 1
          && pages == pages0[key(u2) := depth + 1]
        else g.queue == f.queue && g.discovered == f.discovered && pages == pages0
      ensures LinkFollowed(u2, depth + 1, seen, pages, g.discovered)
      ensures Extends(pages0, pages, {key(u2)}, depth + 1)
      ensures g.queue == f.queue || (g.queue == f.queue + [Item(u2, depth + 1)] && Recorded(Item(u2, depth + 1), pages, key))
    {
    }

    /** The seenLinks half of a link: a link whose normal form is new is counted, reported and checked. */
    method CountLink(u2: Url, f: Frontier, ghost s0: Snapshot, ghost normStart: string)
      returns (g: Frontier)
      requires Inv(f, s0, normStart)
      requires f.events != [] && !f.events[|f.events| - 1].Sink?
      modifies this`seenLinks, this`totalLinks
      ensures Inv(g, s0, normStart)
      ensures g.events != [] && !g.events[|g.events| - 1].Sink?
      ensures key(u2) in old(seenLinks) ==>
        seenLinks == old(seenLinks) && totalLinks == old(totalLinks) && g == f
      ensures key(u2) !in old(seenLinks) ==>
        && seenLinks == old(seenLinks) + {key(u2)} && totalLinks == old(totalLinks) + 1
        && g == f.(events := f.events + NewLinkEvents(f, checkedLinks, totalLinks, u2, IsInternal(normalizer, Some(u2), lib)))
    {
      g := f;
      var norm := Normalize(Some(u2), lib);
      if norm !in seenLinks {
        var more := NewLinkEvents(f, checkedLinks, totalLinks + 1, u2, IsInternal(normalizer, Some(u2), lib));
        ghost var st, cap := State(), Cap();
        LinkStep(f, s0, normStart, st, maxDepth, cap, norm, more[0], more[1]);
        assert [more[0], more[1]] == more;
        seenLinks := seenLinks + {norm};
        totalLinks := totalLinks + 1;
        g := f.(events := f.events + more);
        assert State() == st.(links := st.links + {norm}, total := st.total + 1) && Cap() == cap;
      }
    }

    /** The seenPages half of a link: enqueue it one level deeper if shouldVisit holds and the cap allows. */
    method EnqueueLink(u2: Url, depth: int, f: Frontier, ghost s0: Snapshot, ghost normStart: string)
      returns (g: Frontier)
      requires Inv(f, s0, normStart) && 0 <= depth <= maxDepth
      modifies this`seenPages
      ensures Inv(g, s0, normStart)
      ensures g.visited == f.visited && g.errs == f.errs && g.events == f.events
      ensures if old(ShouldVisit(u2, depth + 1)) && f.discovered < maxURLs then
          g.queue == f.queue + [Item(u2, depth + 1)] && g.discovered == f.discovered + 1
          && seenPages == old(seenPages)[key(u2) := depth + 1]
        else g == f && seenPages == old(seenPages)
    {
      g := f;
      if ShouldVisit(u2, depth + 1) {
        if g.discovered < maxURLs {
          var n2 := Normalize(Some(u2), lib);
          PageStep(g, s0, normStart, State(), maxDepth, Cap(), n2, Item(u2, depth + 1));
          seenPages := seenPages[n2 := depth + 1];
          g := g.(discovered := g.discovered + 1, queue := g.queue + [Item(u2, depth + 1)]);
        }
      }
    }

    /** The result sunk for a page whose fetch failed. */
    function FailureResult(it: Item, message: string): CoreTypes.Result {
      CoreTypes.Result(lib.render(it.u), lib.render(it.u), true, 0, message, 0, it.depth)
    }

    /** The receive from the frontier and the progress report that follows it. */
    method TakePage(f: Frontier, ghost s0: Snapshot, ghost normStart: string)
      returns (g: Frontier, it: Item)
      requires Inv(f, s0, normStart) && f.queue != []
      ensures Inv(g, s0, normStart)
      ensures it == f.queue[0] && 0 <= it.depth <= maxDepth
      ensures g.queue == f.queue[1..] && g.visited == f.visited + 1 && g.discovered == f.discovered
      ensures g.errs == f.errs < g.visited
      ensures g.events == f.events + [Progress(CrawlProgress(g.visited, |g.queue|, g.discovered, g.errs, checkedLinks, totalLinks))]
    {
      it := f.queue[0];
      g := f.(queue := f.queue[1..], visited := f.visited + 1);
      var p := Progress(CrawlProgress(g.visited, |g.queue|, g.discovered, g.errs, checkedLinks, totalLinks));
      AddOther(seenLinks, totalLinks, g.events, s0, p);
      AppendAfterProgress(g.events, p, maxDepth);
      g := g.(events := g.events + [p]);
    }

    /** A failed fetch: sink the failure and count one error. */
    method FailPage(it: Item, message: string, g: Frontier, ghost s0: Snapshot, ghost normStart: string)
      returns (h: Frontier)
      requires Inv(g, s0, normStart) && 0 <= it.depth <= maxDepth && g.errs < g.visited
      requires g.events != [] && g.events[|g.events| - 1].Progress?
      ensures Inv(h, s0, normStart)
      ensures h == g.(events := g.events + [Sink(FailureResult(it, message))], errs := g.errs + 1)
    {
      var e := Sink(FailureResult(it, message));
      AddOther(seenLinks, totalLinks, g.events, s0, e);
      AppendAfterProgress(g.events, e, maxDepth);
      h := g.(events := g.events + [e], errs := g.errs + 1);
    }

    /**
     * The links of a fetched page, one after another. The ghost `added` is
     * what the loop appended to the frontier.
     */
    method FollowLinks(links: seq<Url>, depth: int, g: Frontier, ghost s0: Snapshot, ghost normStart: string)
      returns (h: Frontier, ghost added: seq<Item>)
      requires Inv(g, s0, normStart) && 0 <= depth <= maxDepth
      requires g.events != [] && !g.events[|g.events| - 1].Sink?
      modifies this
      ensures Inv(h, s0, normStart)
      ensures h.visited == g.visited && h.errs == g.errs
      ensures seenLinks == old(seenLinks) + LinkForms(links, |links|, key)
      ensures Extends(old(seenPages), seenPages, LinkForms(links, |links|, key), depth + 1)
      ensures Followed(links, |links|, depth + 1, seenLinks, seenPages, h.discovered)
      ensures h.queue == g.queue + added
      ensures forall k :: 0 <= k < |added| ==> added[k].u in links && Recorded(added[k], seenPages, key)
    {
      h := g;
      added := [];
      FollowStart(links, depth, seenLinks, seenPages, h.discovered);
      var i := 0;
      while i < |links|
        invariant 0 <= i <= |links|
        invariant Inv(h, s0, normStart) && h.visited == g.visited && h.errs == g.errs
        invariant h.events != [] && !h.events[|h.events| - 1].Sink?
        invariant h.queue == g.queue + added
        invariant FollowedPrefix(links, i, depth, old(seenLinks), old(seenPages), seenLinks, seenPages, added, h.discovered)
      {
        ghost var more;
        h, more := FollowOne(links, i, depth, h, s0, normStart, old(seenLinks), old(seenPages), g.queue, added);
        added := added + more;
        i := i + 1;
      }
      FollowDone(links, depth, old(seenLinks), old(seenPages), seenLinks, seenPages, added, h.discovered);
    }

    /** One turn of FollowLinks's loop: VisitLink on the `i`-th link. */
    method FollowOne(links: seq<Url>, i: int, depth: int, h: Frontier, ghost s0: Snapshot, ghost normStart: string,
                     ghost seen0: set<string>, ghost pages0: map<string, int>, ghost base: seq<Item>, ghost added: seq<Item>)
      returns (h1: Frontier, ghost more: seq<Item>)
      requires Inv(h, s0, normStart) && 0 <= depth <= maxDepth && 0 <= i < |links|
      requires h.events != [] && !h.events[|h.events| - 1].Sink?
      requires FollowedPrefix(links, i, depth, seen0, pages0, seenLinks, seenPages, added, h.discovered)
      requires h.queue == base + added
      modifies this
      ensures Inv(h1, s0, normStart) && h1.visited == h.visited && h1.errs == h.errs
      ensures h1.events != [] && !h1.events[|h1.events| - 1].Sink?
      ensures h1.queue == base + (added + more)
      ensures FollowedPrefix(links, i + 1, depth, seen0, pages0, seenLinks, seenPages, added + more, h1.discovered)
    {
      ghost var seen, pages := seenLinks, seenPages;
      h1 := VisitLink(links[i], depth, h, s0, normStart);
      more := if h1.queue == h.queue then [] else [Item(links[i], depth + 1)];
      FollowStep(links, i, depth, seen0, pages0, seen, pages, added, h.discovered,
                 seenLinks, seenPages, added + more, h1.discovered);
      AppendAssoc(base, added, more);
    }

    /** What FollowLinks has done after the first `i` links, starting from the seen sets it was given. */
    ghost predicate FollowedPrefix(links: seq<Url>, i: int, depth: int, seen0: set<string>, pages0: map<string, int>,
                                   seen: set<string>, pages: map<string, int>, added: seq<Item>, discovered: int) {
      && 0 <= i <= |links|
      && seen == seen0 + LinkForms(links, i, key)
      && Extends(pages0, pages, LinkForms(links, i, key), depth + 1)
      && Followed(links, i, depth + 1, seen, pages, discovered)
      && (forall k :: 0 <= k < |added| ==> added[k].u in links && Recorded(added[k], pages, key))
    }

    lemma FollowStart(links: seq<Url>, depth: int, seen: set<string>, pages: map<string, int>, discovered: int)
      ensures FollowedPrefix(links, 0, depth, seen, pages, seen, pages, [], discovered)
    {
      assert seen + LinkForms(links, 0, key) == seen;
    }

    lemma FollowDone(links: seq<Url>, depth: int, seen0: set<string>, pages0: map<string, int>,
                     seen: set<string>, pages: map<string, int>, added: seq<Item>, discovered: int)
      requires FollowedPrefix(links, |links|, depth, seen0, pages0, seen, pages, added, discovered)
      ensures seen == seen0 + LinkForms(links, |links|, key)
      ensures Extends(pages0, pages, LinkForms(links, |links|, key), depth + 1)
      ensures Followed(links, |links|, depth + 1, seen, pages, discovered)
      ensures forall k :: 0 <= k < |added| ==> added[k].u in links && Recorded(added[k], pages, key)
    {
    }

    lemma FollowStep(links: seq<Url>, i: int, depth: int, seen0: set<string>, pages0: map<string, int>,
                     seen: set<string>, pages: map<string, int>, added: seq<Item>, discovered: int,
                     seen1: set<string>, pages1: map<string, int>, added1: seq<Item>, discovered1: int)
      requires FollowedPrefix(links, i, depth, seen0, pages0, seen, pages, added, discovered) && i < |links|
      requires seen1 == seen + {key(links[i])}
      requires LinkFollowed(links[i], depth + 1, seen1, pages1, discovered1) && discovered <= discovered1
      requires Extends(pages, pages1, {key(links[i])}, depth + 1)
      requires added1 == added || (added1 == added + [Item(links[i], depth + 1)] && Recorded(Item(links[i], depth + 1), pages1, key))
      ensures FollowedPrefix(links, i + 1, depth, seen0, pages0, seen1, pages1, added1, discovered1)
    {
      ExtendsTrans(pages0, pages, pages1, LinkForms(links, i, key), {key(links[i])}, depth + 1);
      LinkFormsNext(links, i, key);
      forall k | 0 <= k < |added1| ensures added1[k].u in links && Recorded(added1[k], pages1, key) {
        if k < |added| {
          assert added1[k] == added[k];
          RecordedGrows(added[k], pages, pages1, key);
        }
      }
    }

    /**
     * One page taken from the frontier: report progress, fetch it, then
     * either sink the failure or visit its links. A failed page changes
     * neither seen set. The ghost `added` is what the page appended to the
     * frontier.
     */
    method VisitPage(fetch: Url -> Fetched, f: Frontier, ghost s0: Snapshot, ghost normStart: string)
      returns (g: Frontier, ghost added: seq<Item>)
      requires Inv(f, s0, normStart) && f.queue != []
      modifies this
      ensures Inv(g, s0, normStart)
      ensures g.visited == f.visited + 1
      ensures g.queue == f.queue[1..] + added
      ensures fetch(f.queue[0].u).FetchFailed? ==>
        && added == [] && g.discovered == f.discovered && g.errs == f.errs + 1
        && seenPages == old(seenPages) && seenLinks == old(seenLinks) && totalLinks == old(totalLinks)
        && g.events != [] && g.events[|g.events| - 1] == Sink(FailureResult(f.queue[0], fetch(f.queue[0].u).message))
      ensures fetch(f.queue[0].u).Page? ==>
        var links := fetch(f.queue[0].u).links;
        && g.errs == f.errs
        && seenLinks == old(seenLinks) + LinkForms(links, |links|, key)
        && Extends(old(seenPages), seenPages, LinkForms(links, |links|, key), f.queue[0].depth + 1)
        && (forall k :: 0 <= k < |added| ==> added[k].u in links)
      // in both cases
      ensures Handled(fetch(f.queue[0].u), f.queue[0].depth, seenLinks, seenPages, g.discovered)
      ensures Grows(old(seenPages), seenPages) && old(seenLinks) <= seenLinks && f.discovered <= g.discovered
      ensures forall k :: 0 <= k < |added| ==> Recorded(added[k], seenPages, key)
    {
      var it;
      g, it := TakePage(f, s0, normStart);
      match fetch(it.u)
      case FetchFailed(message) =>
        g := FailPage(it, message, g, s0, normStart);
        added := [];
        assert !fetch(f.queue[0].u).Page?;
      case Page(links) =>
        g, added := FollowLinks(links, it.depth, g, s0, normStart);
        assert Handled(Page(links), it.depth, seenLinks, seenPages, g.discovered);
    }

    /** The start check passed: record the start page at depth 0 and queue it. */
    method Begin(start: Url, ghost s0: Snapshot) returns (normStart: string, f: Frontier)
      requires Keyed() && s0 == State() && ShouldVisit(start, 0)
      modifies this`seenPages
      ensures normStart == key(start)
      ensures Inv(f, s0, normStart) && f == Frontier([Item(start, 0)], 0, 1, 0, [])
    {
      normStart := Normalize(Some(start), lib);
      StartPages(seenPages, normStart, maxDepth);
      seenPages := seenPages[normStart := 0];
      f := Frontier([Item(start, 0)], 0, 1, 0, []);
    }

    lemma InvPost(f: Frontier, s0: Snapshot, normStart: string)
      requires Inv(f, s0, normStart)
      ensures CrawlPost(s0, f.events)
      ensures normStart in seenPages && seenPages[normStart] == 0
    {
    }

    /**
     * The pages taken so far are recorded at their depth and, when fetched,
     * had their links followed; the pages still in the frontier are recorded.
     */
    ghost predicate Explored(fetch: Url -> Fetched, taken: seq<Item>, queue: seq<Item>,
                             seen: set<string>, pages: map<string, int>, discovered: int) {
      && (forall j :: 0 <= j < |taken| ==> Recorded(taken[j], pages, key))
      && (forall j :: 0 <= j < |taken| ==> Handled(fetch(taken[j].u), taken[j].depth, seen, pages, discovered))
      && (forall k :: 0 <= k < |queue| ==> Recorded(queue[k], pages, key))
    }

    lemma ExploreStep(fetch: Url -> Fetched, taken: seq<Item>, queue: seq<Item>,
                      seen: set<string>, pages: map<string, int>, discovered: int,
                      added: seq<Item>, seen1: set<string>, pages1: map<string, int>, discovered1: int)
      requires Explored(fetch, taken, queue, seen, pages, discovered) && queue != []
      requires Grows(pages, pages1) && seen <= seen1 && discovered <= discovered1
      requires Handled(fetch(queue[0].u), queue[0].depth, seen1, pages1, discovered1)
      requires forall k :: 0 <= k < |added| ==> Recorded(added[k], pages1, key)
      ensures Explored(fetch, taken + [queue[0]], queue[1..] + added, seen1, pages1, discovered1)
    {
      var taken1, queue1 := taken + [queue[0]], queue[1..] + added;
      forall j | 0 <= j < |taken1|
        ensures Recorded(taken1[j], pages1, key)
        ensures Handled(fetch(taken1[j].u), taken1[j].depth, seen1, pages1, discovered1)
      {
        if j < |taken| {
          assert taken1[j] == taken[j];
          RecordedGrows(taken[j], pages, pages1, key);
          var r := fetch(taken[j].u);
          if r.Page? {
          }
        } else {
          RecordedGrows(queue[0], pages, pages1, key);
        }
      }
      forall k | 0 <= k < |queue1| ensures Recorded(queue1[k], pages1, key) {
        if k < |queue| - 1 {
          assert queue1[k] == queue[k + 1];
          RecordedGrows(queue[k + 1], pages, pages1, key);
        } else {
          assert queue1[k] == added[k - (|queue| - 1)];
        }
      }
    }

    /** One turn of Explore's loop: take a page, fetch it and follow its links. */
    method ExploreOne(start: Url, fetch: Url -> Fetched, f: Frontier, ghost s0: Snapshot, ghost normStart: string,
                      ghost taken: seq<Item>)
      returns (g: Frontier, ghost taken1: seq<Item>)
      requires Inv(f, s0, normStart) && f.queue != [] && |taken| == f.visited
      requires taken == [] ==> f.queue == [Item(start, 0)]
      requires taken != [] ==> taken[0] == Item(start, 0)
      requires Explored(fetch, taken, f.queue, seenLinks, seenPages, f.discovered)
      modifies this
      ensures Inv(g, s0, normStart) && |taken1| == g.visited && g.visited == f.visited + 1
      ensures taken1 != [] && taken1[0] == Item(start, 0)
      ensures Explored(fetch, taken1, g.queue, seenLinks, seenPages, g.discovered)
    {
      ghost var seen0, pages0 := seenLinks, seenPages;
      ghost var added;
      g, added := VisitPage(fetch, f, s0, normStart);
      ExploreStep(fetch, taken, f.queue, seen0, pages0, f.discovered, added, seenLinks, seenPages, g.discovered);
      taken1 := taken + [f.queue[0]];
    }

    /**
     * The start check and the frontier loop, up to the point where the loop
     * stops. The ghost `taken` lists the pages taken from the frontier, in
     * order.
     */
    method Explore(start: Url, fetch: Url -> Fetched, cancelAfter: Option<nat>)
      returns (end: LoopEnd, events: seq<Event>, ghost taken: seq<Item>)
      requires Keyed()
      modifies this
      ensures end == Rejected <==> !old(ShouldVisit(start, 0))
      ensures end == Rejected ==> State() == old(State()) && events == [] && taken == []
      ensures end == CanceledMidway ==> cancelAfter.Some?
      ensures end != Rejected ==>
        key(start) in seenPages && seenPages[key(start)] == 0
      ensures CrawlPost(old(State()), events)
      // a drained frontier: the start came first, and every page recorded was taken
      ensures end == Drained ==> taken != [] && taken[0] == Item(start, 0)
      ensures end == Drained ==> |taken| == |seenPages.Keys| - |old(seenPages).Keys|
      // every page taken is recorded at its depth and had its links followed
      ensures forall j :: 0 <= j < |taken| ==> Recorded(taken[j], seenPages, key)
      ensures forall j :: 0 <= j < |taken| ==>
        Handled(fetch(taken[j].u), taken[j].depth, seenLinks, seenPages, |seenPages.Keys| - |old(seenPages).Keys|)
    {
      ghost var s0 := State();
      if !ShouldVisit(start, 0) {
        return Rejected, [], [];
      }
      var normStart, f := Begin(start, s0);
      taken := [];
      while f.queue != [] && (cancelAfter.None? || f.visited < cancelAfter.value)
        invariant Inv(f, s0, normStart)
        invariant |taken| == f.visited
        invariant taken == [] ==> f.queue == [Item(start, 0)]
        invariant taken != [] ==> taken[0] == Item(start, 0)
        invariant Explored(fetch, taken, f.queue, seenLinks, seenPages, f.discovered)
        decreases Cap() - f.visited
      {
        f, taken := ExploreOne(start, fetch, f, s0, normStart, taken);
      }
      InvPost(f, s0, normStart);
      end := if f.queue == [] then Drained else CanceledMidway;
      events := f.events;
    }

    /** What every crawl that got past its start check guarantees, against the state `s0` it began in. */
    ghost predicate CrawlPost(s0: Snapshot, events: seq<Event>)
      reads this
    {
      && s0.pages.Keys <= seenPages.Keys
      && (forall k :: k in s0.pages ==> seenPages[k] == s0.pages[k])
      && |seenPages.Keys| <= |s0.pages.Keys| + Cap()
      && (forall k :: k in seenPages && k !in s0.pages ==> 0 <= seenPages[k] <= maxDepth)
      && s0.links <= seenLinks
      && totalLinks == s0.total + |seenLinks - s0.links|
      && CheckCount(events) == |seenLinks - s0.links|
      && checkedLinks == s0.checked
      && (forall k :: 0 <= k < |events| && events[k].Sink? ==> FailedPage(events[k].r, maxDepth))
      && (forall k :: 0 <= k < |events| - 1 && events[k].Sink? ==> events[k + 1].Progress?)
    }

    /**
     * Crawl as written. The frontier channel is never closed and no nil item
     * is ever sent, so once the frontier is empty the loop waits for the
     * context: it returns ctx.Err() when the context is cancelled and never
     * returns otherwise. It never returns nil.
     */
    method Crawl(start: Url, fetch: Url -> Fetched, cancelAfter: Option<nat>)
      returns (outcome: CrawlOutcome, events: seq<Event>)
      requires Keyed()
      modifies this
      ensures outcome != Done
      ensures outcome == StartRejected <==> !old(ShouldVisit(start, 0))
      ensures outcome == Blocked <==> old(ShouldVisit(start, 0)) && cancelAfter.None?
      ensures outcome == StartRejected ==> State() == old(State()) && events == []
      ensures outcome != StartRejected ==>
        key(start) in seenPages && seenPages[key(start)] == 0
      ensures CrawlPost(old(State()), events)
    {
      var end;
      ghost var taken;
      end, events, taken := Explore(start, fetch, cancelAfter);
      match end
      case Rejected => outcome := StartRejected;
      case CanceledMidway => outcome := Canceled;
      case Drained => outcome := if cancelAfter.Some? then Canceled else Blocked;
    }

    /** Crawl as evidently intended: an empty frontier ends the crawl with nil. */
    method CrawlUntilDrained(start: Url, fetch: Url -> Fetched, cancelAfter: Option<nat>)
      returns (outcome: CrawlOutcome, events: seq<Event>)
      requires Keyed()
      modifies this
      ensures outcome != Blocked
      ensures outcome == StartRejected <==> !old(ShouldVisit(start, 0))
      ensures cancelAfter.None? && old(ShouldVisit(start, 0)) ==> outcome == Done
      ensures outcome == Canceled ==> cancelAfter.Some?
      ensures outcome == StartRejected ==> State() == old(State()) && events == []
      ensures CrawlPost(old(State()), events)
    {
      var end;
      ghost var taken;
      end, events, taken := Explore(start, fetch, cancelAfter);
      match end
      case Rejected => outcome := StartRejected;
      case CanceledMidway => outcome := Canceled;
      case Drained => outcome := Done;
    }
  }
}
