/**
 * The job monitor of cmd/server/web/static/app.js: the module-level
 * variables JOB_ID, ALL_RESULTS, STOPPED and MODE, the start, stop and
 * filter-chip handlers, and the self-rescheduling pollStatus.
 *
 * Every network call is an input: the response a handler awaits is a
 * parameter of the method that stands for the handler. Scheduling the next
 * pollStatus after 800 ms is the result `again`; the caller runs the next
 * cycle. What the page shows is kept as a `Screen` value.
 */
module AppMonitor {
  import opened Wrappers
  import Text
  import opened AppView

  /** How one fetch ended: OK with its decoded body, a non-OK status, or an exception (network or JSON). */
  datatype Fetch<T> = Ok(body: T) | NotOk | Threw

  /** How the start handler ended: the URL alert, the start-error alert, a caught exception, or pollStatus begun. */
  datatype StartOutcome = InvalidUrl | StartFailed | StartThrew | Started

  /** The states after which the poll loop stops. */
  predicate Terminal(state: Option<string>) {
    state == Some("done") || state == Some("failed") || state == Some("canceled")
  }

  /** The progress panel (hidden or not), the summary line and the table rows. */
  datatype Screen = Screen(shown: bool, progress: ProgressView, summary: Summary, rows: seq<Row>)

  /** The client's variables and screen as a value. */
  datatype Client = Client(jobId: Option<string>, allResults: seq<Record>, stopped: bool, mode: string, screen: Screen)

  /** renderTable's effect on the screen. */
  function Rendered(sc: Screen, rs: seq<Record>, mode: string): Screen {
    sc.(summary := SummaryOf(rs), rows := RenderRows(Visible(rs, mode)))
  }

  /** The table shows ALL_RESULTS under MODE. */
  ghost predicate Consistent(c: Client) {
    c.screen == Rendered(c.screen, c.allResults, c.mode)
  }

  predicate Active(c: Client) { Truthy(c.jobId) && !c.stopped }

  /** One run of pollStatus: the state it leaves and whether it schedules another run. */
  function Poll(c: Client, status: Fetch<Status>, results: Fetch<seq<Record>>): (r: (Client, bool))
    ensures r.1 <==> Active(c) && status.Ok? && !Terminal(status.body.state)
    ensures r.0.jobId == c.jobId && r.0.stopped == c.stopped && r.0.mode == c.mode
    ensures !(Active(c) && status.Ok?) ==> r.0 == c
    ensures Active(c) && status.Ok? ==> r.0.screen.progress == UpdateProgress(status.body)
    ensures r.0.allResults == (if Active(c) && status.Ok? && results.Ok? then results.body else c.allResults)
    ensures Active(c) && status.Ok? && results.Ok? ==> Consistent(r.0)
    ensures Consistent(c) ==> Consistent(r.0)
  {
    if !Active(c) then (c, false)
    else match status
      case NotOk => (c, false)
      case Threw => (c, false)
      case Ok(st) =>
        var c1 := c.(screen := c.screen.(progress := UpdateProgress(st)));
        var c2 := match results
          case Ok(rs) => c1.(allResults := rs, screen := Rendered(c1.screen, rs, c1.mode))
          case _ => c1;
        (c2, !Terminal(st.state))
  }

  /** A chain of poll cycles fed one pair of responses each, run while each cycle schedules the next. */
  function Run(c: Client, rs: seq<(Fetch<Status>, Fetch<seq<Record>>)>): (r: (Client, nat))
    ensures r.1 <= |rs|
    ensures r.0.jobId == c.jobId && r.0.stopped == c.stopped && r.0.mode == c.mode
    ensures Consistent(c) ==> Consistent(r.0)
    decreases |rs|
  {
    if rs == [] then (c, 0)
    else
      var (c1, again) := Poll(c, rs[0].0, rs[0].1);
      if again then
        var (c2, n) := Run(c1, rs[1..]);
        (c2, n + 1)
      else (c1, 1)
  }

  /** A chain makes no more cycles than it takes to meet a failed status fetch or a terminal state. */
  lemma {:induction false} RunStopsAtTerminal(c: Client, rs: seq<(Fetch<Status>, Fetch<seq<Record>>)>, k: nat)
    requires k < |rs| && (!rs[k].0.Ok? || Terminal(rs[k].0.body.state))
    ensures Run(c, rs).1 <= k + 1
    decreases |rs|
  {
    if k > 0 {
      var (c1, again) := Poll(c, rs[0].0, rs[0].1);
      if again {
        RunStopsAtTerminal(c1, rs[1..], k - 1);
      }
    }
  }

  /** An active chain whose status fetches all succeed in non-terminal states runs every cycle. */
  lemma {:induction false} RunAllLive(c: Client, rs: seq<(Fetch<Status>, Fetch<seq<Record>>)>)
    requires Active(c)
    requires forall k :: 0 <= k < |rs| ==> rs[k].0.Ok? && !Terminal(rs[k].0.body.state)
    ensures Run(c, rs).1 == |rs|
    decreases |rs|
  {
    if rs != [] {
      var (c1, again) := Poll(c, rs[0].0, rs[0].1);
      assert forall k :: 0 <= k < |rs[1..]| ==> rs[1..][k] == rs[k + 1];
      RunAllLive(c1, rs[1..]);
    }
  }

  /** Once stopped, or before any job, a poll cycle does nothing and schedules nothing. */
  lemma PollInert(c: Client, status: Fetch<Status>, results: Fetch<seq<Record>>)
    requires c.stopped || !Truthy(c.jobId)
    ensures Poll(c, status, results) == (c, false)
  {
  }

  /**
   * The request the start handler would post for the form's fields: the
   * trimmed URL, the normalised depth and the robots checkbox; None when the
   * URL does not begin like http(s):/ and the handler alerts instead.
   */
  function StartRequest(urlField: string, depthField: string, respectRobots: bool): (r: Option<StartBody>)
    ensures r.None? <==> !LooksLikeHttp(Text.TrimJs(urlField))
    ensures r.Some? ==> r.value.startUrl == Text.TrimJs(urlField) && r.value.respectRobots == respectRobots
    ensures r.Some? ==> 0 <= r.value.depth <= 5 && r.value.depth == InputDepth(depthField)
  {
    var startUrl := Text.TrimJs(urlField);
    var depth := InputDepth(depthField);
    if !LooksLikeHttp(startUrl) then None else Some(StartBody(startUrl, depth, respectRobots))
  }

  /** The bar the start button shows before the first poll: updateProgress({}). */
  const StartProgress: ProgressView := UpdateProgress(EmptyStatus)

  /** The loop of renderTable: one row appended per record shown, in order. */
  method BuildRows(shown: seq<Record>) returns (rows: seq<Row>)
    ensures |rows| == |shown|
    ensures forall k :: 0 <= k < |shown| ==> rows[k] == RenderRow(shown[k])
  {
    rows := [];
    for i := 0 to |shown|
      invariant |rows| == i
      invariant forall k :: 0 <= k < i ==> rows[k] == RenderRow(shown[k])
    {
      rows := rows + [RenderRow(shown[i])];
    }
  }

  class Monitor {
    var jobId: Option<string>
    var allResults: seq<Record>
    var stopped: bool
    var mode: string
    var screen: Screen

    /** The page as loaded: no job, no results, mode "all", the panel hidden and the table empty. */
    constructor ()
      ensures State() == Client(None, [], false, "all",
                                Screen(false, ProgressView(0, 0, 0, 0, false, 0), Summary(0, 0, 0, 0), []))
      ensures Consistent(State())
    {
      jobId := None;
      allResults := [];
      stopped := false;
      mode := "all";
      screen := Screen(false, ProgressView(0, 0, 0, 0, false, 0), Summary(0, 0, 0, 0), []);
    }

    function State(): Client
      reads this
    {
      Client(jobId, allResults, stopped, mode, screen)
    }

    /**
     * The start button: clear STOPPED, read and normalise the form, reject a
     * URL that does not begin like http(s):/, show the panel, post the start
     * request and, on an OK answer, take its job_id and empty ALL_RESULTS
     * before pollStatus starts. `resp` is the answer to the start request
     * (its body the decoded job_id, None when it is missing).
     */
    method Start(urlField: string, depthField: string, respectRobots: bool, resp: Fetch<Option<string>>)
      returns (outcome: StartOutcome, sent: Option<StartBody>)
      modifies this`stopped, this`screen, this`jobId, this`allResults
      ensures !stopped
      ensures sent == StartRequest(urlField, depthField, respectRobots)
      ensures sent.None? <==> outcome == InvalidUrl
      ensures sent.None? ==> screen == old(screen)
      ensures sent.Some? ==> screen == old(screen).(shown := true, progress := StartProgress)
      ensures outcome == Started <==> sent.Some? && resp.Ok?
      ensures outcome == StartFailed <==> sent.Some? && resp.NotOk?
      ensures outcome == Started ==> jobId == resp.body && allResults == []
      ensures outcome != Started ==> jobId == old(jobId) && allResults == old(allResults)
    {
      stopped := false;
      sent := StartRequest(urlField, depthField, respectRobots);
      if sent.None? {
        outcome := InvalidUrl;
      } else {
        screen := screen.(shown := true, progress := StartProgress);
        outcome := Answer(resp);
      }
    }

    /** The answer to the start request: an OK answer gives the job and empties ALL_RESULTS. */
    method Answer(resp: Fetch<Option<string>>) returns (outcome: StartOutcome)
      modifies this`jobId, this`allResults
      ensures outcome == (if resp.Ok? then Started else if resp.NotOk? then StartFailed else StartThrew)
      ensures resp.Ok? ==> jobId == resp.body && allResults == []
      ensures !resp.Ok? ==> jobId == old(jobId) && allResults == old(allResults)
    {
      match resp
      case Threw => outcome := StartThrew;
      case NotOk => outcome := StartFailed;
      case Ok(id) =>
        jobId := id;
        allResults := [];
        outcome := Started;
    }

    /** The stop button: nothing without a job; otherwise STOPPED is set whatever the stop request gives. */
    method Stop() returns (sent: bool)
      modifies this`stopped
      ensures sent == Truthy(jobId)
      ensures stopped == (old(stopped) || Truthy(jobId))
    {
      if !Truthy(jobId) {
        return false;
      }
      stopped := true;
      sent := true;
    }

    /**
     * renderTable: the summary over all results, then the table body built by
     * appending one row per record the mode keeps.
     */
    method RenderTable()
      modifies this`screen
      ensures screen == Rendered(old(screen), allResults, mode)
      ensures Consistent(State())
    {
      var summary := Summarize(allResults);
      var shown := Visible(allResults, mode);
      var rows := BuildRows(shown);
      screen := screen.(summary := summary, rows := rows);
    }

    /** A click in the chip bar: `chip` is the data-mode of the chip hit, None when the click missed every chip. */
    method SelectMode(chip: Option<string>)
      modifies this`mode, this`screen
      ensures chip.None? ==> mode == old(mode) && screen == old(screen)
      ensures chip.Some? ==> mode == chip.value && screen == Rendered(old(screen), allResults, chip.value)
      ensures chip.Some? ==> Consistent(State())
    {
      if chip.None? {
        return;
      }
      mode := chip.value;
      RenderTable();
    }

    /** One pollStatus run, fed the status and results responses; `again` is the setTimeout of the next run. */
    method PollStatus(status: Fetch<Status>, results: Fetch<seq<Record>>) returns (again: bool)
      modifies this`allResults, this`screen
      ensures (State(), again) == Poll(old(State()), status, results)
    {
      if !Truthy(jobId) || stopped {
        return false;
      }
      if !status.Ok? {
        return false;
      }
      var st := status.body;
      screen := screen.(progress := UpdateProgress(st));
      if results.Ok? {
        allResults := results.body;
        RenderTable();
      }
      if Terminal(st.state) {
        screen := screen.(progress := UpdateProgress(st));
        return false;
      }
      again := true;
    }
  }
}
