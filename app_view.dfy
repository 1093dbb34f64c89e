/**
 * The pure parts of the browser client cmd/server/web/static/app.js: the
 * status class of a result, the view-mode filter, the progress arithmetic,
 * the table summary and rows, the HTML escaper, and the normalisation of the
 * start form's inputs.
 *
 * JSON values arrive with fields that may be missing; a missing field is
 * None. JavaScript truthiness is spelled out: `x || 0` is `GetOr(0)`, a
 * string is truthy when non-empty, a number when non-zero.
 */
module AppView {
  import opened Wrappers
  import Text
  import CoreTypes

  // ---------------------------------------------------------------------------
  // Records as the client sees them

  /** One element of the /api/results array. */
  datatype Record = Record(
    url: Option<string>,
    pageUrl: Option<string>,
    internal: bool,
    statusCode: Option<int>,
    error: Option<string>,
    elapsedMs: Option<int>)

  /** The /api/status object. */
  datatype Status = Status(
    state: Option<string>,
    visited: Option<int>,
    queued: Option<int>,
    discovered: Option<int>,
    errors: Option<int>,
    checkedLinks: Option<int>,
    totalLinks: Option<int>)

  /** `{}`, the object the start handler hands to updateProgress. */
  const EmptyStatus := Status(None, None, None, None, None, None, None)

  predicate Truthy(s: Option<string>) { s.Some? && s.value != "" }

  /** A server-side result after JSON encoding: `error` is omitted when empty. */
  function FromResult(r: CoreTypes.Result): Record {
    Record(Some(r.url), Some(r.pageUrl), r.internal, Some(r.statusCode),
           if r.err == "" then None else Some(r.err), Some(r.elapsedMs))
  }

  /** A server-side status after JSON encoding: every field is present. */
  function FromStatus(st: CoreTypes.JobStatus): Status {
    Status(Some(st.state), Some(st.visited), Some(st.queued), Some(st.discovered),
           Some(st.errors), Some(st.checkedLinks), Some(st.totalLinks))
  }

  // ---------------------------------------------------------------------------
  // classOf and matchesFilters

  const ClassNames: set<string> := {"2", "3", "4", "5", "e"}

  /** classOf: an error wins; otherwise the hundreds of the status code, 200 to 599; anything else is "e". */
  function ClassOf(r: Record): (c: string)
    ensures c in ClassNames
    ensures Truthy(r.error) ==> c == "e"
    ensures !Truthy(r.error) ==>
      var code := r.statusCode.GetOr(0);
      && (c == "2" <==> 200 <= code < 300)
      && (c == "3" <==> 300 <= code < 400)
      && (c == "4" <==> 400 <= code < 500)
      && (c == "5" <==> 500 <= code < 600)
      && (c == "e" <==> code < 200 || code >= 600)
  {
    if Truthy(r.error) then "e"
    else
      var code := r.statusCode.GetOr(0);
      if 200 <= code < 300 then "2"
      else if 300 <= code < 400 then "3"
      else if 400 <= code < 500 then "4"
      else if 500 <= code < 600 then "5"
      else "e"
  }

  /** A page whose fetch failed (status code 0) shows as an error, with or without a message. */
  lemma FailedFetchIsError(r: CoreTypes.Result)
    requires r.statusCode == 0
    ensures ClassOf(FromResult(r)) == "e"
  {
  }

  predicate IsBroken(r: Record) {
    ClassOf(r) in {"4", "5", "e"}
  }

  /** matchesFilters for the view mode `mode`. */
  function MatchesFilters(r: Record, mode: string): (b: bool)
    ensures mode == "internal" ==> (b <==> r.internal)
    ensures mode == "external" ==> (b <==> !r.internal)
    ensures mode in ClassNames ==> (b <==> ClassOf(r) == mode)
    ensures mode !in ClassNames && mode != "internal" && mode != "external" ==> b
  {
    if mode == "internal" && !r.internal then false
    else if mode == "external" && r.internal then false
    else if mode in ClassNames && mode != ClassOf(r) then false
    else true
  }

  /** The class modes split the records: each record shows under exactly one of them. */
  lemma OneClassMode(r: Record)
    ensures exists m :: m in ClassNames && MatchesFilters(r, m)
    ensures forall m, n :: m in ClassNames && n in ClassNames && MatchesFilters(r, m) && MatchesFilters(r, n) ==> m == n
  {
    assert MatchesFilters(r, ClassOf(r));
  }

  /** The internal and external modes split the records. */
  lemma ScopeModesSplit(r: Record)
    ensures MatchesFilters(r, "internal") != MatchesFilters(r, "external")
  {
  }

  // ---------------------------------------------------------------------------
  // updateProgress

  /**
   * Math.round of the rational a / b for b > 0: the nearest integer, halves
   * rounded up. Dafny's division by a positive divisor rounds down.
   */
  function Round(a: int, b: int): (r: int)
    requires b > 0
    ensures 2 * b * r <= 2 * a + b < 2 * b * (r + 1)
  {
    (2 * a + b) / (2 * b)
  }

  /** A non-negative ratio rounds to a non-negative integer. */
  lemma RoundNonNegative(a: int, b: int)
    requires a >= 0 && b > 0
    ensures Round(a, b) >= 0
  {
    var r := Round(a, b);
    if r < 0 {
      assert 2 * b * (r + 1) <= 0 by {
        assert r + 1 <= 0;
        MulNonPositive(2 * b, r + 1);
      }
    }
  }

  lemma MulNonPositive(x: int, y: int)
    requires x >= 0 && y <= 0
    ensures x * y <= 0
  {
  }

  function Min(a: int, b: int): int { if a <= b then a else b }

  /** The share of visited pages, as a percentage capped at 100; 0 before anything is discovered. */
  function PagesPct(st: Status): int {
    var d := st.discovered.GetOr(0);
    if d > 0 then Min(100, Round(st.visited.GetOr(0) * 100, d)) else 0
  }

  /** The share of checked links, capped at 100; 0 before any link is counted. */
  function LinksPct(st: Status): int {
    var t := st.totalLinks.GetOr(0);
    if t > 0 then Min(100, Round(st.checkedLinks.GetOr(0) * 100, t)) else 0
  }

  /** The mean of the two shares, held at 99 until the state is "done", where it is 100. */
  function Combined(st: Status): int {
    var c := Round(PagesPct(st) + LinksPct(st), 2);
    if st.state.GetOr("") != "done" then Min(c, 99) else 100
  }

  predicate IsDone(st: Status) {
    || st.state.GetOr("") == "done"
    || (&& st.totalLinks.GetOr(0) > 0 && st.checkedLinks.GetOr(0) >= st.totalLinks.GetOr(0)
        && st.discovered.GetOr(0) > 0 && st.visited.GetOr(0) >= st.discovered.GetOr(0))
  }

  /** What updateProgress writes: the four counters, the done mark of the panel and the bar width in percent. */
  datatype ProgressView = ProgressView(
    visited: int, queued: int, discovered: int, errors: int, done: bool, width: int)

  function UpdateProgress(st: Status): (v: ProgressView)
    ensures v.done == IsDone(st)
    ensures v.done ==> v.width == 100
    ensures !v.done ==> v.width == Combined(st) <= 99
  {
    ProgressView(st.visited.GetOr(0), st.queued.GetOr(0), st.discovered.GetOr(0), st.errors.GetOr(0),
                 IsDone(st), if IsDone(st) then 100 else Combined(st))
  }

  predicate NonNegative(st: Status) {
    && st.visited.GetOr(0) >= 0 && st.discovered.GetOr(0) >= 0
    && st.checkedLinks.GetOr(0) >= 0 && st.totalLinks.GetOr(0) >= 0
  }

  /** With non-negative counters both shares and the bar lie in [0, 100]. */
  lemma ProgressBounds(st: Status)
    requires NonNegative(st)
    ensures 0 <= PagesPct(st) <= 100 && 0 <= LinksPct(st) <= 100
    ensures 0 <= Combined(st) <= 100
    ensures 0 <= UpdateProgress(st).width <= 100
    ensures st.discovered.GetOr(0) == 0 ==> PagesPct(st) == 0
    ensures st.totalLinks.GetOr(0) == 0 ==> LinksPct(st) == 0
  {
    var d, t := st.discovered.GetOr(0), st.totalLinks.GetOr(0);
    if d > 0 {
      RoundNonNegative(st.visited.GetOr(0) * 100, d);
    }
    if t > 0 {
      RoundNonNegative(st.checkedLinks.GetOr(0) * 100, t);
    }
    var p, l := PagesPct(st), LinksPct(st);
    assert 0 <= p + l <= 200;
    assert 0 <= Round(p + l, 2) <= 100;
  }

  /** The combined share reaches 100 exactly when the state is "done". */
  lemma CombinedFull(st: Status)
    ensures Combined(st) == 100 <==> st.state.GetOr("") == "done"
    ensures st.state.GetOr("") != "done" ==> Combined(st) <= 99
  {
  }

  /** No lower clamp: a negative count gives a negative share, hence a negative bar width. */
  lemma NegativeCountShowsNegativeBar()
    ensures UpdateProgress(Status(Some("running"), Some(-1), None, Some(1), None, None, None)).width == -50
  {
    var st := Status(Some("running"), Some(-1), None, Some(1), None, None, None);
    assert PagesPct(st) == -100;
    assert Round(-100, 2) == -50;
  }

  /** A running job whose counters are all complete already shows a full bar. */
  lemma CompleteCountersFillBar(st: CoreTypes.JobStatus)
    requires st.totalLinks > 0 && st.checkedLinks >= st.totalLinks
    requires st.discovered > 0 && st.visited >= st.discovered
    ensures UpdateProgress(FromStatus(st)).width == 100 && UpdateProgress(FromStatus(st)).done
  {
  }

  /** Half the pages visited and no link counted yet: pages 50, links 0, a bar of 25, not done. */
  lemma HalfVisitedProgress()
    ensures var st := Status(Some("running"), Some(5), None, Some(10), None, Some(0), Some(0));
      && PagesPct(st) == 50 && LinksPct(st) == 0 && Combined(st) == 25
      && UpdateProgress(st) == ProgressView(5, 0, 10, 0, false, 25)
  {
    var st := Status(Some("running"), Some(5), None, Some(10), None, Some(0), Some(0));
    assert Round(500, 10) == 50;
    assert Round(50, 2) == 25;
  }

  /** The panel the start handler resets shows nothing done. */
  lemma EmptyProgress()
    ensures UpdateProgress(EmptyStatus) == ProgressView(0, 0, 0, 0, false, 0)
  {
    assert Round(0, 2) == 0;
  }

  // ---------------------------------------------------------------------------
  // renderTable

  /** How many of the records are internal. */
  function CountInternal(rs: seq<Record>): (n: nat)
    ensures n <= |rs|
    ensures n == |rs| <==> forall k :: 0 <= k < |rs| ==> rs[k].internal
  {
    if rs == [] then 0
    else
      var init := rs[..|rs| - 1];
      var n0 := CountInternal(init);
      assert forall k :: 0 <= k < |init| ==> init[k] == rs[k];
      n0 + (if rs[|rs| - 1].internal then 1 else 0)
  }

  /** How many of the records have class 4, 5 or e. */
  function CountBroken(rs: seq<Record>): (n: nat)
    ensures n <= |rs|
    ensures n == 0 <==> forall k :: 0 <= k < |rs| ==> !IsBroken(rs[k])
  {
    if rs == [] then 0
    else
      var init := rs[..|rs| - 1];
      var n0 := CountBroken(init);
      assert forall k :: 0 <= k < |init| ==> init[k] == rs[k];
      n0 + (if IsBroken(rs[|rs| - 1]) then 1 else 0)
  }

  /** The summary line's four numbers. */
  datatype Summary = Summary(total: nat, internal: nat, external: nat, broken: nat)

  /** The summary of a result list: every record counted once, as internal or external, and the broken ones. */
  function SummaryOf(rs: seq<Record>): (s: Summary)
    ensures s.total == |rs| == s.internal + s.external
  {
    Summary(|rs|, CountInternal(rs), |rs| - CountInternal(rs), CountBroken(rs))
  }

  /** The forEach of renderTable over all results; it does not look at the view mode. */
  method Summarize(rs: seq<Record>) returns (s: Summary)
    ensures s.total == |rs| == s.internal + s.external
    ensures s.internal == CountInternal(rs) && s.broken == CountBroken(rs)
    ensures s == SummaryOf(rs)
  {
    var total, internal, external, broken := 0, 0, 0, 0;
    for i := 0 to |rs|
      invariant total == i == internal + external
      invariant internal == CountInternal(rs[..i]) && broken == CountBroken(rs[..i])
    {
      assert rs[..i + 1][..i] == rs[..i];
      var r := rs[i];
      total := total + 1;
      if r.internal { internal := internal + 1; } else { external := external + 1; }
      var c := ClassOf(r);
      if c == "4" || c == "5" || c == "e" { broken := broken + 1; }
    }
    assert rs[..|rs|] == rs;
    s := Summary(total, internal, external, broken);
  }

  /** rows: the results the view mode keeps, in their original order. */
  function Visible(rs: seq<Record>, mode: string): (v: seq<Record>)
    ensures |v| <= |rs|
  {
    if rs == [] then []
    else
      var rest := Visible(rs[..|rs| - 1], mode);
      if MatchesFilters(rs[|rs| - 1], mode) then rest + [rs[|rs| - 1]] else rest
  }

  /** The visible rows are exactly the records the filter keeps. */
  lemma {:induction false} VisibleMembers(rs: seq<Record>, mode: string)
    ensures forall r :: r in Visible(rs, mode) <==> r in rs && MatchesFilters(r, mode)
  {
    if rs != [] {
      var init := rs[..|rs| - 1];
      VisibleMembers(init, mode);
      assert rs == init + [rs[|rs| - 1]];
    }
  }

  /** Filtering keeps the original order: it distributes over concatenation. */
  lemma {:induction false} VisibleConcat(a: seq<Record>, b: seq<Record>, mode: string)
    ensures Visible(a + b, mode) == Visible(a, mode) + Visible(b, mode)
  {
    if b == [] {
      assert a + b == a;
    } else {
      var init := b[..|b| - 1];
      VisibleConcat(a, init, mode);
      assert (a + b)[..|a + b| - 1] == a + init;
      assert (a + b)[|a + b| - 1] == b[|b| - 1];
    }
  }

  /** Mode "all" shows every record. */
  lemma {:induction false} VisibleAll(rs: seq<Record>)
    ensures Visible(rs, "all") == rs
  {
    if rs != [] {
      VisibleAll(rs[..|rs| - 1]);
    }
  }

  /** A 404 internal record and a timed-out external one: mode "internal" shows only the first; both are broken. */
  lemma InternalModeExample()
    ensures var r1 := Record(Some("http://a.example/x"), None, true, Some(404), None, None);
      var r2 := Record(Some("http://b.example/"), None, false, None, Some("timeout"), None);
      && Visible([r1, r2], "internal") == [r1]
      && SummaryOf([r1, r2]) == Summary(2, 1, 1, 2)
  {
    var r1 := Record(Some("http://a.example/x"), None, true, Some(404), None, None);
    var r2 := Record(Some("http://b.example/"), None, false, None, Some("timeout"), None);
    assert [r1, r2][..1] == [r1];
    assert [r1][..0] == [];
  }

  /** What a table cell shows: text, a number JavaScript turns into text, or nothing. */
  datatype Cell = Text(s: string) | Number(n: int)

  /** One table row: its CSS class and its five cells. */
  datatype Row = Row(className: string, urlCell: string, pageCell: string, statusCell: Cell, msCell: Cell,
                     internalCell: string)

  /** The anchor of a URL or page cell, opening in a new tab. */
  function Link(href: Option<string>): string {
    "<a href=\"" + EscapeHtml(href) + "\" target=\"_blank\" rel=\"noopener noreferrer\">" + EscapeHtml(href) + "</a>"
  }

  /** The CSS class of a row whose status class is `cls`. */
  function RowClass(cls: string): (c: string)
    ensures c == "bad" <==> cls in {"4", "5", "e"}
    ensures c == "warn" <==> cls == "3"
    ensures c == "good" <==> cls !in {"3", "4", "5", "e"}
    ensures cls in ClassNames ==> (c == "good" <==> cls == "2")
  {
    if cls == "4" || cls == "5" || cls == "e" then "bad" else if cls == "3" then "warn" else "good"
  }

  /** The row renderTable builds for one record. */
  function RenderRow(r: Record): (row: Row)
    ensures row.className == "bad" <==> IsBroken(r)
    ensures row.className == "warn" <==> ClassOf(r) == "3"
    ensures row.className == "good" <==> ClassOf(r) == "2"
    ensures row.urlCell == Link(r.url)
    ensures Truthy(r.pageUrl) ==> row.pageCell == Link(r.pageUrl)
    ensures !Truthy(r.pageUrl) ==> row.pageCell == ""
    ensures Truthy(r.error) ==> row.statusCell == Text("ERR")
    ensures !Truthy(r.error) && r.statusCode.Some? && r.statusCode.value != 0 ==> row.statusCell == Number(r.statusCode.value)
    ensures !Truthy(r.error) && (r.statusCode.None? || r.statusCode.value == 0) ==> row.statusCell == Text("")
    ensures r.elapsedMs.Some? && r.elapsedMs.value != 0 ==> row.msCell == Number(r.elapsedMs.value)
    ensures r.elapsedMs.None? || r.elapsedMs.value == 0 ==> row.msCell == Text("")
    ensures row.internalCell == (if r.internal then "yes" else "no")
  {
    var className := RowClass(ClassOf(r));
    var status :=
      if Truthy(r.error) then Text("ERR")
      else if r.statusCode.Some? && r.statusCode.value != 0 then Number(r.statusCode.value)
      else Text("");
    var ms := if r.elapsedMs.Some? && r.elapsedMs.value != 0 then Number(r.elapsedMs.value) else Text("");
    Row(className, Link(r.url), if Truthy(r.pageUrl) then Link(r.pageUrl) else "", status, ms,
        if r.internal then "yes" else "no")
  }

  /** The rows of the table, one per record, in order. */
  function RenderRows(rs: seq<Record>): (rows: seq<Row>)
    ensures |rows| == |rs|
    ensures forall k :: 0 <= k < |rs| ==> rows[k] == RenderRow(rs[k])
  {
    seq(|rs|, k requires 0 <= k < |rs| => RenderRow(rs[k]))
  }

  // ---------------------------------------------------------------------------
  // escapeHtml

  predicate Special(c: char) { c == '&' || c == '<' || c == '>' || c == '"' || c == '\'' }

  function Entity(c: char): (e: string)
    ensures !Special(c) ==> e == [c]
    ensures '<' !in e && '>' !in e && '"' !in e && '\'' !in e
    ensures Special(c) ==> |e| >= 4 && e[0] == '&' && e[|e| - 1] == ';'
  {
    match c
    case '&' => "&amp;"
    case '<' => "&lt;"
    case '>' => "&gt;"
    case '"' => "&quot;"
    case '\'' => "&#039;"
    case _ => [c]
  }

  function Escape(s: string): (r: string)
    ensures '<' !in r && '>' !in r && '"' !in r && '\'' !in r
    ensures |r| >= |s|
  {
    if s == [] then [] else Entity(s[0]) + Escape(s[1..])
  }

  /** escapeHtml: null and undefined become "", then each of the five characters becomes its entity. */
  function EscapeHtml(s: Option<string>): (r: string)
    ensures s.None? ==> r == ""
    ensures '<' !in r && '>' !in r && '"' !in r && '\'' !in r
  {
    Escape(s.GetOr(""))
  }

  /** A string without any of the five characters passes through unchanged. */
  lemma {:induction false} EscapePlain(s: string)
    requires forall i :: 0 <= i < |s| ==> !Special(s[i])
    ensures Escape(s) == s
  {
    if s != [] {
      EscapePlain(s[1..]);
      assert s == [s[0]] + s[1..];
    }
  }

  lemma {:induction false} EscapeConcat(a: string, b: string)
    ensures Escape(a + b) == Escape(a) + Escape(b)
  {
    if a == [] {
      assert a + b == b;
    } else {
      assert (a + b)[0] == a[0];
      assert (a + b)[1..] == a[1..] + b;
      EscapeConcat(a[1..], b);
    }
  }

  function StartsWith(s: string, p: string): bool {
    |p| <= |s| && s[..|p|] == p
  }

  /** The decoder of the five entities, the partner that undoes Escape. */
  function Unescape(s: string): string
    decreases |s|
  {
    if s == [] then []
    else if s[0] != '&' then [s[0]] + Unescape(s[1..])
    else if StartsWith(s, "&amp;") then "&" + Unescape(s[5..])
    else if StartsWith(s, "&lt;") then "<" + Unescape(s[4..])
    else if StartsWith(s, "&gt;") then ">" + Unescape(s[4..])
    else if StartsWith(s, "&quot;") then "\"" + Unescape(s[6..])
    else if StartsWith(s, "&#039;") then "'" + Unescape(s[6..])
    else [s[0]] + Unescape(s[1..])
  }

  /** A text that starts with `p` has the characters of `p` at the front. */
  lemma StartsWithAt(s: string, p: string, k: int)
    requires StartsWith(s, p) && 0 <= k < |p|
    ensures s[k] == p[k]
  {
    assert s[..|p|][k] == s[k];
  }

  lemma UnescapeEntity(c: char, rest: string)
    ensures Unescape(Entity(c) + rest) == [c] + Unescape(rest)
  {
    var e := Entity(c) + rest;
    if Special(c) {
      assert e[0] == '&';
      var n := |Entity(c)|;
      assert e[1] == Entity(c)[1] && e[..n] == Entity(c) && e[n..] == rest;
      if StartsWith(e, "&amp;") { StartsWithAt(e, "&amp;", 1); }
      if StartsWith(e, "&lt;") { StartsWithAt(e, "&lt;", 1); }
      if StartsWith(e, "&gt;") { StartsWithAt(e, "&gt;", 1); }
      if StartsWith(e, "&quot;") { StartsWithAt(e, "&quot;", 1); }
    } else {
      assert e[0] == c && e[1..] == rest;
    }
  }

  /** Escaping loses nothing: decoding the entities gives the original text back. */
  lemma {:induction false} UnescapeEscape(s: string)
    ensures Unescape(Escape(s)) == s
  {
    if s != [] {
      UnescapeEntity(s[0], Escape(s[1..]));
      UnescapeEscape(s[1..]);
      assert s == [s[0]] + s[1..];
    }
  }

  // ---------------------------------------------------------------------------
  // The start form

  predicate IsDigit(c: char) { '0' <= c <= '9' }

  function LeadingDigits(s: string): (d: string)
    ensures |d| <= |s| && d == s[..|d|]
    ensures forall i :: 0 <= i < |d| ==> IsDigit(d[i])
    ensures |d| < |s| ==> !IsDigit(s[|d|])
  {
    if s != [] && IsDigit(s[0]) then
      var t := LeadingDigits(s[1..]);
      assert s[..|t| + 1] == [s[0]] + s[1..][..|t|];
      [s[0]] + t
    else []
  }

  /** The value of a decimal numeral. */
  function DecValue(d: string): nat
    requires forall i :: 0 <= i < |d| ==> IsDigit(d[i])
  {
    if d == [] then 0
    else
      assert IsDigit(d[|d| - 1]);
      DecValue(d[..|d| - 1]) * 10 + (d[|d| - 1] as int - '0' as int)
  }

  /**
   * parseInt(s, 10): leading white space is skipped, one sign is taken, then
   * the longest run of decimal digits; None stands for NaN (no digits).
   */
  function ParseInt(s: string): (r: Option<int>)
    ensures r.None? <==> LeadingDigits(UnsignedPart(Text.TrimLeft(s, Text.JsBlanks))) == []
  {
    var t := Text.TrimLeft(s, Text.JsBlanks);
    var neg := t != [] && t[0] == '-';
    var d := LeadingDigits(UnsignedPart(t));
    var n: int := if d == [] then 0 else DecValue(d);
    if d == [] then None else Some(if neg then -n else n)
  }

  function UnsignedPart(t: string): string {
    if t != [] && (t[0] == '-' || t[0] == '+') then t[1..] else t
  }

  /** A numeral parses to its value. */
  lemma NumeralParses(d: string)
    requires d != [] && forall i :: 0 <= i < |d| ==> IsDigit(d[i])
    ensures ParseInt(d) == Some(DecValue(d))
  {
    NumeralDigits(d);
    var c := d[0];
    assert IsDigit(c);
    Text.TrimLeftStops(d, Text.JsBlanks);
    assert UnsignedPart(d) == d by {
      assert c != '-' && c != '+';
    }
  }

  lemma {:induction false} NumeralDigits(d: string)
    requires forall i :: 0 <= i < |d| ==> IsDigit(d[i])
    ensures LeadingDigits(d) == d
  {
    if d != [] {
      NumeralDigits(d[1..]);
    }
  }

  /** The depth the start handler sends: parseInt of the field (default "2"), 2 for NaN, clamped to [0, 5]. */
  function InputDepth(field: string): (depth: int)
    ensures 0 <= depth <= 5
    ensures ParseInt(if field == "" then "2" else field).None? ==> depth == 2
    ensures ParseInt(if field == "" then "2" else field).Some? ==>
      var n := ParseInt(if field == "" then "2" else field).value;
      depth == (if n < 0 then 0 else if n > 5 then 5 else n)
  {
    var d := match ParseInt(if field == "" then "2" else field)
      case None => 2
      case Some(n) => n;
    if 0 > Min(5, d) then 0 else Min(5, d)
  }

  /** An empty field means "2". */
  lemma InputDepthDefault()
    ensures InputDepth("") == 2
  {
    NumeralParses("2");
    assert DecValue("2") == 2 by {
      assert "2"[..0] == "";
    }
  }

  /** Input that is not a number gives the default 2. */
  lemma InputDepthNaN()
    ensures InputDepth("abc") == 2
  {
    assert !Text.IsJsSpace('a');
    assert Text.TrimLeft("abc", Text.JsBlanks) == "abc";
    assert LeadingDigits("abc") == [];
  }

  /** Numbers above 5 become 5. */
  lemma InputDepthHigh()
    ensures InputDepth("9") == 5
  {
    NumeralParses("9");
  }

  /** Negative numbers become 0. */
  lemma InputDepthNegative()
    ensures InputDepth("-1") == 0
  {
    assert !Text.IsJsSpace('-');
    assert Text.TrimLeft("-1", Text.JsBlanks) == "-1";
    assert UnsignedPart("-1") == "1";
    NumeralDigits("1");
    assert DecValue("1") == 1 by {
      assert "1"[..0] == "";
    }
  }

  /** Leading blanks and trailing junk are ignored. */
  lemma InputDepthSkipsBlanks()
    ensures InputDepth(" 4x") == 4
  {
    assert Text.IsJsSpace(' ');
    assert " 4x"[1..] == "4x";
    assert !Text.IsJsSpace('4');
    assert Text.TrimLeft("4x", Text.JsBlanks) == "4x";
    assert Text.TrimLeft(" 4x", Text.JsBlanks) == "4x";
    assert UnsignedPart("4x") == "4x";
    assert LeadingDigits("4x") == "4" by {
      assert "4x"[1..] == "x";
      assert LeadingDigits("x") == [];
    }
    assert DecValue("4") == 4 by {
      assert "4"[..0] == "";
    }
  }

  /** The case-insensitive test /^https?:\/\/?/i: "http:/" or "https:/" in any case at the start. */
  predicate LooksLikeHttp(s: string) {
    StartsWith(Text.Lower(s), "http:/") || StartsWith(Text.Lower(s), "https:/")
  }

  lemma LooksLikeHttpExamples()
    ensures !LooksLikeHttp("ftp://x") && !LooksLikeHttp("abc") && !LooksLikeHttp("")
    ensures LooksLikeHttp("HTTPS://a.example") && LooksLikeHttp("http:/a")
  {
    assert Text.Lower("ftp://x")[0] == 'f';
    assert Text.Lower("x")[0] == 'x';
    LowerPrefix("HTTPS://a.example", "https:/");
    LowerPrefix("http:/a", "http:/");
  }

  /** The test ignores ASCII case. */
  lemma LooksLikeHttpIgnoresCase(s: string, t: string)
    requires Text.Lower(s) == Text.Lower(t)
    ensures LooksLikeHttp(s) <==> LooksLikeHttp(t)
  {
  }

  /** The test looks only at the start: whatever follows an accepted prefix is accepted. */
  lemma LooksLikeHttpPrefix(s: string, t: string)
    requires LooksLikeHttp(s)
    ensures LooksLikeHttp(s + t)
  {
    assert Text.Lower(s + t)[..|s|] == Text.Lower(s);
  }

  lemma LowerPrefix(s: string, p: string)
    requires |p| <= |s| && forall i :: 0 <= i < |p| ==> Text.LowerChar(s[i]) == p[i]
    ensures StartsWith(Text.Lower(s), p)
  {
    assert Text.Lower(s)[..|p|] == p;
  }

  /** The JSON body the start handler posts. */
  datatype StartBody = StartBody(startUrl: string, depth: int, respectRobots: bool)
}
