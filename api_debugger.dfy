/**
 * `ApiDebugger`: redirect recording, the result of one probe, the batch
 * aggregation and the markdown report. The HTTP exchange itself is an
 * input: the responses the interceptor sees, and how the request ended.
 */
module ApiDebugger {
  import opened Wrappers
  import opened Strings
  import opened SeqUtils
  import EnvConfig
  import EnvUtils

  datatype HttpMethod = GET | POST | PUT | DELETE

  function MethodName(m: HttpMethod): string
  {
    match m
    case GET => "GET"
    case POST => "POST"
    case PUT => "PUT"
    case DELETE => "DELETE"
  }

  datatype Redirect = Redirect(from: string, to: string, status: int)

  /** A response as the response interceptor sees it: its status and `location` header. */
  datatype Observed = Observed(status: int, location: Option<string>)

  predicate IsRedirectStatus(status: int)
  {
    300 <= status < 400
  }

  /** Whether the interceptor records this response: a 3xx status and a non-empty location. */
  predicate Records(o: Observed)
  {
    IsRedirectStatus(o.status) && Truthy(o.location)
  }

  // ---------------------------------------------------------------------------
  // The redirect-recording interceptor
  // ---------------------------------------------------------------------------

  /** What the interceptor has recorded after seeing `observed`, starting from `url`: the redirects and the current URL. */
  function Track(url: string, observed: seq<Observed>): (seq<Redirect>, string)
  {
    if observed == [] then ([], url)
    else
      var (rs, cur) := Track(url, observed[..|observed| - 1]);
      var o := observed[|observed| - 1];
      if Records(o) then (rs + [Redirect(cur, o.location.value, o.status)], o.location.value) else (rs, cur)
  }

  /**
   * A contiguous chain from `url` ending at `cur`: the first entry starts at
   * `url`, each entry starts where the previous one went, the chain ends at
   * `cur`, and every entry carries a 3xx status.
   */
  ghost predicate Chain(url: string, rs: seq<Redirect>, cur: string)
  {
    (rs == [] ==> cur == url)
    && (rs != [] ==> rs[0].from == url && rs[|rs| - 1].to == cur)
    && (forall i :: 0 <= i < |rs| - 1 ==> rs[i].to == rs[i + 1].from)
    && (forall i :: 0 <= i < |rs| ==> IsRedirectStatus(rs[i].status) && rs[i].to != "")
  }

  /** The number of observed responses the interceptor records. */
  function RecordedCount(observed: seq<Observed>): nat
  {
    if observed == [] then 0
    else RecordedCount(observed[..|observed| - 1]) + if Records(observed[|observed| - 1]) then 1 else 0
  }

  /** The recorded redirects always form a chain from the requested URL, one entry per 3xx response with a location. */
  lemma {:induction false} TrackIsChain(url: string, observed: seq<Observed>)
    ensures var (rs, cur) := Track(url, observed);
            Chain(url, rs, cur) && |rs| == RecordedCount(observed)
  {
    if observed != [] {
      TrackIsChain(url, observed[..|observed| - 1]);
    }
  }

  /** Responses that are not recorded leave the chain as it was. */
  lemma {:induction false} TrackIgnoresOthers(url: string, observed: seq<Observed>)
    requires forall i :: 0 <= i < |observed| ==> !Records(observed[i])
    ensures Track(url, observed) == ([], url)
  {
    if observed != [] {
      TrackIgnoresOthers(url, observed[..|observed| - 1]);
    }
  }

  /** The interceptor's state: the `redirects` array it pushes onto and `currentUrl`. */
  class RedirectTracker {
    var redirects: seq<Redirect>
    var currentUrl: string

    constructor (url: string)
      ensures redirects == [] && currentUrl == url
    {
      redirects := [];
      currentUrl := url;
    }

    /** The response interceptor: a 3xx with a location pushes an entry from the current URL and moves to the location. */
    method OnResponse(o: Observed)
      modifies this
      ensures Records(o) ==> redirects == old(redirects) + [Redirect(old(currentUrl), o.location.value, o.status)]
                             && currentUrl == o.location.value
      ensures !Records(o) ==> redirects == old(redirects) && currentUrl == old(currentUrl)
    {
      var isRedirect := o.status >= 300 && o.status < 400;
      if isRedirect {
        var location := o.location;
        if Truthy(location) {
          redirects := redirects + [Redirect(currentUrl, location.value, o.status)];
          currentUrl := location.value;
        }
      }
    }
  }

  // ---------------------------------------------------------------------------
  // debugEndpoint
  // ---------------------------------------------------------------------------

  /** `error.response` of a failed request. */
  datatype ErrorResponse = ErrorResponse(status: int, statusText: string, headers: map<string, string>)

  /**
   * How the request ended: a response (its status, text, headers and the
   * `config.url` it was sent with), or a thrown error.
   */
  datatype RequestOutcome =
    | Completed(status: int, statusText: string, headers: map<string, string>, configUrl: string)
    | Threw(response: Option<ErrorResponse>, message: Option<string>)

  datatype DebugResult = DebugResult(
    url: string,
    httpMethod: string,
    status: int,
    statusText: string,
    headers: map<string, string>,
    redirects: seq<Redirect>,
    finalUrl: string,
    responseTime: int,
    error: Option<string>)

  /** The headers sent: the debugger's defaults, overridden by the caller's. */
  function RequestHeaders(custom: map<string, string>): (r: map<string, string>)
    ensures forall k :: k in custom ==> k in r && r[k] == custom[k]
    ensures "User-Agent" in r && "Accept" in r
    ensures "User-Agent" !in custom ==> r["User-Agent"] == "ProductHot-Debugger/1.0"
    ensures "Accept" !in custom ==> r["Accept"] == "application/json, text/plain, */*"
    ensures forall k :: k in r ==> k in custom || k == "User-Agent" || k == "Accept"
  {
    map["User-Agent" := "ProductHot-Debugger/1.0", "Accept" := "application/json, text/plain, */*"] + custom
  }

  /**
   * Reference meaning of `debugEndpoint(url, { method })`: `observed` are the
   * responses the interceptor saw before the request ended as `outcome`,
   * `elapsed` is `Date.now() - startTime`.
   */
  function EndpointResult(url: string, m: Option<HttpMethod>, observed: seq<Observed>, outcome: RequestOutcome, elapsed: int): DebugResult
  {
    var (rs, cur) := Track(url, observed);
    var name := MethodName(m.GetOr(GET));
    match outcome
    case Completed(status, statusText, headers, configUrl) =>
      DebugResult(url, name, status, statusText, headers, rs, if configUrl != "" then configUrl else cur, elapsed, None)
    case Threw(response, message) =>
      DebugResult(url, name,
        if response.Some? then response.value.status else 0,
        if response.Some? && response.value.statusText != "" then response.value.statusText else "Network Error",
        if response.Some? then response.value.headers else map[],
        rs, url, elapsed, message)
  }

  /** `debugEndpoint`: feeds each observed response to a fresh tracker, then builds the result. */
  method DebugEndpoint(url: string, m: Option<HttpMethod>, observed: seq<Observed>, outcome: RequestOutcome, startTime: int, endTime: int)
    returns (result: DebugResult)
    ensures result == EndpointResult(url, m, observed, outcome, endTime - startTime)
  {
    var tracker := new RedirectTracker(url);
    var finalUrl := url;
    var i := 0;
    while i < |observed|
      invariant 0 <= i <= |observed|
      invariant (tracker.redirects, tracker.currentUrl) == Track(url, observed[..i])
    {
      assert observed[..i + 1][..i] == observed[..i];
      tracker.OnResponse(observed[i]);
      i := i + 1;
    }
    assert observed[..i] == observed;
    var name := MethodName(m.GetOr(GET));
    match outcome
    case Completed(status, statusText, headers, configUrl) =>
      finalUrl := if configUrl != "" then configUrl else tracker.currentUrl;
      result := DebugResult(url, name, status, statusText, headers, tracker.redirects, finalUrl, endTime - startTime, None);
    case Threw(response, message) =>
      var status := if response.Some? then response.value.status else 0;
      var statusText := if response.Some? && response.value.statusText != "" then response.value.statusText else "Network Error";
      var headers := if response.Some? then response.value.headers else map[];
      result := DebugResult(url, name, status, statusText, headers, tracker.redirects, finalUrl, endTime - startTime, message);
  }

  /**
   * The result always names the requested URL; on an error it keeps the
   * redirects recorded so far, reports the requested URL as final, carries
   * the error message, and without a response has status 0 and
   * 'Network Error'.
   */
  lemma ErrorResult(url: string, m: Option<HttpMethod>, observed: seq<Observed>, outcome: RequestOutcome, elapsed: int)
    ensures var r := EndpointResult(url, m, observed, outcome, elapsed);
            r.url == url
            && r.redirects == Track(url, observed).0
            && r.httpMethod == (if m.Some? then MethodName(m.value) else "GET")
            && (outcome.Threw? ==> r.finalUrl == url && r.error == outcome.message)
            && (outcome.Threw? && outcome.response.None? ==> r.status == 0 && r.statusText == "Network Error" && r.headers == map[])
            && (outcome.Completed? ==> r.error.None? && r.status == outcome.status)
  {
  }

  /**
   * The request is sent to the requested URL, so a completed request reports
   * that URL as final whenever it is non-empty, even after recorded redirects.
   */
  lemma FinalUrlIsRequested(url: string, m: Option<HttpMethod>, observed: seq<Observed>, status: int, statusText: string, headers: map<string, string>, elapsed: int)
    requires url != ""
    ensures EndpointResult(url, m, observed, Completed(status, statusText, headers, url), elapsed).finalUrl == url
  {
  }

  // ---------------------------------------------------------------------------
  // debugMultipleEndpoints
  // ---------------------------------------------------------------------------

  datatype Endpoint = Endpoint(name: string, url: string, httpMethod: Option<HttpMethod>)

  /**
   * A `Record<string, ApiDebugResult>` as an ordered list of entries:
   * assigning an existing key replaces its value in place, a new key is
   * appended, as JavaScript objects keep insertion order.
   */
  type Results = seq<(string, DebugResult)>

  function ResultKeys(rs: Results): (r: seq<string>)
    ensures |r| == |rs|
  {
    seq(|rs|, i requires 0 <= i < |rs| => rs[i].0)
  }

  /** `results[key] = value`. */
  function Assign(rs: Results, key: string, value: DebugResult): (r: Results)
    ensures key in ResultKeys(rs) ==> |r| == |rs|
    ensures key !in ResultKeys(rs) ==> r == rs + [(key, value)]
    ensures forall i :: 0 <= i < |r| ==> r[i].0 == (if i < |rs| then rs[i].0 else key)
    ensures forall i :: 0 <= i < |r| ==> r[i].1 == (if i < |rs| && rs[i].0 != key then rs[i].1 else value)
  {
    assert forall i :: 0 <= i < |rs| ==> ResultKeys(rs)[i] == rs[i].0;
    if key in ResultKeys(rs) then
      seq(|rs|, i requires 0 <= i < |rs| => if rs[i].0 == key then (key, value) else rs[i])
    else rs + [(key, value)]
  }

  /**
   * What happened on the wire for one endpoint of a batch: the responses the
   * interceptor saw, how the request ended, and the clock before and after.
   */
  datatype Exchange = Exchange(observed: seq<Observed>, outcome: RequestOutcome, startTime: int, endTime: int)

  /** The result `debugEndpoint(e.url, { method: e.method })` builds from exchange `x`. */
  function Probe(e: Endpoint, x: Exchange): (r: DebugResult)
    ensures r.url == e.url
    ensures r.httpMethod == (if e.httpMethod.Some? then MethodName(e.httpMethod.value) else "GET")
  {
    EndpointResult(e.url, e.httpMethod, x.observed, x.outcome, x.endTime - x.startTime)
  }

  /**
   * Reference meaning of the loop: endpoint i in turn stores
   * `probe(endpoints[i], i)` under its name.
   */
  function Aggregate(endpoints: seq<Endpoint>, probe: (Endpoint, nat) -> DebugResult): Results
  {
    if endpoints == [] then []
    else
      var n := |endpoints| - 1;
      Assign(Aggregate(endpoints[..n], probe), endpoints[n].name, probe(endpoints[n], n))
  }

  /** The probe of a batch: endpoint e, the i-th, is requested at its own URL with its own method, and goes as `exchange(i)`. */
  function BatchProbe(exchange: nat -> Exchange): (Endpoint, nat) -> DebugResult
  {
    (e: Endpoint, i: nat) => Probe(e, exchange(i))
  }

  /** `debugMultipleEndpoints`: probes each endpoint in order, with its own URL and method, and stores its result under its name. */
  method DebugMultipleEndpoints(endpoints: seq<Endpoint>, exchange: nat -> Exchange) returns (results: Results)
    ensures results == Aggregate(endpoints, BatchProbe(exchange))
  {
    results := [];
    for i := 0 to |endpoints|
      invariant results == Aggregate(endpoints[..i], BatchProbe(exchange))
    {
      var x := exchange(i);
      var result := DebugEndpoint(endpoints[i].url, endpoints[i].httpMethod, x.observed, x.outcome, x.startTime, x.endTime);
      assert result == BatchProbe(exchange)(endpoints[i], i);
      assert endpoints[..i + 1][..i] == endpoints[..i] && endpoints[..i + 1][i] == endpoints[i];
      results := Assign(results, endpoints[i].name, result);
    }
    assert endpoints[..|endpoints|] == endpoints;
  }

  function Names(endpoints: seq<Endpoint>): (r: seq<string>)
    ensures |r| == |endpoints|
  {
    seq(|endpoints|, i requires 0 <= i < |endpoints| => endpoints[i].name)
  }

  /**
   * The keys are the endpoint names, each once, in the order of first
   * appearance.
   */
  lemma {:induction false} AggregateKeys(endpoints: seq<Endpoint>, probe: (Endpoint, nat) -> DebugResult)
    ensures ResultKeys(Aggregate(endpoints, probe)) == Dedup(Names(endpoints))
  {
    if endpoints != [] {
      var n := |endpoints| - 1;
      var prev := Aggregate(endpoints[..n], probe);
      AggregateKeys(endpoints[..n], probe);
      assert Names(endpoints)[..n] == Names(endpoints[..n]);
      AssignKeys(prev, endpoints[n].name, probe(endpoints[n], n));
    }
  }

  /** Assigning leaves the keys alone when the key is present, and appends it otherwise. */
  lemma AssignKeys(rs: Results, key: string, value: DebugResult)
    ensures ResultKeys(Assign(rs, key, value)) == if key in ResultKeys(rs) then ResultKeys(rs) else ResultKeys(rs) + [key]
  {
    var r := Assign(rs, key, value);
    if key in ResultKeys(rs) {
      assert ResultKeys(r) == ResultKeys(rs);
    } else {
      assert ResultKeys(r) == ResultKeys(rs) + [key];
    }
  }

  /** The last endpoint with a given name decides the stored value. */
  lemma {:induction false} AggregateLastWins(endpoints: seq<Endpoint>, probe: (Endpoint, nat) -> DebugResult, j: nat)
    requires j < |endpoints|
    requires forall k :: j < k < |endpoints| ==> endpoints[k].name != endpoints[j].name
    ensures exists i :: 0 <= i < |Aggregate(endpoints, probe)| && Aggregate(endpoints, probe)[i] == (endpoints[j].name, probe(endpoints[j], j))
  {
    var n := |endpoints| - 1;
    var prev := Aggregate(endpoints[..n], probe);
    var r := Aggregate(endpoints, probe);
    var key := endpoints[j].name;
    if j == n {
      if key in ResultKeys(prev) {
        var i :| 0 <= i < |prev| && ResultKeys(prev)[i] == key;
        assert r[i] == (key, probe(endpoints[j], j));
      } else {
        assert r[|r| - 1] == (key, probe(endpoints[j], j));
      }
    } else {
      var front := endpoints[..n];
      assert front[j] == endpoints[j];
      assert forall k :: j < k < |front| ==> front[k] == endpoints[k];
      AggregateLastWins(front, probe, j);
      var i :| 0 <= i < |prev| && prev[i] == (key, probe(endpoints[j], j));
      assert endpoints[n].name != key;
      assert r == Assign(prev, endpoints[n].name, probe(endpoints[n], n));
      assert r[i].0 == key && r[i].1 == prev[i].1;
    }
  }

  /**
   * Whatever the names, every stored entry is the probe result of some
   * endpoint bearing that entry's name.
   */
  lemma {:induction false} AggregateEntriesFromEndpoints(endpoints: seq<Endpoint>, probe: (Endpoint, nat) -> DebugResult)
    ensures forall i :: 0 <= i < |Aggregate(endpoints, probe)| ==>
              exists j :: 0 <= j < |endpoints| && endpoints[j].name == Aggregate(endpoints, probe)[i].0
                          && Aggregate(endpoints, probe)[i].1 == probe(endpoints[j], j)
  {
    if endpoints != [] {
      var n := |endpoints| - 1;
      var front := endpoints[..n];
      var prev := Aggregate(front, probe);
      AggregateEntriesFromEndpoints(front, probe);
      var r := Aggregate(endpoints, probe);
      var key := endpoints[n].name;
      assert r == Assign(prev, key, probe(endpoints[n], n));
      forall i | 0 <= i < |r|
        ensures exists j :: 0 <= j < |endpoints| && endpoints[j].name == r[i].0 && r[i].1 == probe(endpoints[j], j)
      {
        if i < |prev| && prev[i].0 != key {
          var j :| 0 <= j < |front| && front[j].name == prev[i].0 && prev[i].1 == probe(front[j], j);
          assert front[j] == endpoints[j];
          assert r[i] == prev[i];
        } else {
          assert r[i].0 == key && r[i].1 == probe(endpoints[n], n);
        }
      }
    } else {
      assert Aggregate(endpoints, probe) == [];
    }
  }

  /** With distinct names there is one entry per endpoint, in order. */
  lemma {:induction false} AggregateDistinct(endpoints: seq<Endpoint>, probe: (Endpoint, nat) -> DebugResult)
    requires NoDuplicates(Names(endpoints))
    ensures Aggregate(endpoints, probe) == seq(|endpoints|, i requires 0 <= i < |endpoints| => (endpoints[i].name, probe(endpoints[i], i)))
  {
    if endpoints != [] {
      var n := |endpoints| - 1;
      assert Names(endpoints[..n]) == Names(endpoints)[..n];
      AggregateDistinct(endpoints[..n], probe);
      assert ResultKeys(Aggregate(endpoints[..n], probe)) == Names(endpoints)[..n];
      assert forall i :: 0 <= i < n ==> Names(endpoints)[i] != Names(endpoints)[n];
      assert endpoints[n].name !in ResultKeys(Aggregate(endpoints[..n], probe));
    }
  }

  /**
   * In a batch, every stored entry reports the URL and method of an endpoint
   * with that entry's name.
   */
  lemma BatchResultsCarryEndpoints(endpoints: seq<Endpoint>, exchange: nat -> Exchange)
    ensures forall i :: 0 <= i < |Aggregate(endpoints, BatchProbe(exchange))| ==>
              exists j :: 0 <= j < |endpoints| && endpoints[j].name == Aggregate(endpoints, BatchProbe(exchange))[i].0
                          && Aggregate(endpoints, BatchProbe(exchange))[i].1 == Probe(endpoints[j], exchange(j))
                          && Aggregate(endpoints, BatchProbe(exchange))[i].1.url == endpoints[j].url
                          && Aggregate(endpoints, BatchProbe(exchange))[i].1.httpMethod
                             == (if endpoints[j].httpMethod.Some? then MethodName(endpoints[j].httpMethod.value) else "GET")
  {
    var probe := BatchProbe(exchange);
    var r := Aggregate(endpoints, probe);
    AggregateEntriesFromEndpoints(endpoints, probe);
    forall i | 0 <= i < |r|
      ensures exists j :: 0 <= j < |endpoints| && endpoints[j].name == r[i].0
                          && r[i].1 == Probe(endpoints[j], exchange(j))
                          && r[i].1.url == endpoints[j].url
                          && r[i].1.httpMethod == (if endpoints[j].httpMethod.Some? then MethodName(endpoints[j].httpMethod.value) else "GET")
    {
      var j :| 0 <= j < |endpoints| && endpoints[j].name == r[i].0 && r[i].1 == probe(endpoints[j], j);
      assert r[i].1 == Probe(endpoints[j], exchange(j));
    }
  }

  /** With distinct names, entry i of a batch is endpoint i's probe, under its name and with its URL. */
  lemma BatchDistinctResults(endpoints: seq<Endpoint>, exchange: nat -> Exchange)
    requires NoDuplicates(Names(endpoints))
    ensures |Aggregate(endpoints, BatchProbe(exchange))| == |endpoints|
    ensures forall i :: 0 <= i < |endpoints| ==>
              Aggregate(endpoints, BatchProbe(exchange))[i].0 == endpoints[i].name
              && Aggregate(endpoints, BatchProbe(exchange))[i].1 == Probe(endpoints[i], exchange(i))
              && Aggregate(endpoints, BatchProbe(exchange))[i].1.url == endpoints[i].url
  {
    var probe := BatchProbe(exchange);
    AggregateDistinct(endpoints, probe);
    forall i | 0 <= i < |endpoints| ensures probe(endpoints[i], i) == Probe(endpoints[i], exchange(i)) {
    }
  }

  // ---------------------------------------------------------------------------
  // generateReport
  // ---------------------------------------------------------------------------

  const REPORT_HEADER: string := "# API 调试报告\n\n"
  const SECTION_MARK: string := "## "
  const URL_LABEL: string := "- **URL**: "
  const METHOD_LABEL: string := "- **方法**: "
  const STATUS_LABEL: string := "- **状态码**: "
  const TIME_LABEL: string := "- **响应时间**: "
  const REDIRECTS_HEADING: string := "- **重定向链**:\n"
  const ERROR_LABEL: string := "- **错误**: "
  const FINAL_LABEL: string := "- **最终URL**: "

  /** `  <i>. <status>: <from> → <to>` for the redirect numbered `i`. */
  function RedirectLine(entry: (nat, Redirect)): string
  {
    var (i, r) := entry;
    "  " + NatToString(i) + ". " + IntToString(r.status) + ": " + r.from + " → " + r.to + "\n"
  }

  /** The redirects paired with their numbers, counting from `first`. */
  function Numbered(rs: seq<Redirect>, first: nat): (r: seq<(nat, Redirect)>)
    ensures |r| == |rs|
    ensures forall i :: 0 <= i < |rs| ==> r[i] == (first + i, rs[i])
  {
    seq(|rs|, i requires 0 <= i < |rs| => (first + i, rs[i]))
  }

  /** The numbered lines for `rs`, numbering from `first`. */
  function RedirectLines(rs: seq<Redirect>, first: nat): string
  {
    Concat(Numbered(rs, first), RedirectLine)
  }

  /** The redirect block: a heading and the lines numbered from 1, or nothing without redirects. */
  function RedirectBlock(rs: seq<Redirect>): string
  {
    if |rs| > 0 then REDIRECTS_HEADING + RedirectLines(rs, 1) else ""
  }

  function HeadingLine(name: string): string
  {
    SECTION_MARK + name + "\n"
  }

  /** The four lines after the heading: URL, method, status and response time. */
  function SummaryLines(r: DebugResult): string
  {
    URL_LABEL + r.url + "\n"
    + METHOD_LABEL + r.httpMethod + "\n"
    + STATUS_LABEL + IntToString(r.status) + " " + r.statusText + "\n"
    + TIME_LABEL + IntToString(r.responseTime) + "ms\n"
  }

  function SectionHead(name: string, r: DebugResult): string
  {
    HeadingLine(name) + SummaryLines(r)
  }

  function ErrorLine(r: DebugResult): string
  {
    if Truthy(r.error) then ERROR_LABEL + r.error.value + "\n" else ""
  }

  function FinalLine(r: DebugResult): string
  {
    FINAL_LABEL + r.finalUrl + "\n\n"
  }

  /** The section for one entry of the results record. */
  function Section(entry: (string, DebugResult)): string
  {
    var (name, r) := entry;
    SectionHead(name, r) + RedirectBlock(r.redirects) + ErrorLine(r) + FinalLine(r)
  }

  /** Reference meaning of `generateReport(results)`: the header, then one section per entry in entry order. */
  function Report(results: Results): string
  {
    REPORT_HEADER + Concat(results, Section)
  }

  /** The numbering of `a + b` is that of `a`, then `b`'s continuing the count. */
  lemma NumberedAppend(a: seq<Redirect>, b: seq<Redirect>, first: nat)
    ensures Numbered(a + b, first) == Numbered(a, first) + Numbered(b, first + |a|)
  {
  }

  /** The redirect lines of `a + b` are those of `a`, then `b`'s continuing the count. */
  lemma RedirectLinesAppend(a: seq<Redirect>, b: seq<Redirect>, first: nat)
    ensures RedirectLines(a + b, first) == RedirectLines(a, first) + RedirectLines(b, first + |a|)
  {
    NumberedAppend(a, b, first);
    ConcatAppend(Numbered(a, first), Numbered(b, first + |a|), RedirectLine);
  }

  /** A single redirect's lines are its one numbered line. */
  lemma RedirectLinesSingle(r: Redirect, i: nat)
    ensures RedirectLines([r], i) == RedirectLine((i, r))
  {
    var single: seq<(nat, Redirect)> := [(i, r)];
    assert Numbered([r], i) == single;
    assert single[..0] == [];
    assert Concat(single, RedirectLine) == Concat(single[..0], RedirectLine) + RedirectLine(single[0]);
    assert Concat(single, RedirectLine) == "" + RedirectLine((i, r));
  }

  /** The `forEach` over the redirects: appends the numbered lines one by one. */
  method AppendRedirectLines(report: string, rs: seq<Redirect>) returns (out: string)
    ensures out == report + RedirectLines(rs, 1)
  {
    out := report;
    var index := 0;
    while index < |rs|
      invariant 0 <= index <= |rs|
      invariant out == report + RedirectLines(rs[..index], 1)
    {
      ghost var done := RedirectLines(rs[..index], 1);
      ghost var line := RedirectLine((index + 1, rs[index]));
      assert rs[..index + 1] == rs[..index] + [rs[index]];
      RedirectLinesAppend(rs[..index], [rs[index]], 1);
      RedirectLinesSingle(rs[index], 1 + index);
      out := out + RedirectLine((index + 1, rs[index]));
      AppendAssoc(report, done, line);
      index := index + 1;
    }
    assert rs[..index] == rs;
  }

  /** One iteration of the loop over the entries: the `report +=` steps for one section. */
  method AppendSection(report: string, name: string, result: DebugResult) returns (out: string)
    ensures out == report + Section((name, result))
  {
    var head := HeadingLine(name);
    out := report + head;
    var summary := SummaryLines(result);
    out := out + summary;
    AppendAssoc(report, head, summary);
    var block := "";
    if |result.redirects| > 0 {
      block := AppendRedirectLines(REDIRECTS_HEADING, result.redirects);
    }
    out := out + block;
    AppendAssoc(report, SectionHead(name, result), block);
    var errorLine := if Truthy(result.error) then ERROR_LABEL + result.error.value + "\n" else "";
    out := out + errorLine;
    AppendAssoc(report, SectionHead(name, result) + block, errorLine);
    var finalLine := FINAL_LABEL + result.finalUrl + "\n\n";
    out := out + finalLine;
    AppendAssoc(report, SectionHead(name, result) + block + errorLine, finalLine);
  }

  /** `generateReport`: the header, then each entry's section appended in entry order. */
  method GenerateReport(results: Results) returns (report: string)
    ensures report == Report(results)
  {
    report := REPORT_HEADER;
    for k := 0 to |results|
      invariant report == REPORT_HEADER + Concat(results[..k], Section)
    {
      ghost var done := Concat(results[..k], Section);
      ConcatPrefixStep(results, k, Section);
      report := AppendSection(report, results[k].0, results[k].1);
      AppendAssoc(REPORT_HEADER, done, Section(results[k]));
    }
    assert results[..|results|] == results;
  }

  /** The report of `a + b` continues the report of `a` with the sections of `b`. */
  lemma ReportAppend(a: Results, b: Results)
    ensures Report(a + b) == Report(a) + Concat(b, Section)
  {
    ConcatAppend(a, b, Section);
    AppendAssoc(REPORT_HEADER, Concat(a, Section), Concat(b, Section));
  }

  /** The report starts with its title and a blank line. */
  lemma ReportStartsWithHeader(results: Results)
    ensures StartsWith(Report(results), REPORT_HEADER)
  {
  }

  /** Each section starts with its heading and ends with the final URL followed by a blank line. */
  lemma SectionFrame(name: string, r: DebugResult)
    ensures StartsWith(Section((name, r)), HeadingLine(name))
    ensures EndsWith(Section((name, r)), FinalLine(r))
  {
    var head := HeadingLine(name);
    assert StartsWith(head, head);
    AffixesOfAppend(head, SummaryLines(r), head);
    AffixesOfAppend(SectionHead(name, r), RedirectBlock(r.redirects), head);
    AffixesOfAppend(SectionHead(name, r) + RedirectBlock(r.redirects), ErrorLine(r), head);
    var front := SectionHead(name, r) + RedirectBlock(r.redirects) + ErrorLine(r);
    assert EndsWith(FinalLine(r), FinalLine(r));
    AffixesOfAppend(front, FinalLine(r), head);
  }

  /** The redirect block is empty exactly when there are no redirects; otherwise it opens with its heading. */
  lemma RedirectBlockPresence(rs: seq<Redirect>)
    ensures RedirectBlock(rs) == "" <==> rs == []
    ensures rs != [] ==> StartsWith(RedirectBlock(rs), REDIRECTS_HEADING)
  {
  }

  /** The redirect numbered i + 1 in the block is the i-th entry of the chain. */
  lemma RedirectNumbering(rs: seq<Redirect>, i: nat)
    requires i < |rs|
    ensures RedirectLines(rs, 1) == RedirectLines(rs[..i], 1) + RedirectLine((i + 1, rs[i])) + RedirectLines(rs[i + 1..], i + 2)
  {
    assert rs == rs[..i] + ([rs[i]] + rs[i + 1..]);
    RedirectLinesAppend(rs[..i], [rs[i]] + rs[i + 1..], 1);
    RedirectLinesAppend([rs[i]], rs[i + 1..], 1 + i);
    RedirectLinesSingle(rs[i], 1 + i);
  }

  /** The error line is present exactly when the result carries a non-empty error. */
  lemma ErrorLinePresence(r: DebugResult)
    ensures ErrorLine(r) != "" <==> Truthy(r.error)
  {
  }

  // ---------------------------------------------------------------------------
  // debugProjectApis
  // ---------------------------------------------------------------------------

  /** The four endpoints probed under the API base URL. */
  function ProjectEndpoints(baseUrl: string): (r: seq<Endpoint>)
    ensures |r| == 4
    ensures forall i :: 0 <= i < 4 ==> r[i].httpMethod == Some(GET)
    ensures r[0].url == baseUrl + "/api/news/" && r[1].url == baseUrl + "/news"
    ensures r[2].url == baseUrl && r[3].url == baseUrl + "/health"
    ensures NoDuplicates(Names(r))
  {
    var r := [
      Endpoint("News API (直接访问)", baseUrl + "/api/news/", Some(GET)),
      Endpoint("News API (无api前缀)", baseUrl + "/news", Some(GET)),
      Endpoint("Root API", baseUrl, Some(GET)),
      Endpoint("Health Check", baseUrl + "/health", Some(GET))];
    assert Names(r) == ["News API (直接访问)", "News API (无api前缀)", "Root API", "Health Check"];
    r
  }

  /**
   * The project run keys its four results by the four endpoint names, in
   * order, and each result is the GET probe of its own project URL.
   */
  lemma ProjectResults(baseUrl: string, exchange: nat -> Exchange)
    ensures var results := Aggregate(ProjectEndpoints(baseUrl), BatchProbe(exchange));
            var urls := [baseUrl + "/api/news/", baseUrl + "/news", baseUrl, baseUrl + "/health"];
            ResultKeys(results) == ["News API (直接访问)", "News API (无api前缀)", "Root API", "Health Check"]
            && forall i :: 0 <= i < 4 ==>
                 results[i].1 == EndpointResult(urls[i], Some(GET), exchange(i).observed, exchange(i).outcome, exchange(i).endTime - exchange(i).startTime)
                 && results[i].1.url == urls[i] == ProjectEndpoints(baseUrl)[i].url
                 && results[i].1.httpMethod == "GET"
  {
    var eps := ProjectEndpoints(baseUrl);
    var results := Aggregate(eps, BatchProbe(exchange));
    var urls := [baseUrl + "/api/news/", baseUrl + "/news", baseUrl, baseUrl + "/health"];
    var names := ["News API (直接访问)", "News API (无api前缀)", "Root API", "Health Check"];
    BatchDistinctResults(eps, exchange);
    forall i | 0 <= i < 4
      ensures ResultKeys(results)[i] == names[i]
      ensures results[i].1 == EndpointResult(urls[i], Some(GET), exchange(i).observed, exchange(i).outcome, exchange(i).endTime - exchange(i).startTime)
      ensures results[i].1.url == urls[i] == eps[i].url && results[i].1.httpMethod == "GET"
    {
      assert eps[i] == Endpoint(names[i], urls[i], Some(GET));
      assert results[i].1 == Probe(eps[i], exchange(i));
    }
    assert ResultKeys(results) == names;
  }

  /** The base URL of the project run: `VITE_API_BASE_URL` when set and non-empty, else the environment's. */
  function ProjectBaseUrl(vars: EnvConfig.EnvVars): (r: string)
    ensures Truthy(EnvConfig.Lookup(vars, "VITE_API_BASE_URL")) ==> r == vars["VITE_API_BASE_URL"]
    ensures !Truthy(EnvConfig.Lookup(vars, "VITE_API_BASE_URL")) ==> r == EnvUtils.ApiBaseUrl(vars)
  {
    OrElse(EnvConfig.Lookup(vars, "VITE_API_BASE_URL"), EnvUtils.ApiBaseUrl(vars))
  }

  /**
   * `debugProjectApis`: probes the four project endpoints (the request to
   * the i-th went as `exchange(i)`) and renders their report.
   */
  method DebugProjectApis(vars: EnvConfig.EnvVars, exchange: nat -> Exchange) returns (results: Results, report: string)
    ensures results == Aggregate(ProjectEndpoints(ProjectBaseUrl(vars)), BatchProbe(exchange))
    ensures report == Report(results)
    ensures |results| == 4
    ensures forall i :: 0 <= i < 4 ==>
              results[i].1.url == ProjectEndpoints(ProjectBaseUrl(vars))[i].url && results[i].1.httpMethod == "GET"
  {
    var baseUrl := ProjectBaseUrl(vars);
    ProjectResults(baseUrl, exchange);
    results := DebugMultipleEndpoints(ProjectEndpoints(baseUrl), exchange);
    report := GenerateReport(results);
  }
}
