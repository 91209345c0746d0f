/** The dashboard (`DashboardPage`): the metrics/groups refresh built on
    `Promise.allSettled`, the "Run Analysis" session with its two reset
    timers, and the coercion of the form's inputs. Replies and timer firings
    are explicit events; neither timer is ever cancelled. */
module DashboardPage {
  import opened Wrappers
  import opened JsonValue
  import JsText

  const InitialMetrics: Json := JObj(map[
    "totalErrors" := JNum(0.0), "activeGroups" := JNum(0.0), "criticalIssues" := JNum(0.0),
    "healthScore" := JNum(100.0), "avgConfidence" := JNum(0.0), "impactedServices" := JNum(0.0)])

  /** The groups request: always `status: 'active'` and `limit: 10`, plus the
      category unless the filter is 'All'. */
  datatype GroupsParams = GroupsParams(status: string, limit: int, category: Option<string>)

  function GroupsParamsFor(categoryFilter: string): (p: GroupsParams)
    ensures p.status == "active" && p.limit == 10
    ensures p.category.Some? <==> categoryFilter != "All"
    ensures p.category.Some? ==> p.category.value == categoryFilter
  {
    GroupsParams("active", 10, if categoryFilter != "All" then Some(categoryFilter) else None)
  }

  /** The analysis request body. `timeRange` is `None` when `parseInt` gave NaN. */
  datatype Config = Config(timeRange: Option<int>, maxTraces: int)

  const InitialConfig: Config := Config(Some(60), 10)

  /** The trace-capacity input: `parseInt(value) || 0`. */
  function CoerceCapacity(value: string): (n: int)
    ensures JsText.ParseInt(value).None? ==> n == 0
    ensures JsText.ParseInt(value).Some? ==> n == JsText.ParseInt(value).value
  {
    match JsText.ParseInt(value)
    case Some(v) => v
    case None => 0
  }

  /** Input with no digit ("", "abc") is coerced to 0. */
  lemma CapacityWithoutDigits()
    ensures CoerceCapacity("") == 0 && CoerceCapacity("abc") == 0
  {
    assert JsText.ParseMagnitude("") == None;
    assert JsText.ParseInt("") == None;
    assert !JsText.IsDigitIn('a', 10);
    assert JsText.DigitPrefix("abc", 10) == [];
    assert JsText.ParseMagnitude("abc") == None;
    assert JsText.TrimStart("abc") == "abc";
    assert JsText.ParseSigned("abc") == None;
  }

  /** A whole number typed in is kept as it is. */
  lemma CapacityOfNumber(n: int)
    ensures CoerceCapacity(JsText.IntToString(n)) == n
  {
    JsText.ParseIntOfIntToString(n);
  }

  /** A decimal keeps its integer part, after leading white space. */
  lemma CapacityOfDecimal()
    ensures CoerceCapacity(" 12.9") == 12
  {
    assert " 12.9"[0] == ' ' && " 12.9"[1..] == "12.9";
    JsText.ParseIntAfterSpace(" 12.9");
    DecimalReadsIntegerPart();
  }

  lemma DecimalReadsIntegerPart()
    ensures JsText.ParseInt("12.9") == Some(12)
  {
    assert "12.9"[0] == '1';
    JsText.TrimStartNoSpace("12.9");
    assert JsText.DigitPrefix("12.9", 10) == "12" by {
      assert "12.9"[1..] == "2.9" && "2.9"[1..] == ".9";
    }
    assert JsText.DigitsValue("12", 10) == 12 by {
      assert "12"[..1] == "1";
    }
    assert JsText.ParseMagnitude("12.9") == Some(12);
  }

  /** The reply to the analysis request: a body, or an error with the
      server's `detail` (if any) and the error's message. */
  datatype AnalysisReply = Replied(body: Json) | Failed(detail: Option<string>, message: string)

  /** `res.data.results`: defined iff the body is an object holding
      `results`, and then that value. */
  function ResultsOf(body: Json): (r: Option<Json>)
    ensures r.Some? <==> body.JObj? && "results" in body.fields
    ensures r.Some? ==> r.value == body.fields["results"]
  {
    JsProp(Some(body), "results")
  }

  const NoResultsMessage: string := "No results returned from analysis"

  /** "Analysis Failed: " + (err.response?.data?.detail || err.message). A
      reply without truthy results raises an error with no response. */
  function FailureStatus(reply: AnalysisReply): (s: string)
    requires reply.Failed? || !JsTruthy(ResultsOf(reply.body))
    ensures reply.Replied? ==> s == "Analysis Failed: " + NoResultsMessage
    ensures reply.Failed? && reply.detail.Some? && reply.detail.value != "" ==>
      s == "Analysis Failed: " + reply.detail.value
    ensures reply.Failed? && (reply.detail.None? || reply.detail.value == "") ==>
      s == "Analysis Failed: " + reply.message
  {
    "Analysis Failed: " +
      (if reply.Replied? then NoResultsMessage
       else if reply.detail.Some? && reply.detail.value != "" then reply.detail.value
       else reply.message)
  }

  /** The two `setTimeout` callbacks the session arms. */
  datatype Timer = ClearSession | ClearStatus

  class Page {
    var metrics: Json
    var recentGroups: Json
    var categoryFilter: string
    var loadingData: bool
    var isAnalyzing: bool
    var analysisStatus: Option<string>
    var config: Config
    var analysisResults: Option<Json>
    /** Armed timers, oldest first; firing one removes it. */
    var timers: seq<Timer>
    /** Refreshes waiting on `allSettled`, each with its `showLoading`. */
    var refreshes: seq<bool>
    /** Analysis requests waiting for their reply, each with the category
        filter its click handler closed over. */
    var analysesInFlight: seq<string>

    /** Mounting runs the effect: one refresh with the spinner. */
    constructor ()
      ensures metrics == InitialMetrics && recentGroups == JArr([]) && categoryFilter == "All"
      ensures loadingData && !isAnalyzing && analysisStatus.None? && config == InitialConfig
      ensures analysisResults.None? && timers == [] && refreshes == [true] && analysesInFlight == []
    {
      metrics := InitialMetrics;
      recentGroups := JArr([]);
      categoryFilter := "All";
      loadingData := true;
      isAnalyzing := false;
      analysisStatus := None;
      config := InitialConfig;
      analysisResults := None;
      timers := [];
      refreshes := [true];
      analysesInFlight := [];
    }

    /** The category select: a new value re-runs the effect, a refresh with
        the spinner; React ignores setting the same value. */
    method SetCategory(c: string) returns (request: Option<GroupsParams>)
      modifies this
      ensures categoryFilter == c
      ensures c != old(categoryFilter) ==>
        loadingData && refreshes == old(refreshes) + [true] && request == Some(GroupsParamsFor(c))
      ensures c == old(categoryFilter) ==>
        loadingData == old(loadingData) && refreshes == old(refreshes) && request.None?
      ensures metrics == old(metrics) && recentGroups == old(recentGroups)
      ensures isAnalyzing == old(isAnalyzing) && analysisStatus == old(analysisStatus)
      ensures config == old(config) && analysisResults == old(analysisResults)
      ensures timers == old(timers) && analysesInFlight == old(analysesInFlight)
    {
      request := None;
      if c != categoryFilter {
        categoryFilter := c;
        loadingData := true;
        refreshes := refreshes + [true];
        request := Some(GroupsParamsFor(c));
      }
    }

    /** The `i`-th pending refresh settles: each fulfilled half replaces its
        own state, a rejected half leaves it; the spinner is cleared only by
        a refresh that set it. */
    method RefreshSettled(i: nat, summary: Result<Json, string>, groups: Result<Json, string>)
      requires i < |refreshes|
      modifies this
      ensures metrics == (if summary.Ok? then summary.value else old(metrics))
      ensures recentGroups == (if groups.Ok? then groups.value else old(recentGroups))
      ensures loadingData == (if old(refreshes[i]) then false else old(loadingData))
      ensures refreshes == old(refreshes[..i] + refreshes[i + 1..])
      ensures categoryFilter == old(categoryFilter) && isAnalyzing == old(isAnalyzing)
      ensures analysisStatus == old(analysisStatus) && config == old(config)
      ensures analysisResults == old(analysisResults) && timers == old(timers)
      ensures analysesInFlight == old(analysesInFlight)
    {
      if summary.Ok? {
        metrics := summary.value;
      }
      if groups.Ok? {
        recentGroups := groups.value;
      }
      if refreshes[i] {
        loadingData := false;
      }
      refreshes := refreshes[..i] + refreshes[i + 1..];
    }

    /** The lookback select: `parseInt(value)`. */
    method SetTimeRange(value: string)
      modifies this`config
      ensures config == old(config).(timeRange := JsText.ParseInt(value))
    {
      config := config.(timeRange := JsText.ParseInt(value));
    }

    /** The trace-capacity input. */
    method SetMaxTraces(value: string)
      modifies this`config
      ensures config == old(config).(maxTraces := CoerceCapacity(value))
    {
      config := config.(maxTraces := CoerceCapacity(value));
    }

    /** "Run Analysis" submits (the button is disabled while analysing; the
        handler itself does not check). */
    method StartAnalysis() returns (request: Config)
      modifies this
      ensures isAnalyzing && analysisStatus == Some("Initiating Deep Scan...")
      ensures request == config && analysesInFlight == old(analysesInFlight) + [old(categoryFilter)]
      ensures metrics == old(metrics) && recentGroups == old(recentGroups)
      ensures categoryFilter == old(categoryFilter) && loadingData == old(loadingData)
      ensures config == old(config) && analysisResults == old(analysisResults)
      ensures timers == old(timers) && refreshes == old(refreshes)
    {
      isAnalyzing := true;
      analysisStatus := Some("Initiating Deep Scan...");
      request := config;
      analysesInFlight := analysesInFlight + [categoryFilter];
    }

    /** The `i`-th pending analysis replies. Truthy `results` (an empty list
        included) are kept, a silent refresh starts and a 2 s timer will end
        the session; otherwise the session ends now and a 5 s timer will
        clear the status. The refresh is the click handler's own
        `fetchDashboardData`, so it asks for the category filter of the
        click, whatever the select shows now. */
    method AnalysisSettled(i: nat, reply: AnalysisReply) returns (refresh: Option<GroupsParams>)
      requires i < |analysesInFlight|
      modifies this
      ensures analysesInFlight == old(analysesInFlight[..i] + analysesInFlight[i + 1..])
      ensures reply.Replied? && JsTruthy(ResultsOf(reply.body)) ==>
        && analysisResults == ResultsOf(reply.body)
        && analysisStatus == Some("Insights Generated.")
        && isAnalyzing == old(isAnalyzing)
        && refreshes == old(refreshes) + [false]
        && refresh == Some(GroupsParamsFor(old(analysesInFlight[i])))
        && timers == old(timers) + [ClearSession]
      ensures !(reply.Replied? && JsTruthy(ResultsOf(reply.body))) ==>
        && analysisResults == old(analysisResults)
        && analysisStatus == Some(FailureStatus(reply))
        && !isAnalyzing
        && refreshes == old(refreshes) && refresh.None?
        && timers == old(timers) + [ClearStatus]
      ensures metrics == old(metrics) && recentGroups == old(recentGroups)
      ensures categoryFilter == old(categoryFilter) && loadingData == old(loadingData)
      ensures config == old(config)
    {
      var clickCategory := analysesInFlight[i];
      analysesInFlight := analysesInFlight[..i] + analysesInFlight[i + 1..];
      if reply.Replied? && JsTruthy(ResultsOf(reply.body)) {
        analysisResults := ResultsOf(reply.body);
        analysisStatus := Some("Insights Generated.");
        refreshes := refreshes + [false];
        refresh := Some(GroupsParamsFor(clickCategory));
        timers := timers + [ClearSession];
      } else {
        isAnalyzing := false;
        analysisStatus := Some(FailureStatus(reply));
        refresh := None;
        timers := timers + [ClearStatus];
      }
    }

    /** The `i`-th armed timer fires, whichever session armed it. */
    method TimerFired(i: nat)
      requires i < |timers|
      modifies this
      ensures timers == old(timers[..i] + timers[i + 1..])
      ensures analysisStatus.None?
      ensures isAnalyzing == (if old(timers[i]) == ClearSession then false else old(isAnalyzing))
      ensures metrics == old(metrics) && recentGroups == old(recentGroups)
      ensures categoryFilter == old(categoryFilter) && loadingData == old(loadingData)
      ensures config == old(config) && analysisResults == old(analysisResults)
      ensures refreshes == old(refreshes) && analysesInFlight == old(analysesInFlight)
    {
      if timers[i] == ClearSession {
        isAnalyzing := false;
      }
      analysisStatus := None;
      timers := timers[..i] + timers[i + 1..];
    }
  }

  /** An empty `results` list is a success: it is stored, the status reads
      "Insights Generated." and the session stays busy until its timer. */
  method EmptyResultsSucceed() returns (results: Option<Json>, status: Option<string>, busy: bool)
    ensures results == Some(JArr([]))
    ensures status == Some("Insights Generated.") && busy
  {
    var p := new Page();
    p.RefreshSettled(0, Err("offline"), Err("offline"));
    var request := p.StartAnalysis();
    var refresh := p.AnalysisSettled(0, Replied(JObj(map["results" := JArr([])])));
    results, status, busy := p.analysisResults, p.analysisStatus, p.isAnalyzing;
  }

  /** A failed run's 5 s timer is not cancelled by the next run: if it fires
      while the second run is still waiting, it blanks that run's status. */
  method StaleTimerBlanksNextRun(message: string) returns (statusDuringSecondRun: Option<string>, busy: bool)
    ensures statusDuringSecondRun.None? && busy
  {
    var p := new Page();
    var first := p.StartAnalysis();
    var none := p.AnalysisSettled(0, Failed(None, message));
    var second := p.StartAnalysis();
    p.TimerFired(0);
    statusDuringSecondRun, busy := p.analysisStatus, p.isAnalyzing;
  }

  /** A failed run shows the server's detail in preference to the message. */
  method FailureShowsDetail(detail: string, message: string) returns (status: Option<string>, busy: bool)
    requires detail != ""
    ensures status == Some("Analysis Failed: " + detail) && !busy
  {
    var p := new Page();
    var request := p.StartAnalysis();
    var none := p.AnalysisSettled(0, Failed(Some(detail), message));
    status, busy := p.analysisStatus, p.isAnalyzing;
  }

  /** Switching the category while an analysis runs does not redirect its
      refresh: the refresh asks for the click-time category, and the list it
      returns replaces the one shown for the new category. */
  method RefreshUsesClickCategory(c: string, results: Json)
    returns (switched: Option<GroupsParams>, refresh: Option<GroupsParams>)
    requires c != "All" && JsTruthy(Some(results))
    ensures switched == Some(GroupsParamsFor(c))
    ensures refresh == Some(GroupsParamsFor("All")) && refresh != switched
  {
    var p := new Page();
    var request := p.StartAnalysis();
    switched := p.SetCategory(c);
    refresh := p.AnalysisSettled(0, Replied(JObj(map["results" := results])));
    assert GroupsParamsFor("All") != GroupsParamsFor(c);
  }
}
