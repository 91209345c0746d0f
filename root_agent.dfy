/** The command-line analysis agent at the repository root: it gets traces
    by fetching them or by loading a saved file, summarises each trace's
    logs for Gemini, records each analysed trace as an incident and reports
    one result per analysed trace.

    Gemini's parsed reply for each trace, the fetched traces, the saved
    file names and the clock are inputs. */
module RootAgent {
  import opened Wrappers
  import opened JsonValue
  import opened SeqFilter
  import PySlice
  import JsText
  import StringOrder
  import CoreAgent

  type Trace = CoreAgent.Trace

  // ------------------------------------------------------- getting logs

  /** Where `get_logs` takes its data from. */
  datatype Source = Fetch | Load(name: string)

  /** `sorted(files)[-1]`: the greatest name in code-point order. */
  function Greatest(files: seq<string>): (m: string)
    requires |files| > 0
    ensures m in files
    ensures forall f :: f in files ==> StringOrder.Le(f, m)
  {
    if |files| == 1 then
      StringOrder.LeTotal(files[0], files[0]);
      files[0]
    else
      var rest := Greatest(files[1..]);
      assert forall f :: f in files[1..] ==> StringOrder.Le(f, rest);
      if StringOrder.Le(files[0], rest) then
        assert files == [files[0]] + files[1..];
        rest
      else
        StringOrder.LeTotal(files[0], rest);
        forall f | f in files[1..]
          ensures StringOrder.Le(f, files[0])
        {
          StringOrder.LeTransitive(f, rest, files[0]);
        }
        StringOrder.LeTotal(files[0], files[0]);
        assert files == [files[0]] + files[1..];
        files[0]
  }

  /** `get_logs`: "fetch" fetches; "load" loads the given file, or the
      greatest saved name, and gives None when nothing is saved; any other
      mode gives None. */
  function GetLogs(mode: string, filename: Option<string>, saved: seq<string>): (r: Option<Source>)
    ensures r == Some(Fetch) <==> mode == "fetch"
    ensures r.None? <==> (mode != "fetch" && mode != "load") || (mode == "load" && filename.None? && saved == [])
    ensures mode == "load" && filename.Some? ==> r == Some(Load(filename.value))
    ensures mode == "load" && filename.None? && saved != [] ==>
      r.Some? && r.value.Load? && r.value.name in saved
      && forall f :: f in saved ==> StringOrder.Le(f, r.value.name)
  {
    if mode == "fetch" then Some(Fetch)
    else if mode == "load" then
      if filename.Some? then Some(Load(filename.value))
      else if saved == [] then None
      else Some(Load(Greatest(saved)))
    else None
  }

  /** `sum(len(logs) for logs in traces.values())`: every trace's logs are
      counted in the total. */
  function TotalLogs(traces: seq<Trace>): (n: nat)
    ensures forall i :: 0 <= i < |traces| ==> |traces[i].logs| <= n
  {
    if traces == [] then 0
    else
      var init := traces[..|traces| - 1];
      assert forall i :: 0 <= i < |init| ==> init[i] == traces[i];
      TotalLogs(init) + |traces[|traces| - 1].logs|
  }

  /** When every trace holds a log, there are at least as many logs as
      traces. */
  lemma {:induction false} TotalLogsAtLeastTraces(traces: seq<Trace>)
    requires forall i :: 0 <= i < |traces| ==> |traces[i].logs| > 0
    ensures TotalLogs(traces) >= |traces|
  {
    if traces != [] {
      TotalLogsAtLeastTraces(traces[..|traces| - 1]);
    }
  }

  /** The logs of the first traces are part of the total. */
  lemma {:induction false} TotalLogsOfPrefix(traces: seq<Trace>, n: nat)
    requires n <= |traces|
    ensures TotalLogs(traces[..n]) <= TotalLogs(traces)
  {
    if n < |traces| {
      assert traces[..|traces| - 1][..n] == traces[..n];
      TotalLogsOfPrefix(traces[..|traces| - 1], n);
    } else {
      assert traces[..n] == traces;
    }
  }

  /** `if max_traces: traces = dict(list(traces.items())[:max_traces])`. */
  function Selected(traces: seq<Trace>, maxTraces: Option<int>): (r: seq<Trace>)
    ensures r <= traces
    ensures maxTraces.None? || maxTraces == Some(0) ==> r == traces
    ensures maxTraces.Some? && maxTraces.value > 0 ==> |r| == PySlice.Min(maxTraces.value, |traces|)
  {
    if maxTraces.Some? && maxTraces.value != 0 then PySlice.Slice(traces, 0, maxTraces.value) else traces
  }

  // ------------------------------------------------------- log summary

  /** The fields `log[...]` requires, in the order they are read. */
  const Required: seq<string> := ["timestamp", "severity", "service", "message"]

  /** The summary of one log, or KeyError for the first required field it
      lacks. */
  function LogSummary(log: Dict): (r: Result<Dict, PyError>)
    ensures r.Ok? <==> forall k :: k in Required ==> k in log
    ensures r.Err? ==> r.error.KeyError? && r.error.key in Required && r.error.key !in log
    ensures r.Ok? ==> r.value.Keys == {"timestamp", "severity", "service", "message", "root_cause", "suggestion"}
    ensures r.Ok? ==> forall k :: k in Required ==> r.value[k] == log[k]
    ensures r.Ok? ==>
      r.value["root_cause"] == PyGet(log, "root_cause", JNull) && r.value["suggestion"] == PyGet(log, "suggestion", JNull)
  {
    if "timestamp" !in log then Err(KeyError("timestamp"))
    else if "severity" !in log then Err(KeyError("severity"))
    else if "service" !in log then Err(KeyError("service"))
    else if "message" !in log then Err(KeyError("message"))
    else
      Ok(map[
        "timestamp" := log["timestamp"],
        "severity" := log["severity"],
        "service" := log["service"],
        "message" := log["message"],
        "root_cause" := PyGet(log, "root_cause", JNull),
        "suggestion" := PyGet(log, "suggestion", JNull)])
  }

  /** The summaries of a trace's logs, one per log in order, stopping at
      the first log that lacks a field. */
  function LogSummaries(logs: seq<Dict>): (r: Result<seq<Dict>, PyError>)
    ensures r.Ok? <==> forall i :: 0 <= i < |logs| ==> LogSummary(logs[i]).Ok?
    ensures r.Ok? ==> |r.value| == |logs| && forall i :: 0 <= i < |logs| ==> r.value[i] == LogSummary(logs[i]).value
  {
    if logs == [] then Ok([])
    else
      var init := logs[..|logs| - 1];
      assert forall i :: 0 <= i < |init| ==> init[i] == logs[i];
      match LogSummaries(init)
      case Err(e) => Err(e)
      case Ok(prev) =>
        match LogSummary(logs[|logs| - 1])
        case Err(e) => Err(e)
        case Ok(s) => Ok(prev + [s])
  }

  lemma {:induction false} SummaryErrorPersists(logs: seq<Dict>, n: nat)
    requires n <= |logs| && LogSummaries(logs[..n]).Err?
    ensures LogSummaries(logs) == LogSummaries(logs[..n])
    decreases |logs| - n
  {
    if n < |logs| {
      assert logs[..n + 1][..n] == logs[..n];
      SummaryErrorPersists(logs, n + 1);
    } else {
      assert logs[..n] == logs;
    }
  }

  /** The loop that fills `log_summary["logs"]`. */
  method Summarise(logs: seq<Dict>) returns (r: Result<seq<Dict>, PyError>)
    ensures r == LogSummaries(logs)
  {
    var out: seq<Dict> := [];
    var i := 0;
    while i < |logs|
      invariant 0 <= i <= |logs|
      invariant LogSummaries(logs[..i]) == Ok(out)
    {
      assert logs[..i + 1][..i] == logs[..i];
      var s := LogSummary(logs[i]);
      if s.Err? {
        SummaryErrorPersists(logs, i + 1);
        return Err(s.error);
      }
      out := out + [s.value];
      i := i + 1;
    }
    assert logs[..i] == logs;
    r := Ok(out);
  }

  // ------------------------------------------------------- one trace

  const RecordKeys: set<string> :=
    {"trace_id", "timestamp", "service", "log_count", "first_seen", "last_seen", "analysis", "status", "raw_logs"}

  /** The incident written for an analysed trace, or None when building it
      raises inside the `try` (a confidence that cannot be compared with
      0.8). The caller has already read these fields of every log. */
  function Record(t: Trace, analysis: Dict, raw: seq<Dict>, now: string): (r: Option<Dict>)
    requires forall i :: 0 <= i < |t.logs| ==> "service" in t.logs[i] && "timestamp" in t.logs[i]
    ensures r.None? <==> PyNumber(PyGet(analysis, "confidence", JNum(0.0))).None?
    ensures r.Some? ==> r.value.Keys == RecordKeys
    ensures r.Some? ==> r.value["trace_id"] == JStr(t.id) && r.value["analysis"] == JObj(analysis)
    ensures r.Some? ==> r.value["log_count"] == JNum(|t.logs| as real)
    ensures r.Some? ==> r.value["service"] == (if |t.logs| > 0 then t.logs[0]["service"] else JStr("unknown"))
    ensures r.Some? ==> r.value["first_seen"] == (if |t.logs| > 0 then t.logs[0]["timestamp"] else JNull)
    ensures r.Some? ==> r.value["last_seen"] == (if |t.logs| > 0 then t.logs[|t.logs| - 1]["timestamp"] else JNull)
    ensures r.Some? ==>
      (r.value["status"] == JStr("AUTO-RESOLVED") <==> PyNumber(PyGet(analysis, "confidence", JNum(0.0))).value > 0.8)
    ensures r.Some? ==> r.value["status"] in {JStr("AUTO-RESOLVED"), JStr("PENDING_REVIEW")}
  {
    match PyGreater(PyGet(analysis, "confidence", JNum(0.0)), 0.8)
    case Err(_) => None
    case Ok(resolved) =>
      var n := |t.logs|;
      Some(map[
        "trace_id" := JStr(t.id),
        "timestamp" := JStr(now),
        "service" := if n > 0 then t.logs[0]["service"] else JStr("unknown"),
        "log_count" := JNum(n as real),
        "first_seen" := if n > 0 then t.logs[0]["timestamp"] else JNull,
        "last_seen" := if n > 0 then t.logs[n - 1]["timestamp"] else JNull,
        "analysis" := JObj(analysis),
        "status" := JStr(if resolved then "AUTO-RESOLVED" else "PENDING_REVIEW"),
        "raw_logs" := JArr(seq(|raw|, i requires 0 <= i < |raw| => JObj(raw[i])))])
  }

  const ResultKeys: set<string> := {"trace_id", "root_cause", "category", "action", "confidence", "log_count"}

  /** The result reported for an analysed trace. */
  function ResultEntry(t: Trace, analysis: Dict): (r: Dict)
    ensures r.Keys == ResultKeys
    ensures r["trace_id"] == JStr(t.id) && r["log_count"] == JNum(|t.logs| as real)
    ensures "cause" !in analysis ==> r["root_cause"] == JStr("Unknown")
    ensures "category" !in analysis ==> r["category"] == JStr("Unknown")
    ensures "action" !in analysis ==> r["action"] == JStr("No action")
    ensures r["confidence"].JNum?
    ensures PyNumber(PyGet(analysis, "confidence", JNull)).Some? ==>
      r["confidence"] == JNum(PyNumber(analysis["confidence"]).value)
    ensures PyNumber(PyGet(analysis, "confidence", JNull)).None? ==> r["confidence"] == JNum(0.0)
  {
    var c := PyNumber(PyGet(analysis, "confidence", JNull));
    map[
      "trace_id" := JStr(t.id),
      "root_cause" := PyGet(analysis, "cause", JStr("Unknown")),
      "category" := PyGet(analysis, "category", JStr("Unknown")),
      "action" := PyGet(analysis, "action", JStr("No action")),
      "confidence" := JNum(if c.Some? then c.value else 0.0),
      "log_count" := JNum(|t.logs| as real)]
  }

  /** Whether Gemini answered for the trace, i.e. `if analysis:` holds. */
  predicate Answered(replies: map<string, Json>, t: Trace) {
    t.id in replies && PyTruthy(replies[t.id])
  }

  /** What the loop has built: the results, the records written, and the
      exception that ended it, if one did. */
  datatype Progress = Progress(results: seq<Dict>, stored: seq<Dict>, error: Option<PyError>)

  /** One turn of the loop of `run_analysis_for_api`. A log lacking a
      required field raises before anything is written; a truthy reply
      that is not a dict raises when its result is built. */
  function Step(db: bool, replies: map<string, Json>, now: string, p: Progress, t: Trace): (r: Progress)
    ensures p.error.Some? ==> r == p
    ensures p.error.None? && LogSummaries(t.logs).Err? ==> r == p.(error := Some(LogSummaries(t.logs).error))
    ensures p.error.None? && LogSummaries(t.logs).Ok? && !Answered(replies, t) ==> r == p
    ensures p.error.None? && LogSummaries(t.logs).Ok? && Answered(replies, t) ==>
      (r.error.None? <==> replies[t.id].JObj?)
    ensures r.error.None? && Answered(replies, t) ==> r.results == p.results + [ResultEntry(t, replies[t.id].fields)]
    ensures p.stored <= r.stored && |r.stored| <= |p.stored| + 1
    ensures |r.results| <= |p.results| + 1 && p.results <= r.results
    ensures !db ==> r.stored == p.stored
  {
    if p.error.Some? then p
    else
      match LogSummaries(t.logs)
      case Err(e) => p.(error := Some(e))
      case Ok(raw) =>
        if !Answered(replies, t) then p
        else if !replies[t.id].JObj? then p.(error := Some(AttributeError))
        else
          var a := replies[t.id].fields;
          var rec := if db then Record(t, a, raw, now) else None;
          Progress(p.results + [ResultEntry(t, a)], p.stored + (if rec.Some? then [rec.value] else []), None)
  }

  function Run(db: bool, replies: map<string, Json>, now: string, traces: seq<Trace>): (r: Progress)
    ensures |r.results| <= |traces| && |r.stored| <= |traces|
  {
    if traces == [] then Progress([], [], None)
    else Step(db, replies, now, Run(db, replies, now, traces[..|traces| - 1]), traces[|traces| - 1])
  }

  lemma {:induction false} RunStops(db: bool, replies: map<string, Json>, now: string, traces: seq<Trace>, n: nat)
    requires n <= |traces| && Run(db, replies, now, traces[..n]).error.Some?
    ensures Run(db, replies, now, traces) == Run(db, replies, now, traces[..n])
    decreases |traces| - n
  {
    if n < |traces| {
      assert traces[..n + 1][..n] == traces[..n];
      RunStops(db, replies, now, traces, n + 1);
    } else {
      assert traces[..n] == traces;
    }
  }

  /** One more trace is one more turn of the loop. */
  lemma RunSnoc(db: bool, replies: map<string, Json>, now: string, traces: seq<Trace>, i: nat)
    requires i < |traces|
    ensures Run(db, replies, now, traces[..i + 1]) == Step(db, replies, now, Run(db, replies, now, traces[..i]), traces[i])
  {
    assert traces[..i + 1][..i] == traces[..i];
  }

  /** The reply of `run_analysis_for_api`. */
  datatype Reply = Reply(status: string, message: string, totalTraces: nat, analyzedTraces: nat, results: seq<Dict>)

  /** `run_analysis_for_api`: the reply, or the exception that escaped, and
      the records written before it. */
  method RunAnalysis(db: bool, fetched: seq<Trace>, maxTraces: Option<int>, replies: map<string, Json>, now: string)
    returns (r: Result<Reply, PyError>, stored: seq<Dict>)
    ensures fetched == [] ==> r == Ok(Reply("success", "No logs available", 0, 0, [])) && stored == []
    ensures fetched != [] ==>
      var run := Run(db, replies, now, Selected(fetched, maxTraces));
      stored == run.stored
      && (run.error.Some? ==> r == Err(run.error.value))
      && (run.error.None? ==> r == Ok(Reply("success", "Analyzed " + JsText.IntToString(|run.results|) + " traces",
                                             |Selected(fetched, maxTraces)|, |run.results|, run.results)))
  {
    if fetched == [] {
      return Ok(Reply("success", "No logs available", 0, 0, [])), [];
    }
    var traces := Selected(fetched, maxTraces);
    var results: seq<Dict> := [];
    stored := [];
    var i := 0;
    while i < |traces|
      invariant 0 <= i <= |traces|
      invariant Run(db, replies, now, traces[..i]) == Progress(results, stored, None)
    {
      var t := traces[i];
      RunSnoc(db, replies, now, traces, i);
      var next := Turn(db, replies, now, results, stored, t);
      assert next == Run(db, replies, now, traces[..i + 1]);
      if next.error.Some? {
        RunStops(db, replies, now, traces, i + 1);
        return Err(next.error.value), next.stored;
      }
      results, stored := next.results, next.stored;
      i := i + 1;
    }
    assert traces[..i] == traces;
    r := Ok(Reply("success", "Analyzed " + JsText.IntToString(|results|) + " traces", |traces|, |results|, results));
  }

  /** The body of the loop for one trace. */
  method Turn(db: bool, replies: map<string, Json>, now: string, results: seq<Dict>, stored: seq<Dict>, t: Trace)
    returns (next: Progress)
    ensures next == Step(db, replies, now, Progress(results, stored, None), t)
  {
    var raw := Summarise(t.logs);
    if raw.Err? {
      return Progress(results, stored, Some(raw.error));
    }
    next := Progress(results, stored, None);
    if t.id in replies && PyTruthy(replies[t.id]) {
      var analysis := replies[t.id];
      if !analysis.JObj? {
        return Progress(results, stored, Some(AttributeError));
      }
      var written := stored;
      if db {
        var rec := Record(t, analysis.fields, raw.value, now);
        if rec.Some? {
          written := stored + [rec.value];
        }
      }
      next := Progress(results + [ResultEntry(t, analysis.fields)], written, None);
    }
  }

  /** The results are the answered traces, in order: the trace ids of the
      results are those of the traces Gemini answered for. */
  lemma {:induction false} ResultsAreAnsweredTraces(db: bool, replies: map<string, Json>, now: string, traces: seq<Trace>)
    requires Run(db, replies, now, traces).error.None?
    ensures var results := Run(db, replies, now, traces).results;
      var answered := Filter(traces, t => Answered(replies, t));
      |results| == |answered| && forall i :: 0 <= i < |results| ==>
        "trace_id" in results[i] && results[i]["trace_id"] == JStr(answered[i].id)
  {
    var keep := t => Answered(replies, t);
    if traces != [] {
      var init, t := traces[..|traces| - 1], traces[|traces| - 1];
      assert traces == init + [t];
      var p := Run(db, replies, now, init);
      assert Run(db, replies, now, traces) == Step(db, replies, now, p, t);
      assert p.error.None?;
      ResultsAreAnsweredTraces(db, replies, now, init);
      FilterSnoc(init, t, keep);
      if Answered(replies, t) {
        IdsExtend(p.results, Filter(init, keep), ResultEntry(t, replies[t.id].fields), t);
      }
    }
  }

  /** Appending a result for trace `t` to results that carry the ids of
      `answered` keeps them carrying the ids, now of `answered + [t]`. */
  lemma IdsExtend(results: seq<Dict>, answered: seq<Trace>, e: Dict, t: Trace)
    requires |results| == |answered|
    requires forall i :: 0 <= i < |results| ==> "trace_id" in results[i] && results[i]["trace_id"] == JStr(answered[i].id)
    requires "trace_id" in e && e["trace_id"] == JStr(t.id)
    ensures forall i :: 0 <= i < |results| + 1 ==>
      "trace_id" in (results + [e])[i] && (results + [e])[i]["trace_id"] == JStr((answered + [t])[i].id)
  {
    forall i | 0 <= i < |results| + 1
      ensures "trace_id" in (results + [e])[i] && (results + [e])[i]["trace_id"] == JStr((answered + [t])[i].id)
    {
      if i < |results| {
        assert (results + [e])[i] == results[i] && (answered + [t])[i] == answered[i];
      }
    }
  }

  /** Without a db nothing is written, whatever Gemini answers. */
  lemma {:induction false} NoDbWritesNothing(replies: map<string, Json>, now: string, traces: seq<Trace>)
    ensures Run(false, replies, now, traces).stored == []
  {
    if traces != [] {
      NoDbWritesNothing(replies, now, traces[..|traces| - 1]);
    }
  }
}
