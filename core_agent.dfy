/** The live analysis pipeline of the backend: each trace's logs are sent to
    the Gemini model, a reply is escalated when the trace is long, its
    confidence is turned into a percentage and an incident record is
    written; the API call selects the traces, analyses them together and
    reports one result per analysed trace.

    Gemini's parsed reply for each trace, the credential lookup, the log
    fetch and the clock are inputs. `asyncio.gather` is modelled as
    analysing every selected trace and then looking at the outcomes in
    order. */
module CoreAgent {
  import opened Wrappers
  import opened JsonValue
  import opened SeqFilter
  import HttpErrors
  import PySlice
  import ConfidenceRule

  const Escalated: string := "P0 (Auto-Escalated)"

  /** Logs kept in an incident record as context. */
  const ContextLogs: nat := 20

  /** A trace: its id and its log entries, as `fetch_logs` groups them. */
  datatype Trace = Trace(id: string, logs: seq<Dict>)

  /** What `process_trace_async` hands back: the trace, its analysis (None
      when Gemini gave nothing usable) and the record it tried to store. */
  datatype Processed = Processed(traceId: string, logs: seq<Dict>, analysis: Option<Json>, record: Option<Dict>)

  // ------------------------------------------------------- one trace

  /** `if len(logs) > 5: analysis['priority'] = ...`: item assignment works
      only on a dict, and raises TypeError on any other parsed reply. */
  function Escalate(analysis: Json, count: nat): (r: Result<Json, PyError>)
    ensures count <= 5 ==> r == Ok(analysis)
    ensures count > 5 ==> (r.Ok? <==> analysis.JObj?)
    ensures count > 5 && r.Ok? ==>
      r.value.JObj? && r.value.fields == analysis.fields["priority" := JStr(Escalated)]
    ensures r.Err? ==> r.error == TypeError
  {
    if count <= 5 then Ok(analysis)
    else if analysis.JObj? then Ok(JObj(analysis.fields["priority" := JStr(Escalated)]))
    else Err(TypeError)
  }

  /** `analysis['confidence'] = confidence` after the percentage rule. */
  function Normalise(analysis: Dict): (r: Dict)
    ensures r.Keys == analysis.Keys + {"confidence"}
    ensures forall k :: k in analysis && k != "confidence" ==> r[k] == analysis[k]
    ensures r["confidence"] == ConfidenceRule.Percent(PyGet(analysis, "confidence", JNum(0.0)))
  {
    analysis["confidence" := ConfidenceRule.Percent(PyGet(analysis, "confidence", JNum(0.0)))]
  }

  /** The service of the trace's first log, 'unknown' for an empty trace. */
  function ServiceName(logs: seq<Dict>): Json {
    if |logs| > 0 then PyGet(logs[0], "service", JStr("unknown")) else JStr("unknown")
  }

  /** The logs stored as context, as a JSON list of objects. */
  function Context(logs: seq<Dict>): (r: Json)
    ensures r.JArr? && |r.items| == PySlice.Min(ContextLogs, |logs|)
    ensures forall i :: 0 <= i < |r.items| ==> r.items[i] == JObj(logs[i])
  {
    var kept := PySlice.Take(logs, ContextLogs);
    JArr(seq(|kept|, i requires 0 <= i < |kept| => JObj(kept[i])))
  }

  const RecordKeys: set<string> :=
    {"trace_id", "service_name", "timestamp", "occurrence_count", "security_alert", "redacted_text",
     "priority", "correlation", "analysis", "logs", "status"}

  /** The document added to `incidents` for an analysed trace. */
  function Record(traceId: string, logs: seq<Dict>, analysis: Dict, now: string): (r: Dict)
    ensures r.Keys == RecordKeys
    ensures r["trace_id"] == JStr(traceId) && r["timestamp"] == JStr(now)
    ensures r["status"] == JStr("OPEN")
    ensures r["occurrence_count"] == JNum(|logs| as real)
    ensures r["service_name"] == ServiceName(logs) && r["logs"] == Context(logs)
    ensures r["priority"] == PyGet(analysis, "priority", JStr("P2"))
    ensures r["correlation"] == PyGet(analysis, "correlation_insight", JStr("N/A"))
    ensures r["security_alert"] == PyGet(analysis, "security_alert", JBool(false))
    ensures r["redacted_text"] == PyGet(analysis, "redacted_summary", JNull)
    ensures r["analysis"] == JObj(analysis)
  {
    map[
      "trace_id" := JStr(traceId),
      "service_name" := ServiceName(logs),
      "timestamp" := JStr(now),
      "occurrence_count" := JNum(|logs| as real),
      "security_alert" := PyGet(analysis, "security_alert", JBool(false)),
      "redacted_text" := PyGet(analysis, "redacted_summary", JNull),
      "priority" := PyGet(analysis, "priority", JStr("P2")),
      "correlation" := PyGet(analysis, "correlation_insight", JStr("N/A")),
      "analysis" := JObj(analysis),
      "logs" := Context(logs),
      "status" := JStr("OPEN")]
  }

  /** `process_trace_async` given Gemini's parsed `reply` (None when the
      call failed). A falsy reply gives no analysis. With a db, a dict reply
      is normalised and recorded; a reply that is not a dict makes the
      `.get` raise inside the `try`, which only prints, so it is handed back
      unrecorded. An escalation of a reply that is not a dict raises out of
      the coroutine. */
  function ProcessTrace(db: bool, t: Trace, reply: Option<Json>, now: string): (r: Result<Processed, PyError>)
    ensures r.Err? <==> reply.Some? && PyTruthy(reply.value) && |t.logs| > 5 && !reply.value.JObj?
    ensures r.Ok? ==> r.value.traceId == t.id && r.value.logs == t.logs
    ensures r.Ok? ==> (r.value.analysis.None? <==> reply.None? || !PyTruthy(reply.value))
    ensures r.Ok? ==> (r.value.record.Some? <==> db && reply.Some? && PyTruthy(reply.value) && reply.value.JObj?)
    ensures r.Ok? && r.value.record.Some? ==>
      r.value.analysis.Some? && r.value.analysis.value.JObj?
      && r.value.record.value == Record(t.id, t.logs, r.value.analysis.value.fields, now)
  {
    if reply.None? || !PyTruthy(reply.value) then Ok(Processed(t.id, t.logs, None, None))
    else
      match Escalate(reply.value, |t.logs|)
      case Err(e) => Err(e)
      case Ok(a) =>
        if db && a.JObj? then
          var n := Normalise(a.fields);
          Ok(Processed(t.id, t.logs, Some(JObj(n)), Some(Record(t.id, t.logs, n, now))))
        else
          Ok(Processed(t.id, t.logs, Some(a), None))
  }

  /** A trace of more than five logs is handed back, and recorded, with
      priority "P0 (Auto-Escalated)" whatever Gemini said. */
  lemma LongTraceEscalated(db: bool, t: Trace, reply: Option<Json>, now: string)
    requires |t.logs| > 5
    requires ProcessTrace(db, t, reply, now).Ok? && ProcessTrace(db, t, reply, now).value.analysis.Some?
    ensures ProcessTrace(db, t, reply, now).value.analysis.value.JObj?
    ensures PyGet(ProcessTrace(db, t, reply, now).value.analysis.value.fields, "priority", JNull) == JStr(Escalated)
    ensures db ==> ProcessTrace(db, t, reply, now).value.record.value["priority"] == JStr(Escalated)
  {
  }

  /** Without a db the confidence is not touched: a short trace's analysis
      is Gemini's reply itself. */
  lemma NoDbKeepsRaw(t: Trace, reply: Json, now: string)
    requires |t.logs| <= 5 && PyTruthy(reply)
    ensures ProcessTrace(false, t, Some(reply), now) == Ok(Processed(t.id, t.logs, Some(reply), None))
  {
  }

  /** With a db, a fractional confidence is stored as a whole percentage,
      and a missing one as 0. */
  lemma StoredConfidenceIsPercent(t: Trace, reply: Dict, now: string)
    requires |reply| > 0
    ensures ProcessTrace(true, t, Some(JObj(reply)), now).Ok?
    ensures var c := ProcessTrace(true, t, Some(JObj(reply)), now).value.record.value["analysis"].fields["confidence"];
      ("confidence" in reply && reply["confidence"].JNum? && 0.0 <= reply["confidence"].n <= 1.0 ==>
         c.JNum? && 0.0 <= c.n <= 100.0)
      && ("confidence" !in reply ==> c == JNum(0.0))
  {
    var a := Escalate(JObj(reply), |t.logs|).value;
    assert "confidence" in reply ==> PyGet(a.fields, "confidence", JNum(0.0)) == reply["confidence"];
    if "confidence" !in reply {
      assert PyGet(a.fields, "confidence", JNum(0.0)) == JNum(0.0);
      ZeroStaysZero();
    }
  }

  lemma ZeroStaysZero()
    ensures ConfidenceRule.Percent(JNum(0.0)) == JNum(0.0)
  {
    ConfidenceRule.FractionToPercent(0.0);
  }

  // ------------------------------------------------------- the API call

  /** How the credential lookup ended: credentials (whose token may be
      absent or empty), no credentials, a ValueError with its message, or
      any other exception with its message. */
  datatype Lookup = Found(token: Option<string>) | NotFound | Refused(message: string) | Failed(message: string)

  /** `{"results": [...], "error": ...}`; `error` absent on success. */
  datatype Reply = Reply(results: seq<Dict>, error: Option<HttpErrors.Detail>)

  const MissingToken: string := "Credentials retrieved but token is missing or empty"

  /** The error a credential lookup ends the call with, if any. */
  function CredentialError(c: Lookup): (e: Option<string>)
    ensures e.None? <==> c.Found? && c.token.Some? && c.token.value != ""
  {
    match c
    case Found(token) =>
      if token.Some? && token.value != "" then None else Some("No valid credentials: " + MissingToken)
    case NotFound => Some("No valid credentials: " + MissingToken)
    case Refused(m) => Some("No valid credentials: " + m)
    case Failed(m) => Some(m)
  }

  /** `list(traces.items())[:max_traces]`; `[:None]` keeps every trace.
      At most `max_traces` traces are analysed, the first ones in order; a
      negative bound drops that many traces from the end. */
  function Selected(traces: seq<Trace>, maxTraces: Option<int>): (r: seq<Trace>)
    ensures r <= traces
    ensures maxTraces.None? ==> r == traces
    ensures maxTraces.Some? && maxTraces.value >= 0 ==> |r| == PySlice.Min(maxTraces.value, |traces|)
    ensures maxTraces.Some? && maxTraces.value < 0 ==>
      |r| == (if |traces| + maxTraces.value < 0 then 0 else |traces| + maxTraces.value)
  {
    if maxTraces.None? then traces else PySlice.Slice(traces, 0, maxTraces.value)
  }

  /** Gemini's reply for a trace id; no entry means the call gave None. */
  function ReplyFor(replies: map<string, Json>, id: string): Option<Json> {
    if id in replies then Some(replies[id]) else None
  }

  function Outcomes(db: bool, selected: seq<Trace>, replies: map<string, Json>, now: string)
    : (r: seq<Result<Processed, PyError>>)
    ensures |r| == |selected|
    ensures forall i :: 0 <= i < |r| ==> r[i] == ProcessTrace(db, selected[i], ReplyFor(replies, selected[i].id), now)
  {
    seq(|selected|, i requires 0 <= i < |selected| => ProcessTrace(db, selected[i], ReplyFor(replies, selected[i].id), now))
  }

  /** `asyncio.gather`: every outcome, or the first exception. */
  function Gather(outs: seq<Result<Processed, PyError>>): (r: Result<seq<Processed>, PyError>)
    ensures r.Ok? <==> forall i :: 0 <= i < |outs| ==> outs[i].Ok?
    ensures r.Ok? ==> |r.value| == |outs| && forall i :: 0 <= i < |outs| ==> r.value[i] == outs[i].value
    ensures r.Err? ==> exists i :: 0 <= i < |outs| && outs[i] == Err(r.error)
  {
    if outs == [] then Ok([])
    else if outs[0].Err? then Err(outs[0].error)
    else
      match Gather(outs[1..])
      case Err(e) => Err(e)
      case Ok(rest) => Ok([outs[0].value] + rest)
  }

  /** The record an outcome wrote, if any. */
  function RecordOf(o: Result<Processed, PyError>): Option<Dict> {
    if o.Ok? then o.value.record else None
  }

  /** The records written while the traces were analysed, in trace order:
      exactly those of the outcomes that wrote one. */
  function Stored(outs: seq<Result<Processed, PyError>>): (r: seq<Dict>)
    ensures |r| <= |outs|
    ensures forall rec :: rec in r <==> exists i :: 0 <= i < |outs| && RecordOf(outs[i]) == Some(rec)
  {
    if outs == [] then []
    else
      var rest := Stored(outs[1..]);
      assert forall i :: 1 <= i < |outs| ==> outs[i] == outs[1..][i - 1];
      assert forall rec :: (exists i :: 0 <= i < |outs[1..]| && RecordOf(outs[1..][i]) == Some(rec)) ==>
        exists i :: 0 <= i < |outs| && RecordOf(outs[i]) == Some(rec)
      by {
        forall rec | exists i :: 0 <= i < |outs[1..]| && RecordOf(outs[1..][i]) == Some(rec)
          ensures exists i :: 0 <= i < |outs| && RecordOf(outs[i]) == Some(rec)
        {
          var i :| 0 <= i < |outs[1..]| && RecordOf(outs[1..][i]) == Some(rec);
          assert RecordOf(outs[i + 1]) == Some(rec);
        }
      }
      (if RecordOf(outs[0]).Some? then [RecordOf(outs[0]).value] else []) + rest
  }

  /** The records of two runs of outcomes are written one run after the
      other: storing keeps the outcomes' order. */
  lemma {:induction false} StoredAppend(a: seq<Result<Processed, PyError>>, b: seq<Result<Processed, PyError>>)
    ensures Stored(a + b) == Stored(a) + Stored(b)
    decreases |a|
  {
    if a != [] {
      assert (a + b)[1..] == a[1..] + b;
      StoredAppend(a[1..], b);
    } else {
      assert a + b == b;
    }
  }

  lemma {:induction false} NothingToStore(outs: seq<Result<Processed, PyError>>)
    requires forall i :: 0 <= i < |outs| ==> RecordOf(outs[i]).None?
    ensures Stored(outs) == []
  {
    if outs != [] {
      assert forall i :: 0 <= i < |outs[1..]| ==> outs[1..][i] == outs[i + 1];
      NothingToStore(outs[1..]);
    }
  }

  /** Without a database nothing is written, whatever the replies. */
  lemma NoDatabaseStoresNothing(selected: seq<Trace>, replies: map<string, Json>, now: string)
    ensures Stored(Outcomes(false, selected, replies, now)) == []
  {
    NothingToStore(Outcomes(false, selected, replies, now));
  }

  // ------------------------------------------------------- results

  /** `if analysis:` in the results loop. */
  predicate Analysed(p: Processed) {
    p.analysis.Some? && PyTruthy(p.analysis.value)
  }

  /** An analysis the loop cannot `.get` from. */
  predicate Malformed(p: Processed) {
    Analysed(p) && !p.analysis.value.JObj?
  }

  const ResultKeys: set<string> :=
    {"trace_id", "category", "priority", "log_count", "root_cause", "redacted_text", "action",
     "correlation", "security_alert", "confidence"}

  /** Each reported key and the analysis key it is read from. */
  const ResultSource: map<string, string> :=
    map["category" := "category", "priority" := "priority", "root_cause" := "cause",
        "redacted_text" := "redacted_summary", "action" := "action",
        "correlation" := "correlation_insight", "security_alert" := "security_alert",
        "confidence" := "confidence"]

  /** The analysis as a dict (the loop has already failed on any other). */
  function AnalysisFields(p: Processed): Dict {
    if p.analysis.Some? && p.analysis.value.JObj? then p.analysis.value.fields else map[]
  }

  /** The result reported for one analysed trace: its id and log count, and
      each other value read from the analysis, None when the analysis lacks
      it. */
  function ResultOf(p: Processed): (r: Dict)
    ensures r.Keys == ResultKeys == ResultSource.Keys + {"trace_id", "log_count"}
    ensures r["trace_id"] == JStr(p.traceId) && r["log_count"] == JNum(|p.logs| as real)
    ensures forall k :: k in ResultSource && ResultSource[k] in AnalysisFields(p) ==>
      r[k] == AnalysisFields(p)[ResultSource[k]]
    ensures forall k :: k in ResultSource && ResultSource[k] !in AnalysisFields(p) ==> r[k] == JNull
  {
    var a := AnalysisFields(p);
    map k | k in ResultSource.Keys + {"trace_id", "log_count"} ::
      if k in ResultSource then PyGet(a, ResultSource[k], JNull)
      else if k == "trace_id" then JStr(p.traceId)
      else JNum(|p.logs| as real)
  }

  /** With a database, the reported confidence is the stored percentage and
      the reported priority the escalated one for a long trace. */
  lemma ReportedAsStored(t: Trace, reply: Json, now: string)
    requires PyTruthy(reply) && reply.JObj?
    ensures var o := ProcessTrace(true, t, Some(reply), now);
      o.Ok? && o.value.record.Some?
      && ResultOf(o.value)["confidence"] == o.value.record.value["analysis"].fields["confidence"]
      && (|t.logs| > 5 ==> ResultOf(o.value)["priority"] == JStr(Escalated))
  {
    var o := ProcessTrace(true, t, Some(reply), now);
    var a := Escalate(reply, |t.logs|);
    assert a.Ok? && a.value.JObj?;
    var n := Normalise(a.value.fields);
    assert o == Ok(Processed(t.id, t.logs, Some(JObj(n)), Some(Record(t.id, t.logs, n, now))));
    assert AnalysisFields(o.value) == n;
    assert ResultSource["confidence"] == "confidence" && "confidence" in n;
    if |t.logs| > 5 {
      assert a.value.fields["priority"] == JStr(Escalated);
      assert ResultSource["priority"] == "priority" && n["priority"] == JStr(Escalated);
    }
  }

  function ResultsOf(ps: seq<Processed>): (r: seq<Dict>)
    ensures |r| == |ps| && forall i :: 0 <= i < |ps| ==> r[i] == ResultOf(ps[i])
  {
    seq(|ps|, i requires 0 <= i < |ps| => ResultOf(ps[i]))
  }

  lemma ResultsOfSnoc(ps: seq<Processed>, p: Processed)
    ensures ResultsOf(ps + [p]) == ResultsOf(ps) + [ResultOf(p)]
  {
    assert forall i :: 0 <= i < |ps| ==> (ps + [p])[i] == ps[i];
  }

  /** What the results loop produces: the results of the analysed traces in
      order, or AttributeError when an analysis is not a dict. */
  function Results(ps: seq<Processed>): (r: Result<seq<Dict>, PyError>)
    ensures r.Ok? ==> |r.value| <= |ps|
  {
    if exists i :: 0 <= i < |ps| && Malformed(ps[i]) then Err(AttributeError)
    else Ok(ResultsOf(Filter(ps, Analysed)))
  }

  /** The results loop of `run_analysis_for_api`. */
  method FormatResults(ps: seq<Processed>) returns (r: Result<seq<Dict>, PyError>)
    ensures r == Results(ps)
  {
    var results: seq<Dict> := [];
    var i := 0;
    while i < |ps|
      invariant 0 <= i <= |ps|
      invariant forall j :: 0 <= j < i ==> !Malformed(ps[j])
      invariant results == ResultsOf(Filter(ps[..i], Analysed))
    {
      var p := ps[i];
      FilterSnoc(ps[..i], p, Analysed);
      assert ps[..i + 1] == ps[..i] + [p];
      if p.analysis.Some? && PyTruthy(p.analysis.value) {
        if !p.analysis.value.JObj? {
          return Err(AttributeError);
        }
        ResultsOfSnoc(Filter(ps[..i], Analysed), p);
        results := results + [ResultOf(p)];
      }
      i := i + 1;
    }
    assert ps[..|ps|] == ps;
    r := Ok(results);
  }

  /** `run_analysis_for_api`: the reply and the records written. */
  method RunAnalysis(db: bool, creds: Lookup, traces: Result<seq<Trace>, string>, maxTraces: Option<int>,
                     replies: map<string, Json>, now: string)
    returns (reply: Reply, stored: seq<Dict>)
    ensures !db ==> reply == Reply([], Some(HttpErrors.Text("Firebase not initialized"))) && stored == []
    ensures db && CredentialError(creds).Some? ==>
      reply == Reply([], Some(HttpErrors.Text(CredentialError(creds).value))) && stored == []
    ensures db && CredentialError(creds).None? && traces.Err? ==>
      reply == Reply([], Some(HttpErrors.Text(traces.error))) && stored == []
    ensures db && CredentialError(creds).None? && traces == Ok([]) ==> reply == Reply([], None) && stored == []
    ensures db && CredentialError(creds).None? && traces.Ok? && traces.value != [] ==>
      var outs := Outcomes(db, Selected(traces.value, maxTraces), replies, now);
      stored == Stored(outs)
      && (Gather(outs).Err? ==> reply == Reply([], Some(HttpErrors.Raised(Gather(outs).error))))
      && (Gather(outs).Ok? && Results(Gather(outs).value).Err? ==>
            reply == Reply([], Some(HttpErrors.Raised(Results(Gather(outs).value).error))))
      && (Gather(outs).Ok? && Results(Gather(outs).value).Ok? ==>
            reply == Reply(Results(Gather(outs).value).value, None))
  {
    stored := [];
    if !db {
      return Reply([], Some(HttpErrors.Text("Firebase not initialized"))), [];
    }
    var credError := CredentialError(creds);
    if credError.Some? {
      return Reply([], Some(HttpErrors.Text(credError.value))), [];
    }
    if traces.Err? {
      return Reply([], Some(HttpErrors.Text(traces.error))), [];
    }
    if traces.value == [] {
      return Reply([], None), [];
    }
    var outs := Outcomes(db, Selected(traces.value, maxTraces), replies, now);
    stored := Stored(outs);
    var completed := Gather(outs);
    if completed.Err? {
      return Reply([], Some(HttpErrors.Raised(completed.error))), stored;
    }
    var results := FormatResults(completed.value);
    if results.Err? {
      return Reply([], Some(HttpErrors.Raised(results.error))), stored;
    }
    reply := Reply(results.value, None);
  }

  /** The results are exactly the traces with an analysis, in the order they
      were selected: the i-th result names the i-th analysed trace. */
  lemma ResultsNameAnalysedTraces(ps: seq<Processed>, i: int)
    requires Results(ps).Ok? && 0 <= i < |Results(ps).value|
    ensures Results(ps).value[i]["trace_id"] == JStr(Filter(ps, Analysed)[i].traceId)
    ensures Filter(ps, Analysed)[i] in ps && Analysed(Filter(ps, Analysed)[i])
  {
    FilterMembers(ps, Analysed, Filter(ps, Analysed)[i]);
  }

  /** Every trace with an analysis is reported. */
  lemma AnalysedTraceReported(ps: seq<Processed>, p: Processed)
    requires Results(ps).Ok? && p in ps
    ensures Analysed(p) ==> ResultOf(p) in Results(ps).value
  {
    var kept := Filter(ps, Analysed);
    FilterMembers(ps, Analysed, p);
    if Analysed(p) {
      var j :| 0 <= j < |kept| && kept[j] == p;
      assert Results(ps).value[j] == ResultOf(p);
    }
  }
}
