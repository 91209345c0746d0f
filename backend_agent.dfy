/** The synchronous analysis agent of the backend, which works on the mock
    log file: it counts repeated messages, asks Gemini for an analysis,
    coerces the confidence to a float, escalates long traces and records an
    incident whose status depends on the confidence.

    Gemini's parsed reply, the mock file's contents, the clock and Python's
    `float()` on text are inputs. */
module BackendAgent {
  import opened Wrappers
  import opened JsonValue
  import opened OrderedDict
  import CoreAgent

  // ------------------------------------------------------- patterns

  /** `log.get('message', log.get('textPayload', ''))`. */
  function Message(log: Dict): Json {
    PyGet(log, "message", PyGet(log, "textPayload", JStr("")))
  }

  function Messages(logs: seq<Dict>): (ms: seq<Json>)
    ensures |ms| == |logs| && forall i :: 0 <= i < |logs| ==> ms[i] == Message(logs[i])
  {
    seq(|logs|, i requires 0 <= i < |logs| => Message(logs[i]))
  }

  /** `Counter(messages)`: each distinct message with the number of times
      it occurs, in first-seen order; an unhashable message raises. */
  function Counter(ms: seq<Json>): (r: Result<seq<(Json, real)>, PyError>)
    ensures r.Ok? <==> forall i :: 0 <= i < |ms| ==> Hashable(ms[i])
    ensures r.Err? ==> r.error == TypeError
    ensures r.Ok? ==> DistinctKeys(r.value)
    ensures r.Ok? ==> forall k :: Get(r.value, k, 0.0) == multiset(ms)[k] as real
    ensures r.Ok? ==> Total(r.value) == |ms| as real
  {
    if ms == [] then Ok([])
    else
      var init, m := ms[..|ms| - 1], ms[|ms| - 1];
      assert ms == init + [m];
      match Counter(init)
      case Err(e) => Err(e)
      case Ok(c) =>
        if !Hashable(m) then Err(TypeError)
        else
          CounterStep(init, m, c);
          Ok(Bump(c, m, 1.0))
  }

  lemma CounterStep(init: seq<Json>, m: Json, c: seq<(Json, real)>)
    requires DistinctKeys(c)
    requires forall k :: Get(c, k, 0.0) == multiset(init)[k] as real
    requires Total(c) == |init| as real
    ensures forall k :: Get(Bump(c, m, 1.0), k, 0.0) == multiset(init + [m])[k] as real
    ensures Total(Bump(c, m, 1.0)) == |init + [m]| as real
  {
    TotalAfterBump(c, m, 1.0);
    forall k
      ensures Get(Bump(c, m, 1.0), k, 0.0) == multiset(init + [m])[k] as real
    {
      assert multiset(init + [m]) == multiset(init) + multiset{m};
      if k != m {
        BumpOther(c, m, 1.0, k);
      }
    }
  }

  /** `get_historical_patterns`: the counts of the trace's messages add up
      to the number of logs. */
  lemma PatternCountsSumToLogCount(logs: seq<Dict>)
    requires Counter(Messages(logs)).Ok?
    ensures Total(Counter(Messages(logs)).value) == |logs| as real
  {
  }

  // ------------------------------------------------------- one trace

  /** `float(analysis.get('confidence', 0))` under a bare `except`: a
      number (a bool is one) converts, text converts when `float()` reads
      it, anything else falls back to 0.0. */
  function Coerce(v: Json, floatOfText: string -> Option<real>): (c: real)
    ensures PyNumber(v).Some? ==> c == PyNumber(v).value
    ensures v.JStr? && floatOfText(v.s).Some? ==> c == floatOfText(v.s).value
    ensures PyNumber(v).None? && (!v.JStr? || floatOfText(v.s).None?) ==> c == 0.0
  {
    match v
    case JNum(n) => n
    case JBool(b) => if b then 1.0 else 0.0
    case JStr(s) => if floatOfText(s).Some? then floatOfText(s).value else 0.0
    case _ => 0.0
  }

  const ResolvedAbove: real := 0.8

  function Status(confidence: real): (s: string)
    ensures s == "AUTO-RESOLVED" || s == "PENDING_REVIEW"
    ensures s == "AUTO-RESOLVED" <==> confidence > ResolvedAbove
  {
    if confidence > ResolvedAbove then "AUTO-RESOLVED" else "PENDING_REVIEW"
  }

  const RecordKeys: set<string> :=
    {"trace_id", "timestamp", "occurrence_count", "security_alert", "redacted_text", "priority",
     "correlation", "analysis", "status"}

  /** The incident written for an analysed trace of `count` logs. */
  function Record(traceId: string, count: nat, analysis: Dict, confidence: real, now: string): (r: Dict)
    ensures r.Keys == RecordKeys
    ensures r["trace_id"] == JStr(traceId) && r["occurrence_count"] == JNum(count as real)
    ensures r["status"] == JStr(Status(confidence))
    ensures r["priority"] == PyGet(analysis, "priority", JStr("P2"))
    ensures r["correlation"] == PyGet(analysis, "correlation_insight", JStr("N/A"))
    ensures r["security_alert"] == PyGet(analysis, "security_alert", JBool(false))
    ensures r["analysis"].JObj? && r["analysis"].fields.Keys == {"cause", "category", "action", "confidence"}
    ensures r["analysis"].fields["confidence"] == JNum(confidence)
  {
    map[
      "trace_id" := JStr(traceId),
      "timestamp" := JStr(now),
      "occurrence_count" := JNum(count as real),
      "security_alert" := PyGet(analysis, "security_alert", JBool(false)),
      "redacted_text" := PyGet(analysis, "redacted_summary", JNull),
      "priority" := PyGet(analysis, "priority", JStr("P2")),
      "correlation" := PyGet(analysis, "correlation_insight", JStr("N/A")),
      "analysis" := JObj(map[
        "cause" := PyGet(analysis, "cause", JNull),
        "category" := PyGet(analysis, "category", JNull),
        "action" := PyGet(analysis, "action", JNull),
        "confidence" := JNum(confidence)]),
      "status" := JStr(Status(confidence))]
  }

  /** What `process_trace` returns, and the record it wrote, if any. */
  datatype Outcome = Outcome(analysis: Option<Dict>, record: Option<Dict>)

  /** `process_trace`. The pattern count runs first and can raise. A falsy
      reply gives None. A truthy reply that is not a dict raises: TypeError
      from the escalation of a long trace, otherwise AttributeError from the
      `.get` that prints the priority. */
  function ProcessTrace(db: bool, traceId: string, logs: seq<Dict>, reply: Option<Json>,
                        floatOfText: string -> Option<real>, now: string): (r: Result<Outcome, PyError>)
    ensures Counter(Messages(logs)).Err? ==> r == Err(TypeError)
    ensures Counter(Messages(logs)).Ok? && (reply.None? || !PyTruthy(reply.value)) ==> r == Ok(Outcome(None, None))
    ensures Counter(Messages(logs)).Ok? && reply.Some? && PyTruthy(reply.value) ==>
      (r.Ok? <==> reply.value.JObj?)
    ensures r.Ok? && r.value.analysis.Some? ==>
      reply.Some? && reply.value.JObj?
      && r.value.analysis.value == (if |logs| > 5 then reply.value.fields["priority" := JStr(CoreAgent.Escalated)]
                                    else reply.value.fields)
    ensures r.Ok? ==> (r.value.record.Some? <==> db && r.value.analysis.Some?)
    ensures r.Ok? && r.value.record.Some? ==>
      r.value.record.value == Record(traceId, |logs|, r.value.analysis.value,
        Coerce(PyGet(reply.value.fields, "confidence", JNum(0.0)), floatOfText), now)
  {
    match Counter(Messages(logs))
    case Err(e) => Err(e)
    case Ok(_) =>
      if reply.None? || !PyTruthy(reply.value) then Ok(Outcome(None, None))
      else if !reply.value.JObj? then
        Err(if |logs| > 5 then TypeError else AttributeError)
      else
        var confidence := Coerce(PyGet(reply.value.fields, "confidence", JNum(0.0)), floatOfText);
        var analysis := CoreAgent.Escalate(reply.value, |logs|).value.fields;
        Ok(Outcome(Some(analysis), if db then Some(Record(traceId, |logs|, analysis, confidence, now)) else None))
  }

  /** A recorded trace is AUTO-RESOLVED exactly when its coerced confidence
      exceeds 0.8, and a confidence `float()` cannot read counts as 0.0,
      which leaves the incident for review. */
  lemma StatusFollowsConfidence(traceId: string, logs: seq<Dict>, reply: Dict,
                                floatOfText: string -> Option<real>, now: string)
    requires ProcessTrace(true, traceId, logs, Some(JObj(reply)), floatOfText, now).Ok?
    requires |reply| > 0
    ensures var rec := ProcessTrace(true, traceId, logs, Some(JObj(reply)), floatOfText, now).value.record.value;
      && ((rec["status"] == JStr("AUTO-RESOLVED")) <==> (Coerce(PyGet(reply, "confidence", JNum(0.0)), floatOfText) > 0.8))
      && ("confidence" in reply && reply["confidence"].JStr? && floatOfText(reply["confidence"].s).None? ==>
            rec["status"] == JStr("PENDING_REVIEW") && rec["analysis"].fields["confidence"] == JNum(0.0))
  {
    var out := ProcessTrace(true, traceId, logs, Some(JObj(reply)), floatOfText, now).value;
    var c := Coerce(PyGet(reply, "confidence", JNum(0.0)), floatOfText);
    assert PyTruthy(JObj(reply));
    assert out.analysis.Some? && out.record.Some?;
    var rec := out.record.value;
    assert rec == Record(traceId, |logs|, out.analysis.value, c, now);
    assert rec["status"] == JStr(Status(c));
    assert "AUTO-RESOLVED" != "PENDING_REVIEW";
  }

  /** More than five logs escalate the stored priority. */
  lemma LongTraceEscalated(traceId: string, logs: seq<Dict>, reply: Dict,
                           floatOfText: string -> Option<real>, now: string)
    requires |logs| > 5 && |reply| > 0
    requires ProcessTrace(true, traceId, logs, Some(JObj(reply)), floatOfText, now).Ok?
    ensures ProcessTrace(true, traceId, logs, Some(JObj(reply)), floatOfText, now).value.record.value["priority"]
      == JStr(CoreAgent.Escalated)
  {
  }

  // ------------------------------------------------------- the API call

  /** `{"results": [...]}`, with `"message"` when there is no mock file. */
  datatype Reply = Reply(results: seq<Dict>, message: Option<string>)

  /** `run_analysis_for_api`: the mock file's logs (None when it is
      missing) make one trace, reported when it is analysed. */
  function RunAnalysis(db: bool, mockLogs: Option<seq<Dict>>, traceId: string, reply: Option<Json>,
                       floatOfText: string -> Option<real>, now: string): (r: Result<Reply, PyError>)
    ensures mockLogs.None? ==> r == Ok(Reply([], Some("No logs found")))
    ensures r.Ok? ==> |r.value.results| <= 1
    ensures mockLogs.Some? ==>
      var out := ProcessTrace(db, traceId, mockLogs.value, reply, floatOfText, now);
      && (r.Ok? <==> out.Ok?)
      && (r.Ok? ==> r.value.message.None? && (|r.value.results| == 1 <==> out.value.analysis.Some?))
      && (r.Ok? && |r.value.results| == 1 ==>
            r.value.results[0].Keys == CoreAgent.ResultKeys
            && r.value.results[0]["trace_id"] == JStr(traceId)
            && r.value.results[0]["log_count"] == JNum(|mockLogs.value| as real))
  {
    if mockLogs.None? then Ok(Reply([], Some("No logs found")))
    else
      match ProcessTrace(db, traceId, mockLogs.value, reply, floatOfText, now)
      case Err(e) => Err(e)
      case Ok(o) => Ok(Report(traceId, mockLogs.value, o))
  }

  /** The reply for a processed trace: its one result when it has an
      analysis, none otherwise. */
  function Report(traceId: string, logs: seq<Dict>, o: Outcome): (r: Reply)
    ensures r.message.None?
    ensures |r.results| == (if o.analysis.Some? then 1 else 0)
    ensures |r.results| == 1 ==>
      r.results[0].Keys == CoreAgent.ResultKeys
      && r.results[0]["trace_id"] == JStr(traceId) && r.results[0]["log_count"] == JNum(|logs| as real)
  {
    if o.analysis.Some? then
      Reply([CoreAgent.ResultOf(CoreAgent.Processed(traceId, logs, Some(JObj(o.analysis.value)), None))], None)
    else Reply([], None)
  }
}
