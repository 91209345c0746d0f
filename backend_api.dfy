/** The dashboard API of the backend directory: the analysis trigger and
    three lookups of a stored incident by trace id. A lookup's Firestore
    query is an input: the data of the matching documents (at most one is
    asked for), or the text of the exception the query raised. */
module BackendApi {
  import opened Wrappers
  import opened JsonValue
  import opened HttpErrors
  import BackendAgent
  import CoreAgent
  import ConfidenceRule
  import Rounding

  type Query = Result<seq<Dict>, string>

  /** `POST /api/analyze`: the pipeline's reply, or a 500 for any
      exception it raises. */
  function Analyze(agent: Result<BackendAgent.Reply, PyError>): (r: Result<BackendAgent.Reply, HttpError>)
    ensures agent.Ok? ==> r == Ok(agent.value)
    ensures agent.Err? ==> r == Err(HttpError(500, Raised(agent.error)))
  {
    match agent
    case Ok(reply) => Ok(reply)
    case Err(e) => Err(HttpError(500, Raised(e)))
  }

  /** `raise HTTPException(500, detail=prefix + str(e))` for an
      `HTTPException` `e` raised inside the same `try`. */
  function Caught(prefix: string, e: HttpError): (r: HttpError)
    requires e.detail.Text?
    ensures r.status == 500
    ensures r.detail == Text(prefix + ExceptionText(e.status, e.detail.text))
  {
    HttpError(500, Text(prefix + ExceptionText(e.status, e.detail.text)))
  }

  /** The first matching document. An empty result raises a 404 inside the
      endpoint's `try`, which its `except` turns into a 500 carrying the
      endpoint's prefix. */
  function First(q: Query, prefix: string, notFound: string): (r: Result<Dict, HttpError>)
    ensures q.Err? ==> r == Err(HttpError(500, Text(prefix + q.error)))
    ensures q == Ok([]) ==> r == Err(Caught(prefix, HttpError(404, Text(notFound))))
    ensures q.Ok? && q.value != [] ==> r == Ok(q.value[0])
  {
    match q
    case Err(text) => Err(HttpError(500, Text(prefix + text)))
    case Ok(docs) => if docs == [] then Err(Caught(prefix, HttpError(404, Text(notFound)))) else Ok(docs[0])
  }

  /** `str(e)` after the prefix, for an exception raised while projecting. */
  function Projected(prefix: string, r: Result<Dict, PyError>): (p: Result<Dict, HttpError>)
    ensures r.Ok? ==> p == Ok(r.value)
    ensures r.Err? ==> p == Err(HttpError(500, if prefix == "" then Raised(r.error) else Prefixed(prefix, r.error)))
  {
    match r
    case Ok(d) => Ok(d)
    case Err(e) => Err(HttpError(500, if prefix == "" then Raised(e) else Prefixed(prefix, e)))
  }

  // ------------------------------------------------------- root cause

  const RootCausePrefix: string := "Database Error: "
  const RootCauseKeys: set<string> := {"trace_id", "status", "root_cause", "category", "confidence"}

  /** `GET /api/incident/{trace_id}/root-cause`: cause, category and
      confidence of the stored analysis, each None when absent. A stored
      `analysis` that is not a dict makes `.get` raise. */
  function RootCause(traceId: string, q: Query): (r: Result<Dict, HttpError>)
    ensures q.Err? ==> r == Err(HttpError(500, Text(RootCausePrefix + q.error)))
    ensures r.Ok? <==> q.Ok? && q.value != [] && PyGetDict(q.value[0], "analysis").Ok?
    ensures r.Ok? ==>
      var a := PyGetDict(q.value[0], "analysis").value;
      && r.value.Keys == RootCauseKeys
      && r.value["trace_id"] == JStr(traceId) && r.value["status"] == JStr("Success")
      && r.value["root_cause"] == PyGet(a, "cause", JNull)
      && r.value["category"] == PyGet(a, "category", JNull)
      && r.value["confidence"] == PyGet(a, "confidence", JNull)
    ensures r.Err? ==> r.error.status == 500
  {
    match First(q, RootCausePrefix, NotFoundInDatabase)
    case Err(e) => Err(e)
    case Ok(data) =>
      Projected(RootCausePrefix,
        match PyGetDict(data, "analysis")
        case Err(e) => Err(e)
        case Ok(a) => Ok(map[
          "trace_id" := JStr(traceId),
          "status" := JStr("Success"),
          "root_cause" := PyGet(a, "cause", JNull),
          "category" := PyGet(a, "category", JNull),
          "confidence" := PyGet(a, "confidence", JNull)]))
  }

  const NotFoundInDatabase: string := "Incident not found in database."

  /** An unknown trace id reaches the client as a 500, not a 404. */
  lemma UnknownTraceIs500(traceId: string)
    ensures RootCause(traceId, Ok([])) == Err(HttpError(500, Text(RootCausePrefix + "404: " + NotFoundInDatabase)))
  {
    NotFoundBecomes500(NotFoundInDatabase);
    assert ExceptionText(404, NotFoundInDatabase) == "404: " + NotFoundInDatabase;
    assert RootCausePrefix + ("404: " + NotFoundInDatabase) == RootCausePrefix + "404: " + NotFoundInDatabase;
  }

  // ------------------------------------------------------- suggestions

  const SuggestionsPrefix: string := "Database Query Failed: "
  const SuggestionsKeys: set<string> := {"trace_id", "status", "remediation_steps", "priority_level", "auto_healing_status"}

  /** `"Eligible" if analysis.get("confidence", 0) > 0.8 else "Review
      Required"`; comparing anything but a number raises. */
  function HealingStatus(analysis: Dict): (r: Result<string, PyError>)
    ensures r.Ok? <==> PyNumber(PyGet(analysis, "confidence", JNum(0.0))).Some?
    ensures r.Err? ==> r.error == TypeError
    ensures r.Ok? ==> (r.value == "Eligible" || r.value == "Review Required")
    ensures r.Ok? ==> (r.value == "Eligible" <==> PyNumber(PyGet(analysis, "confidence", JNum(0.0))).value > 0.8)
    ensures "confidence" !in analysis ==> r == Ok("Review Required")
  {
    match PyGreater(PyGet(analysis, "confidence", JNum(0.0)), 0.8)
    case Err(e) => Err(e)
    case Ok(above) => Ok(if above then "Eligible" else "Review Required")
  }

  /** `GET /api/incident/{trace_id}/suggestions`. */
  function Suggestions(traceId: string, q: Query): (r: Result<Dict, HttpError>)
    ensures q.Err? ==> r == Err(HttpError(500, Text(SuggestionsPrefix + q.error)))
    ensures r.Ok? <==>
      q.Ok? && q.value != [] && PyGetDict(q.value[0], "analysis").Ok?
      && HealingStatus(PyGetDict(q.value[0], "analysis").value).Ok?
    ensures r.Ok? ==>
      var a := PyGetDict(q.value[0], "analysis").value;
      && r.value.Keys == SuggestionsKeys
      && r.value["trace_id"] == JStr(traceId) && r.value["status"] == JStr("Success")
      && r.value["remediation_steps"] == PyGet(a, "action", JNull)
      && r.value["priority_level"] == PyGet(q.value[0], "priority", JStr("P2"))
      && r.value["auto_healing_status"] == JStr(HealingStatus(a).value)
    ensures r.Err? ==> r.error.status == 500
  {
    match First(q, SuggestionsPrefix, "Incident ID not found.")
    case Err(e) => Err(e)
    case Ok(data) =>
      Projected(SuggestionsPrefix,
        match PyGetDict(data, "analysis")
        case Err(e) => Err(e)
        case Ok(a) =>
          match HealingStatus(a)
          case Err(e) => Err(e)
          case Ok(healing) => Ok(map[
            "trace_id" := JStr(traceId),
            "status" := JStr("Success"),
            "remediation_steps" := PyGet(a, "action", JNull),
            "priority_level" := PyGet(data, "priority", JStr("P2")),
            "auto_healing_status" := JStr(healing)]))
  }

  /** An incident the backend agent stored is Eligible exactly when the
      agent marked it AUTO-RESOLVED: both compare the confidence with 0.8. */
  lemma EligibleIffAutoResolved(traceId: string, count: nat, analysis: Dict, confidence: real, now: string)
    ensures var rec := BackendAgent.Record(traceId, count, analysis, confidence, now);
      Suggestions(traceId, Ok([rec])).Ok?
      && ((Suggestions(traceId, Ok([rec])).value["auto_healing_status"] == JStr("Eligible"))
          <==> (rec["status"] == JStr("AUTO-RESOLVED")))
  {
    var rec := BackendAgent.Record(traceId, count, analysis, confidence, now);
    assert PyGetDict(rec, "analysis") == Ok(rec["analysis"].fields);
    assert PyGet(rec["analysis"].fields, "confidence", JNum(0.0)) == JNum(confidence);
  }

  /** The analysis pipeline stores confidences as percentages, and the
      gate compares them with 0.8 as if they were fractions: a 50%
      confidence the backend agent would leave for review reads as
      Eligible. */
  lemma PercentRecordsLookEligible()
    ensures HealingStatus(map["confidence" := ConfidenceRule.Percent(JNum(0.5))]) == Ok("Eligible")
    ensures BackendAgent.Status(0.5) == "PENDING_REVIEW"
  {
    assert Rounding.PyRound(0.5 * 100.0) == 50 by {
      Rounding.PyRoundOfInt(50);
    }
  }

  // ------------------------------------------------------- impact

  const ImpactKeys: set<string> := {"trace_id", "priority", "correlation_insight", "security_breach_detected", "occurrence_count"}

  /** `GET /api/incident/{trace_id}/impact`. */
  function Impact(traceId: string, q: Query): (r: Result<Dict, HttpError>)
    ensures q.Err? ==> r == Err(HttpError(500, Text(q.error)))
    ensures r.Ok? <==> q.Ok? && q.value != []
    ensures r.Ok? ==>
      && r.value.Keys == ImpactKeys
      && r.value["trace_id"] == JStr(traceId)
      && r.value["priority"] == PyGet(q.value[0], "priority", JNull)
      && r.value["correlation_insight"] == PyGet(q.value[0], "correlation", JNull)
      && r.value["security_breach_detected"] == PyGet(q.value[0], "security_alert", JBool(false))
      && r.value["occurrence_count"] == PyGet(q.value[0], "occurrence_count", JNum(1.0))
    ensures r.Err? ==> r.error.status == 500
  {
    assert q.Err? ==> "" + q.error == q.error;
    match First(q, "", "Incident ID not found.")
    case Err(e) => Err(e)
    case Ok(data) => Ok(map[
      "trace_id" := JStr(traceId),
      "priority" := PyGet(data, "priority", JNull),
      "correlation_insight" := PyGet(data, "correlation", JNull),
      "security_breach_detected" := PyGet(data, "security_alert", JBool(false)),
      "occurrence_count" := PyGet(data, "occurrence_count", JNum(1.0))])
  }

  /** A document with neither flag nor count shows no breach and one
      occurrence. */
  lemma ImpactDefaults(traceId: string, data: Dict)
    requires "security_alert" !in data && "occurrence_count" !in data
    ensures Impact(traceId, Ok([data])).Ok?
    ensures Impact(traceId, Ok([data])).value["security_breach_detected"] == JBool(false)
    ensures Impact(traceId, Ok([data])).value["occurrence_count"] == JNum(1.0)
  {
  }
}
