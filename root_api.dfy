/** The dashboard server at the repository root: `POST /api/analyze` runs
    the root agent and keeps only the results that report an error; the
    page it serves filters the results again, draws each one's confidence
    as a percentage in one of three colours and titles the list with a
    count. */
module RootApi {
  import opened Wrappers
  import opened JsonValue
  import opened SeqFilter
  import opened HttpErrors
  import Rounding
  import JsText
  import RootAgent

  /** Categories that do not report an error. */
  predicate Excluded(category: Json) {
    category == JStr("Informational") || category == JStr("Healthy/Operational")
  }

  /** The server's test of one result, when evaluating it does not raise:
      `r.get("category") not in [...] and r.get("confidence", 0) < 1.0`. */
  predicate ServerKeeps(r: Dict) {
    !Excluded(PyGet(r, "category", JNull)) && PyLess(PyGet(r, "confidence", JNum(0.0)), 1.0) == Ok(true)
  }

  /** The test raises when the category passes and the confidence is not a
      number (the `and` does not look at it otherwise). */
  predicate ServerRaises(r: Dict) {
    !Excluded(PyGet(r, "category", JNull)) && PyNumber(PyGet(r, "confidence", JNum(0.0))).None?
  }

  /** The list comprehension of `analyze_logs_endpoint`. */
  function ServerFilter(results: seq<Dict>): (r: Result<seq<Dict>, PyError>)
    ensures r.Err? <==> exists i :: 0 <= i < |results| && ServerRaises(results[i])
    ensures r.Ok? ==> r.value == Filter(results, ServerKeeps)
    ensures r.Err? ==> r.error == TypeError
  {
    if exists i :: 0 <= i < |results| && ServerRaises(results[i]) then Err(TypeError)
    else Ok(Filter(results, ServerKeeps))
  }

  /** Every result the server keeps reports an error: a category other
      than the two excluded ones and a confidence below 1. */
  lemma KeptResultsAreErrors(results: seq<Dict>, r: Dict)
    requires ServerFilter(results).Ok? && r in ServerFilter(results).value
    ensures r in results && !Excluded(PyGet(r, "category", JNull))
    ensures PyNumber(PyGet(r, "confidence", JNum(0.0))).Some? && PyNumber(PyGet(r, "confidence", JNum(0.0))).value < 1.0
  {
    FilterMembers(results, ServerKeeps, r);
  }

  /** Filtering the filtered list again changes nothing. */
  lemma ServerFilterIdempotent(results: seq<Dict>)
    requires ServerFilter(results).Ok?
    ensures ServerFilter(ServerFilter(results).value) == ServerFilter(results)
  {
    var kept := Filter(results, ServerKeeps);
    FilterIdempotent(results, ServerKeeps);
    forall i | 0 <= i < |kept|
      ensures !ServerRaises(kept[i])
    {
      FilterMembers(results, ServerKeeps, kept[i]);
    }
  }

  /** The root agent's results always carry a numeric confidence, so the
      server's filter never raises on them. */
  lemma AgentResultsNeverRaise(traces: seq<RootAgent.Trace>, analyses: seq<Dict>)
    requires |traces| == |analyses|
    ensures ServerFilter(seq(|traces|, i requires 0 <= i < |traces| => RootAgent.ResultEntry(traces[i], analyses[i]))).Ok?
  {
  }

  /** `analyze_logs_endpoint` given what `run_analysis_for_api` returned or
      raised. A non-empty result list is filtered and the count and message
      rewritten; an empty one is passed on unchanged; any exception is a
      500 carrying its text. */
  function Analyze(agent: Result<RootAgent.Reply, PyError>): (r: Result<RootAgent.Reply, HttpError>)
    ensures agent.Err? ==> r == Err(HttpError(500, Raised(agent.error)))
    ensures agent.Ok? && agent.value.results == [] ==> r == Ok(agent.value)
    ensures agent.Ok? && agent.value.results != [] ==>
      (r.Err? <==> ServerFilter(agent.value.results).Err?)
    ensures r.Err? ==> r.error.status == 500
    ensures agent.Ok? && agent.value.results != [] && r.Ok? ==>
      r.value.results == Filter(agent.value.results, ServerKeeps)
      && r.value.analyzedTraces == |r.value.results|
      && r.value.message == "Found " + JsText.IntToString(|r.value.results|) + " error(s)"
      && r.value.status == agent.value.status && r.value.totalTraces == agent.value.totalTraces
  {
    match agent
    case Err(e) => Err(HttpError(500, Raised(e)))
    case Ok(reply) =>
      if reply.results == [] then Ok(reply)
      else
        match ServerFilter(reply.results)
        case Err(e) => Err(HttpError(500, Raised(e)))
        case Ok(kept) =>
          Ok(reply.(results := kept, analyzedTraces := |kept|,
                    message := "Found " + JsText.IntToString(|kept|) + " error(s)"))
  }

  // ------------------------------------------------------- the page

  /** `Number(v)` for the values a result can hold; `None` is NaN (also for
      text, arrays and objects, whose conversion is not modelled). */
  function JsNumber(v: Option<Json>): (n: Option<real>)
    ensures v.Some? && v.value.JNum? ==> n == Some(v.value.n)
    ensures v.None? ==> n.None?
  {
    match v
    case None => None
    case Some(JNull) => Some(0.0)
    case Some(JBool(b)) => Some(if b then 1.0 else 0.0)
    case Some(JNum(x)) => Some(x)
    case Some(_) => None
  }

  /** The page's own test: `r.category !== ... && r.confidence < 1.0`, where
      a comparison with NaN is false. */
  predicate ClientKeeps(r: Dict) {
    var category := JsProp(Some(JObj(r)), "category");
    var c := JsNumber(JsProp(Some(JObj(r)), "confidence"));
    category != Some(JStr("Informational")) && category != Some(JStr("Healthy/Operational"))
    && c.Some? && c.value < 1.0
  }

  /** On results with a numeric confidence the page's filter repeats the
      server's, so the page drops nothing the server kept. */
  lemma ClientRepeatsServer(results: seq<Dict>)
    requires forall i :: 0 <= i < |results| ==> "confidence" in results[i] && results[i]["confidence"].JNum?
    ensures Filter(results, ClientKeeps) == Filter(results, ServerKeeps)
    ensures Filter(Filter(results, ServerKeeps), ClientKeeps) == Filter(results, ServerKeeps)
  {
    forall i | 0 <= i < |results|
      ensures ClientKeeps(results[i]) == ServerKeeps(results[i])
    {
      KeepsAgree(results[i]);
    }
    FilterAgree(results, ClientKeeps, ServerKeeps);
    var kept := Filter(results, ServerKeeps);
    forall i | 0 <= i < |kept|
      ensures ClientKeeps(kept[i]) == ServerKeeps(kept[i])
    {
      FilterMembers(results, ServerKeeps, kept[i]);
      KeepsAgree(kept[i]);
    }
    FilterAgree(kept, ClientKeeps, ServerKeeps);
    FilterIdempotent(results, ServerKeeps);
  }

  /** On one result with a numeric confidence the page's test and the
      server's agree. */
  lemma KeepsAgree(r: Dict)
    requires "confidence" in r && r["confidence"].JNum?
    ensures ClientKeeps(r) == ServerKeeps(r)
  {
  }

  /** Without a confidence the two disagree: the server reads it as 0 and
      keeps the result, the page reads `undefined < 1.0` as false and drops
      it. */
  lemma MissingConfidenceSplitsFilters()
    ensures ServerKeeps(map["category" := JStr("Database")])
    ensures !ClientKeeps(map["category" := JStr("Database")])
  {
  }

  /** `Math.round(result.confidence * 100)`: the whole percentage within
      half a point of the confidence, so a fraction in [0, 1] gives a
      percentage in [0, 100]. */
  function Percent(confidence: real): (p: int)
    ensures p as real - 0.5 <= confidence * 100.0 < p as real + 0.5
    ensures 0.0 <= confidence <= 1.0 ==> 0 <= p <= 100
  {
    Rounding.JsRound(confidence * 100.0)
  }

  datatype Tier = Green | Yellow | Red

  /** The card colours: at least 80 green, at least 60 yellow, else red. */
  function TierOf(percent: int): (t: Tier)
    ensures t == Green <==> percent >= 80
    ensures t == Yellow <==> 60 <= percent < 80
    ensures t == Red <==> percent < 60
  {
    if percent >= 80 then Green else if percent >= 60 then Yellow else Red
  }

  function Rank(t: Tier): nat {
    match t
    case Red => 0
    case Yellow => 1
    case Green => 2
  }

  /** A higher confidence is never drawn in a lower tier. */
  lemma TierMonotone(a: real, b: real)
    requires a <= b
    ensures Rank(TierOf(Percent(a))) <= Rank(TierOf(Percent(b)))
  {
    Rounding.JsRoundMonotone(a * 100.0, b * 100.0);
  }

  /** The tier boundaries fall on whole percentages: 0.795 already rounds
      up to 80 and is green, 0.7949 is yellow. */
  lemma TierBoundary()
    ensures TierOf(Percent(0.795)) == Green
    ensures TierOf(Percent(0.7949)) == Yellow
  {
    assert 0.795 * 100.0 + 0.5 == 80.0;
    assert 0.7949 * 100.0 + 0.5 == 79.99;
  }

  /** The title above the cards: none (the empty state is shown) for no
      results, otherwise "1 Error Found" or "N Errors Found". */
  function CountLabel(n: nat): (title: Option<string>)
    ensures title.None? <==> n == 0
  {
    if n == 0 then None
    else Some(JsText.NatToString(n) + " Error" + (if n > 1 then "s" else "") + " Found")
  }

  /** The title names the number of cards. */
  lemma CountLabelReadsBack(n: nat)
    requires n >= 1
    ensures JsText.ParseInt(CountLabel(n).value) == Some(n)
  {
    var rest := if n > 1 then " Errors Found" else " Error Found";
    assert CountLabel(n).value == JsText.NatToString(n) + rest;
    JsText.ParseIntOfLeadingNumber(n, rest);
  }

  /** One card is titled in the singular, more in the plural. */
  lemma CountLabelPlural(n: nat)
    requires n >= 1
    ensures n == 1 ==> CountLabel(n) == Some("1 Error Found")
    ensures n > 1 ==> CountLabel(n) == Some(JsText.NatToString(n) + " Errors Found")
  {
    var d := JsText.NatToString(n);
    if n == 1 {
      assert d == "1";
      assert d + " Error" + "" + " Found" == "1 Error Found";
    } else {
      assert d + " Error" + "s" + " Found" == d + " Errors Found";
    }
  }
}
