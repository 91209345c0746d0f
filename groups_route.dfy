/** The `/groups` endpoints. Firestore is an input: `db` says whether the
    client exists, and a query's outcome is its documents in the order the
    query asks for, or the text of the exception it raised. */
module GroupsRoute {
  import opened Wrappers
  import opened JsonValue
  import opened HttpErrors
  import opened SeqFilter
  import PySlice
  import Rounding

  /** Documents read from `groups`, newest `last_seen` first. */
  const BatchSize: nat := 200

  /** `if f and f != 'ALL' and value != f: continue`, negated: the test a
      document passes for one optional filter. */
  predicate Passes(f: Option<string>, value: Json) {
    !(f.Some? && f.value != "" && f.value != "ALL") || value == JStr(f.value)
  }

  predicate KeepGroup(status: Option<string>, category: Option<string>, data: Dict) {
    Passes(status, PyGet(data, "status", JNull)) && Passes(category, PyGet(data, "category", JNull))
  }

  /** The loop of `list_groups`: the documents passing both filters, in order. */
  method FilterGroups(docs: seq<Dict>, status: Option<string>, category: Option<string>)
    returns (all: seq<Dict>)
    ensures all == Filter(docs, d => KeepGroup(status, category, d))
  {
    ghost var keep := d => KeepGroup(status, category, d);
    all := [];
    var i := 0;
    while i < |docs|
      invariant 0 <= i <= |docs|
      invariant all == Filter(docs[..i], keep)
    {
      var data := docs[i];
      FilterSnoc(docs[..i], data, keep);
      assert docs[..i + 1] == docs[..i] + [data];
      i := i + 1;
      if status.Some? && status.value != "" && status.value != "ALL" && PyGet(data, "status", JNull) != JStr(status.value) {
        continue;
      }
      if category.Some? && category.value != "" && category.value != "ALL" && PyGet(data, "category", JNull) != JStr(category.value) {
        continue;
      }
      all := all + [data];
    }
    assert docs[..|docs|] == docs;
  }

  /** `list_groups`: no db is a 503; a failing query gives []; otherwise the
      requested page of the filtered first 200 documents. */
  method ListGroups(db: bool, ordered: Result<seq<Dict>, string>, status: Option<string>, category: Option<string>,
                    page: int, limit: int)
    returns (r: Result<seq<Dict>, HttpError>)
    ensures !db ==> r == Err(FirebaseUnavailable)
    ensures db && ordered.Err? ==> r == Ok([])
    ensures db && ordered.Ok? ==>
      r == Ok(PySlice.Page(Filter(PySlice.Take(ordered.value, BatchSize), d => KeepGroup(status, category, d)), page, limit))
  {
    if !db {
      return Err(FirebaseUnavailable);
    }
    if ordered.Err? {
      return Ok([]);
    }
    var docs := PySlice.Take(ordered.value, BatchSize);
    var all := FilterGroups(docs, status, category);
    var start := (page - 1) * limit;
    var end := start + limit;
    r := Ok(PySlice.Slice(all, start, end));
  }

  /** A filter that is absent, empty or 'ALL' keeps every document. */
  lemma AllFilterKeepsEverything(docs: seq<Dict>, f: Option<string>, g: Option<string>)
    requires f.None? || f == Some("") || f == Some("ALL")
    requires g.None? || g == Some("") || g == Some("ALL")
    ensures Filter(docs, d => KeepGroup(f, g, d)) == docs
  {
    FilterKeepsAll(docs, d => KeepGroup(f, g, d));
  }

  /** A group is listed on some page iff it is among the first 200 and
      passes both filters. */
  lemma ListedIffKept(docs: seq<Dict>, status: Option<string>, category: Option<string>, d: Dict)
    ensures d in Filter(PySlice.Take(docs, BatchSize), x => KeepGroup(status, category, x))
      <==> d in PySlice.Take(docs, BatchSize) && KeepGroup(status, category, d)
  {
    FilterMembers(PySlice.Take(docs, BatchSize), x => KeepGroup(status, category, x), d);
  }

  /** A status filter returns only groups carrying exactly that status. */
  lemma StatusFilterIsExact(docs: seq<Dict>, status: string, d: Dict)
    requires status != "" && status != "ALL"
    requires d in Filter(docs, x => KeepGroup(Some(status), None, x))
    ensures "status" in d && d["status"] == JStr(status)
  {
    FilterMembers(docs, x => KeepGroup(Some(status), None, x), d);
  }

  // ------------------------------------------------------------ detail

  /** `round(c * 100) if c <= 1.0 else c`, with `c = analysis.get("confidence", 0)`:
      a fraction is scaled and rounded half-to-even, a larger value passes
      through unrounded, and a non-number makes the comparison raise. */
  function DetailConfidence(analysis: Dict): (r: Result<Json, PyError>)
    ensures "confidence" !in analysis ==> r == Ok(JNum(0.0))
    ensures r.Err? <==> "confidence" in analysis && PyNumber(analysis["confidence"]).None?
    ensures r.Err? ==> r.error == TypeError
    ensures "confidence" in analysis && analysis["confidence"].JNum? && analysis["confidence"].n <= 1.0 ==>
      r == Ok(JNum(Rounding.PyRound(analysis["confidence"].n * 100.0) as real))
    ensures "confidence" in analysis && analysis["confidence"].JNum? && analysis["confidence"].n > 1.0 ==>
      r == Ok(analysis["confidence"])
  {
    var c := PyGet(analysis, "confidence", JNum(0.0));
    match PyAtMost(c, 1.0)
    case Err(e) => Err(e)
    case Ok(small) =>
      if small then
        Ok(JNum(Rounding.PyRound(PyNumber(c).value * 100.0) as real))
      else
        Ok(c)
  }

  const DetailKeys: set<string> :=
    {"id", "name", "status", "severity", "summary", "count", "first_seen", "service_name", "root_cause", "analysis", "logs"}

  /** The detail view of incident `data`, whose `analysis` dict and
      normalised confidence are already known. */
  function DetailView(groupId: string, data: Dict, analysis: Dict, confidence: Json): (v: Json)
    ensures v.JObj? && v.fields.Keys == DetailKeys
    ensures v.fields["id"] == JStr(groupId) && v.fields["status"] == JStr("OPEN")
    ensures v.fields["severity"] == PyGet(data, "priority", JStr("P2"))
    ensures v.fields["count"] == PyGet(data, "occurrence_count", JNum(1.0))
    ensures v.fields["name"] == PyGet(analysis, "cause", JStr("Unknown Anomaly"))
    ensures v.fields["root_cause"].JObj? && "confidence" in v.fields["root_cause"].fields
    ensures v.fields["root_cause"].fields["confidence"] == confidence
  {
    JObj(map[
      "id" := JStr(groupId),
      "name" := PyGet(analysis, "cause", JStr("Unknown Anomaly")),
      "status" := JStr("OPEN"),
      "severity" := PyGet(data, "priority", JStr("P2")),
      "summary" := PyGet(analysis, "cause", JNull),
      "count" := PyGet(data, "occurrence_count", JNum(1.0)),
      "first_seen" := PyGet(data, "timestamp", JNull),
      "service_name" := PyGet(data, "service_name", JNull),
      "root_cause" := JObj(map[
        "cause" := PyGet(analysis, "cause", JNull),
        "confidence" := confidence,
        "evidence" := JArr([PyGet(analysis, "correlation_insight", JStr(""))])]),
      "analysis" := JObj(analysis),
      "logs" := PyGet(data, "logs", JArr([]))])
  }

  /** `get_group_detail`: the first incident whose `trace_id` is the group id
      (`first`, `None` when the query finds nothing), projected into the
      detail view. The 404 and any exception of the projection are caught and
      re-raised as 500. */
  function GroupDetail(db: bool, groupId: string, first: Result<Option<Dict>, string>): (r: Result<Json, HttpError>)
    ensures !db ==> r == Err(FirebaseUnavailable)
    ensures db && first.Err? ==> r == Err(HttpError(500, Text(first.error)))
    ensures db && first == Ok(None) ==> r == Err(Rewrapped(HttpError(404, Text("Group not found"))))
    ensures r.Ok? ==> r.value.JObj? && r.value.fields.Keys == DetailKeys
    ensures r.Ok? ==> r.value.fields["status"] == JStr("OPEN") && r.value.fields["id"] == JStr(groupId)
    ensures r.Err? ==> r.error.status in {500, 503}
    ensures db && first.Ok? && first.value.Some? ==>
      var data := first.value.value;
      && (r.Ok? <==> PyGetDict(data, "analysis").Ok? && DetailConfidence(PyGetDict(data, "analysis").value).Ok?)
      && (r.Ok? ==>
            r.value == DetailView(groupId, data, PyGetDict(data, "analysis").value, DetailConfidence(PyGetDict(data, "analysis").value).value))
  {
    if !db then Err(FirebaseUnavailable)
    else if first.Err? then Err(HttpError(500, Text(first.error)))
    else if first.value.None? then Err(Rewrapped(HttpError(404, Text("Group not found"))))
    else
      var data := first.value.value;
      match PyGetDict(data, "analysis")
      case Err(e) => Err(HttpError(500, Raised(e)))
      case Ok(analysis) =>
        match DetailConfidence(analysis)
        case Err(e) => Err(HttpError(500, Raised(e)))
        case Ok(confidence) => Ok(DetailView(groupId, data, analysis, confidence))
  }

  /** An unknown group id reaches the client as a 500, not a 404. */
  lemma UnknownGroupIs500(groupId: string)
    ensures GroupDetail(true, groupId, Ok(None)) == Err(HttpError(500, Text("404: Group not found")))
  {
    NotFoundBecomes500("Group not found");
    assert "404: " + "Group not found" == "404: Group not found";
  }

  /** A document with no priority or count shows severity P2 and count 1,
      and a missing confidence shows 0. */
  lemma DetailDefaults(groupId: string, data: Dict)
    requires "priority" !in data && "occurrence_count" !in data && "analysis" !in data
    ensures GroupDetail(true, groupId, Ok(Some(data))).Ok?
    ensures GroupDetail(true, groupId, Ok(Some(data))).value.fields["severity"] == JStr("P2")
    ensures GroupDetail(true, groupId, Ok(Some(data))).value.fields["count"] == JNum(1.0)
    ensures GroupDetail(true, groupId, Ok(Some(data))).value.fields["root_cause"].fields["confidence"] == JNum(0.0)
  {
    assert PyGetDict(data, "analysis") == Ok(map[]);
  }

  /** A string confidence makes the comparison raise, which surfaces as 500. */
  lemma StringConfidenceIs500(groupId: string, data: Dict, text: string)
    requires "analysis" in data && data["analysis"] == JObj(map["confidence" := JStr(text)])
    ensures GroupDetail(true, groupId, Ok(Some(data))) == Err(HttpError(500, Raised(TypeError)))
  {
  }

  /** `get_group_playbook`: the same three steps for every group. */
  function Playbook(groupId: string): (p: Json)
    ensures p.JObj? && p.fields.Keys == {"steps"} && p.fields["steps"].JArr? && |p.fields["steps"].items| == 3
  {
    JObj(map["steps" := JArr([
      JStr("Check active connection count on DB shard"),
      JStr("If count > 90%, restart service pods to flush connections"),
      JStr("Rollback to previous stable version if issue persists")])])
  }
}
