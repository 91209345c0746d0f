/** The `/incidents` endpoints. The query outcome is an input as in
    `GroupsRoute`. */
module IncidentsRoute {
  import opened Wrappers
  import opened JsonValue
  import opened HttpErrors
  import opened SeqFilter
  import PySlice
  import GroupsRoute

  /** Documents read from `incidents`, newest `timestamp` first. */
  const BatchSize: nat := 300

  /** A truthy `group_id` must equal the `trace_id`; the category filter
      is the one the groups list uses ('ALL' or empty means no filter). */
  predicate KeepIncident(groupId: Option<string>, category: Option<string>, d: Doc) {
    (groupId.None? || groupId.value == "" || PyGet(d.data, "trace_id", JNull) == JStr(groupId.value))
    && GroupsRoute.Passes(category, PyGet(d.data, "category", JNull))
  }

  const SummaryKeys: set<string> :=
    {"id", "trace_id", "service_name", "created_at", "timestamp", "priority", "status", "category"}

  /** The record listed for one document. */
  function Summary(d: Doc): (r: Json)
    ensures r.JObj? && r.fields.Keys == SummaryKeys
    ensures r.fields["id"] == JStr(d.id)
    ensures r.fields["created_at"] == r.fields["timestamp"] == PyGet(d.data, "timestamp", JNull)
    ensures r.fields["status"] == PyGet(d.data, "status", JStr("OPEN"))
    ensures r.fields["trace_id"] == PyGet(d.data, "trace_id", JNull)
  {
    JObj(map[
      "id" := JStr(d.id),
      "trace_id" := PyGet(d.data, "trace_id", JNull),
      "service_name" := PyGet(d.data, "service_name", JNull),
      "created_at" := PyGet(d.data, "timestamp", JNull),
      "timestamp" := PyGet(d.data, "timestamp", JNull),
      "priority" := PyGet(d.data, "priority", JNull),
      "status" := PyGet(d.data, "status", JStr("OPEN")),
      "category" := PyGet(d.data, "category", JNull)])
  }

  function Summaries(docs: seq<Doc>): (r: seq<Json>)
    ensures |r| == |docs| && forall i :: 0 <= i < |docs| ==> r[i] == Summary(docs[i])
  {
    seq(|docs|, i requires 0 <= i < |docs| => Summary(docs[i]))
  }

  /** The loop of `list_incidents`: the summaries of the documents passing
      both filters, in order. */
  method CollectIncidents(docs: seq<Doc>, groupId: Option<string>, category: Option<string>)
    returns (all: seq<Json>)
    ensures all == Summaries(Filter(docs, d => KeepIncident(groupId, category, d)))
  {
    ghost var keep := d => KeepIncident(groupId, category, d);
    all := [];
    var i := 0;
    while i < |docs|
      invariant 0 <= i <= |docs|
      invariant all == Summaries(Filter(docs[..i], keep))
    {
      var d := docs[i];
      FilterSnoc(docs[..i], d, keep);
      assert docs[..i + 1] == docs[..i] + [d];
      i := i + 1;
      if groupId.Some? && groupId.value != "" && PyGet(d.data, "trace_id", JNull) != JStr(groupId.value) {
        continue;
      }
      if category.Some? && category.value != "" && category.value != "ALL" && PyGet(d.data, "category", JNull) != JStr(category.value) {
        continue;
      }
      assert Summaries(Filter(docs[..i], keep)) == Summaries(Filter(docs[..i - 1], keep)) + [Summary(d)];
      all := all + [Summary(d)];
    }
    assert docs[..|docs|] == docs;
  }

  /** `list_incidents`. */
  method ListIncidents(db: bool, ordered: Result<seq<Doc>, string>, groupId: Option<string>, category: Option<string>,
                       page: int, limit: int)
    returns (r: Result<seq<Json>, HttpError>)
    ensures !db ==> r == Err(FirebaseUnavailable)
    ensures db && ordered.Err? ==> r == Ok([])
    ensures db && ordered.Ok? ==>
      r == Ok(PySlice.Page(Summaries(Filter(PySlice.Take(ordered.value, BatchSize), d => KeepIncident(groupId, category, d))), page, limit))
  {
    if !db {
      return Err(FirebaseUnavailable);
    }
    if ordered.Err? {
      return Ok([]);
    }
    var all := CollectIncidents(PySlice.Take(ordered.value, BatchSize), groupId, category);
    var start := (page - 1) * limit;
    r := Ok(PySlice.Slice(all, start, start + limit));
  }

  /** Filtering by group returns only incidents of that trace. */
  lemma GroupFilterIsExact(docs: seq<Doc>, groupId: string, i: int)
    requires groupId != ""
    requires 0 <= i < |Summaries(Filter(docs, d => KeepIncident(Some(groupId), None, d)))|
    ensures Summaries(Filter(docs, d => KeepIncident(Some(groupId), None, d)))[i].fields["trace_id"] == JStr(groupId)
  {
    var kept := Filter(docs, d => KeepIncident(Some(groupId), None, d));
    FilterMembers(docs, d => KeepIncident(Some(groupId), None, d), kept[i]);
  }

  /** An incident that passes the filters appears in the full listing. */
  lemma KeptIncidentListed(docs: seq<Doc>, groupId: Option<string>, category: Option<string>, d: Doc)
    requires d in docs && KeepIncident(groupId, category, d)
    ensures Summary(d) in Summaries(Filter(docs, x => KeepIncident(groupId, category, x)))
  {
    var kept := Filter(docs, x => KeepIncident(groupId, category, x));
    FilterMembers(docs, x => KeepIncident(groupId, category, x), d);
    var j :| 0 <= j < |kept| && kept[j] == d;
    assert Summaries(kept)[j] == Summary(d);
  }

  // ------------------------------------------------------------ detail

  const DetailKeys: set<string> :=
    {"id", "trace_id", "service_name", "timestamp", "analysis", "logs", "priority", "status"}

  function DetailView(d: Doc): (v: Json)
    ensures v.JObj? && v.fields.Keys == DetailKeys
    ensures v.fields["status"] == JStr("OPEN") && v.fields["id"] == JStr(d.id)
    ensures v.fields["analysis"] == PyGet(d.data, "analysis", JObj(map[]))
    ensures v.fields["logs"] == PyGet(d.data, "logs", JArr([]))
  {
    JObj(map[
      "id" := JStr(d.id),
      "trace_id" := PyGet(d.data, "trace_id", JNull),
      "service_name" := PyGet(d.data, "service_name", JNull),
      "timestamp" := PyGet(d.data, "timestamp", JNull),
      "analysis" := PyGet(d.data, "analysis", JObj(map[])),
      "logs" := PyGet(d.data, "logs", JArr([])),
      "priority" := PyGet(d.data, "priority", JNull),
      "status" := JStr("OPEN")])
  }

  /** `get_incident_detail`: the document with that id (`None` when it does
      not exist). The stored status is never shown: it is always OPEN. */
  function IncidentDetail(db: bool, doc: Result<Option<Doc>, string>): (r: Result<Json, HttpError>)
    ensures !db ==> r == Err(FirebaseUnavailable)
    ensures db && doc.Err? ==> r == Err(HttpError(500, Text(doc.error)))
    ensures db && doc == Ok(None) ==> r == Err(Rewrapped(HttpError(404, Text("Incident not found"))))
    ensures db && doc.Ok? && doc.value.Some? ==> r == Ok(DetailView(doc.value.value))
  {
    if !db then Err(FirebaseUnavailable)
    else if doc.Err? then Err(HttpError(500, Text(doc.error)))
    else if doc.value.None? then Err(Rewrapped(HttpError(404, Text("Incident not found"))))
    else Ok(DetailView(doc.value.value))
  }

  /** A resolved incident is still reported as OPEN by the detail view. */
  lemma StoredStatusIgnored(d: Doc)
    requires "status" in d.data && d.data["status"] == JStr("RESOLVED")
    ensures IncidentDetail(true, Ok(Some(d))).value.fields["status"] == JStr("OPEN")
    ensures Summary(d).fields["status"] == JStr("RESOLVED")
  {
  }
}
