/** The `/analytics` endpoints: a summary of counts and scores, and trend
    aggregates over the incidents of a time range. Firestore results are
    inputs, and so is the `datetime` parsing and formatting that turns a
    timestamp into a bucket label. Any exception inside either endpoint's
    `try` is swallowed and a fixed fallback reply is returned. */
module Analytics {
  import opened Wrappers
  import opened JsonValue
  import opened HttpErrors
  import Rounding
  import PySlice
  import OrderedDict
  import StableSort
  import StringOrder
  import opened PyText
  import ConfidenceRule

  // ------------------------------------------------------------ summary

  /** `max(0, 100 - active_count * 2 - critical_count * 10)`. */
  function HealthScore(active: int, critical: int): (h: int)
    ensures h >= 0 && h >= 100 - 2 * active - 10 * critical
    ensures active >= 0 && critical >= 0 ==> h <= 100
    ensures active >= 0 && critical >= 0 ==> (h == 100 <==> active == 0 && critical == 0)
    ensures h == 0 <==> 2 * active + 10 * critical >= 100
  {
    var raw := 100 - active * 2 - critical * 10;
    if raw > 0 then raw else 0
  }

  /** More open or critical incidents never raise the score. */
  lemma HealthNonIncreasing(a: int, c: int, a': int, c': int)
    requires a <= a' && c <= c'
    ensures HealthScore(a', c') <= HealthScore(a, c)
  {
  }

  /** One critical incident weighs as much as five active ones. */
  lemma CriticalWeighsFive(a: int, c: int)
    ensures HealthScore(a, c + 1) == HealthScore(a + 5, c)
  {
  }

  /** The three count queries: incidents of the last 24 hours, open
      incidents of priority P0, P1 or "P0 (Auto-Escalated)", and open
      incidents. */
  datatype Counts = Counts(daily: nat, critical: nat, active: nat)

  datatype Summary = Summary(totalErrors: int, activeGroups: int, criticalIssues: int,
                             healthScore: int, avgConfidence: int, impactedServices: int)

  const FailedSummary: Summary := Summary(0, 0, 0, 100, 0, 0)

  /** The summary reads the latest 50 incidents. */
  const RecentLimit: nat := 50

  /** What the summary loop has gathered: the positive confidences in order,
      and the distinct truthy service names. */
  datatype Recent = Recent(confidences: seq<real>, services: set<Json>)

  /** `data.get("analysis", {}).get("confidence", 0)`. */
  function ConfidenceOf(d: Dict): (r: Result<Json, PyError>)
    ensures r.Err? <==> PyGetDict(d, "analysis").Err?
  {
    match PyGetDict(d, "analysis")
    case Err(e) => Err(e)
    case Ok(analysis) => Ok(PyGet(analysis, "confidence", JNum(0.0)))
  }

  /** A document on which the summary loop raises: its analysis is not a
      dict, its confidence is not a number, or its truthy service name
      cannot go into a set. */
  predicate ScanFails(d: Dict) {
    || ConfidenceOf(d).Err?
    || PyNumber(ConfidenceOf(d).value).None?
    || (PyTruthy(PyGet(d, "service_name", JNull)) && !Hashable(PyGet(d, "service_name", JNull)))
  }

  /** The document's service name is `v` and truthy. */
  predicate NamesService(d: Dict, v: Json) {
    PyTruthy(PyGet(d, "service_name", JNull)) && PyGet(d, "service_name", JNull) == v
  }

  /** One turn of the summary loop. */
  function ScanStep(acc: Recent, d: Dict): (r: Result<Recent, PyError>)
    ensures r.Ok? <==> !ScanFails(d)
    ensures r.Ok? ==> acc.confidences <= r.value.confidences
    ensures r.Ok? ==> |r.value.confidences| <= |acc.confidences| + 1
    ensures r.Ok? ==> forall i :: |acc.confidences| <= i < |r.value.confidences| ==> r.value.confidences[i] > 0.0
    ensures r.Ok? ==> acc.services <= r.value.services
    ensures r.Ok? ==> |r.value.services| <= |acc.services| + 1
    ensures r.Ok? ==> forall v :: v in r.value.services <==> v in acc.services || NamesService(d, v)
  {
    match ConfidenceOf(d)
    case Err(e) => Err(e)
    case Ok(conf) =>
      match PyGreater(conf, 0.0)
      case Err(e) => Err(e)
      case Ok(positive) =>
        var cs := if positive then acc.confidences + [PyNumber(conf).value] else acc.confidences;
        var svc := PyGet(d, "service_name", JNull);
        if !PyTruthy(svc) then Ok(Recent(cs, acc.services))
        else if Hashable(svc) then
          AddOne(acc.services, svc);
          Ok(Recent(cs, acc.services + {svc}))
        else Err(TypeError)
  }

  /** Adding one service name grows the set by at most one. */
  lemma AddOne<T>(s: set<T>, x: T)
    ensures |s + {x}| <= |s| + 1
  {
    if x in s {
      assert s + {x} == s;
    }
  }

  /** The summary loop over `docs`, as a fold from the left. */
  function Scan(docs: seq<Dict>): (r: Result<Recent, PyError>)
    ensures r.Ok? ==> |r.value.confidences| <= |docs| && |r.value.services| <= |docs|
    ensures r.Ok? ==> forall i :: 0 <= i < |r.value.confidences| ==> r.value.confidences[i] > 0.0
  {
    if docs == [] then Ok(Recent([], {}))
    else
      match Scan(docs[..|docs| - 1])
      case Err(e) => Err(e)
      case Ok(acc) => ScanStep(acc, docs[|docs| - 1])
  }

  /** Once the loop has raised, the documents after it change nothing. */
  lemma {:induction false} ScanErrorPersists(docs: seq<Dict>, n: nat)
    requires 0 < n <= |docs| && Scan(docs[..n]).Err?
    ensures Scan(docs) == Scan(docs[..n])
    decreases |docs| - n
  {
    if n < |docs| {
      var init := docs[..|docs| - 1];
      assert init[..n] == docs[..n];
      ScanErrorPersists(init, n);
    } else {
      assert docs[..n] == docs;
    }
  }

  /** The summary falls back iff one of the documents makes the loop raise. */
  lemma {:induction false} ScanFailsIff(docs: seq<Dict>)
    ensures Scan(docs).Err? <==> exists i :: 0 <= i < |docs| && ScanFails(docs[i])
  {
    if docs != [] {
      var init := docs[..|docs| - 1];
      ScanFailsIff(init);
      if exists i :: 0 <= i < |init| && ScanFails(init[i]) {
        var i :| 0 <= i < |init| && ScanFails(init[i]);
        assert docs[i] == init[i];
      }
      if exists i :: 0 <= i < |docs| && ScanFails(docs[i]) {
        var i :| 0 <= i < |docs| && ScanFails(docs[i]);
        if i < |init| {
          assert init[i] == docs[i];
        }
      }
    }
  }

  /** impactedServices counts exactly the distinct truthy service names. */
  lemma {:induction false} ScannedServices(docs: seq<Dict>, v: Json)
    requires Scan(docs).Ok?
    ensures v in Scan(docs).value.services <==> exists i :: 0 <= i < |docs| && NamesService(docs[i], v)
  {
    if docs != [] {
      var init, last := docs[..|docs| - 1], docs[|docs| - 1];
      ScanLast(docs);
      ScannedServices(init, v);
      assert docs == init + [last];
      NamedSplit(init, last, v);
    }
  }

  lemma NamedSplit(init: seq<Dict>, last: Dict, v: Json)
    ensures (exists i :: 0 <= i < |init + [last]| && NamesService((init + [last])[i], v)) <==>
      (exists i :: 0 <= i < |init| && NamesService(init[i], v)) || NamesService(last, v)
  {
    var docs := init + [last];
    if exists i :: 0 <= i < |init| && NamesService(init[i], v) {
      var i :| 0 <= i < |init| && NamesService(init[i], v);
      assert docs[i] == init[i];
    }
    if exists i :: 0 <= i < |docs| && NamesService(docs[i], v) {
      var i :| 0 <= i < |docs| && NamesService(docs[i], v);
      if i < |init| {
        assert init[i] == docs[i];
      } else {
        assert docs[i] == last;
      }
    }
    if NamesService(last, v) {
      assert docs[|init|] == last;
    }
  }

  /** The last turn of the summary loop, when the whole loop succeeds. */
  lemma ScanLast(docs: seq<Dict>)
    requires docs != [] && Scan(docs).Ok?
    ensures Scan(docs[..|docs| - 1]).Ok?
    ensures Scan(docs) == ScanStep(Scan(docs[..|docs| - 1]).value, docs[|docs| - 1])
  {
  }

  /** A document's confidence when it is a number above 0. */
  function PositiveConfidence(d: Dict): (c: Option<real>)
    ensures c.Some? ==> c.value > 0.0
  {
    if ConfidenceOf(d).Err? then None
    else match PyNumber(ConfidenceOf(d).value)
      case Some(n) => if n > 0.0 then Some(n) else None
      case None => None
  }

  /** The positive numeric confidences of the documents, in order. */
  function PositiveConfidences(docs: seq<Dict>): (cs: seq<real>)
    ensures |cs| <= |docs|
  {
    if docs == [] then []
    else
      var last := PositiveConfidence(docs[|docs| - 1]);
      PositiveConfidences(docs[..|docs| - 1]) + (if last.Some? then [last.value] else [])
  }

  /** avgConfidence averages exactly the positive numeric confidences of
      the documents read, in order: zero and negative ones are skipped. */
  lemma {:induction false} ScannedConfidences(docs: seq<Dict>)
    requires Scan(docs).Ok?
    ensures Scan(docs).value.confidences == PositiveConfidences(docs)
  {
    if docs != [] {
      var init := docs[..|docs| - 1];
      ScannedConfidences(init);
    }
  }

  /** The summary loop, proved to compute `Scan`. */
  method ScanRecent(docs: seq<Dict>) returns (r: Result<Recent, PyError>)
    ensures r == Scan(docs)
  {
    var acc := Recent([], {});
    var i := 0;
    while i < |docs|
      invariant 0 <= i <= |docs|
      invariant Scan(docs[..i]) == Ok(acc)
    {
      assert docs[..i + 1][..i] == docs[..i];
      var step := ScanStep(acc, docs[i]);
      if step.Err? {
        ScanErrorPersists(docs, i + 1);
        return step;
      }
      acc := step.value;
      i := i + 1;
    }
    assert docs[..|docs|] == docs;
    r := Ok(acc);
  }

  function Sum(cs: seq<real>): real {
    if cs == [] then 0.0 else cs[0] + Sum(cs[1..])
  }

  /** `round(sum(confidences) / len(confidences)) if confidences else 0`. */
  function Average(cs: seq<real>): (a: int)
    ensures cs == [] ==> a == 0
    ensures cs != [] ==> a as real - 0.5 <= Sum(cs) / |cs| as real <= a as real + 0.5
  {
    if |cs| == 0 then 0 else Rounding.PyRound(Sum(cs) / |cs| as real)
  }

  lemma {:induction false} SumBounds(cs: seq<real>, lo: real, hi: real)
    requires forall i :: 0 <= i < |cs| ==> lo <= cs[i] <= hi
    ensures lo * |cs| as real <= Sum(cs) <= hi * |cs| as real
  {
    if cs != [] {
      SumBounds(cs[1..], lo, hi);
    }
  }

  lemma MeanWithin(total: real, n: real, lo: real, hi: real)
    requires n > 0.0 && lo * n <= total <= hi * n
    ensures lo <= total / n <= hi
  {
    var mean := total / n;
    assert (mean - lo) * n == total - lo * n;
    assert (hi - mean) * n == hi * n - total;
  }

  /** The average lies between the rounded least and greatest confidence. */
  lemma AverageWithin(cs: seq<real>, lo: real, hi: real)
    requires |cs| > 0
    requires forall i :: 0 <= i < |cs| ==> lo <= cs[i] <= hi
    ensures Rounding.PyRound(lo) <= Average(cs) <= Rounding.PyRound(hi)
  {
    SumBounds(cs, lo, hi);
    var n := |cs| as real;
    var mean := Sum(cs) / n;
    MeanWithin(Sum(cs), n, lo, hi);
    Rounding.PyRoundMonotone(lo, mean);
    Rounding.PyRoundMonotone(mean, hi);
  }

  /** When every stored confidence is a percentage, so is the average. */
  lemma AveragePercent(cs: seq<real>)
    requires forall i :: 0 <= i < |cs| ==> 0.0 <= cs[i] <= 100.0
    ensures 0 <= Average(cs) <= 100
  {
    if |cs| > 0 {
      AverageWithin(cs, 0.0, 100.0);
      Rounding.PyRoundOfInt(0);
      Rounding.PyRoundOfInt(100);
    }
  }

  /** `get_analytics_summary`. `counts` and `recent` are the outcomes of the
      three count queries and of the latest-incidents query (newest first). */
  method SummaryOf(db: bool, counts: Result<Counts, string>, recent: Result<seq<Dict>, string>)
    returns (r: Result<Summary, HttpError>)
    ensures !db ==> r == Err(FirebaseUnavailable)
    ensures db && (counts.Err? || recent.Err?) ==> r == Ok(FailedSummary)
    ensures db && counts.Ok? && recent.Ok? && Scan(PySlice.Take(recent.value, RecentLimit)).Err? ==>
      r == Ok(FailedSummary)
    ensures db && counts.Ok? && recent.Ok? && Scan(PySlice.Take(recent.value, RecentLimit)).Ok? ==>
      var c := counts.value;
      var s := Scan(PySlice.Take(recent.value, RecentLimit)).value;
      r == Ok(Summary(c.daily, c.active, c.critical, HealthScore(c.active, c.critical),
                      Average(s.confidences), |s.services|))
  {
    if !db {
      return Err(FirebaseUnavailable);
    }
    if counts.Err? || recent.Err? {
      return Ok(FailedSummary);
    }
    var scanned := ScanRecent(PySlice.Take(recent.value, RecentLimit));
    if scanned.Err? {
      return Ok(FailedSummary);
    }
    var c := counts.value;
    var s := scanned.value;
    r := Ok(Summary(c.daily, c.active, c.critical, HealthScore(c.active, c.critical),
                    Average(s.confidences), |s.services|));
  }

  // ------------------------------------------------------------- trends

  /** How far back a range reaches, in hours, and whether its buckets are
      hours (otherwise days). */
  datatype Window = Window(hours: nat, byHour: bool)

  function WindowOf(range: string): (w: Window)
    ensures w.byHour <==> range == "24h"
    ensures range == "30d" ==> w.hours == 30 * 24
    ensures range != "24h" && range != "30d" ==> w == Window(7 * 24, false)
  {
    if range == "24h" then Window(24, true)
    else if range == "30d" then Window(720, false)
    else Window(168, false)
  }

  datatype Bucket = Bucket(errors: real, anomalies: nat)

  datatype Risk = Risk(confidence: Json, impact: Json, service: Json, cause: Json, id: string)

  /** The dicts and list the trends loop fills: buckets by label, summed
      occurrences by service, counts by status, and risk points. */
  datatype Tally = Tally(trends: seq<(string, Bucket)>, categories: seq<(Json, real)>,
                         status: seq<(Json, real)>, risk: seq<Risk>)

  const DefaultStatuses: seq<Json> := [JStr("OPEN"), JStr("RESOLVED"), JStr("INVESTIGATING")]

  const EmptyTally: Tally :=
    Tally([], [], [(JStr("OPEN"), 0.0), (JStr("RESOLVED"), 0.0), (JStr("INVESTIGATING"), 0.0)], [])

  predicate ValidTally(t: Tally) {
    && OrderedDict.DistinctKeys(t.trends)
    && OrderedDict.DistinctKeys(t.categories)
    && OrderedDict.DistinctKeys(t.status)
    && |t.status| >= 3 && OrderedDict.Keys(t.status)[..3] == DefaultStatuses
  }

  /** A document the trends loop counts: its timestamp is truthy. */
  predicate Counted(d: Doc) {
    PyTruthy(PyGet(d.data, "timestamp", JNull))
  }

  function CountOf(docs: seq<Doc>): (n: nat)
    ensures n <= |docs|
  {
    if docs == [] then 0
    else CountOf(docs[..|docs| - 1]) + (if Counted(docs[|docs| - 1]) then 1 else 0)
  }

  /** The bucket label of a counted incident; `None` for one the loop skips. */
  function BucketKey(d: Doc, bucketOf: (Json, bool) -> Option<string>, byHour: bool): Option<string> {
    if Counted(d) then bucketOf(PyGet(d.data, "timestamp", JNull), byHour) else None
  }

  /** `data.get("occurrence_count", 1)` as a number (0 where it is none,
      which makes the loop raise). */
  function Occurrences(d: Doc): real {
    var n := PyNumber(PyGet(d.data, "occurrence_count", JNum(1.0)));
    if n.Some? then n.value else 0.0
  }

  function ServiceOf(d: Doc): Json {
    PyGet(d.data, "service_name", JStr("Unknown"))
  }

  function StatusOf(d: Doc): Json {
    PyGet(d.data, "status", JStr("OPEN"))
  }

  /** The risk point of an incident: confidence as a percentage, impact,
      service, root cause and the first eight characters of the id. */
  function RiskOf(d: Doc): Risk {
    var a := PyGetDict(d.data, "analysis");
    var analysis: Dict := if a.Ok? then a.value else map[];
    Risk(ConfidenceRule.Percent(PyGet(analysis, "confidence", JNum(0.0))),
         PyGet(d.data, "occurrence_count", JNum(1.0)), ServiceOf(d),
         PyGet(analysis, "cause", JStr("Unknown")), PySlice.Take(d.id, 8))
  }

  /** The summed occurrences of the incidents labelled `key`. */
  function BucketErrors(docs: seq<Doc>, key: string, bucketOf: (Json, bool) -> Option<string>, byHour: bool): real {
    if docs == [] then 0.0
    else
      var d := docs[|docs| - 1];
      BucketErrors(docs[..|docs| - 1], key, bucketOf, byHour)
        + (if BucketKey(d, bucketOf, byHour) == Some(key) then Occurrences(d) else 0.0)
  }

  /** How many incidents are labelled `key`. */
  function BucketCount(docs: seq<Doc>, key: string, bucketOf: (Json, bool) -> Option<string>, byHour: bool): nat {
    if docs == [] then 0
    else
      BucketCount(docs[..|docs| - 1], key, bucketOf, byHour)
        + (if BucketKey(docs[|docs| - 1], bucketOf, byHour) == Some(key) then 1 else 0)
  }

  /** The summed occurrences of the counted incidents of service `svc`. */
  function ServiceTotal(docs: seq<Doc>, svc: Json): real {
    if docs == [] then 0.0
    else
      var d := docs[|docs| - 1];
      ServiceTotal(docs[..|docs| - 1], svc) + (if Counted(d) && ServiceOf(d) == svc then Occurrences(d) else 0.0)
  }

  /** How many counted incidents have status `s`. */
  function StatusCount(docs: seq<Doc>, s: Json): nat {
    if docs == [] then 0
    else
      var d := docs[|docs| - 1];
      StatusCount(docs[..|docs| - 1], s) + (if Counted(d) && StatusOf(d) == s then 1 else 0)
  }

  /** The risk points of the counted incidents, in query order. */
  function RiskPoints(docs: seq<Doc>): seq<Risk> {
    if docs == [] then []
    else
      var d := docs[|docs| - 1];
      RiskPoints(docs[..|docs| - 1]) + (if Counted(d) then [RiskOf(d)] else [])
  }

  /** One turn of the trends loop. `bucketOf` gives the bucket label of a
      timestamp (`%H:00` for hours, `%b %d` for days), `None` when
      `fromisoformat` raises. */
  function TallyStep(t: Tally, d: Doc, bucketOf: (Json, bool) -> Option<string>, byHour: bool): (r: Result<Tally, PyError>)
    requires ValidTally(t)
    ensures r.Ok? ==> ValidTally(r.value)
    ensures r.Ok? && !Counted(d) ==> r.value == t
    ensures r.Ok? && Counted(d) ==> OrderedDict.Total(r.value.status) == OrderedDict.Total(t.status) + 1.0
    ensures r.Ok? && Counted(d) ==> |r.value.risk| == |t.risk| + 1
  {
    var ts := PyGet(d.data, "timestamp", JNull);
    if !PyTruthy(ts) then Ok(t)
    else
      match bucketOf(ts, byHour)
      case None => Err(ValueError)
      case Some(key) =>
        var occ := PyGet(d.data, "occurrence_count", JNum(1.0));
        match PyNumber(occ)
        case None => Err(TypeError)
        case Some(n) =>
          var svc := PyGet(d.data, "service_name", JStr("Unknown"));
          var status := PyGet(d.data, "status", JStr("OPEN"));
          if !Hashable(svc) || !Hashable(status) then Err(TypeError)
          else
            match PyGetDict(d.data, "analysis")
            case Err(e) => Err(e)
            case Ok(analysis) =>
              var risk := Risk(ConfidenceRule.Percent(PyGet(analysis, "confidence", JNum(0.0))), occ, svc,
                               PyGet(analysis, "cause", JStr("Unknown")), PySlice.Take(d.id, 8));
              Ok(Record(t, key, n, svc, status, risk))
  }

  /** A turn raises iff the incident is counted and its timestamp does not
      parse, its occurrence count is not a number, its service or status
      cannot be a dict key, or its analysis is not a dict; a counted
      incident that passes is recorded under its bucket label with its
      occurrences, service, status and risk point. */
  lemma TallyStepOutcome(t: Tally, d: Doc, bucketOf: (Json, bool) -> Option<string>, byHour: bool)
    requires ValidTally(t)
    ensures var r := TallyStep(t, d, bucketOf, byHour);
      && (r.Ok? <==>
          || !Counted(d)
          || (&& BucketKey(d, bucketOf, byHour).Some?
              && PyNumber(PyGet(d.data, "occurrence_count", JNum(1.0))).Some?
              && Hashable(ServiceOf(d)) && Hashable(StatusOf(d))
              && PyGetDict(d.data, "analysis").Ok?))
      && (Counted(d) && BucketKey(d, bucketOf, byHour).None? ==> r == Err(ValueError))
      && (r.Ok? && Counted(d) ==>
          && BucketKey(d, bucketOf, byHour).Some?
          && r.value == Record(t, BucketKey(d, bucketOf, byHour).value, Occurrences(d), ServiceOf(d), StatusOf(d), RiskOf(d)))
  {
  }

  /** The dict and list updates of one counted incident. */
  function Record(t: Tally, key: string, n: real, svc: Json, status: Json, risk: Risk): (r: Tally)
    requires ValidTally(t)
    ensures ValidTally(r)
    ensures OrderedDict.Total(r.status) == OrderedDict.Total(t.status) + 1.0
    ensures r.risk == t.risk + [risk]
    ensures OrderedDict.Get(r.trends, key, Bucket(0.0, 0)).errors == OrderedDict.Get(t.trends, key, Bucket(0.0, 0)).errors + n
    ensures OrderedDict.Get(r.trends, key, Bucket(0.0, 0)).anomalies == OrderedDict.Get(t.trends, key, Bucket(0.0, 0)).anomalies + 1
    ensures OrderedDict.Get(r.categories, svc, 0.0) == OrderedDict.Get(t.categories, svc, 0.0) + n
    ensures OrderedDict.Get(r.status, status, 0.0) == OrderedDict.Get(t.status, status, 0.0) + 1.0
  {
    var status' := OrderedDict.Bump(t.status, status, 1.0);
    OrderedDict.TotalAfterBump(t.status, status, 1.0);
    KeysPrefixKept(t.status, status');
    Tally(AddToBucket(t.trends, key, n), OrderedDict.Bump(t.categories, svc, n), status', t.risk + [risk])
  }

  /** Recording one incident leaves every other bucket as it was. */
  lemma RecordKeepsOtherBuckets(t: Tally, key: string, n: real, svc: Json, status: Json, risk: Risk)
    requires ValidTally(t)
    ensures forall k :: k != key ==>
      OrderedDict.Get(Record(t, key, n, svc, status, risk).trends, k, Bucket(0.0, 0)) == OrderedDict.Get(t.trends, k, Bucket(0.0, 0))
  {
    assert Record(t, key, n, svc, status, risk).trends == AddToBucket(t.trends, key, n);
  }

  /** Recording one incident leaves every other service's total as it was. */
  lemma RecordKeepsOtherServices(t: Tally, key: string, n: real, svc: Json, status: Json, risk: Risk)
    requires ValidTally(t)
    ensures forall k :: k != svc ==>
      OrderedDict.Get(Record(t, key, n, svc, status, risk).categories, k, 0.0) == OrderedDict.Get(t.categories, k, 0.0)
  {
    assert Record(t, key, n, svc, status, risk).categories == OrderedDict.Bump(t.categories, svc, n);
    OrderedDict.BumpKeepsOthers(t.categories, svc, n);
  }

  /** Recording one incident leaves every other status's count as it was. */
  lemma RecordKeepsOtherStatuses(t: Tally, key: string, n: real, svc: Json, status: Json, risk: Risk)
    requires ValidTally(t)
    ensures forall k :: k != status ==>
      OrderedDict.Get(Record(t, key, n, svc, status, risk).status, k, 0.0) == OrderedDict.Get(t.status, k, 0.0)
  {
    assert Record(t, key, n, svc, status, risk).status == OrderedDict.Bump(t.status, status, 1.0);
    OrderedDict.BumpKeepsOthers(t.status, status, 1.0);
  }

  /** `trends[key]["errors"] += n; trends[key]["anomalies"] += 1`, creating
      the bucket empty first. */
  function AddToBucket(trends: seq<(string, Bucket)>, key: string, n: real): (r: seq<(string, Bucket)>)
    requires OrderedDict.DistinctKeys(trends)
    ensures OrderedDict.DistinctKeys(r)
    ensures OrderedDict.Get(r, key, Bucket(0.0, 0)).errors == OrderedDict.Get(trends, key, Bucket(0.0, 0)).errors + n
    ensures OrderedDict.Get(r, key, Bucket(0.0, 0)).anomalies == OrderedDict.Get(trends, key, Bucket(0.0, 0)).anomalies + 1
    ensures forall k :: k != key ==> OrderedDict.Get(r, k, Bucket(0.0, 0)) == OrderedDict.Get(trends, k, Bucket(0.0, 0))
  {
    var b := OrderedDict.Get(trends, key, Bucket(0.0, 0));
    OrderedDict.PutSame(trends, key, Bucket(b.errors + n, b.anomalies + 1), Bucket(0.0, 0));
    OrderedDict.PutKeepsOthers(trends, key, Bucket(b.errors + n, b.anomalies + 1), Bucket(0.0, 0));
    OrderedDict.Put(trends, key, Bucket(b.errors + n, b.anomalies + 1))
  }

  lemma KeysPrefixKept(d: seq<(Json, real)>, d': seq<(Json, real)>)
    requires |d| >= 3
    requires exists k :: OrderedDict.Keys(d') == OrderedDict.Keys(d) || OrderedDict.Keys(d') == OrderedDict.Keys(d) + [k]
    ensures |d'| >= 3 && OrderedDict.Keys(d')[..3] == OrderedDict.Keys(d)[..3]
  {
  }

  /** The trends loop over `docs`, as a fold from the left. */
  function Aggregate(docs: seq<Doc>, bucketOf: (Json, bool) -> Option<string>, byHour: bool): (r: Result<Tally, PyError>)
    ensures r.Ok? ==> ValidTally(r.value)
  {
    if docs == [] then Ok(EmptyTally)
    else
      match Aggregate(docs[..|docs| - 1], bucketOf, byHour)
      case Err(e) => Err(e)
      case Ok(t) => TallyStep(t, docs[|docs| - 1], bucketOf, byHour)
  }

  lemma {:induction false} AggregateErrorPersists(docs: seq<Doc>, bucketOf: (Json, bool) -> Option<string>, byHour: bool, n: nat)
    requires 0 < n <= |docs| && Aggregate(docs[..n], bucketOf, byHour).Err?
    ensures Aggregate(docs, bucketOf, byHour) == Aggregate(docs[..n], bucketOf, byHour)
    decreases |docs| - n
  {
    if n < |docs| {
      var init := docs[..|docs| - 1];
      assert init[..n] == docs[..n];
      AggregateErrorPersists(init, bucketOf, byHour, n);
    } else {
      assert docs[..n] == docs;
    }
  }

  /** Every timestamped incident is counted once in the status distribution
      and gives one risk point; the others are skipped. */
  lemma {:induction false} TallyCounts(docs: seq<Doc>, bucketOf: (Json, bool) -> Option<string>, byHour: bool)
    requires Aggregate(docs, bucketOf, byHour).Ok?
    ensures OrderedDict.Total(Aggregate(docs, bucketOf, byHour).value.status) == CountOf(docs) as real
    ensures |Aggregate(docs, bucketOf, byHour).value.risk| == CountOf(docs)
  {
    if docs != [] {
      TallyCounts(docs[..|docs| - 1], bucketOf, byHour);
    } else {
      var s := EmptyTally.status;
      assert s[..2][..1] == s[..1] && s[..1][..0] == [];
      assert OrderedDict.Total(s[..1]) == 0.0;
      assert OrderedDict.Total(s[..2]) == 0.0;
    }
  }

  /** The last turn of the loop, when the whole loop succeeds. */
  lemma AggregateLast(docs: seq<Doc>, bucketOf: (Json, bool) -> Option<string>, byHour: bool)
    requires docs != [] && Aggregate(docs, bucketOf, byHour).Ok?
    ensures Aggregate(docs[..|docs| - 1], bucketOf, byHour).Ok?
    ensures Aggregate(docs, bucketOf, byHour)
         == TallyStep(Aggregate(docs[..|docs| - 1], bucketOf, byHour).value, docs[|docs| - 1], bucketOf, byHour)
  {
  }

  /** What one turn adds to the bucket labelled `key`. */
  lemma StepBucket(t: Tally, d: Doc, bucketOf: (Json, bool) -> Option<string>, byHour: bool, key: string)
    requires ValidTally(t) && TallyStep(t, d, bucketOf, byHour).Ok?
    ensures var b, b' := OrderedDict.Get(t.trends, key, Bucket(0.0, 0)),
                         OrderedDict.Get(TallyStep(t, d, bucketOf, byHour).value.trends, key, Bucket(0.0, 0));
            var hit := BucketKey(d, bucketOf, byHour) == Some(key);
            && b'.errors == b.errors + (if hit then Occurrences(d) else 0.0)
            && b'.anomalies == b.anomalies + (if hit then 1 else 0)
  {
    if Counted(d) {
      var k := BucketKey(d, bucketOf, byHour).value;
      var rec := Record(t, k, Occurrences(d), ServiceOf(d), StatusOf(d), RiskOf(d));
      TallyStepOutcome(t, d, bucketOf, byHour);
      RecordKeepsOtherBuckets(t, k, Occurrences(d), ServiceOf(d), StatusOf(d), RiskOf(d));
      assert TallyStep(t, d, bucketOf, byHour).value == rec;
      if k != key {
        assert OrderedDict.Get(rec.trends, key, Bucket(0.0, 0)) == OrderedDict.Get(t.trends, key, Bucket(0.0, 0));
      }
    }
  }

  /** A bucket's errors are the summed occurrences of the incidents labelled
      with it. */
  lemma {:induction false} TrendErrors(docs: seq<Doc>, bucketOf: (Json, bool) -> Option<string>, byHour: bool, key: string)
    requires Aggregate(docs, bucketOf, byHour).Ok?
    ensures OrderedDict.Get(Aggregate(docs, bucketOf, byHour).value.trends, key, Bucket(0.0, 0)).errors
         == BucketErrors(docs, key, bucketOf, byHour)
  {
    if docs != [] {
      var init := docs[..|docs| - 1];
      AggregateLast(docs, bucketOf, byHour);
      TrendErrors(init, bucketOf, byHour, key);
      StepBucket(Aggregate(init, bucketOf, byHour).value, docs[|docs| - 1], bucketOf, byHour, key);
    }
  }

  /** A bucket's anomalies are the number of incidents labelled with it. */
  lemma {:induction false} TrendAnomalies(docs: seq<Doc>, bucketOf: (Json, bool) -> Option<string>, byHour: bool, key: string)
    requires Aggregate(docs, bucketOf, byHour).Ok?
    ensures OrderedDict.Get(Aggregate(docs, bucketOf, byHour).value.trends, key, Bucket(0.0, 0)).anomalies
         == BucketCount(docs, key, bucketOf, byHour)
  {
    if docs != [] {
      var init := docs[..|docs| - 1];
      AggregateLast(docs, bucketOf, byHour);
      TrendAnomalies(init, bucketOf, byHour, key);
      StepBucket(Aggregate(init, bucketOf, byHour).value, docs[|docs| - 1], bucketOf, byHour, key);
    }
  }

  /** Every bucket holds the summed occurrences and the number of the
      incidents labelled with it; a label no incident has reads as empty. */
  lemma TrendBuckets(docs: seq<Doc>, bucketOf: (Json, bool) -> Option<string>, byHour: bool, key: string)
    requires Aggregate(docs, bucketOf, byHour).Ok?
    ensures OrderedDict.Get(Aggregate(docs, bucketOf, byHour).value.trends, key, Bucket(0.0, 0))
         == Bucket(BucketErrors(docs, key, bucketOf, byHour), BucketCount(docs, key, bucketOf, byHour))
  {
    TrendErrors(docs, bucketOf, byHour, key);
    TrendAnomalies(docs, bucketOf, byHour, key);
  }

  /** What one turn adds to the total of service `svc`. */
  lemma StepService(t: Tally, d: Doc, bucketOf: (Json, bool) -> Option<string>, byHour: bool, svc: Json)
    requires ValidTally(t) && TallyStep(t, d, bucketOf, byHour).Ok?
    ensures OrderedDict.Get(TallyStep(t, d, bucketOf, byHour).value.categories, svc, 0.0)
         == OrderedDict.Get(t.categories, svc, 0.0) + (if Counted(d) && ServiceOf(d) == svc then Occurrences(d) else 0.0)
  {
    if Counted(d) {
      var k := BucketKey(d, bucketOf, byHour).value;
      var rec := Record(t, k, Occurrences(d), ServiceOf(d), StatusOf(d), RiskOf(d));
      TallyStepOutcome(t, d, bucketOf, byHour);
      RecordKeepsOtherServices(t, k, Occurrences(d), ServiceOf(d), StatusOf(d), RiskOf(d));
      assert TallyStep(t, d, bucketOf, byHour).value == rec;
      if ServiceOf(d) != svc {
        assert OrderedDict.Get(rec.categories, svc, 0.0) == OrderedDict.Get(t.categories, svc, 0.0);
      }
    }
  }

  /** Every service's total is the summed occurrences of its counted incidents. */
  lemma {:induction false} ServiceTotals(docs: seq<Doc>, bucketOf: (Json, bool) -> Option<string>, byHour: bool, svc: Json)
    requires Aggregate(docs, bucketOf, byHour).Ok?
    ensures OrderedDict.Get(Aggregate(docs, bucketOf, byHour).value.categories, svc, 0.0) == ServiceTotal(docs, svc)
  {
    if docs != [] {
      var init := docs[..|docs| - 1];
      AggregateLast(docs, bucketOf, byHour);
      ServiceTotals(init, bucketOf, byHour, svc);
      StepService(Aggregate(init, bucketOf, byHour).value, docs[|docs| - 1], bucketOf, byHour, svc);
    }
  }

  /** What one turn adds to the count of status `s`. */
  lemma StepStatus(t: Tally, d: Doc, bucketOf: (Json, bool) -> Option<string>, byHour: bool, s: Json)
    requires ValidTally(t) && TallyStep(t, d, bucketOf, byHour).Ok?
    ensures OrderedDict.Get(TallyStep(t, d, bucketOf, byHour).value.status, s, 0.0)
         == OrderedDict.Get(t.status, s, 0.0) + (if Counted(d) && StatusOf(d) == s then 1.0 else 0.0)
  {
    if Counted(d) {
      var k := BucketKey(d, bucketOf, byHour).value;
      var rec := Record(t, k, Occurrences(d), ServiceOf(d), StatusOf(d), RiskOf(d));
      TallyStepOutcome(t, d, bucketOf, byHour);
      RecordKeepsOtherStatuses(t, k, Occurrences(d), ServiceOf(d), StatusOf(d), RiskOf(d));
      assert TallyStep(t, d, bucketOf, byHour).value == rec;
      if StatusOf(d) != s {
        assert OrderedDict.Get(rec.status, s, 0.0) == OrderedDict.Get(t.status, s, 0.0);
      }
    }
  }

  /** Every status's count is the number of counted incidents with it; the
      three default statuses start at zero and the others are absent. */
  lemma {:induction false} StatusCounts(docs: seq<Doc>, bucketOf: (Json, bool) -> Option<string>, byHour: bool, s: Json)
    requires Aggregate(docs, bucketOf, byHour).Ok?
    ensures OrderedDict.Get(Aggregate(docs, bucketOf, byHour).value.status, s, 0.0) == StatusCount(docs, s) as real
  {
    if docs != [] {
      var init := docs[..|docs| - 1];
      AggregateLast(docs, bucketOf, byHour);
      StatusCounts(init, bucketOf, byHour, s);
      StepStatus(Aggregate(init, bucketOf, byHour).value, docs[|docs| - 1], bucketOf, byHour, s);
    } else {
      EmptyStatusCounts(s);
    }
  }

  lemma EmptyStatusCounts(s: Json)
    ensures OrderedDict.Get(EmptyTally.status, s, 0.0) == 0.0
  {
    var f := OrderedDict.Find(EmptyTally.status, s);
    assert f >= 0 ==> EmptyTally.status[f].1 == 0.0;
  }

  /** The risk matrix lists the risk points of the counted incidents in order. */
  lemma {:induction false} RiskMatrixContents(docs: seq<Doc>, bucketOf: (Json, bool) -> Option<string>, byHour: bool)
    requires Aggregate(docs, bucketOf, byHour).Ok?
    ensures Aggregate(docs, bucketOf, byHour).value.risk == RiskPoints(docs)
  {
    if docs != [] {
      RiskMatrixContents(docs[..|docs| - 1], bucketOf, byHour);
    }
  }

  lemma AggregateNext(docs: seq<Doc>, bucketOf: (Json, bool) -> Option<string>, byHour: bool, i: nat)
    requires i < |docs| && Aggregate(docs[..i], bucketOf, byHour).Ok?
    ensures Aggregate(docs[..i + 1], bucketOf, byHour)
         == TallyStep(Aggregate(docs[..i], bucketOf, byHour).value, docs[i], bucketOf, byHour)
  {
    assert docs[..i + 1][..i] == docs[..i];
  }

  /** The trends loop, proved to compute `Aggregate`. */
  method AggregateDocs(docs: seq<Doc>, bucketOf: (Json, bool) -> Option<string>, byHour: bool)
    returns (r: Result<Tally, PyError>)
    ensures r == Aggregate(docs, bucketOf, byHour)
  {
    var t := EmptyTally;
    var i := 0;
    while i < |docs|
      invariant 0 <= i <= |docs|
      invariant Aggregate(docs[..i], bucketOf, byHour) == Ok(t)
      invariant ValidTally(t)
    {
      AggregateNext(docs, bucketOf, byHour, i);
      var step := TallyStep(t, docs[i], bucketOf, byHour);
      if step.Err? {
        AggregateErrorPersists(docs, bucketOf, byHour, i + 1);
        return step;
      }
      t := step.value;
      i := i + 1;
    }
    assert docs[..|docs|] == docs;
    r := Ok(t);
  }

  // -------------------------------------------------------- formatting

  datatype TrendPoint = TrendPoint(date: string, errors: real, anomalies: nat)

  function Points(trends: seq<(string, Bucket)>): (ps: seq<TrendPoint>)
    ensures |ps| == |trends|
    ensures forall i :: 0 <= i < |trends| ==> ps[i] == TrendPoint(trends[i].0, trends[i].1.errors, trends[i].1.anomalies)
  {
    seq(|trends|, i requires 0 <= i < |trends| => TrendPoint(trends[i].0, trends[i].1.errors, trends[i].1.anomalies))
  }

  function DateOf(p: TrendPoint): string {
    p.date
  }

  /** `sorted(trends.values(), key=lambda x: x['date'])`. */
  function SortedTrends(trends: seq<(string, Bucket)>): (ps: seq<TrendPoint>)
    ensures multiset(ps) == multiset(Points(trends))
    ensures forall i, j :: 0 <= i < j < |ps| ==> StringOrder.Le(ps[i].date, ps[j].date)
  {
    SortByDate(Points(trends));
    StableSort.Sort(Points(trends), DateOf, StringOrder.Le)
  }

  lemma SortByDate(ps: seq<TrendPoint>)
    ensures multiset(StableSort.Sort(ps, DateOf, StringOrder.Le)) == multiset(ps)
    ensures StableSort.SortedBy(StableSort.Sort(ps, DateOf, StringOrder.Le), DateOf, StringOrder.Le)
  {
    StringOrder.LeIsTotalOrder();
    StableSort.SortPermutesAndOrders(ps, DateOf, StringOrder.Le);
  }

  function ValueOf(e: (Json, real)): real {
    e.1
  }

  /** The descending order of `reverse=True`. */
  predicate AtLeast(a: real, b: real) {
    a >= b
  }

  lemma AtLeastIsTotalOrder()
    ensures StableSort.TotalOrder(AtLeast)
  {
  }

  /** `sorted(categories, key=value, reverse=True)[:5]`: the five largest
      totals, largest first; every service left out totals no more than the
      fifth. */
  function TopCategories(categories: seq<(Json, real)>): (top: seq<(Json, real)>)
    ensures |top| == PySlice.Min(5, |categories|)
    ensures forall i, j :: 0 <= i < j < |top| ==> top[i].1 >= top[j].1
    ensures forall i :: 0 <= i < |top| ==> top[i] in categories
    ensures forall e :: e in categories && e !in top ==> |top| == 5 && top[4].1 >= e.1
  {
    AtLeastIsTotalOrder();
    var sorted := StableSort.Sort(categories, ValueOf, AtLeast);
    StableSort.SortPermutesAndOrders(categories, ValueOf, AtLeast);
    var top := PySlice.Take(sorted, 5);
    assert forall i :: 0 <= i < |top| ==> top[i] in categories by {
      forall i | 0 <= i < |top| ensures top[i] in categories {
        assert top[i] == sorted[i] && sorted[i] in multiset(sorted);
      }
    }
    assert forall e :: e in categories && e !in top ==> |top| == 5 && top[4].1 >= e.1 by {
      forall e | e in categories && e !in top ensures |top| == 5 && top[4].1 >= e.1 {
        assert e in multiset(sorted);
        var k :| 0 <= k < |sorted| && sorted[k] == e;
        assert k >= 5;
      }
    }
    top
  }

  /** `[{"name": k.capitalize(), "value": v} for k, v in status_dist.items()]`:
      a status that is not a string raises AttributeError. */
  function StatusNames(status: seq<(Json, real)>): (r: Result<seq<(string, real)>, PyError>)
    ensures r.Ok? <==> forall i :: 0 <= i < |status| ==> status[i].0.JStr?
    ensures r.Ok? ==> |r.value| == |status|
    ensures r.Ok? ==> forall i :: 0 <= i < |status| ==> r.value[i] == (Capitalize(status[i].0.s), status[i].1)
  {
    if status == [] then Ok([])
    else
      match StatusNames(status[1..])
      case Err(e) => Err(e)
      case Ok(rest) =>
        if status[0].0.JStr? then Ok([(Capitalize(status[0].0.s), status[0].1)] + rest)
        else Err(AttributeError)
  }

  datatype Trends = Trends(trends: seq<TrendPoint>, topCategories: seq<(Json, real)>,
                           statusDistribution: seq<(string, real)>, riskMatrix: Option<seq<Risk>>)

  /** The reply of a failed trends request, which has no riskMatrix key. */
  const FailedTrends: Trends := Trends([], [], [], None)

  const RiskLimit: nat := 30

  /** The reply built from the loop's outcome. */
  function Report(t: Result<Tally, PyError>): (r: Trends)
    requires t.Ok? ==> ValidTally(t.value)
    ensures t.Err? ==> r == FailedTrends
    ensures r.riskMatrix.Some? ==> |r.riskMatrix.value| <= RiskLimit && |r.topCategories| <= 5
    ensures r.riskMatrix.Some? ==> |r.statusDistribution| >= 3
    ensures r.riskMatrix.Some? ==> forall i :: 0 <= i < 3 ==> r.statusDistribution[i].0 == DefaultNames[i]
    ensures r.riskMatrix.Some? <==> t.Ok? && StatusNames(t.value.status).Ok?
    ensures r.riskMatrix.Some? ==>
      && r.riskMatrix.value == PySlice.Take(t.value.risk, RiskLimit)
      && r.trends == SortedTrends(t.value.trends)
      && r.topCategories == TopCategories(t.value.categories)
      && r.statusDistribution == StatusNames(t.value.status).value
  {
    if t.Err? then FailedTrends
    else
      match StatusNames(t.value.status)
      case Err(_) => FailedTrends
      case Ok(names) =>
        DefaultsLeadDistribution(t.value, names);
        Trends(SortedTrends(t.value.trends), TopCategories(t.value.categories), names,
               Some(PySlice.Take(t.value.risk, RiskLimit)))
  }

  const DefaultNames: seq<string> := ["Open", "Resolved", "Investigating"]

  lemma DefaultStatusNames(i: nat)
    requires i < 3
    ensures Capitalize(DefaultStatuses[i].s) == DefaultNames[i]
  {
    if i == 0 {
      OpenName();
    } else if i == 1 {
      ResolvedName();
    } else {
      InvestigatingName();
    }
  }

  lemma OpenName()
    ensures Capitalize("OPEN") == "Open"
  {
    assert Lower('P') == 'p' && Lower('E') == 'e' && Lower('N') == 'n';
    CapitalizeIs("OPEN", "Open");
  }

  lemma ResolvedName()
    ensures Capitalize("RESOLVED") == "Resolved"
  {
    assert Lower('E') == 'e' && Lower('S') == 's' && Lower('O') == 'o' && Lower('L') == 'l';
    assert Lower('V') == 'v' && Lower('D') == 'd';
    CapitalizeIs("RESOLVED", "Resolved");
  }

  lemma InvestigatingName()
    ensures Capitalize("INVESTIGATING") == "Investigating"
  {
    assert Lower('N') == 'n' && Lower('V') == 'v' && Lower('E') == 'e' && Lower('S') == 's';
    assert Lower('T') == 't' && Lower('I') == 'i' && Lower('G') == 'g' && Lower('A') == 'a';
    CapitalizeIs("INVESTIGATING", "Investigating");
  }

  /** OPEN, RESOLVED and INVESTIGATING always head the status distribution. */
  lemma DefaultsLeadDistribution(t: Tally, names: seq<(string, real)>)
    requires ValidTally(t) && StatusNames(t.status) == Ok(names)
    ensures |names| >= 3
    ensures forall i :: 0 <= i < 3 ==> names[i].0 == DefaultNames[i]
  {
    var k := OrderedDict.Keys(t.status);
    assert k[..3] == DefaultStatuses;
    forall i | 0 <= i < 3 ensures names[i].0 == DefaultNames[i] {
      assert k[..3][i] == k[i];
      assert names[i].0 == Capitalize(DefaultStatuses[i].s);
      DefaultStatusNames(i);
    }
  }

  /** What the trends reply says about the incidents: each point is a bucket
      with the summed occurrences and the number of the incidents labelled
      with its date, each top category a service with the summed occurrences
      of its incidents, and the risk matrix the first 30 risk points in query
      order. */
  lemma ReportedTrends(docs: seq<Doc>, bucketOf: (Json, bool) -> Option<string>, byHour: bool)
    requires Report(Aggregate(docs, bucketOf, byHour)).riskMatrix.Some?
    ensures var r := Report(Aggregate(docs, bucketOf, byHour));
      && r.riskMatrix.value == PySlice.Take(RiskPoints(docs), RiskLimit)
      && (forall p :: p in r.trends ==>
            p.errors == BucketErrors(docs, p.date, bucketOf, byHour) && p.anomalies == BucketCount(docs, p.date, bucketOf, byHour))
      && (forall e :: e in r.topCategories ==> e.1 == ServiceTotal(docs, e.0))
  {
    RiskMatrixContents(docs, bucketOf, byHour);
    ReportedPoints(docs, bucketOf, byHour);
    ReportedCategories(docs, bucketOf, byHour);
  }

  lemma ReportedPoints(docs: seq<Doc>, bucketOf: (Json, bool) -> Option<string>, byHour: bool)
    requires Aggregate(docs, bucketOf, byHour).Ok?
    ensures forall p :: p in SortedTrends(Aggregate(docs, bucketOf, byHour).value.trends) ==>
      p.errors == BucketErrors(docs, p.date, bucketOf, byHour) && p.anomalies == BucketCount(docs, p.date, bucketOf, byHour)
  {
    var t := Aggregate(docs, bucketOf, byHour).value;
    forall p | p in SortedTrends(t.trends)
      ensures p.errors == BucketErrors(docs, p.date, bucketOf, byHour)
      ensures p.anomalies == BucketCount(docs, p.date, bucketOf, byHour)
    {
      assert p in multiset(Points(t.trends));
      var i :| 0 <= i < |Points(t.trends)| && Points(t.trends)[i] == p;
      OrderedDict.FindUnique(t.trends, p.date, i);
      TrendBuckets(docs, bucketOf, byHour, p.date);
    }
  }

  lemma ReportedCategories(docs: seq<Doc>, bucketOf: (Json, bool) -> Option<string>, byHour: bool)
    requires Aggregate(docs, bucketOf, byHour).Ok?
    ensures forall e :: e in TopCategories(Aggregate(docs, bucketOf, byHour).value.categories) ==>
      e.1 == ServiceTotal(docs, e.0)
  {
    var t := Aggregate(docs, bucketOf, byHour).value;
    forall e | e in TopCategories(t.categories)
      ensures e.1 == ServiceTotal(docs, e.0)
    {
      var i :| 0 <= i < |t.categories| && t.categories[i] == e;
      OrderedDict.FindUnique(t.categories, e.0, i);
      ServiceTotals(docs, bucketOf, byHour, e.0);
    }
  }

  /** Each status in the reply carries the number of incidents with it. */
  lemma ReportedStatuses(docs: seq<Doc>, bucketOf: (Json, bool) -> Option<string>, byHour: bool, i: nat)
    requires Report(Aggregate(docs, bucketOf, byHour)).riskMatrix.Some?
    requires i < |Aggregate(docs, bucketOf, byHour).value.status|
    ensures var t := Aggregate(docs, bucketOf, byHour).value;
      && t.status[i].0.JStr?
      && Report(Aggregate(docs, bucketOf, byHour)).statusDistribution[i]
         == (Capitalize(t.status[i].0.s), StatusCount(docs, t.status[i].0) as real)
  {
    var t := Aggregate(docs, bucketOf, byHour).value;
    OrderedDict.FindUnique(t.status, t.status[i].0, i);
    StatusCounts(docs, bucketOf, byHour, t.status[i].0);
  }

  /** `get_analytics_trends`. `docs` is the outcome of the query for the
      incidents whose timestamp is within `WindowOf(range).hours` of now. */
  method TrendsOf(db: bool, range: string, docs: Result<seq<Doc>, string>, bucketOf: (Json, bool) -> Option<string>)
    returns (r: Result<Trends, HttpError>)
    ensures !db ==> r == Err(FirebaseUnavailable)
    ensures db && docs.Err? ==> r == Ok(FailedTrends)
    ensures db && docs.Ok? ==> r == Ok(Report(Aggregate(docs.value, bucketOf, WindowOf(range).byHour)))
  {
    if !db {
      return Err(FirebaseUnavailable);
    }
    if docs.Err? {
      return Ok(FailedTrends);
    }
    var window := WindowOf(range);
    var t := AggregateDocs(docs.value, bucketOf, window.byHour);
    r := Ok(Report(t));
  }
}
